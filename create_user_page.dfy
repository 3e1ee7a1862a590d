/**
 * The user-creation page: its role check on submit, the colour and label
 * shown for each role the current user may create, and the list of those
 * roles.
 */
module CreateUser {
  import opened Wrappers
  import opened Text

  /**
   * The six user roles. The colour table is a `Record` over the role enum,
   * which obliges it to list every member, so these are all of them. A role
   * string from the server that names none of them is `OtherRole`.
   */
  datatype Role = OwnerUltimateSuperAdmin | Admin | Cashier | InventoryManager | Guest | MasterAdmin
                | OtherRole(value: string)

  /**
   * The string values of the six `UserRole` members. The enum's declaration
   * is not part of this model, so the values are a parameter of everything
   * that reads a role string as a role.
   */
  datatype RoleValues = RoleValues(ownerUltimateSuperAdmin: string, admin: string, cashier: string,
                                   inventoryManager: string, guest: string, masterAdmin: string)

  function Members(v: RoleValues): set<string> {
    {v.ownerUltimateSuperAdmin, v.admin, v.cashier, v.inventoryManager, v.guest, v.masterAdmin}
  }

  /** An enum's members have pairwise different values. */
  predicate DistinctValues(v: RoleValues) {
    && v.ownerUltimateSuperAdmin !in {v.admin, v.cashier, v.inventoryManager, v.guest, v.masterAdmin}
    && v.admin !in {v.cashier, v.inventoryManager, v.guest, v.masterAdmin}
    && v.cashier !in {v.inventoryManager, v.guest, v.masterAdmin}
    && v.inventoryManager !in {v.guest, v.masterAdmin}
    && v.guest != v.masterAdmin
  }

  /** The string a role stands for: its member's value, or the string itself for an unlisted role. */
  function ValueOf(values: RoleValues, r: Role): string {
    match r
    case OwnerUltimateSuperAdmin => values.ownerUltimateSuperAdmin
    case Admin => values.admin
    case Cashier => values.cashier
    case InventoryManager => values.inventoryManager
    case Guest => values.guest
    case MasterAdmin => values.masterAdmin
    case OtherRole(s) => s
  }

  /**
   * A role string read as a role: the member whose value it is, or
   * `OtherRole` when no member has that value.
   */
  function ParseRole(values: RoleValues, value: string): (r: Role)
    ensures ValueOf(values, r) == value
    ensures r.OtherRole? <==> value !in Members(values)
  {
    if value == values.ownerUltimateSuperAdmin then OwnerUltimateSuperAdmin
    else if value == values.admin then Admin
    else if value == values.cashier then Cashier
    else if value == values.inventoryManager then InventoryManager
    else if value == values.guest then Guest
    else if value == values.masterAdmin then MasterAdmin
    else OtherRole(value)
  }

  /** With distinct member values, reading a member's value gives that member back. */
  lemma ParseValueOf(values: RoleValues, r: Role)
    requires DistinctValues(values) && !r.OtherRole?
    ensures ParseRole(values, ValueOf(values, r)) == r
  {
  }

  const FallbackColor := "from-slate-500 to-gray-500"

  /** `getRoleColor`: the role's gradient, or the slate one for a role the table does not list. */
  function RoleColor(r: Role): (color: string)
    ensures color == FallbackColor <==> r == Guest || r.OtherRole?
    ensures color != ""
  {
    match r
    case OwnerUltimateSuperAdmin => "from-purple-500 to-pink-500"
    case Admin => "from-blue-500 to-cyan-500"
    case Cashier => "from-green-500 to-emerald-500"
    case InventoryManager => "from-orange-500 to-amber-500"
    case Guest => "from-slate-500 to-gray-500"
    case MasterAdmin => "from-red-500 to-rose-500"
    case OtherRole(_) => FallbackColor
  }

  /** The badge text: `role.replace(/_/g, ' ')`. */
  function BadgeLabel(role: string): (text: string)
    ensures |text| == |role| && '_' !in text
    ensures forall i :: 0 <= i < |role| ==> text[i] == if role[i] == '_' then ' ' else role[i]
  {
    ReplaceAll(role, '_', ' ')
  }

  /** `word.charAt(0).toUpperCase() + word.slice(1)` */
  function Capitalize(word: string): (w: string)
    ensures |w| == |word|
  {
    if word == [] then [] else [UpperChar(word[0])] + word[1..]
  }

  function CapitalizeAll(words: seq<string>): (ws: seq<string>)
    ensures |ws| == |words| && forall k :: 0 <= k < |words| ==> ws[k] == Capitalize(words[k])
  {
    if words == [] then [] else [Capitalize(words[0])] + CapitalizeAll(words[1..])
  }

  /** The option text: the badge text split at spaces, each word capitalised, joined with spaces. */
  function OptionLabel(role: string): (caption: string)
    ensures caption == CapitalizeWords(BadgeLabel(role), true)
  {
    JoinOfCapitalizeAll(Split(BadgeLabel(role), ' '));
    SplitThenCapitalize(BadgeLabel(role), true);
    Join(CapitalizeAll(Split(BadgeLabel(role), ' ')), ' ')
  }

  /** Whether position `i` of `s` starts a word: the first position, or one right after a space. */
  predicate StartsWord(s: string, i: int) {
    i == 0 || (0 < i <= |s| && s[i - 1] == ' ')
  }

  /** The reference definition: every character that starts a word is upper-cased and nothing else changes. */
  function CapitalizeWords(s: string, atStart: bool): (r: string)
    ensures |r| == |s|
    ensures forall i :: 0 < i < |s| ==> r[i] == if s[i - 1] == ' ' then UpperChar(s[i]) else s[i]
    ensures s != [] ==> r[0] == if atStart then UpperChar(s[0]) else s[0]
  {
    if s == [] then []
    else
      var rest := CapitalizeWords(s[1..], s[0] == ' ');
      var r := [if atStart then UpperChar(s[0]) else s[0]] + rest;
      assert forall i :: 1 < i < |s| ==> r[i] == rest[i - 1] && s[i - 1] == s[1..][i - 2];
      r
  }

  /** Words capitalised and joined, the first capitalised only when `capFirst`. */
  function JoinCapitalized(words: seq<string>, capFirst: bool): string {
    if words == [] then ""
    else
      var first := if capFirst then Capitalize(words[0]) else words[0];
      if |words| == 1 then first else first + " " + JoinCapitalized(words[1..], true)
  }

  lemma {:induction false} JoinOfCapitalizeAll(words: seq<string>)
    requires words != []
    ensures Join(CapitalizeAll(words), ' ') == JoinCapitalized(words, true)
  {
    if |words| > 1 {
      JoinOfCapitalizeAll(words[1..]);
      assert CapitalizeAll(words)[1..] == CapitalizeAll(words[1..]);
    }
  }

  lemma {:induction false} SplitThenCapitalize(s: string, capFirst: bool)
    ensures JoinCapitalized(Split(s, ' '), capFirst) == CapitalizeWords(s, capFirst)
  {
    if s != [] {
      SplitThenCapitalize(s[1..], s[0] == ' ');
      if s[0] == ' ' {
        SpaceStep(s, capFirst);
      } else {
        WordStep(s, capFirst);
      }
    }
  }

  /** A leading space ends an empty first word; the rest starts a new word. */
  lemma SpaceStep(s: string, capFirst: bool)
    requires s != [] && s[0] == ' '
    requires JoinCapitalized(Split(s[1..], ' '), true) == CapitalizeWords(s[1..], true)
    ensures JoinCapitalized(Split(s, ' '), capFirst) == CapitalizeWords(s, capFirst)
  {
    var rest := Split(s[1..], ' ');
    assert Split(s, ' ') == [""] + rest;
    assert ([""] + rest)[1..] == rest;
    assert JoinCapitalized(Split(s, ' '), capFirst) == " " + JoinCapitalized(rest, true);
    assert CapitalizeWords(s, capFirst) == " " + CapitalizeWords(s[1..], true) by {
      assert UpperChar(' ') == ' ';
    }
  }

  /** A leading non-space character joins the first word of the rest. */
  lemma WordStep(s: string, capFirst: bool)
    requires s != [] && s[0] != ' '
    requires JoinCapitalized(Split(s[1..], ' '), false) == CapitalizeWords(s[1..], false)
    ensures JoinCapitalized(Split(s, ' '), capFirst) == CapitalizeWords(s, capFirst)
  {
    var rest := Split(s[1..], ' ');
    assert Split(s, ' ') == [[s[0]] + rest[0]] + rest[1..];
    PrependToFirstWord(s[0], rest, capFirst);
  }

  /** Putting a character in front of the first word puts it, capitalised if asked, in front of the joined text. */
  lemma PrependToFirstWord(x: char, words: seq<string>, capFirst: bool)
    requires words != []
    ensures JoinCapitalized([[x] + words[0]] + words[1..], capFirst)
         == [if capFirst then UpperChar(x) else x] + JoinCapitalized(words, false)
  {
    var head := [x] + words[0];
    var c := if capFirst then UpperChar(x) else x;
    var first := if capFirst then Capitalize(head) else head;
    assert first == [c] + words[0];
    if |words| > 1 {
      assert ([head] + words[1..])[1..] == words[1..];
    }
  }

  /**
   * The option text is the role with every `_` turned into a space and the
   * first character of every word upper-cased; nothing else changes.
   */
  lemma OptionLabelCapitalizesWords(role: string)
    ensures OptionLabel(role) == CapitalizeWords(BadgeLabel(role), true)
    ensures |OptionLabel(role)| == |role|
    ensures forall i :: 0 <= i < |role| ==>
      OptionLabel(role)[i] == if StartsWord(BadgeLabel(role), i) then UpperChar(BadgeLabel(role)[i]) else BadgeLabel(role)[i]
  {
  }

  /** The session's permissions as far as this page reads them. */
  datatype Permissions = Permissions(allowedCreationRoles: Option<seq<string>>)

  /** `permissions?.allowed_creation_roles || []` */
  function AllowedRoles(permissions: Option<Permissions>): (roles: seq<string>)
    ensures permissions.None? || permissions.value.allowedCreationRoles.None? ==> roles == []
    ensures permissions.Some? && permissions.value.allowedCreationRoles.Some? ==>
      roles == permissions.value.allowedCreationRoles.value
  {
    if permissions.Some? && permissions.value.allowedCreationRoles.Some? then
      permissions.value.allowedCreationRoles.value
    else []
  }

  /** One entry of the "Available Roles" panel. */
  datatype RoleBadge = RoleBadge(color: string, text: string)

  /** The badge panel: absent when no role may be created, else one badge per allowed role, in order. */
  function BadgePanel(values: RoleValues, roles: seq<string>): (panel: Option<seq<RoleBadge>>)
    ensures panel.None? <==> roles == []
    ensures panel.Some? ==> |panel.value| == |roles|
    ensures panel.Some? ==> forall k :: 0 <= k < |roles| ==>
      panel.value[k] == RoleBadge(RoleColor(ParseRole(values, roles[k])), BadgeLabel(roles[k]))
    ensures panel.Some? && DistinctValues(values) ==> forall k :: 0 <= k < |roles| ==>
      (panel.value[k].color == FallbackColor <==> roles[k] == values.guest || roles[k] !in Members(values))
  {
    if roles == [] then None
    else Some(seq(|roles|, k requires 0 <= k < |roles| => RoleBadge(RoleColor(ParseRole(values, roles[k])), BadgeLabel(roles[k]))))
  }

  /** The request body sent to create a user. */
  datatype CreateRequest = CreateRequest(username: string, email: string, displayName: string,
                                         password: string, role: string)

  /** How the create call ended: created, or rejected with the server's message if it sent one. */
  datatype ApiOutcome = Created | Rejected(serverMessage: Option<string>)

  const RoleRequired := "Please select a role"

  class CreateUserForm {
    var username: string
    var email: string
    var displayName: string
    var password: string
    var role: string
    var error: string
    var isLoading: bool
    /** Every create request sent, in order. */
    var requests: seq<CreateRequest>
    /** The route navigated to, if any. */
    var navigatedTo: Option<string>

    constructor ()
      ensures username == "" && email == "" && displayName == "" && password == "" && role == ""
      ensures error == "" && !isLoading && requests == [] && navigatedTo == None
    {
      username, email, displayName, password, role := "", "", "", "", "";
      error := "";
      isLoading := false;
      requests := [];
      navigatedTo := None;
    }

    /**
     * `handleSubmit`: clear the error; without a role, say so and stop
     * before loading or calling the server; otherwise send the form, go to
     * the user list on success or show the server's message (or
     * `failedToUpdate`) on failure, and end with loading off.
     */
    method Submit(outcome: ApiOutcome, failedToUpdate: string)
      modifies this`error, this`isLoading, this`requests, this`navigatedTo
      ensures old(role) == "" ==>
        error == RoleRequired && isLoading == old(isLoading) && requests == old(requests) && navigatedTo == old(navigatedTo)
      ensures old(role) != "" ==>
        && requests == old(requests) + [CreateRequest(username, email, displayName, password, role)]
        && !isLoading
      ensures old(role) != "" && outcome.Created? ==> error == "" && navigatedTo == Some("/users")
      ensures old(role) != "" && outcome.Rejected? ==>
        error == OrElse(outcome.serverMessage, failedToUpdate) && navigatedTo == old(navigatedTo)
    {
      error := "";
      if role == "" {
        error := RoleRequired;
        return;
      }
      isLoading := true;
      requests := requests + [CreateRequest(username, email, displayName, password, role)];
      if outcome.Created? {
        navigatedTo := Some("/users");
      } else {
        error := OrElse(outcome.serverMessage, failedToUpdate);
      }
      isLoading := false;
    }
  }
}
