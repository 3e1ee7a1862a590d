/**
 * The client list page's own logic: the search filter over client
 * instances, the status badge lookup, the usage-history truncation and the
 * empty-state messages.
 */
module ClientManagement {
  import opened Wrappers
  import opened Text

  /** One day of a client's recorded usage. */
  datatype UsageStat = UsageStat(id: string, date: string, creditsConsumed: int,
                                 invoicesCreated: int, activeUsers: int, loginCount: int)

  /** The fields of a client instance the page's logic reads. */
  datatype Client = Client(name: string, email: string, code: string, status: string,
                           usageStats: Option<seq<UsageStat>>)

  /** The search rule: the lower-cased term occurs in the lower-cased name, contact e-mail or client code. */
  predicate Matches(c: Client, term: string)
    ensures term == "" ==> Matches(c, term)
    ensures Matches(c, term) ==> |term| <= |c.name| || |term| <= |c.email| || |term| <= |c.code|
  {
    var t := Lower(term);
    IncludesEmpty(Lower(c.name));
    Includes(Lower(c.name), t) || Includes(Lower(c.email), t) || Includes(Lower(c.code), t)
  }

  /** `a` is `b` with some elements left out, the rest in their original order. */
  predicate IsSubsequence<T(==)>(a: seq<T>, b: seq<T>)
    decreases |b|
  {
    if a == [] then true
    else if b == [] then false
    else (a[0] == b[0] && IsSubsequence(a[1..], b[1..])) || IsSubsequence(a, b[1..])
  }

  /** `filteredClients`: the clients that match the search term, in list order. */
  function FilterClients(clients: seq<Client>, term: string): (shown: seq<Client>)
    ensures forall c :: c in shown <==> c in clients && Matches(c, term)
    ensures IsSubsequence(shown, clients)
    ensures forall c :: multiset(shown)[c] == if Matches(c, term) then multiset(clients)[c] else 0
  {
    if clients == [] then []
    else
      var rest := FilterClients(clients[1..], term);
      assert clients == [clients[0]] + clients[1..];
      assert multiset(clients) == multiset{clients[0]} + multiset(clients[1..]);
      if Matches(clients[0], term) then
        assert ([clients[0]] + rest)[1..] == rest;
        [clients[0]] + rest
      else rest
  }

  /** An empty search term keeps every client. */
  lemma {:induction false} EmptyTermKeepsAll(clients: seq<Client>)
    ensures FilterClients(clients, "") == clients
  {
    if clients != [] {
      IncludesEmpty(Lower(clients[0].name));
      EmptyTermKeepsAll(clients[1..]);
    }
  }

  /** Filtering the filtered list again with the same term changes nothing. */
  lemma {:induction false} FilterIdempotent(clients: seq<Client>, term: string)
    ensures FilterClients(FilterClients(clients, term), term) == FilterClients(clients, term)
  {
    if clients != [] {
      FilterIdempotent(clients[1..], term);
      if Matches(clients[0], term) {
        var shown := FilterClients(clients, term);
        assert shown[0] == clients[0] && shown[1..] == FilterClients(clients[1..], term);
      }
    }
  }

  /** The term's letter case does not matter. */
  lemma MatchesIgnoresTermCase(c: Client, term: string)
    ensures Matches(c, Upper(term)) <==> Matches(c, term)
  {
    LowerForgetsCase(term);
  }

  /** What a status badge shows: its colour classes and its caption. */
  datatype BadgeConfig = BadgeConfig(color: string, caption: string)

  /** The status configuration table; a status not in it has no entry. */
  function StatusConfig(status: string): (config: Option<BadgeConfig>)
    ensures config.Some? <==> status in {"ACTIVE", "TRIAL", "INACTIVE", "SUSPENDED"}
    ensures config.Some? ==> |config.value.caption| == |status| && config.value.caption[0] == status[0]
  {
    if status == "ACTIVE" then Some(BadgeConfig("bg-green-100 text-green-800", "Active"))
    else if status == "TRIAL" then Some(BadgeConfig("bg-yellow-100 text-yellow-800", "Trial"))
    else if status == "INACTIVE" then Some(BadgeConfig("bg-red-100 text-red-800", "Inactive"))
    else if status == "SUSPENDED" then Some(BadgeConfig("bg-gray-100 text-gray-800", "Suspended"))
    else None
  }

  /** `getStatusBadge`: the status's own entry, or the `INACTIVE` entry for any other status. */
  function StatusBadge(status: string): (config: BadgeConfig)
    ensures StatusConfig(status).Some? ==> config == StatusConfig(status).value
    ensures StatusConfig(status).None? ==> config == StatusConfig("INACTIVE").value
    ensures config.caption in {"Active", "Trial", "Inactive", "Suspended"}
  {
    StatusConfig(status).GetOr(BadgeConfig("bg-red-100 text-red-800", "Inactive"))
  }

  /** Only the four known statuses have a badge of their own; every other status reads as inactive. */
  lemma StatusBadgeCaptions(status: string)
    ensures StatusBadge(status).caption == "Active" <==> status == "ACTIVE"
    ensures StatusBadge(status).caption == "Trial" <==> status == "TRIAL"
    ensures StatusBadge(status).caption == "Suspended" <==> status == "SUSPENDED"
    ensures StatusBadge(status).caption == "Inactive" <==> status !in {"ACTIVE", "TRIAL", "SUSPENDED"}
  {
  }

  /** The most usage rows the usage tab lists. */
  const MaxUsageRows := 10

  /**
   * The usage tab: `None` (the "no usage" panel) when the client has no
   * statistics or an empty list, otherwise the first ten rows, in order.
   */
  function VisibleUsage(stats: Option<seq<UsageStat>>): (rows: Option<seq<UsageStat>>)
    ensures rows.None? <==> stats.None? || stats.value == []
    ensures rows.Some? ==> rows.value <= stats.value && rows.value != []
    ensures rows.Some? ==> |rows.value| == if |stats.value| < MaxUsageRows then |stats.value| else MaxUsageRows
  {
    if stats.None? || stats.value == [] then None
    else if |stats.value| <= MaxUsageRows then Some(stats.value)
    else Some(stats.value[..MaxUsageRows])
  }

  /** The empty-state card: heading, hint, and whether the "Add First Client" button is offered. */
  datatype EmptyState = EmptyState(heading: string, hint: string, offersAdd: bool)

  /**
   * Shown only when the filtered list is empty and the list is not loading; a non-empty search term
   * means the search found nothing, an empty one means there are no clients.
   */
  function EmptyStateFor(shownCount: nat, loading: bool, term: string): (card: Option<EmptyState>)
    ensures card.Some? <==> shownCount == 0 && !loading
    ensures card.Some? ==> (card.value.heading == "No clients found" <==> term != "")
    ensures card.Some? ==> (card.value.offersAdd <==> term == "")
    ensures card.Some? && term == "" ==>
      card.value == EmptyState("No clients yet", "Get started by adding your first client instance", true)
    ensures card.Some? && term != "" ==>
      card.value == EmptyState("No clients found", "Try adjusting your search terms", false)
  {
    if shownCount != 0 || loading then None
    else if term != "" then Some(EmptyState("No clients found", "Try adjusting your search terms", false))
    else Some(EmptyState("No clients yet", "Get started by adding your first client instance", true))
  }

  /** Once loaded and with no search term, the empty state appears only when there are no clients at all. */
  lemma NoTermEmptyStateMeansNoClients(clients: seq<Client>)
    ensures EmptyStateFor(|FilterClients(clients, "")|, false, "").Some? <==> clients == []
  {
    EmptyTermKeepsAll(clients);
  }
}
