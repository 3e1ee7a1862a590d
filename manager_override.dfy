/**
 * The manager override dialog: a manager approves a restricted point-of-sale
 * action with a username, a PIN and a reason. Submitting checks the fields
 * in order, builds the approval request from trimmed values, and reports
 * back to the dialog's owner.
 */
module ManagerOverride {
  import opened Wrappers
  import opened Text

  const UsernameRequired := "Manager username is required"
  const PinRequired := "PIN is required"
  const ReasonRequired := "Reason code is required"
  const OverrideFailed := "Override failed. Please check username and PIN."

  /**
   * The checks of `handleSubmit`, in order: username, then PIN, then reason
   * code. A field fails when it holds nothing but white space, which is when
   * its `trim()` is empty (see `ValidationOrder`).
   */
  function ValidationError(username: string, pin: string, reasonCode: string): (e: Option<string>)
    ensures e.Some? ==> e.value in {UsernameRequired, PinRequired, ReasonRequired}
    ensures e == Some(ReasonRequired) ==> !AllSpace(username) && !AllSpace(pin)
    ensures e.None? <==> !AllSpace(username) && !AllSpace(pin) && !AllSpace(reasonCode)
  {
    if AllSpace(username) then Some(UsernameRequired)
    else if AllSpace(pin) then Some(PinRequired)
    else if AllSpace(reasonCode) then Some(ReasonRequired)
    else None
  }

  /**
   * The form passes exactly when no trimmed field is empty, and each message
   * is reported exactly when its field is the first whose trimmed value is
   * empty.
   */
  lemma ValidationOrder(username: string, pin: string, reasonCode: string)
    ensures var e := ValidationError(username, pin, reasonCode);
      && (e.None? <==> Trim(username) != "" && Trim(pin) != "" && Trim(reasonCode) != "")
      && (e == Some(UsernameRequired) <==> Trim(username) == "")
      && (e == Some(PinRequired) <==> Trim(username) != "" && Trim(pin) == "")
      && (e == Some(ReasonRequired) <==> Trim(username) != "" && Trim(pin) != "" && Trim(reasonCode) == "")
  {
    TrimEmpty(username);
    TrimEmpty(pin);
    TrimEmpty(reasonCode);
  }

  /** The approval request body. */
  datatype OverrideRequest = OverrideRequest(
    approverUsername: string, approverPin: string, sessionId: string,
    overrideType: string, reasonCode: string, reasonDetail: Option<string>)

  /** The request built from the form: trimmed credentials and reason, and no detail when it is blank. */
  function BuildRequest(username: string, pin: string, reasonCode: string, reasonDetail: string,
                        sessionId: string, overrideType: string): (req: OverrideRequest)
    ensures req.approverUsername == Trim(username) && req.approverPin == Trim(pin)
    ensures req.reasonCode == Trim(reasonCode)
    ensures req.sessionId == sessionId && req.overrideType == overrideType
    ensures req.reasonDetail.None? <==> Trim(reasonDetail) == ""
    ensures req.reasonDetail.Some? ==> req.reasonDetail.value == Trim(reasonDetail)
  {
    var detail := Trim(reasonDetail);
    OverrideRequest(Trim(username), Trim(pin), sessionId, overrideType, Trim(reasonCode),
                    if detail != "" then Some(detail) else None)
  }

  /** No white space at either end and not empty. */
  predicate Clean(s: string) {
    s != [] && !IsSpace(s[0]) && !IsSpace(s[|s| - 1])
  }

  /**
   * A request built from a form that passes validation carries clean
   * credentials, a clean reason code and, if any, a clean detail; trimming
   * them again would change nothing.
   */
  lemma ValidatedRequestIsClean(username: string, pin: string, reasonCode: string, reasonDetail: string,
                                sessionId: string, overrideType: string)
    requires ValidationError(username, pin, reasonCode).None?
    ensures var req := BuildRequest(username, pin, reasonCode, reasonDetail, sessionId, overrideType);
      && Clean(req.approverUsername) && Clean(req.approverPin) && Clean(req.reasonCode)
      && (req.reasonDetail.Some? ==> Clean(req.reasonDetail.value))
      && Trim(req.approverUsername) == req.approverUsername && Trim(req.approverPin) == req.approverPin
      && Trim(req.reasonCode) == req.reasonCode
  {
    ValidationOrder(username, pin, reasonCode);
    TrimIdempotent(username);
    TrimIdempotent(pin);
    TrimIdempotent(reasonCode);
  }

  /** How the approval call ended: approved, or failed with the server's message if it sent one. */
  datatype ApiOutcome = Approved | Failed(serverMessage: Option<string>)

  /** The owner's callbacks, as they are called. */
  datatype Callback = OnApproved | OnClose

  /**
   * How a call to one of the owner's callbacks ended: it returned, or it
   * threw an error carrying a server message if it has one.
   */
  datatype CallbackResult = Returned | Threw(serverMessage: Option<string>)

  class OverrideModal {
    const sessionId: string
    const overrideType: string
    var username: string
    var pin: string
    var reasonCode: string
    var reasonDetail: string
    var isProcessing: bool
    var error: string
    /** Every approval request sent, in order. */
    var requests: seq<OverrideRequest>
    /** Every callback made, in order. */
    var callbacks: seq<Callback>

    constructor (session: string, kind: string)
      ensures sessionId == session && overrideType == kind
      ensures username == "" && pin == "" && reasonCode == "" && reasonDetail == ""
      ensures !isProcessing && error == "" && requests == [] && callbacks == []
    {
      sessionId := session;
      overrideType := kind;
      username, pin, reasonCode, reasonDetail := "", "", "", "";
      isProcessing := false;
      error := "";
      requests := [];
      callbacks := [];
    }

    /**
     * `handleSubmit`: clear the error; stop at the first blank field with its
     * message; otherwise send the request, then on approval call `onApproved`
     * and then `onClose`. A failed request, or a callback that throws, ends
     * in the `catch`: the error's server message or the fixed one is shown
     * and no further callback is made. Processing is off again in every case
     * that got that far.
     */
    method Submit(outcome: ApiOutcome, approved: CallbackResult, closed: CallbackResult)
      modifies this`isProcessing, this`error, this`requests, this`callbacks
      ensures var e := ValidationError(username, pin, reasonCode);
        e.Some? ==> (error == e.value && requests == old(requests) && callbacks == old(callbacks)
                     && isProcessing == old(isProcessing))
      ensures ValidationError(username, pin, reasonCode).None? ==>
        && requests == old(requests) + [BuildRequest(username, pin, reasonCode, reasonDetail, sessionId, overrideType)]
        && !isProcessing
      ensures ValidationError(username, pin, reasonCode).None? && outcome.Approved? && approved.Returned? ==>
        callbacks == old(callbacks) + [OnApproved, OnClose]
        && error == (if closed.Returned? then "" else OrElse(closed.serverMessage, OverrideFailed))
      ensures ValidationError(username, pin, reasonCode).None? && outcome.Approved? && approved.Threw? ==>
        error == OrElse(approved.serverMessage, OverrideFailed) && callbacks == old(callbacks) + [OnApproved]
      ensures ValidationError(username, pin, reasonCode).None? && outcome.Failed? ==>
        error == OrElse(outcome.serverMessage, OverrideFailed) && callbacks == old(callbacks)
      ensures !old(isProcessing) ==> !isProcessing
    {
      error := "";
      var invalid := ValidationError(username, pin, reasonCode);
      if invalid.Some? {
        error := invalid.value;
        return;
      }
      isProcessing := true;
      requests := requests + [BuildRequest(username, pin, reasonCode, reasonDetail, sessionId, overrideType)];
      if outcome.Failed? {
        error := OrElse(outcome.serverMessage, OverrideFailed);
      } else if approved.Threw? {
        callbacks := callbacks + [OnApproved];
        error := OrElse(approved.serverMessage, OverrideFailed);
      } else {
        callbacks := callbacks + [OnApproved, OnClose];
        if closed.Threw? {
          error := OrElse(closed.serverMessage, OverrideFailed);
        }
      }
      isProcessing := false;
    }
  }
}
