/** How the payment provider's status texts are read and what each means for the outbox. */
module PaymentStatuses {
  import opened Base

  datatype DetailStatus =
    | Pending | Queued | Initiated | Failed
    | Capture | Settlement | Success | Completed
    | Deny | Cancel | Cancelled | Expired | Expire | Failure
    | Authorized | Authorize | Challenge
    | Unknown

  /** pending, processing, completed and failed, renamed so that they do not collide with the statuses above. */
  datatype OutboxStatus = Waiting | Processing | Done | Broken

  function StatusName(s: DetailStatus): string {
    match s
    case Pending => "pending"
    case Queued => "queued"
    case Initiated => "initiated"
    case Failed => "failed"
    case Capture => "capture"
    case Settlement => "settlement"
    case Success => "success"
    case Completed => "completed"
    case Deny => "deny"
    case Cancel => "cancel"
    case Cancelled => "cancelled"
    case Expired => "expired"
    case Expire => "expire"
    case Failure => "failure"
    case Authorized => "authorized"
    case Authorize => "authorize"
    case Challenge => "challenge"
    case Unknown => "unknown"
  }

  const ALL_STATUSES: seq<DetailStatus> :=
    [Pending, Queued, Initiated, Failed, Capture, Settlement, Success, Completed, Deny, Cancel, Cancelled, Expired,
     Expire, Failure, Authorized, Authorize, Challenge, Unknown]

  /** toLowerCase on the letters that occur in status names. */
  function Lower(text: string): (lower: string)
    ensures |lower| == |text|
    ensures forall i :: 0 <= i < |text| && !('A' <= text[i] <= 'Z') ==> lower[i] == text[i]
    ensures forall i :: 0 <= i < |text| && 'A' <= text[i] <= 'Z' ==> lower[i] as int - 'a' as int == text[i] as int - 'A' as int
  {
    seq(|text|, i requires 0 <= i < |text| =>
      if 'A' <= text[i] <= 'Z' then (text[i] as int + 32) as char else text[i])
  }

  function FindStatus(text: string, among: seq<DetailStatus>): DetailStatus {
    if among == [] then Unknown
    else if StatusName(among[0]) == text then among[0]
    else FindStatus(text, among[1..])
  }

  /** normalizePaymentStatus */
  function Normalize(text: Option<string>): DetailStatus {
    if text.None? then Unknown else FindStatus(Lower(text.value), ALL_STATUSES)
  }

  lemma {:induction false} FindsTheNamed(text: string, among: seq<DetailStatus>)
    ensures var s := FindStatus(text, among);
            if exists x :: x in among && StatusName(x) == text then s in among && StatusName(s) == text else s == Unknown
  {
    if among != [] && StatusName(among[0]) != text {
      FindsTheNamed(text, among[1..]);
    }
  }

  /** The first letters and the lengths already tell most names apart. */
  lemma NamesAreDistinct(s: DetailStatus, t: DetailStatus)
    requires StatusName(s) == StatusName(t)
    ensures s == t
  {
    var x, y := StatusName(s), StatusName(t);
    assert |x| == |y| && x[0] == y[0] && x[2] == y[2] && x[|x| - 1] == y[|y| - 1];
  }

  lemma AllAreListed(s: DetailStatus)
    ensures s in ALL_STATUSES
  {
    match s
    case Pending => assert ALL_STATUSES[0] == s;
    case Queued => assert ALL_STATUSES[1] == s;
    case Initiated => assert ALL_STATUSES[2] == s;
    case Failed => assert ALL_STATUSES[3] == s;
    case Capture => assert ALL_STATUSES[4] == s;
    case Settlement => assert ALL_STATUSES[5] == s;
    case Success => assert ALL_STATUSES[6] == s;
    case Completed => assert ALL_STATUSES[7] == s;
    case Deny => assert ALL_STATUSES[8] == s;
    case Cancel => assert ALL_STATUSES[9] == s;
    case Cancelled => assert ALL_STATUSES[10] == s;
    case Expired => assert ALL_STATUSES[11] == s;
    case Expire => assert ALL_STATUSES[12] == s;
    case Failure => assert ALL_STATUSES[13] == s;
    case Authorized => assert ALL_STATUSES[14] == s;
    case Authorize => assert ALL_STATUSES[15] == s;
    case Challenge => assert ALL_STATUSES[16] == s;
    case Unknown => assert ALL_STATUSES[17] == s;
  }

  /** Reading a status name in any mixture of cases gives that status; any other text reads as UNKNOWN. */
  lemma NormalizeReadsNames(text: string, s: DetailStatus)
    ensures Lower(text) == StatusName(s) ==> Normalize(Some(text)) == s
    ensures (forall t :: Lower(text) != StatusName(t)) ==> Normalize(Some(text)) == Unknown
  {
    FindsTheNamed(Lower(text), ALL_STATUSES);
    if Lower(text) == StatusName(s) {
      AllAreListed(s);
      NamesAreDistinct(s, Normalize(Some(text)));
    }
  }

  predicate Successful(s: DetailStatus) {
    s.Capture? || s.Settlement? || s.Success? || s.Completed?
  }

  predicate FinalFailure(s: DetailStatus) {
    s.Deny? || s.Cancel? || s.Cancelled? || s.Expired? || s.Expire? || s.Failure? || s.Failed?
  }

  predicate StillPending(s: DetailStatus) {
    s.Pending? || s.Authorize? || s.Authorized? || s.Challenge?
  }

  datatype OutboxUpdate = OutboxUpdate(status: OutboxStatus, setProcessedAt: bool, lastError: Option<string>)

  /** buildOutboxUpdateForStatus */
  function OutboxUpdateFor(s: DetailStatus, paid: bool): Option<OutboxUpdate> {
    if Successful(s) then Some(OutboxUpdate(Done, true, None))
    else if FinalFailure(s) then Some(OutboxUpdate(Broken, true, Some("Payment failed with status " + StatusName(s))))
    else if StillPending(s) then Some(OutboxUpdate(Processing, false, None))
    else if !paid then Some(OutboxUpdate(Broken, true, Some("Payment resulted in status " + StatusName(s))))
    else None
  }

  /** The provider's texts for money received, for a final failure, and for a payment still open. */
  predicate IsSuccessText(text: string) {
    text == "capture" || text == "settlement" || text == "success" || text == "completed"
  }

  predicate IsFailureText(text: string) {
    || text == "deny" || text == "cancel" || text == "cancelled" || text == "expired" || text == "expire"
    || text == "failure" || text == "failed"
  }

  predicate IsPendingText(text: string) {
    text == "pending" || text == "authorize" || text == "authorized" || text == "challenge"
  }

  /** The names of the statuses, as the provider writes them. */
  lemma NamesAsWritten(s: DetailStatus)
    ensures Successful(s) <==> IsSuccessText(StatusName(s))
    ensures FinalFailure(s) <==> IsFailureText(StatusName(s))
    ensures StillPending(s) <==> IsPendingText(StatusName(s))
  {
    if Successful(s) || FinalFailure(s) || StillPending(s) {
    } else if IsSuccessText(StatusName(s)) || IsFailureText(StatusName(s)) || IsPendingText(StatusName(s)) {
      var t := Named(StatusName(s));
      NamesAreDistinct(s, t);
    }
  }

  /** The status that a classified text names. */
  function Named(text: string): (s: DetailStatus)
    requires IsSuccessText(text) || IsFailureText(text) || IsPendingText(text)
    ensures StatusName(s) == text
    ensures Successful(s) || FinalFailure(s) || StillPending(s)
    ensures IsSuccessText(text) ==> Successful(s)
    ensures IsFailureText(text) ==> FinalFailure(s)
    ensures IsPendingText(text) ==> StillPending(s)
  {
    if text == "capture" then Capture
    else if text == "settlement" then Settlement
    else if text == "success" then Success
    else if text == "completed" then Completed
    else if text == "deny" then Deny
    else if text == "cancel" then Cancel
    else if text == "cancelled" then Cancelled
    else if text == "expired" then Expired
    else if text == "expire" then Expire
    else if text == "failure" then Failure
    else if text == "failed" then Failed
    else if text == "pending" then Pending
    else if text == "authorize" then Authorize
    else if text == "authorized" then Authorized
    else Challenge
  }

  /** For every text the provider may send, in any mixture of cases: it is read as a success exactly when it is one of the
      four success texts, as a final failure exactly for the seven failure texts, as pending exactly for the four
      pending texts; a missing text is none of them. */
  lemma TextsDecideOutcome(text: string)
    ensures Successful(Normalize(Some(text))) <==> IsSuccessText(Lower(text))
    ensures FinalFailure(Normalize(Some(text))) <==> IsFailureText(Lower(text))
    ensures StillPending(Normalize(Some(text))) <==> IsPendingText(Lower(text))
    ensures Normalize(None) == Unknown
  {
    var low := Lower(text);
    FindsTheNamed(low, ALL_STATUSES);
    if IsSuccessText(low) || IsFailureText(low) || IsPendingText(low) {
      var t := Named(low);
      AllAreListed(t);
      NormalizeReadsNames(text, t);
      NamesAsWritten(t);
    } else {
      NamesAsWritten(Normalize(Some(text)));
      assert Normalize(Some(text)) != Unknown ==> StatusName(Normalize(Some(text))) == low;
    }
  }

  /** What the outbox rows of the order say after a notification with this text. */
  function VerdictOn(text: Option<string>): OutboxStatus {
    if text.None? then Broken
    else if IsSuccessText(Lower(text.value)) then Done
    else if IsPendingText(Lower(text.value)) then Processing
    else Broken
  }

  lemma OutboxFollowsText(text: Option<string>)
    ensures var s := Normalize(text);
            var u := OutboxUpdateFor(s, Successful(s));
            u.Some? && u.value.status == VerdictOn(text)
    ensures Successful(Normalize(text)) <==> text.Some? && IsSuccessText(Lower(text.value))
  {
    if text.Some? {
      TextsDecideOutcome(text.value);
    } else {
      TextsDecideOutcome("");
    }
    ExactlyOneOutcome(text);
  }

  /** What is noted on the outbox rows of an order that will not be paid: the provider's text, and "unknown" for a text
      that names no status. */
  lemma FailureIsExplained(text: string)
    ensures var s := Normalize(Some(text));
            var u := OutboxUpdateFor(s, Successful(s));
            var low := Lower(text);
            && u.Some?
            && (u.value.lastError.None? <==> IsSuccessText(low) || IsPendingText(low))
            && (IsFailureText(low) ==> u.value.lastError == Some("Payment failed with status " + low))
            && (!IsSuccessText(low) && !IsPendingText(low) && !IsFailureText(low) ==>
                  u.value.lastError == Some("Payment resulted in status " + NamedOrUnknown(low)))
  {
    var low := Lower(text);
    TextsDecideOutcome(text);
    ExactlyOneOutcome(Some(text));
    if IsFailureText(low) {
      var t := Named(low);
      AllAreListed(t);
      NormalizeReadsNames(text, t);
    } else if !IsSuccessText(low) && !IsPendingText(low) {
      OtherTexts(text);
    }
  }

  function NamedOrUnknown(low: string): string {
    if low == "queued" || low == "initiated" then low else "unknown"
  }

  lemma OtherTexts(text: string)
    requires var low := Lower(text); !IsSuccessText(low) && !IsPendingText(low) && !IsFailureText(low)
    ensures StatusName(Normalize(Some(text))) == NamedOrUnknown(Lower(text))
  {
    TextsDecideOutcome(text);
    FindsTheNamed(Lower(text), ALL_STATUSES);
    if Lower(text) == "queued" {
      NormalizeReadsNames(text, Queued);
    } else if Lower(text) == "initiated" {
      NormalizeReadsNames(text, Initiated);
    }
  }

  /** Every status text falls in exactly one class of success, final failure, pending and the rest, the outbox update
      follows the class, and the update that would be absent cannot arise. */
  lemma ExactlyOneOutcome(text: Option<string>)
    ensures var s := Normalize(text);
            var u := OutboxUpdateFor(s, Successful(s));
            && u.Some?
            && !(Successful(s) && FinalFailure(s)) && !(Successful(s) && StillPending(s)) && !(FinalFailure(s) && StillPending(s))
            && (u.value.status.Done? <==> Successful(s))
            && (u.value.status.Processing? <==> StillPending(s))
            && (u.value.status.Broken? <==> !Successful(s) && !StillPending(s))
            && (u.value.lastError.Some? <==> u.value.status.Broken?)
            && (u.value.setProcessedAt <==> !u.value.status.Processing?)
            && !u.value.status.Waiting?
  {
  }
}
