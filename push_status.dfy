/** The status records a registry push streams back (`PushStatus*` in
    docker/docker.go), how they are decoded, and the verdict drawn from them
    for one tag. */
module PushStatus {
  import opened Wrappers
  import opened Text

  datatype Aux = Aux(tag: string, digest: string, size: int)
  datatype ProgressDetail = ProgressDetail(current: int, total: int)
  datatype ErrorDetail = ErrorDetail(message: string, code: string)

  /** One decoded status object; `None` stands for an absent (nil) sub-object. */
  datatype Status = Status(
    status: string,
    id: string,
    progress: string,
    error: string,
    aux: Option<Aux>,
    progressDetail: Option<ProgressDetail>,
    errorDetail: Option<ErrorDetail>)

  /** One step of the JSON decoder over the buffered push output: a status
      object, or a decode error other than end of stream. */
  datatype StreamItem = Decoded(status: Status) | Undecodable(reason: string)

  const NoPushConfirmationInStatus: string :=
    "Docker push failed to complete. Please check logs for any error condition.."

  /** The outcome of one tag's push. */
  datatype Verdict = Confirmed | Rejected(message: string) | Unconfirmed

  /** The record reports an error: its error text is not blank. */
  predicate HasError(s: Status)
  {
    !IsBlank(s.error)
  }

  /** The message shown for a failed push: the structured detail when present. */
  function ErrorMessage(s: Status): string
  {
    match s.errorDetail
    case Some(d) => "Code: " + d.code + ", Message: " + d.message
    case None => s.error
  }

  /** The record acknowledges that `tag` was pushed. */
  predicate Confirms(s: Status, tag: string)
  {
    s.aux.Some? && s.aux.value.tag == tag
  }

  /** The records the decoding loop keeps: those before the first decode error. */
  function DecodedPrefix(items: seq<StreamItem>): seq<Status>
  {
    if items == [] || items[0].Undecodable? then []
    else [items[0].status] + DecodedPrefix(items[1..])
  }

  /** The kept records are the statuses of the longest run of decodable items
      at the head of the stream. */
  lemma {:induction false} DecodedPrefixIsLongestDecodedRun(items: seq<StreamItem>)
    ensures var r := DecodedPrefix(items);
      && |r| <= |items|
      && (forall i | 0 <= i < |r| :: items[i] == Decoded(r[i]))
      && (|r| < |items| ==> items[|r|].Undecodable?)
  {
    if items != [] && items[0].Decoded? {
      DecodedPrefixIsLongestDecodedRun(items[1..]);
    }
  }

  /** The verdict on one tag: the first record with an error fails the push,
      wherever it stands; otherwise the tag is confirmed when some record
      acknowledges it, and unconfirmed when none does. */
  function VerdictOf(records: seq<Status>, tag: string): Verdict
  {
    match FirstIndex(records, HasError)
    case Some(i) => Rejected(ErrorMessage(records[i]))
    case None =>
      if exists i | 0 <= i < |records| :: Confirms(records[i], tag) then Confirmed
      else Unconfirmed
  }

  /** The decoding loop: append decoded records until the stream ends or a
      record fails to decode. */
  method DecodeStatuses(items: seq<StreamItem>) returns (statusMessages: seq<Status>)
    ensures statusMessages == DecodedPrefix(items)
  {
    statusMessages := [];
    var i := 0;
    assert items[i..] == items;
    while i < |items|
      invariant 0 <= i <= |items|
      invariant DecodedPrefix(items) == statusMessages + DecodedPrefix(items[i..])
    {
      match items[i]
      case Undecodable(_) =>
        assert DecodedPrefix(items[i..]) == [];
        assert statusMessages + [] == statusMessages;
        return;
      case Decoded(status) =>
        assert items[i..][1..] == items[i + 1..];
        assert DecodedPrefix(items[i..]) == [status] + DecodedPrefix(items[i + 1..]);
        assert statusMessages + DecodedPrefix(items[i..]) == (statusMessages + [status]) + DecodedPrefix(items[i + 1..]);
        statusMessages := statusMessages + [status];
        i := i + 1;
    }
  }

  /** The classification loop: return at the first record with an error,
      otherwise remember whether some record confirmed the tag. */
  method ClassifyStatuses(statusMessages: seq<Status>, tag: string) returns (v: Verdict)
    ensures v == VerdictOf(statusMessages, tag)
  {
    var isContainerPushed := false;
    var i := 0;
    while i < |statusMessages|
      invariant 0 <= i <= |statusMessages|
      invariant forall j | 0 <= j < i :: !HasError(statusMessages[j])
      invariant isContainerPushed <==> exists j | 0 <= j < i :: Confirms(statusMessages[j], tag)
    {
      var statusMessage := statusMessages[i];
      TrimSpaceEmptyIffBlank(statusMessage.error);
      if |TrimSpace(statusMessage.error)| != 0 {
        ErrorAnywhereRejects(statusMessages, tag, i);
        return Rejected(ErrorMessage(statusMessage));
      }
      if statusMessage.aux.Some? && statusMessage.aux.value.tag == tag {
        isContainerPushed := true;
      }
      i := i + 1;
    }
    assert FirstIndex(statusMessages, HasError).None?;
    if !isContainerPushed {
      return Unconfirmed;
    }
    return Confirmed;
  }

  // ---------------------------------------------------------------------------
  // Properties of the verdict.

  /** A record with an error anywhere fails the push, with the message of the
      first such record, even when an earlier record confirmed the tag. */
  lemma ErrorAnywhereRejects(records: seq<Status>, tag: string, k: nat)
    requires k < |records| && HasError(records[k])
    requires forall j | 0 <= j < k :: !HasError(records[j])
    ensures VerdictOf(records, tag) == Rejected(ErrorMessage(records[k]))
  {
    assert FirstIndex(records, HasError).Some?;
  }

  /** A tag is confirmed exactly when no record has an error and some record
      acknowledges the tag. */
  lemma ConfirmedIff(records: seq<Status>, tag: string)
    ensures VerdictOf(records, tag) == Confirmed <==>
      (forall j | 0 <= j < |records| :: !HasError(records[j]))
      && (exists j | 0 <= j < |records| :: Confirms(records[j], tag))
  {
  }

  /** With no error and no acknowledgement of the tag the push is unconfirmed,
      which is a failure of its own kind. */
  lemma UnconfirmedIff(records: seq<Status>, tag: string)
    ensures VerdictOf(records, tag) == Unconfirmed <==>
      (forall j | 0 <= j < |records| :: !HasError(records[j]))
      && (forall j | 0 <= j < |records| :: !Confirms(records[j], tag))
  {
  }

  /** Acknowledging a different tag does not confirm this one. */
  lemma OtherTagDoesNotConfirm(records: seq<Status>, tag: string, other: string)
    requires tag != other
    requires forall j | 0 <= j < |records| :: records[j].aux.Some? ==> records[j].aux.value.tag == other
    ensures VerdictOf(records, tag) != Confirmed
  {
  }

  /** A decode error only cuts the record list short: whatever follows it is
      never looked at, so it can neither fail nor confirm the push. */
  lemma {:induction false} UndecodableTruncates(records: seq<Status>, reason: string, rest: seq<StreamItem>)
    ensures DecodedPrefix(Wrap(records) + [Undecodable(reason)] + rest) == records
  {
    if records != [] {
      var tail := Wrap(records[1..]) + [Undecodable(reason)] + rest;
      assert Wrap(records) + [Undecodable(reason)] + rest == [Decoded(records[0])] + tail;
      UndecodableTruncates(records[1..], reason, rest);
    }
  }

  /** The stream items that decode to `records`. */
  function Wrap(records: seq<Status>): (items: seq<StreamItem>)
    ensures |items| == |records|
    ensures forall i | 0 <= i < |records| :: items[i] == Decoded(records[i])
  {
    seq(|records|, i requires 0 <= i < |records| => Decoded(records[i]))
  }

  /** Hence a stream that confirms the tag before a decode error stays
      confirmed, whatever garbage follows. */
  lemma ConfirmationSurvivesDecodeError(records: seq<Status>, reason: string, rest: seq<StreamItem>, tag: string)
    requires VerdictOf(records, tag) == Confirmed
    ensures VerdictOf(DecodedPrefix(Wrap(records) + [Undecodable(reason)] + rest), tag) == Confirmed
  {
    UndecodableTruncates(records, reason, rest);
  }
}
