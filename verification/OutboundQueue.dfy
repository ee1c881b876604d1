/** The outbox: deduplicated enqueue, claims, and the three ways a send attempt can end. */
module OutboundQueues {
  import opened Prelude
  import InboundQueues

  type Key = string

  /** Replies use `inbound-reply:<record id>`; other producers use their own keys. */
  datatype DedupKey = InboundReply(inboundId: nat) | OtherKey(text: string)

  datatype OutboundStatus = Pending | Sending | Sent | Failed

  datatype OutboundRow = OutboundRow(
    key: DedupKey,
    instance: Key,
    recipient: Key,
    text: string,
    status: OutboundStatus,
    attempts: nat,
    lockedAt: Option<int>,
    nextAttemptAt: Option<int>,
    sentAt: Option<int>,
    externalId: Option<string>,
    lastError: Option<string>,
    createdAt: int)

  // ------------------------------------------------------------------ enqueue

  datatype Enqueued = Created(id: nat) | Duplicate(id: nat) | Invalid(reason: string)

  function FindKey(rows: seq<OutboundRow>, key: DedupKey): (r: Option<nat>)
    ensures r.Some? ==> r.value < |rows| && rows[r.value].key == key
    ensures r.None? ==> forall i :: 0 <= i < |rows| ==> rows[i].key != key
  {
    if rows == [] then None
    else if rows[|rows| - 1].key == key then Some(|rows| - 1)
    else FindKey(rows[..|rows| - 1], key)
  }

  /** Keys are stored stripped. */
  function CleanKey(key: DedupKey): DedupKey {
    match key
    case InboundReply(_) => key
    case OtherKey(text) => OtherKey(Strip(text))
  }

  predicate IsRecipient(s: string) {
    Strip(s) != "" && forall i :: 0 <= i < |Strip(s)| ==> IsDigit(Strip(s)[i])
  }

  /** Why the arguments of an enqueue are refused, if they are. */
  function Objection(key: DedupKey, instance: string, recipient: string, text: string): Option<string> {
    if CleanKey(key) == OtherKey("") then Some("deduplication_key is required.")
    else if IsBlank(instance) then Some("instance is required.")
    else if !IsRecipient(recipient) then Some("recipient must contain only digits.")
    else if IsBlank(text) then Some("text is required.")
    else None
  }

  /** The rewriting of a reply before it is stored: `secure_outbound_text` after `sanitize_carlos_reply`. */
  type CleanUp = string -> string

  function NewRow(clean: CleanUp, key: DedupKey, instance: string, recipient: string, text: string, createdAt: int): OutboundRow {
    OutboundRow(CleanKey(key), Strip(instance), Strip(recipient), clean(Strip(text)), Pending, 0, None, None, None, None, None, createdAt)
  }

  /** `enqueue_text_message`. */
  function Enqueue(rows: seq<OutboundRow>, clean: CleanUp, key: DedupKey, instance: string, recipient: string, text: string, createdAt: int)
    : (seq<OutboundRow>, Enqueued)
  {
    var objection := Objection(key, instance, recipient, text);
    if objection.Some? then (rows, Invalid(objection.value))
    else
      var existing := FindKey(rows, CleanKey(key));
      if existing.Some? then (rows, Duplicate(existing.value))
      else (rows + [NewRow(clean, key, instance, recipient, text, createdAt)], Created(|rows|))
  }

  // -------------------------------------------------------------------- claim

  predicate Eligible(r: OutboundRow, now: int) {
    r.status.Pending? && InboundQueues.Due(r.nextAttemptAt, now)
  }

  function EligibleIds(rows: seq<OutboundRow>, now: int, n: nat): (ids: seq<nat>)
    requires n <= |rows|
    ensures forall i: nat :: i in ids <==> i < n && Eligible(rows[i], now)
    ensures Distinct(ids)
  {
    if n == 0 then []
    else EligibleIds(rows, now, n - 1) + if Eligible(rows[n - 1], now) then [n - 1] else []
  }

  predicate OlderFirst(rows: seq<OutboundRow>, i: nat, j: nat) {
    if i < |rows| && j < |rows| then rows[i].createdAt <= rows[j].createdAt
    else i < |rows| || (j >= |rows| && i <= j)
  }

  function ByCreation(rows: seq<OutboundRow>): (nat, nat) -> bool {
    (i: nat, j: nat) => OlderFirst(rows, i, j)
  }

  function SelectPending(rows: seq<OutboundRow>, now: int, limit: nat): seq<nat> {
    InboundQueues.Take(SortBy(ByCreation(rows), EligibleIds(rows, now, |rows|)), limit)
  }

  /** The statement returns due pending rows, each once, oldest first, as many as the limit allows. */
  lemma SelectedAreEligible(rows: seq<OutboundRow>, now: int, limit: nat)
    ensures var ids := SelectPending(rows, now, limit);
            && |ids| <= limit && Distinct(ids) && (forall i :: i in ids ==> i < |rows| && Eligible(rows[i], now))
            && (forall x, y :: 0 <= x < y < |ids| ==> ids[x] < |rows| && ids[y] < |rows| && rows[ids[x]].createdAt <= rows[ids[y]].createdAt)
            && (|ids| == limit || forall i: nat :: i < |rows| && Eligible(rows[i], now) ==> i in ids)
  {
    var all := EligibleIds(rows, now, |rows|);
    SortIsPermutation(ByCreation(rows), all);
    assert TotalPreorder(ByCreation(rows));
    SortIsSorted(ByCreation(rows), all);
    InboundQueues.DistinctSorted(ByCreation(rows), all);
    var ids := SelectPending(rows, now, limit);
    forall i | i in ids ensures i in all {
      var x :| 0 <= x < |ids| && ids[x] == i;
      assert ids[x] == SortBy(ByCreation(rows), all)[x];
    }
    forall x, y | 0 <= x < y < |ids|
      ensures ids[x] < |rows| && ids[y] < |rows| && rows[ids[x]].createdAt <= rows[ids[y]].createdAt
    {
      assert ids[x] in all && ids[y] in all;
      assert ByCreation(rows)(ids[x], ids[y]);
    }
  }

  function Locked(r: OutboundRow, now: int): OutboundRow {
    r.(status := Sending, lockedAt := Some(now), attempts := r.attempts + 1)
  }

  function ClaimAll(rows: seq<OutboundRow>, ids: seq<nat>, now: int): (r: seq<OutboundRow>)
    ensures |r| == |rows|
  {
    seq(|rows|, k requires 0 <= k < |rows| => if k in ids then Locked(rows[k], now) else rows[k])
  }

  // ------------------------------------------------------------ marks and release

  predicate IsSending(rows: seq<OutboundRow>, id: nat) {
    id < |rows| && rows[id].status.Sending?
  }

  function SentRow(r: OutboundRow, at: int, externalId: Option<string>): OutboundRow {
    r.(status := Sent, sentAt := Some(at), externalId := externalId, lockedAt := None, nextAttemptAt := None, lastError := None)
  }

  function RetriedRow(r: OutboundRow, error: string, nextAttempt: int, maxAttempts: nat): OutboundRow {
    var unlocked := r.(lockedAt := None, lastError := Some(error));
    if r.attempts < maxAttempts then unlocked.(status := Pending, nextAttemptAt := Some(nextAttempt))
    else unlocked.(status := Failed, nextAttemptAt := None)
  }

  function PermanentRow(r: OutboundRow, error: string): OutboundRow {
    r.(status := Failed, lockedAt := None, nextAttemptAt := None, lastError := Some(error))
  }

  function SanitizeError(text: string): string {
    var clean := if Strip(text) == "" then "Unexpected sending error." else Strip(text);
    if |clean| <= 500 then clean else clean[..500]
  }

  predicate Stale(r: OutboundRow, staleBefore: int) {
    r.status.Sending? && r.lockedAt.Some? && r.lockedAt.value < staleBefore
  }

  function ReleasedRow(r: OutboundRow, staleBefore: int, now: int, maxAttempts: nat): OutboundRow {
    if Stale(r, staleBefore) then RetriedRow(r, "Sending timeout.", now, maxAttempts) else r
  }

  function ReleaseStale(rows: seq<OutboundRow>, staleBefore: int, now: int, maxAttempts: nat): (r: seq<OutboundRow>)
    ensures |r| == |rows|
  {
    seq(|rows|, i requires 0 <= i < |rows| => ReleasedRow(rows[i], staleBefore, now, maxAttempts))
  }

  /** What the messaging API answered to one send. */
  datatype SendResult = Delivered(externalId: Option<string>) | Temporary(error: string) | Permanent(error: string)

  /** An answer and the clock reading at which it is recorded. */
  datatype Answer = Answer(result: SendResult, at: int)

  /** The row after one send attempt was recorded. */
  function Recorded(r: OutboundRow, answer: Answer, maxAttempts: nat, retryDelay: int): OutboundRow {
    match answer.result
    case Delivered(externalId) => SentRow(r, answer.at, externalId)
    case Temporary(error) => RetriedRow(r, SanitizeError(error), answer.at + retryDelay, maxAttempts)
    case Permanent(error) => PermanentRow(r, SanitizeError(error))
  }

  // ------------------------------------------------------------------- the class

  class OutboundQueue {
    const clean: CleanUp
    var rows: seq<OutboundRow>

    constructor (clean: CleanUp)
      ensures this.clean == clean && rows == []
    {
      this.clean, rows := clean, [];
    }

    method EnqueueTextMessage(key: DedupKey, instance: string, recipient: string, text: string, createdAt: int) returns (r: Enqueued)
      modifies this
      ensures (rows, r) == Enqueue(old(rows), clean, key, instance, recipient, text, createdAt)
    {
      var objection := Objection(key, instance, recipient, text);
      if objection.Some? {
        return Invalid(objection.value);
      }
      var existing := FindKey(rows, CleanKey(key));
      if existing.Some? {
        return Duplicate(existing.value);  // the unique constraint refuses the insert
      }
      r := Created(|rows|);
      rows := rows + [NewRow(clean, key, instance, recipient, text, createdAt)];
    }

    method ClaimPendingOutboundMessages(limit: nat, now: int) returns (ids: seq<nat>)
      modifies this
      ensures ids == SelectPending(old(rows), now, limit) && rows == ClaimAll(old(rows), ids, now)
      ensures Distinct(ids) && forall x :: 0 <= x < |ids| ==> IsSending(rows, ids[x])
    {
      ids := SelectPending(rows, now, limit);
      assert Distinct(ids) && forall i :: i in ids ==> i < |rows| by { SelectedAreEligible(rows, now, limit); }
      for m := 0 to |ids|
        invariant |rows| == |old(rows)|
        invariant forall k :: 0 <= k < |rows| ==> rows[k] == if k in ids[..m] then Locked(old(rows)[k], now) else old(rows)[k]
      {
        assert ids[m] in ids && ids[m] !in ids[..m];
        var row := rows[ids[m]].(status := Sending, lockedAt := Some(now));
        rows := rows[ids[m] := row.(attempts := row.attempts + 1)];
        assert ids[..m + 1] == ids[..m] + [ids[m]];
      }
      assert ids[..|ids|] == ids;
      forall x | 0 <= x < |ids| ensures IsSending(rows, ids[x]) {
        assert ids[x] in ids;
      }
    }

    method MarkOutboundMessageSent(id: nat, sentAt: int, externalId: Option<string>) returns (ok: bool)
      modifies this
      ensures ok == IsSending(old(rows), id)
      ensures rows == if ok then old(rows)[id := SentRow(old(rows)[id], sentAt, externalId)] else old(rows)
    {
      if id >= |rows| || !rows[id].status.Sending? { return false; }
      var row := rows[id].(status := Sent, sentAt := Some(sentAt), externalId := externalId);
      rows := rows[id := row.(lockedAt := None, nextAttemptAt := None, lastError := None)];
      ok := true;
    }

    method MarkOutboundMessageTemporaryError(id: nat, error: string, failedAt: int, maxAttempts: nat, retryDelay: int) returns (ok: bool)
      modifies this
      ensures ok == IsSending(old(rows), id)
      ensures rows == if ok then old(rows)[id := RetriedRow(old(rows)[id], SanitizeError(error), failedAt + retryDelay, maxAttempts)]
                      else old(rows)
    {
      if id >= |rows| || !rows[id].status.Sending? { return false; }
      var row := rows[id].(lockedAt := None, lastError := Some(SanitizeError(error)));
      if row.attempts < maxAttempts {
        row := row.(status := Pending, nextAttemptAt := Some(failedAt + retryDelay));
      } else {
        row := row.(status := Failed, nextAttemptAt := None);
      }
      rows := rows[id := row];
      ok := true;
    }

    method MarkOutboundMessagePermanentError(id: nat, error: string) returns (ok: bool)
      modifies this
      ensures ok == IsSending(old(rows), id)
      ensures rows == if ok then old(rows)[id := PermanentRow(old(rows)[id], SanitizeError(error))] else old(rows)
    {
      if id >= |rows| || !rows[id].status.Sending? { return false; }
      rows := rows[id := rows[id].(status := Failed, lockedAt := None, nextAttemptAt := None, lastError := Some(SanitizeError(error)))];
      ok := true;
    }

    method ReleaseStaleOutboundMessages(staleBefore: int, now: int, maxAttempts: nat) returns (count: nat)
      modifies this
      ensures rows == ReleaseStale(old(rows), staleBefore, now, maxAttempts)
      ensures count == CountFirst((r: OutboundRow) => Stale(r, staleBefore), old(rows), |old(rows)|)
    {
      count := 0;
      for i := 0 to |rows|
        invariant |rows| == |old(rows)|
        invariant count == CountFirst((r: OutboundRow) => Stale(r, staleBefore), old(rows), i)
        invariant forall k :: 0 <= k < i ==> rows[k] == ReleasedRow(old(rows)[k], staleBefore, now, maxAttempts)
        invariant forall k :: i <= k < |rows| ==> rows[k] == old(rows)[k]
      {
        if rows[i].status.Sending? && rows[i].lockedAt.Some? && rows[i].lockedAt.value < staleBefore {
          var row := rows[i].(lockedAt := None, lastError := Some("Sending timeout."));
          if row.attempts < maxAttempts {
            row := row.(status := Pending, nextAttemptAt := Some(now));
          } else {
            row := row.(status := Failed, nextAttemptAt := None);
          }
          rows := rows[i := row];
          count := count + 1;
        }
      }
    }

    /** Recording one answer. */
    method RecordAnswer(id: nat, answer: Answer, maxAttempts: nat, retryDelay: int)
      requires IsSending(rows, id)
      modifies this
      ensures rows == old(rows)[id := Recorded(old(rows)[id], answer, maxAttempts, retryDelay)]
    {
      match answer.result
      case Delivered(externalId) =>
        var ok := MarkOutboundMessageSent(id, answer.at, externalId);
      case Temporary(error) =>
        var ok := MarkOutboundMessageTemporaryError(id, error, answer.at, maxAttempts, retryDelay);
      case Permanent(error) =>
        var ok := MarkOutboundMessagePermanentError(id, error);
    }

    /** The loop over the claimed rows: one send and one record each. */
    method SendAll(ids: seq<nat>, maxAttempts: nat, retryDelay: int, answers: nat -> Answer) returns (sends: seq<nat>)
      requires Distinct(ids) && forall x :: 0 <= x < |ids| ==> IsSending(rows, ids[x])
      modifies this
      ensures sends == ids && |rows| == |old(rows)|
      ensures forall k :: 0 <= k < |rows| ==>
        rows[k] == if k in ids then Recorded(old(rows)[k], answers(k), maxAttempts, retryDelay) else old(rows)[k]
    {
      sends := [];
      for m := 0 to |ids|
        invariant |rows| == |old(rows)| && sends == ids[..m]
        invariant forall k :: 0 <= k < |rows| ==>
          rows[k] == if k in ids[..m] then Recorded(old(rows)[k], answers(k), maxAttempts, retryDelay) else old(rows)[k]
      {
        assert ids[m] !in ids[..m] && ids[..m + 1] == ids[..m] + [ids[m]];
        sends := sends + [ids[m]];
        RecordAnswer(ids[m], answers(ids[m]), maxAttempts, retryDelay);
      }
      assert ids[..|ids|] == ids;
    }

    /** The first session of a cycle. */
    method ReleaseAndClaim(limit: nat, now: int, timeout: nat, maxAttempts: nat) returns (ids: seq<nat>)
      modifies this
      ensures ids == SelectPending(ReleaseStale(old(rows), now - timeout, now, maxAttempts), now, limit)
      ensures rows == ClaimAll(ReleaseStale(old(rows), now - timeout, now, maxAttempts), ids, now)
      ensures Distinct(ids) && forall x :: 0 <= x < |ids| ==> IsSending(rows, ids[x])
    {
      ghost var released := ReleaseStale(rows, now - timeout, now, maxAttempts);
      var count := ReleaseStaleOutboundMessages(now - timeout, now, maxAttempts);
      assert rows == released;
      ids := ClaimPendingOutboundMessages(limit, now);
      assert ids == SelectPending(released, now, limit) && rows == ClaimAll(released, ids, now);
    }

    /**
     * `OutboundMessageProcessor.process_once`, undisturbed: release, claim, then send and record each
     * claimed row. `answers(id)` is what the messaging API answers for that row and when. Each claimed
     * row ends recorded by its own answer, exactly one send is made per claim, nothing else moves.
     */
    method ProcessOnce(limit: nat, now: int, timeout: nat, maxAttempts: nat, retryDelay: int, answers: nat -> Answer)
      returns (sends: seq<nat>)
      modifies this
      ensures
        var released := ReleaseStale(old(rows), now - timeout, now, maxAttempts);
        && sends == SelectPending(released, now, limit)
        && |rows| == |old(rows)|
        && forall k :: 0 <= k < |rows| ==>
             rows[k] == if k in sends then Recorded(Locked(released[k], now), answers(k), maxAttempts, retryDelay) else released[k]
    {
      ghost var released := ReleaseStale(rows, now - timeout, now, maxAttempts);
      var ids := ReleaseAndClaim(limit, now, timeout, maxAttempts);
      ghost var claimed := rows;
      assert forall k :: 0 <= k < |claimed| ==> claimed[k] == if k in ids then Locked(released[k], now) else released[k];
      sends := SendAll(ids, maxAttempts, retryDelay, answers);
    }
  }
}
