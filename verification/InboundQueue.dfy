/**
 * The inbox: debounced registration, claims that absorb older fragments of a conversation, retries,
 * and the release of stale locks. Every operation is one committed transaction.
 */
module InboundQueues {
  import opened Prelude

  type Key = string

  datatype InboundStatus = Pending | Processing | Completed | Failed

  datatype InboundRow = InboundRow(
    instance: Key,
    messageId: Key,
    phone: Option<string>,
    messageType: string,
    text: Option<string>,
    status: InboundStatus,
    attempts: nat,
    lockedAt: Option<int>,
    processedAt: Option<int>,
    lastError: Option<string>,
    nextAttemptAt: Option<int>,
    processAfterAt: Option<int>,
    createdAt: int)

  // ----------------------------------------------------------------- register

  /** A normalized webhook message. */
  datatype Incoming = Incoming(
    processable: bool, instance: Option<string>, messageId: Option<Key>, phone: Option<string>,
    messageType: string, text: Option<string>)

  datatype Registration = Created(id: nat) | Duplicate(id: nat) | Invalid

  function InstanceOf(m: Incoming): Key {
    if m.instance.Some? then m.instance.value else ""
  }

  /** A present, non-empty phone: what the source tests as a truth value. */
  predicate HasPhone(phone: Option<string>) {
    phone.Some? && phone.value != ""
  }

  function FindMessage(rows: seq<InboundRow>, instance: Key, messageId: Key): (r: Option<nat>)
    ensures r.Some? ==> r.value < |rows| && rows[r.value].instance == instance && rows[r.value].messageId == messageId
    ensures r.None? ==> forall i :: 0 <= i < |rows| ==> (rows[i].instance, rows[i].messageId) != (instance, messageId)
  {
    if rows == [] then None
    else
      var last := |rows| - 1;
      if rows[last].instance == instance && rows[last].messageId == messageId then Some(last)
      else FindMessage(rows[..last], instance, messageId)
  }

  /** The bulk update that gives every pending fragment of a conversation the new deadline. */
  function ResetDeadlines(rows: seq<InboundRow>, instance: Key, phone: Option<string>, deadline: int): (r: seq<InboundRow>)
    ensures |r| == |rows|
  {
    seq(|rows|, i requires 0 <= i < |rows| =>
      if HasPhone(phone) && rows[i].instance == instance && rows[i].phone == phone && rows[i].status.Pending?
      then rows[i].(processAfterAt := Some(deadline)) else rows[i])
  }

  function NewRow(m: Incoming, deadline: int, createdAt: int): InboundRow
    requires m.messageId.Some?
  {
    InboundRow(InstanceOf(m), m.messageId.value, m.phone, m.messageType, m.text, Pending, 0, None, None, None, None, Some(deadline), createdAt)
  }

  function Register(rows: seq<InboundRow>, m: Incoming, bufferSeconds: int, now: int, createdAt: int): (seq<InboundRow>, Registration) {
    if !m.processable || m.messageId.None? || bufferSeconds < 0 then (rows, Invalid)
    else
      var existing := FindMessage(rows, InstanceOf(m), m.messageId.value);
      if existing.Some? then (rows, Duplicate(existing.value))
      else
        var deadline := now + bufferSeconds;
        (ResetDeadlines(rows, InstanceOf(m), m.phone, deadline) + [NewRow(m, deadline, createdAt)], Created(|rows|))
  }

  // -------------------------------------------------------------------- claim

  predicate Due(at: Option<int>, now: int) {
    at.None? || at.value <= now
  }

  /** SQL equality of phones: a missing phone equals nothing. */
  predicate SameConversation(a: InboundRow, b: InboundRow) {
    a.instance == b.instance && a.phone.Some? && a.phone == b.phone
  }

  /** A newer pending fragment of the same conversation exists, for rows that carry a deadline. */
  predicate HasNewerFragment(rows: seq<InboundRow>, i: nat)
    requires i < |rows|
  {
    rows[i].processAfterAt.Some?
    && exists j :: 0 <= j < |rows| && SameConversation(rows[j], rows[i]) && rows[j].status.Pending? && rows[j].createdAt > rows[i].createdAt
  }

  predicate Eligible(rows: seq<InboundRow>, i: nat, now: int)
    requires i < |rows|
  {
    && rows[i].status.Pending?
    && Due(rows[i].processAfterAt, now) && Due(rows[i].nextAttemptAt, now)
    && !HasNewerFragment(rows, i)
  }

  function EligibleIds(rows: seq<InboundRow>, now: int, n: nat): (ids: seq<nat>)
    requires n <= |rows|
    ensures forall i: nat :: i in ids <==> i < n && Eligible(rows, i, now)
    ensures Distinct(ids)
  {
    if n == 0 then []
    else EligibleIds(rows, now, n - 1) + if Eligible(rows, n - 1, now) then [n - 1] else []
  }

  /** `ORDER BY created_at ASC`, extended to all row numbers. */
  predicate OlderFirst(rows: seq<InboundRow>, i: nat, j: nat) {
    if i < |rows| && j < |rows| then rows[i].createdAt <= rows[j].createdAt
    else i < |rows| || (j >= |rows| && i <= j)
  }

  function ByCreation(rows: seq<InboundRow>): (nat, nat) -> bool {
    (i: nat, j: nat) => OlderFirst(rows, i, j)
  }

  function Take<T>(xs: seq<T>, limit: nat): seq<T> {
    if |xs| <= limit then xs else xs[..limit]
  }

  /** `_pending_messages_statement`. */
  function SelectPending(rows: seq<InboundRow>, now: int, limit: nat): seq<nat> {
    Take(SortBy(ByCreation(rows), EligibleIds(rows, now, |rows|)), limit)
  }

  /** An older fragment that the claim of row `id` turns into history. */
  predicate OlderFragment(rows: seq<InboundRow>, id: nat, k: nat)
    requires id < |rows| && k < |rows|
  {
    && HasPhone(rows[id].phone) && rows[id].processAfterAt.Some?
    && SameConversation(rows[k], rows[id]) && rows[k].status.Pending? && k != id && rows[k].createdAt <= rows[id].createdAt
  }

  function Absorbed(r: InboundRow, now: int): InboundRow {
    r.(status := Completed, processedAt := Some(now))
  }

  function Locked(r: InboundRow, now: int): InboundRow {
    r.(status := Processing, lockedAt := Some(now), attempts := r.attempts + 1)
  }

  function ClaimOne(rows: seq<InboundRow>, id: nat, now: int): (r: seq<InboundRow>)
    requires id < |rows|
    ensures |r| == |rows|
  {
    seq(|rows|, k requires 0 <= k < |rows| =>
      if k == id then Locked(rows[id], now) else if OlderFragment(rows, id, k) then Absorbed(rows[k], now) else rows[k])
  }

  ghost predicate RowNumbers(rows: seq<InboundRow>, ids: seq<nat>) {
    forall x :: 0 <= x < |ids| ==> ids[x] < |rows|
  }

  function ClaimAll(rows: seq<InboundRow>, ids: seq<nat>, now: int): (r: seq<InboundRow>)
    requires RowNumbers(rows, ids)
    ensures |r| == |rows|
  {
    if ids == [] then rows else ClaimOne(ClaimAll(rows, ids[..|ids| - 1], now), ids[|ids| - 1], now)
  }

  /** The statement returns eligible rows, each once, oldest first, as many as the limit allows. */
  lemma SelectedAreEligible(rows: seq<InboundRow>, now: int, limit: nat)
    ensures var ids := SelectPending(rows, now, limit);
            && |ids| <= limit && Distinct(ids) && RowNumbers(rows, ids)
            && (forall i :: i in ids ==> i < |rows| && Eligible(rows, i, now))
            && (forall x, y :: 0 <= x < y < |ids| ==> rows[ids[x]].createdAt <= rows[ids[y]].createdAt)
            && (|ids| == limit || forall i: nat :: i < |rows| && Eligible(rows, i, now) ==> i in ids)
  {
    var all := EligibleIds(rows, now, |rows|);
    SortIsPermutation(ByCreation(rows), all);
    assert TotalPreorder(ByCreation(rows));
    SortIsSorted(ByCreation(rows), all);
    DistinctSorted(ByCreation(rows), all);
    var ids := SelectPending(rows, now, limit);
    forall x | 0 <= x < |ids| ensures ids[x] in all {
      assert ids[x] == SortBy(ByCreation(rows), all)[x];
    }
    forall x, y | 0 <= x < y < |ids| ensures rows[ids[x]].createdAt <= rows[ids[y]].createdAt {
      assert ByCreation(rows)(ids[x], ids[y]);
    }
  }

  lemma DistinctSorted<T(!new)>(le: (T, T) -> bool, xs: seq<T>)
    requires Distinct(xs)
    ensures Distinct(SortBy(le, xs))
  {
    SortIsPermutation(le, xs);
    DistinctIffOnce(xs);
    DistinctIffOnce(SortBy(le, xs));
  }

  lemma {:induction false} DistinctIffOnce<T(!new)>(xs: seq<T>)
    ensures Distinct(xs) <==> forall x :: multiset(xs)[x] <= 1
  {
    if xs != [] {
      var tail := xs[1..];
      assert xs == [xs[0]] + tail;
      DistinctIffOnce(tail);
      if Distinct(xs) {
        assert forall i :: 0 < i < |xs| ==> tail[i - 1] == xs[i];
        assert xs[0] !in tail;
      }
      if forall x :: multiset(xs)[x] <= 1 {
        forall x ensures multiset(tail)[x] <= 1 {
          assert multiset(xs)[x] <= 1;
        }
        assert multiset(xs)[xs[0]] <= 1;
        assert xs[0] !in multiset(tail);
        forall i, j | 0 <= i < j < |xs| ensures xs[i] != xs[j] {
          if i == 0 {
            assert xs[j] == tail[j - 1] && xs[j] in multiset(tail);
          } else {
            assert xs[i] == tail[i - 1] && xs[j] == tail[j - 1];
          }
        }
      }
    }
  }

  // ------------------------------------------------------------ marks and release

  function SanitizeError(text: string): string {
    var clean := if Strip(text) == "" then "Unexpected processing error." else Strip(text);
    if |clean| <= 500 then clean else clean[..500]
  }

  predicate IsProcessing(rows: seq<InboundRow>, id: nat) {
    id < |rows| && rows[id].status.Processing?
  }

  function CompletedRow(r: InboundRow, at: int): InboundRow {
    r.(status := Completed, processedAt := Some(at), lockedAt := None, lastError := None, nextAttemptAt := None)
  }

  /** A failed attempt: retry later while attempts remain, otherwise give up. */
  function RetriedRow(r: InboundRow, error: string, nextAttempt: int, maxAttempts: nat): InboundRow {
    var unlocked := r.(lockedAt := None, processedAt := None, lastError := Some(error));
    if r.attempts < maxAttempts then unlocked.(status := Pending, nextAttemptAt := Some(nextAttempt))
    else unlocked.(status := Failed, nextAttemptAt := None)
  }

  function PermanentRow(r: InboundRow, error: string): InboundRow {
    r.(status := Failed, lockedAt := None, processedAt := None, nextAttemptAt := None, lastError := Some(error))
  }

  predicate Stale(r: InboundRow, staleBefore: int) {
    r.status.Processing? && r.lockedAt.Some? && r.lockedAt.value < staleBefore
  }

  function ReleasedRow(r: InboundRow, staleBefore: int, now: int, maxAttempts: nat): InboundRow {
    if Stale(r, staleBefore) then RetriedRow(r, "Processing timeout.", now, maxAttempts) else r
  }

  function ReleaseStale(rows: seq<InboundRow>, staleBefore: int, now: int, maxAttempts: nat): (r: seq<InboundRow>)
    ensures |r| == |rows|
  {
    seq(|rows|, i requires 0 <= i < |rows| => ReleasedRow(rows[i], staleBefore, now, maxAttempts))
  }

  // ------------------------------------------------------------------- the class

  class InboundQueue {
    var rows: seq<InboundRow>

    constructor ()
      ensures rows == []
    {
      rows := [];
    }

    method RegisterMessage(m: Incoming, bufferSeconds: int, now: int, createdAt: int) returns (r: Registration)
      modifies this
      ensures (rows, r) == Register(old(rows), m, bufferSeconds, now, createdAt)
    {
      if !m.processable || m.messageId.None? || bufferSeconds < 0 {
        return Invalid;
      }
      var before := rows;
      var deadline := now + bufferSeconds;
      var existing := FindMessage(rows, InstanceOf(m), m.messageId.value);
      if existing.Some? {
        return Duplicate(existing.value);  // the unique constraint refuses the insert
      }
      if HasPhone(m.phone) {
        for i := 0 to |rows|
          invariant |rows| == |before|
          invariant forall k :: 0 <= k < i ==> rows[k] == ResetDeadlines(before, InstanceOf(m), m.phone, deadline)[k]
          invariant forall k :: i <= k < |rows| ==> rows[k] == before[k]
        {
          if rows[i].instance == InstanceOf(m) && rows[i].phone == m.phone && rows[i].status.Pending? {
            rows := rows[i := rows[i].(processAfterAt := Some(deadline))];
          }
        }
      }
      assert rows == ResetDeadlines(before, InstanceOf(m), m.phone, deadline);
      r := Created(|rows|);
      rows := rows + [NewRow(m, deadline, createdAt)];
    }

    /** The absorption loop and the lock of one selected message. */
    method ClaimMessage(id: nat, now: int)
      requires id < |rows|
      modifies this
      ensures rows == ClaimOne(old(rows), id, now)
    {
      var before := rows;
      if HasPhone(rows[id].phone) && rows[id].processAfterAt.Some? {
        for k := 0 to |rows|
          invariant |rows| == |before| && rows[id] == before[id]
          invariant forall j :: 0 <= j < k ==> rows[j] == if OlderFragment(before, id, j) then Absorbed(before[j], now) else before[j]
          invariant forall j :: k <= j < |rows| ==> rows[j] == before[j]
        {
          if SameConversation(rows[k], rows[id]) && rows[k].status.Pending? && k != id && rows[k].createdAt <= rows[id].createdAt {
            rows := rows[k := rows[k].(status := Completed, processedAt := Some(now))];
          }
        }
      }
      var row := rows[id].(status := Processing, lockedAt := Some(now));
      rows := rows[id := row.(attempts := row.attempts + 1)];
    }

    method ClaimPendingMessages(limit: nat, now: int) returns (ids: seq<nat>)
      modifies this
      ensures ids == SelectPending(old(rows), now, limit)
      ensures RowNumbers(old(rows), ids)
      ensures rows == ClaimAll(old(rows), ids, now)
    {
      ids := SelectPending(rows, now, limit);
      SelectedAreEligible(rows, now, limit);
      for m := 0 to |ids|
        invariant |rows| == |old(rows)|
        invariant RowNumbers(old(rows), ids[..m])
        invariant rows == ClaimAll(old(rows), ids[..m], now)
      {
        assert ids[..m + 1][..m] == ids[..m];
        ClaimMessage(ids[m], now);
      }
      assert ids[..|ids|] == ids;
    }

    method MarkMessageCompleted(id: nat, completedAt: int) returns (ok: bool)
      modifies this
      ensures ok == IsProcessing(old(rows), id)
      ensures rows == if ok then old(rows)[id := CompletedRow(old(rows)[id], completedAt)] else old(rows)
    {
      if id >= |rows| || !rows[id].status.Processing? { return false; }
      var row := rows[id].(status := Completed, processedAt := Some(completedAt));
      row := row.(lockedAt := None, lastError := None, nextAttemptAt := None);
      rows := rows[id := row];
      ok := true;
    }

    method MarkMessageFailed(id: nat, error: string, failedAt: int, maxAttempts: nat, retryDelaySeconds: int) returns (ok: bool)
      modifies this
      ensures ok == IsProcessing(old(rows), id)
      ensures rows == if ok then old(rows)[id := RetriedRow(old(rows)[id], SanitizeError(error), failedAt + retryDelaySeconds, maxAttempts)]
                      else old(rows)
    {
      if id >= |rows| || !rows[id].status.Processing? { return false; }
      var row := rows[id].(lockedAt := None, processedAt := None, lastError := Some(SanitizeError(error)));
      if row.attempts < maxAttempts {
        row := row.(status := Pending, nextAttemptAt := Some(failedAt + retryDelaySeconds));
      } else {
        row := row.(status := Failed, nextAttemptAt := None);
      }
      rows := rows[id := row];
      ok := true;
    }

    method MarkMessagePermanentlyFailed(id: nat, error: string) returns (ok: bool)
      modifies this
      ensures ok == IsProcessing(old(rows), id)
      ensures rows == if ok then old(rows)[id := PermanentRow(old(rows)[id], SanitizeError(error))] else old(rows)
    {
      if id >= |rows| || !rows[id].status.Processing? { return false; }
      rows := rows[id := rows[id].(status := Failed, lockedAt := None, processedAt := None, nextAttemptAt := None,
                                   lastError := Some(SanitizeError(error)))];
      ok := true;
    }

    method ReleaseStaleProcessingMessages(staleBefore: int, now: int, maxAttempts: nat) returns (count: nat)
      modifies this
      ensures rows == ReleaseStale(old(rows), staleBefore, now, maxAttempts)
      ensures count == CountFirst((r: InboundRow) => Stale(r, staleBefore), old(rows), |old(rows)|)
    {
      count := 0;
      for i := 0 to |rows|
        invariant |rows| == |old(rows)|
        invariant count == CountFirst((r: InboundRow) => Stale(r, staleBefore), old(rows), i)
        invariant forall k :: 0 <= k < i ==> rows[k] == ReleasedRow(old(rows)[k], staleBefore, now, maxAttempts)
        invariant forall k :: i <= k < |rows| ==> rows[k] == old(rows)[k]
      {
        if rows[i].status.Processing? && rows[i].lockedAt.Some? && rows[i].lockedAt.value < staleBefore {
          var row := rows[i].(lockedAt := None, processedAt := None, lastError := Some("Processing timeout."));
          if row.attempts < maxAttempts {
            row := row.(status := Pending, nextAttemptAt := Some(now));
          } else {
            row := row.(status := Failed, nextAttemptAt := None);
          }
          rows := rows[i := row];
          count := count + 1;
        }
      }
    }
  }
}
