/** What the inbox guarantees: the debounced claim, retry safety, and termination of every run. */
module InboundSafety {
  import opened Prelude
  import opened InboundQueues

  // -------------------------------------------------------- the debounced claim

  /** Rows whose phone and deadline make them part of a debounced conversation. */
  predicate Buffered(r: InboundRow) {
    HasPhone(r.phone) && r.processAfterAt.Some?
  }

  /** Row `k` is an older fragment of one of the claimed messages. */
  ghost predicate AbsorbedBySome(rows: seq<InboundRow>, ids: seq<nat>, k: nat)
    requires RowNumbers(rows, ids) && k < |rows|
  {
    exists x :: 0 <= x < |ids| && OlderFragment(rows, ids[x], k)
  }

  /** Claimed row `k` was an older fragment of a message claimed before it: only a tie makes one. */
  ghost predicate AbsorbedBefore(rows: seq<InboundRow>, ids: seq<nat>, k: nat)
    requires RowNumbers(rows, ids) && k < |rows|
  {
    exists x, y :: 0 <= x < y < |ids| && ids[y] == k && OlderFragment(rows, ids[x], k)
  }

  /** The claim in one look at the rows before it: claimed rows are locked, older fragments completed, the rest untouched. */
  ghost function ClaimedInTurn(rows: seq<InboundRow>, ids: seq<nat>, now: int): (r: seq<InboundRow>)
    requires RowNumbers(rows, ids)
    ensures |r| == |rows|
  {
    seq(|rows|, k requires 0 <= k < |rows| =>
      if k in ids then Locked(if AbsorbedBefore(rows, ids, k) then Absorbed(rows[k], now) else rows[k], now)
      else if AbsorbedBySome(rows, ids, k) then Absorbed(rows[k], now)
      else rows[k])
  }

  ghost predicate AllPending(rows: seq<InboundRow>, ids: seq<nat>)
    requires RowNumbers(rows, ids)
  {
    forall x :: 0 <= x < |ids| ==> rows[ids[x]].status.Pending?
  }

  /** The sequential claim loop, which looks at rows it changed itself, equals one look at the original rows. */
  lemma {:induction false} ClaimIsInTurn(rows: seq<InboundRow>, ids: seq<nat>, now: int)
    requires RowNumbers(rows, ids) && Distinct(ids) && AllPending(rows, ids)
    ensures ClaimAll(rows, ids, now) == ClaimedInTurn(rows, ids, now)
  {
    if ids == [] {
      assert ClaimedInTurn(rows, ids, now) == rows;
    } else {
      var m := |ids| - 1;
      var before := ids[..m];
      assert ids == before + [ids[m]];
      ClaimIsInTurn(rows, before, now);
      var mid := ClaimedInTurn(rows, before, now);
      forall k | 0 <= k < |rows| ensures ClaimOne(mid, ids[m], now)[k] == ClaimedInTurn(rows, ids, now)[k] {
        LastClaimAt(rows, ids, k);
        LastClaimRow(rows, ids, now, mid, k);
      }
    }
  }

  lemma LastIsNew(ids: seq<nat>)
    requires Distinct(ids) && ids != []
    ensures ids[|ids| - 1] !in ids[..|ids| - 1]
    ensures forall k: nat :: k in ids <==> k in ids[..|ids| - 1] || k == ids[|ids| - 1]
  {
    assert ids == ids[..|ids| - 1] + [ids[|ids| - 1]];
  }

  lemma LastAbsorbs(rows: seq<InboundRow>, ids: seq<nat>, k: nat)
    requires RowNumbers(rows, ids) && ids != [] && k < |rows| && RowNumbers(rows, ids[..|ids| - 1])
    ensures AbsorbedBySome(rows, ids, k) <==>
              AbsorbedBySome(rows, ids[..|ids| - 1], k) || OlderFragment(rows, ids[|ids| - 1], k)
  {
    var before := ids[..|ids| - 1];
    if x :| 0 <= x < |ids| && OlderFragment(rows, ids[x], k) {
      assert x < |before| ==> before[x] == ids[x];
    }
    if x :| 0 <= x < |before| && OlderFragment(rows, before[x], k) {
      assert ids[x] == before[x];
    }
  }

  lemma EarlierStays(rows: seq<InboundRow>, ids: seq<nat>, k: nat)
    requires RowNumbers(rows, ids) && ids != [] && k < |rows| && RowNumbers(rows, ids[..|ids| - 1]) && k != ids[|ids| - 1]
    ensures AbsorbedBefore(rows, ids, k) <==> AbsorbedBefore(rows, ids[..|ids| - 1], k)
  {
    var before := ids[..|ids| - 1];
    if x, y :| 0 <= x < y < |ids| && ids[y] == k && OlderFragment(rows, ids[x], k) {
      assert before[x] == ids[x] && before[y] == k;
    }
    if x, y :| 0 <= x < y < |before| && before[y] == k && OlderFragment(rows, before[x], k) {
      assert ids[x] == before[x] && ids[y] == k;
    }
  }

  lemma LastWasAbsorbed(rows: seq<InboundRow>, ids: seq<nat>)
    requires RowNumbers(rows, ids) && Distinct(ids) && ids != [] && RowNumbers(rows, ids[..|ids| - 1])
    ensures AbsorbedBefore(rows, ids, ids[|ids| - 1]) <==> AbsorbedBySome(rows, ids[..|ids| - 1], ids[|ids| - 1])
  {
    var before, id := ids[..|ids| - 1], ids[|ids| - 1];
    if x, y :| 0 <= x < y < |ids| && ids[y] == id && OlderFragment(rows, ids[x], id) {
      assert before[x] == ids[x];
    }
    if x :| 0 <= x < |before| && OlderFragment(rows, before[x], id) {
      assert ids[x] == before[x] && x < |ids| - 1 && ids[|ids| - 1] == id;
    }
  }

  /** What the last claimed message adds for row `k`. */
  lemma LastClaimAt(rows: seq<InboundRow>, ids: seq<nat>, k: nat)
    requires RowNumbers(rows, ids) && Distinct(ids) && ids != [] && k < |rows| && RowNumbers(rows, ids[..|ids| - 1])
    ensures LastClaimAdds(rows, ids, k)
  {
    LastIsNew(ids);
    LastAbsorbs(rows, ids, k);
    if k == ids[|ids| - 1] {
      LastWasAbsorbed(rows, ids);
    } else {
      EarlierStays(rows, ids, k);
    }
  }

  ghost predicate LastClaimAdds(rows: seq<InboundRow>, ids: seq<nat>, k: nat)
    requires RowNumbers(rows, ids) && ids != [] && k < |rows| && RowNumbers(rows, ids[..|ids| - 1])
  {
    var before, id := ids[..|ids| - 1], ids[|ids| - 1];
    && (k in ids <==> k in before || k == id) && id !in before
    && (AbsorbedBySome(rows, ids, k) <==> AbsorbedBySome(rows, before, k) || OlderFragment(rows, id, k))
    && (k != id ==> (AbsorbedBefore(rows, ids, k) <==> AbsorbedBefore(rows, before, k)))
    && (k == id ==> (AbsorbedBefore(rows, ids, k) <==> AbsorbedBySome(rows, before, k)))
  }

  lemma LastClaimRow(rows: seq<InboundRow>, ids: seq<nat>, now: int, mid: seq<InboundRow>, k: nat)
    requires RowNumbers(rows, ids) && ids != [] && RowNumbers(rows, ids[..|ids| - 1]) && k < |rows|
    requires AllPending(rows, ids) && mid == ClaimedInTurn(rows, ids[..|ids| - 1], now)
    requires LastClaimAdds(rows, ids, k)
    ensures ClaimOne(mid, ids[|ids| - 1], now)[k] == ClaimedInTurn(rows, ids, now)[k]
  {
    var id, before := ids[|ids| - 1], ids[..|ids| - 1];
    assert mid[id] == rows[id] || mid[id] == Absorbed(rows[id], now);
    assert OlderFragment(mid, id, k) <==> mid[k].status.Pending? && OlderFragment(rows, id, k);
  }

  /**
   * The plain reading of the claim, in which every claimed row is only locked, is right exactly when
   * no claimed message that is an older fragment of one claimed before it was changed by absorbing it.
   */
  ghost function ClaimedAtOnce(rows: seq<InboundRow>, ids: seq<nat>, now: int): (r: seq<InboundRow>)
    requires RowNumbers(rows, ids)
    ensures |r| == |rows|
  {
    seq(|rows|, k requires 0 <= k < |rows| =>
      if k in ids then Locked(rows[k], now)
      else if AbsorbedBySome(rows, ids, k) then Absorbed(rows[k], now)
      else rows[k])
  }

  lemma ClaimIsAtOnceIff(rows: seq<InboundRow>, ids: seq<nat>, now: int)
    requires RowNumbers(rows, ids) && Distinct(ids) && AllPending(rows, ids)
    ensures ClaimAll(rows, ids, now) == ClaimedAtOnce(rows, ids, now) <==>
              forall x, y :: 0 <= x < y < |ids| && OlderFragment(rows, ids[x], ids[y]) ==> rows[ids[y]].processedAt == Some(now)
  {
    ClaimIsInTurn(rows, ids, now);
    if forall x, y :: 0 <= x < y < |ids| && OlderFragment(rows, ids[x], ids[y]) ==> rows[ids[y]].processedAt == Some(now) {
      forall k | 0 <= k < |rows| ensures ClaimedInTurn(rows, ids, now)[k] == ClaimedAtOnce(rows, ids, now)[k] {
        AbsorbingLeftNoMark(rows, ids, now, k);
      }
    } else {
      var x, y :| 0 <= x < y < |ids| && OlderFragment(rows, ids[x], ids[y]) && rows[ids[y]].processedAt != Some(now);
      AbsorbingLeftAMark(rows, ids, now, x, y);
    }
  }

  lemma AbsorbingLeftAMark(rows: seq<InboundRow>, ids: seq<nat>, now: int, x: nat, y: nat)
    requires RowNumbers(rows, ids) && x < y < |ids| && OlderFragment(rows, ids[x], ids[y]) && rows[ids[y]].processedAt != Some(now)
    ensures ClaimedInTurn(rows, ids, now)[ids[y]] != ClaimedAtOnce(rows, ids, now)[ids[y]]
  {
    assert AbsorbedBefore(rows, ids, ids[y]) && ids[y] in ids;
  }

  lemma AbsorbingLeftNoMark(rows: seq<InboundRow>, ids: seq<nat>, now: int, k: nat)
    requires RowNumbers(rows, ids) && AllPending(rows, ids) && k < |rows|
    requires forall x, y :: 0 <= x < y < |ids| && OlderFragment(rows, ids[x], ids[y]) ==> rows[ids[y]].processedAt == Some(now)
    ensures ClaimedInTurn(rows, ids, now)[k] == ClaimedAtOnce(rows, ids, now)[k]
  {
    if AbsorbedBefore(rows, ids, k) {
      assert rows[k].processedAt == Some(now);
    }
  }

  /** Whether row `k` belongs to the conversation of a claimed, buffered message. */
  ghost predicate TouchedConversation(rows: seq<InboundRow>, ids: seq<nat>, k: nat)
    requires RowNumbers(rows, ids) && k < |rows|
  {
    exists x :: 0 <= x < |ids| && Buffered(rows[ids[x]]) && SameConversation(rows[k], rows[ids[x]])
  }

  /** Every claimed message was pending and past both deadlines. */
  ghost predicate AllDue(rows: seq<InboundRow>, ids: seq<nat>, now: int)
    requires RowNumbers(rows, ids)
  {
    forall x :: 0 <= x < |ids| ==>
      && rows[ids[x]].status.Pending?
      && Due(rows[ids[x]].processAfterAt, now) && Due(rows[ids[x]].nextAttemptAt, now)
  }

  /** No pending message of a claimed fragment's conversation was newer, and none is left pending. */
  ghost predicate NewestAndDrained(rows: seq<InboundRow>, after: seq<InboundRow>, ids: seq<nat>)
    requires RowNumbers(rows, ids) && |after| == |rows|
  {
    forall x, k :: 0 <= x < |ids| && Buffered(rows[ids[x]]) && 0 <= k < |rows| && SameConversation(rows[k], rows[ids[x]]) ==>
      && (rows[k].status.Pending? ==> rows[k].createdAt <= rows[ids[x]].createdAt)
      && !after[k].status.Pending?
  }

  ghost predicate OnePerConversation(rows: seq<InboundRow>, ids: seq<nat>)
    requires RowNumbers(rows, ids)
  {
    forall x, y :: 0 <= x < y < |ids| && Buffered(rows[ids[x]]) && Buffered(rows[ids[y]])
      ==> !SameConversation(rows[ids[x]], rows[ids[y]])
  }

  ghost predicate OthersUntouched(rows: seq<InboundRow>, after: seq<InboundRow>, ids: seq<nat>)
    requires RowNumbers(rows, ids) && |after| == |rows|
  {
    forall k :: 0 <= k < |rows| && k !in ids && !TouchedConversation(rows, ids, k) ==> after[k] == rows[k]
  }

  lemma NewestOfItsConversation(rows: seq<InboundRow>, ids: seq<nat>, now: int, x: nat, k: nat)
    requires RowNumbers(rows, ids) && x < |ids| && k < |rows| && Eligible(rows, ids[x], now)
    requires Buffered(rows[ids[x]]) && SameConversation(rows[k], rows[ids[x]])
    ensures rows[k].status.Pending? ==> rows[k].createdAt <= rows[ids[x]].createdAt
    ensures !ClaimedInTurn(rows, ids, now)[k].status.Pending?
  {
    assert !HasNewerFragment(rows, ids[x]);
    if rows[k].status.Pending? && k !in ids {
      assert ids[x] in ids;
      assert OlderFragment(rows, ids[x], k);
    }
  }

  /**
   * The debounced claim, for every inbox: every claimed message was pending and past both deadlines,
   * and, in a debounced conversation, no pending one was newer; afterwards that conversation has no
   * pending message left; rows of other conversations that were not claimed are untouched; and what
   * became history is exactly the older pending fragments.
   */
  lemma DebouncedClaim(rows: seq<InboundRow>, now: int, limit: nat)
    ensures
      var ids := SelectPending(rows, now, limit);
      && RowNumbers(rows, ids) && Distinct(ids) && |ids| <= limit && AllDue(rows, ids, now)
      && var after := ClaimAll(rows, ids, now);
         after == ClaimedInTurn(rows, ids, now) && NewestAndDrained(rows, after, ids) && OthersUntouched(rows, after, ids)
  {
    var ids := SelectPending(rows, now, limit);
    SelectedAreEligible(rows, now, limit);
    forall x | 0 <= x < |ids| ensures Eligible(rows, ids[x], now) {
      assert ids[x] in ids;
    }
    ClaimIsInTurn(rows, ids, now);
    var after := ClaimedInTurn(rows, ids, now);
    forall x, k | 0 <= x < |ids| && Buffered(rows[ids[x]]) && 0 <= k < |rows| && SameConversation(rows[k], rows[ids[x]])
      ensures rows[k].status.Pending? ==> rows[k].createdAt <= rows[ids[x]].createdAt
      ensures !after[k].status.Pending?
    {
      NewestOfItsConversation(rows, ids, now, x, k);
    }
    assert forall k :: 0 <= k < |rows| && AbsorbedBySome(rows, ids, k) ==> TouchedConversation(rows, ids, k);
  }

  /** Two different messages of one debounced conversation could both be claimed now, being equally new. */
  ghost predicate TiedNewest(rows: seq<InboundRow>, now: int) {
    exists i, j :: 0 <= i < |rows| && 0 <= j < |rows| && Tied(rows, now, i, j)
  }

  predicate Tied(rows: seq<InboundRow>, now: int, i: nat, j: nat)
    requires i < |rows| && j < |rows|
  {
    && i != j && Eligible(rows, i, now) && Eligible(rows, j, now)
    && Buffered(rows[i]) && Buffered(rows[j]) && SameConversation(rows[i], rows[j])
    && rows[i].createdAt == rows[j].createdAt
  }

  /**
   * A batch takes at most one message of each debounced conversation, whatever its size, if and only
   * if no conversation has two equally new messages ready to be claimed.
   */
  lemma OnePerConversationIff(rows: seq<InboundRow>, now: int)
    ensures (forall limit: nat :: RowNumbers(rows, SelectPending(rows, now, limit))
                                  && OnePerConversation(rows, SelectPending(rows, now, limit)))
       <==> !TiedNewest(rows, now)
  {
    if TiedNewest(rows, now) {
      var i, j :| 0 <= i < |rows| && 0 <= j < |rows| && Tied(rows, now, i, j);
      TieIsClaimedTwice(rows, now, i, j);
    } else {
      forall limit: nat ensures RowNumbers(rows, SelectPending(rows, now, limit))
                                && OnePerConversation(rows, SelectPending(rows, now, limit))
      {
        UntiedBatchIsOnePerConversation(rows, now, limit);
      }
    }
  }

  lemma TieIsClaimedTwice(rows: seq<InboundRow>, now: int, i: nat, j: nat)
    requires i < |rows| && j < |rows| && Tied(rows, now, i, j)
    ensures exists limit: nat :: RowNumbers(rows, SelectPending(rows, now, limit))
                                 && !OnePerConversation(rows, SelectPending(rows, now, limit))
  {
    var limit := |EligibleIds(rows, now, |rows|)| + 1;
    var ids := SelectPending(rows, now, limit);
    SelectedAreEligible(rows, now, limit);
    SortIsPermutation(ByCreation(rows), EligibleIds(rows, now, |rows|));
    assert |ids| != limit;
    var x :| 0 <= x < |ids| && ids[x] == i;
    var y :| 0 <= y < |ids| && ids[y] == j;
    assert SameConversation(rows[ids[x]], rows[ids[y]]) && SameConversation(rows[ids[y]], rows[ids[x]]);
    assert !OnePerConversation(rows, ids);
  }

  lemma UntiedBatchIsOnePerConversation(rows: seq<InboundRow>, now: int, limit: nat)
    requires !TiedNewest(rows, now)
    ensures RowNumbers(rows, SelectPending(rows, now, limit)) && OnePerConversation(rows, SelectPending(rows, now, limit))
  {
    var ids := SelectPending(rows, now, limit);
    SelectedAreEligible(rows, now, limit);
    forall x, y | 0 <= x < y < |ids| && Buffered(rows[ids[x]]) && Buffered(rows[ids[y]])
      ensures !SameConversation(rows[ids[x]], rows[ids[y]])
    {
      assert ids[x] in ids && ids[y] in ids && ids[x] != ids[y];
      assert !HasNewerFragment(rows, ids[x]) && !HasNewerFragment(rows, ids[y]);
      assert !Tied(rows, now, ids[x], ids[y]);
    }
  }

  /** A concrete tie: two newest fragments created at the same instant are both claimed in one batch. */
  lemma EqualTimesAreBothClaimed()
    ensures
      var r := InboundRow("i", "a", Some("5"), "text", Some("oi"), Pending, 0, None, None, None, None, Some(0), 7);
      var rows := [r, r.(messageId := "b")];
      SelectPending(rows, 10, 2) == [0, 1]
  {
    var r := InboundRow("i", "a", Some("5"), "text", Some("oi"), Pending, 0, None, None, None, None, Some(0), 7);
    var rows := [r, r.(messageId := "b")];
    assert Eligible(rows, 0, 10) && Eligible(rows, 1, 10);
    assert EligibleIds(rows, 10, 1) == [0];
    assert EligibleIds(rows, 10, 2) == [0, 1];
    assert SortBy(ByCreation(rows), [1]) == [1];
    assert [0, 1][1..] == [1];
  }

  // ------------------------------------------------------------- registration

  /** A duplicate changes nothing and so does not reset the quiet period; a new fragment resets it for all. */
  lemma RegistrationDebounces(rows: seq<InboundRow>, m: Incoming, bufferSeconds: int, now: int, createdAt: int)
    ensures
      var (after, r) := Register(rows, m, bufferSeconds, now, createdAt);
      && (!r.Created? ==> after == rows)
      && (r.Duplicate? ==> r.id < |rows| && Some(rows[r.id].messageId) == m.messageId && rows[r.id].instance == InstanceOf(m))
      && (r.Created? ==>
            && r.id == |rows| && |after| == |rows| + 1
            && (forall k :: 0 <= k < |after| && HasPhone(m.phone) && after[k].status.Pending? && SameConversation(after[k], after[r.id])
                  ==> after[k].processAfterAt == Some(now + bufferSeconds))
            && (forall k :: 0 <= k < |rows| && !(HasPhone(m.phone) && rows[k].status.Pending? && SameConversation(rows[k], after[r.id]))
                  ==> after[k] == rows[k]))
  {
  }

  // ------------------------------------------------------- retry safety over runs

  /** One row of the inbox between transactions. */
  predicate RowOk(r: InboundRow, maxAttempts: nat) {
    && r.attempts <= maxAttempts
    && (r.status.Pending? ==> r.attempts < maxAttempts)
    && (r.status.Processing? <==> r.lockedAt.Some?)
    && (r.status.Processing? ==> 1 <= r.attempts)
    && r.processAfterAt.Some?
  }

  ghost predicate QueueOk(rows: seq<InboundRow>, maxAttempts: nat) {
    forall i :: 0 <= i < |rows| ==> RowOk(rows[i], maxAttempts)
  }

  datatype Event =
    | RegisterEvent(m: Incoming, bufferSeconds: int, now: int, createdAt: int)
    | ClaimEvent(now: int, limit: nat)
    | CompleteEvent(id: nat, at: int)
    | FailEvent(id: nat, error: string, at: int, retryDelay: int)
    | PermanentEvent(id: nat, error: string)
    | ReleaseEvent(staleBefore: int, now: int)

  function Next(rows: seq<InboundRow>, maxAttempts: nat, e: Event): seq<InboundRow> {
    match e
    case RegisterEvent(m, bufferSeconds, now, createdAt) => Register(rows, m, bufferSeconds, now, createdAt).0
    case ClaimEvent(now, limit) => SelectedAreEligible(rows, now, limit); ClaimAll(rows, SelectPending(rows, now, limit), now)
    case CompleteEvent(id, at) => if IsProcessing(rows, id) then rows[id := CompletedRow(rows[id], at)] else rows
    case FailEvent(id, error, at, retryDelay) =>
      if IsProcessing(rows, id) then rows[id := RetriedRow(rows[id], SanitizeError(error), at + retryDelay, maxAttempts)] else rows
    case PermanentEvent(id, error) => if IsProcessing(rows, id) then rows[id := PermanentRow(rows[id], SanitizeError(error))] else rows
    case ReleaseEvent(staleBefore, now) => ReleaseStale(rows, staleBefore, now, maxAttempts)
  }

  function Step(maxAttempts: nat): (seq<InboundRow>, Event) -> seq<InboundRow> {
    (rows, e) => Next(rows, maxAttempts, e)
  }

  function Reach(rows: seq<InboundRow>, maxAttempts: nat, events: seq<Event>): seq<InboundRow> {
    Iterate(Step(maxAttempts), rows, events)
  }

  /** Claims made on row `id` by one step. */
  function ClaimsBy(rows: seq<InboundRow>, e: Event, id: nat): nat {
    if e.ClaimEvent? && id in SelectPending(rows, e.now, e.limit) then 1 else 0
  }

  function ClaimsOn(rows: seq<InboundRow>, maxAttempts: nat, events: seq<Event>, id: nat): nat
    decreases |events|
  {
    if events == [] then 0
    else ClaimsBy(rows, events[0], id) + ClaimsOn(Next(rows, maxAttempts, events[0]), maxAttempts, events[1..], id)
  }

  /** How far a row is from its end: every transition of a row lowers it. */
  function Weight(r: InboundRow, maxAttempts: nat): int {
    if r.status.Pending? then 2 * (maxAttempts - r.attempts)
    else if r.status.Processing? then 2 * (maxAttempts - r.attempts) + 1
    else 0
  }

  /** What one transaction may do to one row. */
  predicate RowStep(before: InboundRow, after: InboundRow, maxAttempts: nat, claims: nat) {
    && RowOk(after, maxAttempts)
    && (before.instance, before.messageId, before.phone, before.createdAt, before.text, before.messageType)
         == (after.instance, after.messageId, after.phone, after.createdAt, after.text, after.messageType)
    && after.attempts == before.attempts + claims
    && (before.status.Completed? || before.status.Failed? ==> after == before && claims == 0)
    && Weight(after, maxAttempts) <= Weight(before, maxAttempts)
    && (after.status != before.status || claims != 0 ==> Weight(after, maxAttempts) < Weight(before, maxAttempts))
  }

  /** Without any assumption on clocks: a claimed row ends up locked once, the others absorbed or untouched. */
  lemma {:induction false} ClaimRowEffect(rows: seq<InboundRow>, ids: seq<nat>, now: int, k: nat)
    requires RowNumbers(rows, ids) && Distinct(ids) && k < |rows|
    requires forall x :: 0 <= x < |ids| ==> rows[ids[x]].status.Pending?
    ensures var after := ClaimAll(rows, ids, now)[k];
            if k in ids then
              after == Locked(rows[k], now) || after == Locked(Absorbed(rows[k], now), now)
            else
              after == rows[k] || (rows[k].status.Pending? && after == Absorbed(rows[k], now))
  {
    if ids != [] {
      var before, id := ids[..|ids| - 1], ids[|ids| - 1];
      assert ids == before + [id];
      ClaimRowEffect(rows, before, now, k);
    }
  }

  lemma ClaimStepsRow(rows: seq<InboundRow>, maxAttempts: nat, now: int, limit: nat, k: nat)
    requires QueueOk(rows, maxAttempts) && k < |rows|
    ensures RowStep(rows[k], Next(rows, maxAttempts, ClaimEvent(now, limit))[k], maxAttempts, ClaimsBy(rows, ClaimEvent(now, limit), k))
  {
    var ids := SelectPending(rows, now, limit);
    SelectedAreEligible(rows, now, limit);
    forall x | 0 <= x < |ids| ensures rows[ids[x]].status.Pending? {
      assert ids[x] in ids;
    }
    ClaimRowEffect(rows, ids, now, k);
    assert RowOk(rows[k], maxAttempts);
    assert k in ids ==> rows[k].status.Pending?;
  }

  lemma EventStepsRow(rows: seq<InboundRow>, maxAttempts: nat, e: Event, k: nat)
    requires QueueOk(rows, maxAttempts) && k < |rows|
    ensures |rows| <= |Next(rows, maxAttempts, e)|
    ensures RowStep(rows[k], Next(rows, maxAttempts, e)[k], maxAttempts, ClaimsBy(rows, e, k))
  {
    assert RowOk(rows[k], maxAttempts);
    if e.ClaimEvent? {
      ClaimStepsRow(rows, maxAttempts, e.now, e.limit, k);
    }
  }

  lemma EventKeepsQueue(rows: seq<InboundRow>, maxAttempts: nat, e: Event)
    requires 0 < maxAttempts && QueueOk(rows, maxAttempts)
    ensures QueueOk(Next(rows, maxAttempts, e), maxAttempts) && |rows| <= |Next(rows, maxAttempts, e)|
    ensures forall k :: |rows| <= k < |Next(rows, maxAttempts, e)| ==> Next(rows, maxAttempts, e)[k].attempts == 0 && e.RegisterEvent?
  {
    var after := Next(rows, maxAttempts, e);
    forall k | 0 <= k < |after| ensures RowOk(after[k], maxAttempts) {
      if k < |rows| {
        EventStepsRow(rows, maxAttempts, e, k);
      }
    }
  }

  /**
   * Retry safety over every run: pending means attempts are left, processing is exactly being
   * locked, attempts equals the number of claims and never exceeds the maximum, and completed and
   * failed rows never change again.
   */
  lemma {:induction false} RetrySafety(rows: seq<InboundRow>, maxAttempts: nat, events: seq<Event>)
    requires 0 < maxAttempts && QueueOk(rows, maxAttempts)
    ensures
      var final := Reach(rows, maxAttempts, events);
      && QueueOk(final, maxAttempts) && |rows| <= |final|
      && (forall i :: 0 <= i < |rows| ==>
            && final[i].attempts == rows[i].attempts + ClaimsOn(rows, maxAttempts, events, i)
            && (rows[i].status.Completed? || rows[i].status.Failed? ==> final[i] == rows[i]))
    decreases |events|
  {
    if events != [] {
      var next := Next(rows, maxAttempts, events[0]);
      EventKeepsQueue(rows, maxAttempts, events[0]);
      RetrySafety(next, maxAttempts, events[1..]);
      forall i | 0 <= i < |rows|
        ensures Reach(rows, maxAttempts, events)[i].attempts == rows[i].attempts + ClaimsOn(rows, maxAttempts, events, i)
        ensures rows[i].status.Completed? || rows[i].status.Failed? ==> Reach(rows, maxAttempts, events)[i] == rows[i]
      {
        EventStepsRow(rows, maxAttempts, events[0], i);
      }
    }
  }

  // --------------------------------------------------------------- termination

  function TotalWeight(rows: seq<InboundRow>, maxAttempts: nat): int {
    SumOf((r: InboundRow) => Weight(r, maxAttempts), rows)
  }

  /** The step moved some row to another status. */
  ghost predicate Moves(before: seq<InboundRow>, after: seq<InboundRow>) {
    exists i :: 0 <= i < |before| <= |after| && before[i].status != after[i].status
  }

  lemma {:induction false} WeightDrops(before: seq<InboundRow>, after: seq<InboundRow>, maxAttempts: nat)
    requires |before| == |after|
    requires forall i :: 0 <= i < |before| ==> Weight(after[i], maxAttempts) <= Weight(before[i], maxAttempts)
    requires forall i :: 0 <= i < |before| && before[i].status != after[i].status ==> Weight(after[i], maxAttempts) < Weight(before[i], maxAttempts)
    ensures TotalWeight(after, maxAttempts) <= TotalWeight(before, maxAttempts) - (if Moves(before, after) then 1 else 0)
  {
    if before != [] {
      WeightDrops(before[1..], after[1..], maxAttempts);
      if Moves(before, after) && before[0].status == after[0].status {
        var i :| 0 <= i < |before| && before[i].status != after[i].status;
        assert before[1..][i - 1] == before[i] && after[1..][i - 1] == after[i];
      }
    }
  }

  /** What `n` messages may spend in all: `2 * maxAttempts` moves each. */
  function Budget(maxAttempts: nat, n: nat): nat {
    if n == 0 then 0 else 2 * maxAttempts + Budget(maxAttempts, n - 1)
  }

  lemma {:induction false} BudgetAdds(maxAttempts: nat, a: nat, b: nat)
    ensures Budget(maxAttempts, a + b) == Budget(maxAttempts, a) + Budget(maxAttempts, b)
  {
    if b != 0 {
      BudgetAdds(maxAttempts, a, b - 1);
    }
  }

  lemma {:induction false} BudgetIsProduct(maxAttempts: nat, n: nat)
    ensures Budget(maxAttempts, n) == 2 * maxAttempts * n
  {
    if n != 0 {
      BudgetIsProduct(maxAttempts, n - 1);
    }
  }

  lemma {:induction false} WeightBounds(rows: seq<InboundRow>, maxAttempts: nat)
    requires QueueOk(rows, maxAttempts)
    ensures 0 <= TotalWeight(rows, maxAttempts) <= Budget(maxAttempts, |rows|)
  {
    if rows != [] {
      assert RowOk(rows[0], maxAttempts);
      assert 0 <= Weight(rows[0], maxAttempts) <= 2 * maxAttempts;
      WeightBounds(rows[1..], maxAttempts);
    }
  }

  ghost function MoveCost(): (seq<InboundRow>, seq<InboundRow>) -> nat {
    (before, after) => if Moves(before, after) then 1 else 0
  }

  /** How many steps of a run move some row; a duplicate, an empty claim or a late mark moves none. */
  ghost function MovingSteps(rows: seq<InboundRow>, maxAttempts: nat, events: seq<Event>): nat {
    TotalCost(Step(maxAttempts), MoveCost(), rows, events)
  }

  lemma EventLowersWeight(rows: seq<InboundRow>, maxAttempts: nat, e: Event)
    requires 0 < maxAttempts && QueueOk(rows, maxAttempts)
    ensures |rows| <= |Next(rows, maxAttempts, e)|
    ensures
      var next := Next(rows, maxAttempts, e);
      TotalWeight(next, maxAttempts) + (if Moves(rows, next) then 1 else 0)
        <= TotalWeight(rows, maxAttempts) + Budget(maxAttempts, |next| - |rows|)
  {
    var next := Next(rows, maxAttempts, e);
    EventKeepsQueue(rows, maxAttempts, e);
    var same := next[..|rows|];
    forall k | 0 <= k < |rows|
      ensures Weight(same[k], maxAttempts) <= Weight(rows[k], maxAttempts)
      ensures rows[k].status != same[k].status ==> Weight(same[k], maxAttempts) < Weight(rows[k], maxAttempts)
    {
      EventStepsRow(rows, maxAttempts, e, k);
    }
    WeightDrops(rows, same, maxAttempts);
    assert Moves(rows, next) ==> Moves(rows, same);
    assert next == same + next[|rows|..];
    SumOfConcat((r: InboundRow) => Weight(r, maxAttempts), same, next[|rows|..]);
    forall k | 0 <= k < |next[|rows|..]| ensures RowOk(next[|rows|..][k], maxAttempts) {
      assert RowOk(next[|rows| + k], maxAttempts);
    }
    WeightBounds(next[|rows|..], maxAttempts);
  }

  /** The weight left, less what the rows have been given: new rows bring exactly their own budget. */
  function Potential(rows: seq<InboundRow>, maxAttempts: nat): int {
    TotalWeight(rows, maxAttempts) - Budget(maxAttempts, |rows|)
  }

  lemma EventLowersPotential(rows: seq<InboundRow>, maxAttempts: nat, e: Event)
    requires 0 < maxAttempts && QueueOk(rows, maxAttempts)
    ensures QueueOk(Next(rows, maxAttempts, e), maxAttempts)
    ensures MoveCost()(rows, Next(rows, maxAttempts, e)) + Potential(Next(rows, maxAttempts, e), maxAttempts) <= Potential(rows, maxAttempts)
  {
    var next := Next(rows, maxAttempts, e);
    EventKeepsQueue(rows, maxAttempts, e);
    EventLowersWeight(rows, maxAttempts, e);
    BudgetAdds(maxAttempts, |rows|, |next| - |rows|);
  }

  lemma RunsTerminate(rows: seq<InboundRow>, maxAttempts: nat, events: seq<Event>)
    requires 0 < maxAttempts && QueueOk(rows, maxAttempts)
    ensures
      var final := Reach(rows, maxAttempts, events);
      && QueueOk(final, maxAttempts)
      && MovingSteps(rows, maxAttempts, events) + Potential(final, maxAttempts) <= Potential(rows, maxAttempts)
  {
    forall t, e | QueueOk(t, maxAttempts)
      ensures QueueOk(Step(maxAttempts)(t, e), maxAttempts)
      ensures MoveCost()(t, Step(maxAttempts)(t, e)) + Potential(Step(maxAttempts)(t, e), maxAttempts) <= Potential(t, maxAttempts)
    {
      EventLowersPotential(t, maxAttempts, e);
    }
    PotentialPays(Step(maxAttempts), MoveCost(), (t: seq<InboundRow>) => QueueOk(t, maxAttempts),
                  (t: seq<InboundRow>) => Potential(t, maxAttempts), rows, events);
  }

  /**
   * Termination: from any sound inbox, however the workers interleave, fail, crash or are released,
   * the rows of a run change status at most `2 * maxAttempts` times per message.
   */
  lemma MovingStepsBound(rows: seq<InboundRow>, maxAttempts: nat, events: seq<Event>)
    requires 0 < maxAttempts && QueueOk(rows, maxAttempts)
    ensures MovingSteps(rows, maxAttempts, events) <= 2 * maxAttempts * |Reach(rows, maxAttempts, events)|
  {
    var final := Reach(rows, maxAttempts, events);
    RunsTerminate(rows, maxAttempts, events);
    assert Potential(rows, maxAttempts) <= 0 by { WeightBounds(rows, maxAttempts); }
    assert 0 <= TotalWeight(final, maxAttempts) by { WeightBounds(final, maxAttempts); }
    BudgetIsProduct(maxAttempts, |final|);
  }

  // --------------------------------------------------------------- total claims

  function TotalAttempts(rows: seq<InboundRow>): int {
    SumOf((r: InboundRow) => r.attempts, rows)
  }

  /** All claims of a run, over all rows and batches. */
  function BatchClaims(rows: seq<InboundRow>, maxAttempts: nat, events: seq<Event>): nat
    decreases |events|
  {
    if events == [] then 0
    else
      (if events[0].ClaimEvent? then |SelectPending(rows, events[0].now, events[0].limit)| else 0)
      + BatchClaims(Next(rows, maxAttempts, events[0]), maxAttempts, events[1..])
  }

  lemma {:induction false} SameAttempts(before: seq<InboundRow>, after: seq<InboundRow>)
    requires |before| == |after| && forall i :: 0 <= i < |before| ==> after[i].attempts == before[i].attempts
    ensures TotalAttempts(after) == TotalAttempts(before)
  {
    if before != [] {
      SameAttempts(before[1..], after[1..]);
    }
  }

  lemma {:induction false} OneMoreAttempt(before: seq<InboundRow>, after: seq<InboundRow>, id: nat)
    requires id < |before| == |after| && after[id].attempts == before[id].attempts + 1
    requires forall i :: 0 <= i < |before| && i != id ==> after[i].attempts == before[i].attempts
    ensures TotalAttempts(after) == TotalAttempts(before) + 1
  {
    if id == 0 {
      SameAttempts(before[1..], after[1..]);
    } else {
      OneMoreAttempt(before[1..], after[1..], id - 1);
    }
  }

  lemma {:induction false} ClaimAttempts(rows: seq<InboundRow>, ids: seq<nat>, now: int)
    requires RowNumbers(rows, ids)
    ensures TotalAttempts(ClaimAll(rows, ids, now)) == TotalAttempts(rows) + |ids|
  {
    if ids != [] {
      var before, id := ids[..|ids| - 1], ids[|ids| - 1];
      ClaimAttempts(rows, before, now);
      var mid := ClaimAll(rows, before, now);
      OneMoreAttempt(mid, ClaimOne(mid, id, now), id);
    }
  }

  lemma EventAttempts(rows: seq<InboundRow>, maxAttempts: nat, e: Event)
    ensures TotalAttempts(Next(rows, maxAttempts, e))
         == TotalAttempts(rows) + (if e.ClaimEvent? then |SelectPending(rows, e.now, e.limit)| else 0)
  {
    var next := Next(rows, maxAttempts, e);
    if e.ClaimEvent? {
      SelectedAreEligible(rows, e.now, e.limit);
      ClaimAttempts(rows, SelectPending(rows, e.now, e.limit), e.now);
    } else if e.RegisterEvent? && |next| > |rows| {
      var same := next[..|rows|];
      SameAttempts(rows, same);
      SumOfSnoc((r: InboundRow) => r.attempts, next, |rows|);
      assert next[..|rows| + 1] == next;
    } else {
      SameAttempts(rows, next);
    }
  }

  lemma {:induction false} AttemptsAreBounded(rows: seq<InboundRow>, maxAttempts: nat)
    requires QueueOk(rows, maxAttempts)
    ensures TotalAttempts(rows) <= maxAttempts * |rows|
  {
    if rows != [] {
      assert RowOk(rows[0], maxAttempts);
      AttemptsAreBounded(rows[1..], maxAttempts);
      assert maxAttempts * |rows| == maxAttempts + maxAttempts * |rows[1..]|;
    }
  }

  lemma {:induction false} ClaimsAreAttempts(rows: seq<InboundRow>, maxAttempts: nat, events: seq<Event>)
    ensures TotalAttempts(Reach(rows, maxAttempts, events)) == TotalAttempts(rows) + BatchClaims(rows, maxAttempts, events)
    decreases |events|
  {
    if events != [] {
      EventAttempts(rows, maxAttempts, events[0]);
      ClaimsAreAttempts(Next(rows, maxAttempts, events[0]), maxAttempts, events[1..]);
    }
  }

  /** Starting empty, all claims of a run together are at most the maximum attempts per message. */
  lemma ClaimBudget(maxAttempts: nat, events: seq<Event>)
    requires 0 < maxAttempts
    ensures BatchClaims([], maxAttempts, events) <= maxAttempts * |Reach([], maxAttempts, events)|
  {
    RetrySafety([], maxAttempts, events);
    ClaimsAreAttempts([], maxAttempts, events);
    AttemptsAreBounded(Reach([], maxAttempts, events), maxAttempts);
  }
}
