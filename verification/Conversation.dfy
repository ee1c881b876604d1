/**
 * The context given to the language model: the fragments of the current burst joined into one text,
 * and the history of everything before it. Every completed text is in exactly one of the two.
 */
module Conversations {
  import opened Prelude
  import opened InboundQueues
  import opened InboundSafety

  // ------------------------------------------------------------------- buffer

  predicate IsTextRow(r: InboundRow) {
    r.messageType == "text" && r.text.Some? && !IsBlank(r.text.value)
  }

  /** A fragment of the current burst: same conversation, same deadline, not newer than the current row. */
  predicate InBurst(rows: seq<InboundRow>, current: nat, k: nat)
    requires current < |rows| && k < |rows|
  {
    && SameConversation(rows[k], rows[current])
    && rows[k].processAfterAt == rows[current].processAfterAt
    && rows[k].createdAt <= rows[current].createdAt
    && IsTextRow(rows[k])
  }

  function BurstIds(rows: seq<InboundRow>, current: nat, n: nat): (ids: seq<nat>)
    requires current < |rows| && n <= |rows|
    ensures Distinct(ids) && forall k: nat :: k in ids <==> k < n && InBurst(rows, current, k)
  {
    if n == 0 then []
    else BurstIds(rows, current, n - 1) + if InBurst(rows, current, n - 1) then [n - 1] else []
  }

  /** The rows whose text makes up the buffer, oldest first. */
  function BufferIds(rows: seq<InboundRow>, current: nat): seq<nat>
    requires current < |rows|
  {
    if rows[current].processAfterAt.None? then
      if rows[current].text.Some? && !IsBlank(rows[current].text.value) then [current] else []
    else SortBy(ByCreation(rows), BurstIds(rows, current, |rows|))
  }

  function TextOf(r: InboundRow): string {
    if r.text.Some? then Strip(r.text.value) else ""
  }

  function Join(parts: seq<string>): string {
    if parts == [] then "" else if |parts| == 1 then parts[0] else parts[0] + " " + Join(parts[1..])
  }

  /** The stripped texts of the burst, in the order of `BufferIds`. */
  function Fragments(rows: seq<InboundRow>, current: nat): (parts: seq<string>)
    requires current < |rows|
    ensures |parts| == |BufferIds(rows, current)|
  {
    BufferIdsAreRows(rows, current);
    var ids := BufferIds(rows, current);
    seq(|ids|, x requires 0 <= x < |ids| => TextOf(rows[ids[x]]))
  }

  /** `_consolidated_buffer_text`. */
  function BufferText(rows: seq<InboundRow>, current: nat): string
    requires current < |rows|
  {
    var joined := Join(Fragments(rows, current));
    if joined != "" then joined else TextOf(rows[current])
  }

  lemma BufferIdsAreRows(rows: seq<InboundRow>, current: nat)
    requires current < |rows|
    ensures var ids := BufferIds(rows, current);
            && Distinct(ids)
            && (forall x :: 0 <= x < |ids| ==> ids[x] < |rows|)
            && (rows[current].processAfterAt.Some? ==> forall k: nat :: k in ids <==> k < |rows| && InBurst(rows, current, k))
  {
    var all := BurstIds(rows, current, |rows|);
    SortIsPermutation(ByCreation(rows), all);
    DistinctSorted(ByCreation(rows), all);
    if rows[current].processAfterAt.Some? {
      forall x | 0 <= x < |BufferIds(rows, current)| ensures BufferIds(rows, current)[x] in all {
      }
    }
  }

  /** A joined text is its part `p`, with the parts before it and after it set off by one blank. */
  function Around(parts: seq<string>, p: nat): string
    requires p < |parts|
  {
    (if p == 0 then "" else Join(parts[..p]) + " ") + parts[p] + (if p == |parts| - 1 then "" else " " + Join(parts[p + 1..]))
  }

  lemma {:induction false} JoinAround(parts: seq<string>, p: nat)
    requires p < |parts|
    ensures Join(parts) == Around(parts, p)
  {
    if p > 0 {
      var rest, lead := parts[1..], parts[0] + " ";
      JoinAround(rest, p - 1);
      assert rest[p..] == parts[p + 1..] && rest[..p - 1] == parts[..p][1..];
      var tail := if p == |parts| - 1 then "" else " " + Join(parts[p + 1..]);
      assert Join(parts) == lead + Join(rest);
      if p == 1 {
        assert Join(parts[..1]) == parts[0];
        Regroup(lead, "", "", parts[p], tail);
      } else {
        assert Join(parts[..p]) == lead + Join(rest[..p - 1]);
        Regroup(lead, Join(rest[..p - 1]), " ", parts[p], tail);
      }
    }
  }

  lemma Regroup(lead: string, front: string, gap: string, part: string, tail: string)
    ensures lead + (((front + gap) + part) + tail) == (((lead + front) + gap) + part) + tail
  {
  }

  /**
   * The text handed to the model: the stripped, non-empty texts of the burst, oldest first, joined by
   * blanks. The fallback to the message's own text is taken only when the burst has no text at all,
   * and a text message is always part of its own burst.
   */
  lemma BufferTextIsTheBurst(rows: seq<InboundRow>, current: nat)
    requires current < |rows|
    ensures
      var ids, parts := BufferIds(rows, current), Fragments(rows, current);
      && (forall x :: 0 <= x < |ids| ==> ids[x] < |rows| && parts[x] == TextOf(rows[ids[x]]) && parts[x] != "")
      && (forall x, y :: 0 <= x < y < |ids| ==> rows[ids[x]].createdAt <= rows[ids[y]].createdAt)
      && BufferText(rows, current) == (if ids == [] then TextOf(rows[current]) else Join(parts))
      && (rows[current].phone.Some? && IsTextRow(rows[current]) ==> current in ids)
  {
    PartsAreTexts(rows, current);
    OldestFirst(rows, current);
    CurrentIsInItsBurst(rows, current);
    var ids, parts := BufferIds(rows, current), Fragments(rows, current);
    if ids != [] {
      JoinAround(parts, 0);
      assert parts[0] <= Join(parts);
    }
  }

  lemma PartsAreTexts(rows: seq<InboundRow>, current: nat)
    requires current < |rows|
    ensures
      var ids, parts := BufferIds(rows, current), Fragments(rows, current);
      forall x :: 0 <= x < |ids| ==> ids[x] < |rows| && parts[x] == TextOf(rows[ids[x]]) && parts[x] != ""
  {
    BufferIdsAreRows(rows, current);
    var ids := BufferIds(rows, current);
    forall x | 0 <= x < |ids| ensures ids[x] < |rows| && TextOf(rows[ids[x]]) != "" {
      assert ids[x] in ids;
    }
  }

  lemma CurrentIsInItsBurst(rows: seq<InboundRow>, current: nat)
    requires current < |rows|
    ensures rows[current].phone.Some? && IsTextRow(rows[current]) ==> current in BufferIds(rows, current)
  {
    BufferIdsAreRows(rows, current);
  }

  lemma OldestFirst(rows: seq<InboundRow>, current: nat)
    requires current < |rows|
    ensures
      var ids := BufferIds(rows, current);
      forall x, y :: 0 <= x < y < |ids| ==> ids[x] < |rows| && ids[y] < |rows| && rows[ids[x]].createdAt <= rows[ids[y]].createdAt
  {
    BufferIdsAreRows(rows, current);
    assert TotalPreorder(ByCreation(rows));
    SortIsSorted(ByCreation(rows), BurstIds(rows, current, |rows|));
    var ids := BufferIds(rows, current);
    forall x, y | 0 <= x < y < |ids| ensures ids[x] < |rows| && ids[y] < |rows| && rows[ids[x]].createdAt <= rows[ids[y]].createdAt {
      assert ByCreation(rows)(ids[x], ids[y]);
    }
  }

  // ------------------------------------------------------------------ history

  /** One line of the conversation; replies, audio and image texts come from other tables. */
  datatype Entry =
    | FromRow(id: nat, createdAt: int, content: string)
    | FromElsewhere(createdAt: int, content: string)

  /** The filters of the history query on text rows. */
  predicate InHistory(rows: seq<InboundRow>, current: nat, k: nat)
    requires current < |rows| && k < |rows|
  {
    && SameConversation(rows[k], rows[current]) && k != current
    && rows[k].messageType == "text" && rows[k].status.Completed?
    && rows[k].text.Some? && !OnlySpaces(rows[k].text.value)
    && (rows[current].processAfterAt.Some? ==> rows[k].processAfterAt != rows[current].processAfterAt)
  }

  /** SQL `trim(text) = ''`: it strips blanks only, where the final filter strips all white space. */
  predicate OnlySpaces(s: string) {
    forall i :: 0 <= i < |s| ==> s[i] == ' '
  }

  /** The line that row `k` would contribute. */
  function RowEntry(rows: seq<InboundRow>, k: nat): Entry
    requires k < |rows| && rows[k].text.Some?
  {
    FromRow(k, rows[k].createdAt, rows[k].text.value)
  }

  function HistoryRows(rows: seq<InboundRow>, current: nat, n: nat): (entries: seq<Entry>)
    requires current < |rows| && n <= |rows|
    ensures Distinct(entries)
    ensures forall e :: e in entries <==>
      e.FromRow? && e.id < n && InHistory(rows, current, e.id) && e == RowEntry(rows, e.id)
  {
    if n == 0 then []
    else HistoryRows(rows, current, n - 1) + if InHistory(rows, current, n - 1) then [RowEntry(rows, n - 1)] else []
  }

  predicate NewestFirst(a: Entry, b: Entry) {
    a.createdAt >= b.createdAt
  }

  function Reverse<T>(xs: seq<T>): seq<T> {
    if xs == [] then [] else Reverse(xs[1..]) + [xs[0]]
  }

  /** `get_recent_conversation`: the newest `limit` entries, in chronological order, blanks dropped. */
  function History(rows: seq<InboundRow>, current: nat, elsewhere: seq<Entry>, limit: nat): seq<Entry>
    requires current < |rows|
  {
    var combined := HistoryRows(rows, current, |rows|) + elsewhere;
    Filter((e: Entry) => !IsBlank(e.content), Reverse(Take(SortBy(NewestFirst, combined), limit)))
  }

  lemma {:induction false} ReverseIsPermutation<T>(xs: seq<T>)
    ensures multiset(Reverse(xs)) == multiset(xs)
  {
    if xs != [] {
      assert xs == [xs[0]] + xs[1..];
      ReverseIsPermutation(xs[1..]);
    }
  }

  // ---------------------------------------------------------------- partition

  lemma CountInDistinct<T(!new)>(xs: seq<T>, x: T)
    requires Distinct(xs)
    ensures multiset(xs)[x] == if x in xs then 1 else 0
  {
    DistinctIffOnce(xs);
    assert x in xs <==> x in multiset(xs);
  }

  lemma CountConcat<T>(xs: seq<T>, ys: seq<T>, e: T)
    requires e !in ys
    ensures multiset(xs + ys)[e] == multiset(xs)[e]
  {
  }

  lemma HistoryCount(rows: seq<InboundRow>, current: nat, elsewhere: seq<Entry>, limit: nat, k: nat)
    requires current < |rows| && k < |rows| && IsTextRow(rows[k])
    requires forall x :: 0 <= x < |elsewhere| ==> elsewhere[x].FromElsewhere?
    requires |HistoryRows(rows, current, |rows|)| + |elsewhere| <= limit
    ensures multiset(History(rows, current, elsewhere, limit))[RowEntry(rows, k)] == if InHistory(rows, current, k) then 1 else 0
  {
    var e := RowEntry(rows, k);
    var own := HistoryRows(rows, current, |rows|);
    var combined := own + elsewhere;
    CountInDistinct(own, e);
    assert e !in elsewhere;
    CountConcat(own, elsewhere, e);
    HistoryKeepsCounts(combined, limit, e);
  }

  /** Sorting, reversing and dropping blank lines keep how often a line that is not blank occurs. */
  lemma HistoryKeepsCounts(combined: seq<Entry>, limit: nat, e: Entry)
    requires |combined| <= limit && !IsBlank(e.content)
    ensures multiset(Filter((x: Entry) => !IsBlank(x.content), Reverse(Take(SortBy(NewestFirst, combined), limit))))[e]
         == multiset(combined)[e]
  {
    SortIsPermutation(NewestFirst, combined);
    var sorted := SortBy(NewestFirst, combined);
    assert Take(sorted, limit) == sorted;
    ReverseIsPermutation(sorted);
    FilterCount((x: Entry) => !IsBlank(x.content), Reverse(sorted), e);
  }

  lemma NonBlankHasNonSpace(s: string)
    requires !IsBlank(s)
    ensures !OnlySpaces(s)
  {
    if OnlySpaces(s) {
      SpacesStripToNothing(s);
    }
  }

  lemma {:induction false} SpacesStripToNothing(s: string)
    requires OnlySpaces(s)
    ensures Strip(s) == ""
  {
    if s != "" {
      SpacesStripToNothing(s[1..]);
    }
  }

  /**
   * Partition: while the history limit is not reached, every completed, non-blank text of the
   * conversation that is no newer than the current message appears exactly once in what the model
   * sees: either as a fragment of the buffer or as a line of the history, never in both.
   */
  lemma {:induction false} ExactlyOnceInContext(rows: seq<InboundRow>, current: nat, elsewhere: seq<Entry>, limit: nat, k: nat)
    requires current < |rows| && k < |rows| && k != current
    requires SameConversation(rows[k], rows[current]) && rows[k].status.Completed? && IsTextRow(rows[k])
    requires rows[k].createdAt <= rows[current].createdAt
    requires forall x :: 0 <= x < |elsewhere| ==> elsewhere[x].FromElsewhere?
    requires |HistoryRows(rows, current, |rows|)| + |elsewhere| <= limit
    ensures multiset(BufferIds(rows, current))[k] + multiset(History(rows, current, elsewhere, limit))[RowEntry(rows, k)] == 1
  {
    BufferIdsAreRows(rows, current);
    CountInDistinct(BufferIds(rows, current), k);
    HistoryCount(rows, current, elsewhere, limit, k);
    NonBlankHasNonSpace(rows[k].text.value);
  }

  /** The consolidated text holds the text of row `k`, in the place of that row. */
  ghost predicate ShownInBuffer(rows: seq<InboundRow>, current: nat, k: nat)
    requires current < |rows| && k < |rows|
  {
    var ids, parts := BufferIds(rows, current), Fragments(rows, current);
    exists p: nat :: p < |ids| && ids[p] == k && parts[p] == TextOf(rows[k]) && BufferText(rows, current) == Around(parts, p)
  }

  lemma ShownIffInBurst(rows: seq<InboundRow>, current: nat, k: nat)
    requires current < |rows| && k < |rows|
    ensures ShownInBuffer(rows, current, k) <==> k in BufferIds(rows, current)
  {
    var ids, parts := BufferIds(rows, current), Fragments(rows, current);
    if k in ids {
      var p :| 0 <= p < |ids| && ids[p] == k;
      BufferTextIsTheBurst(rows, current);
      JoinAround(parts, p);
      assert BufferText(rows, current) == Around(parts, p);
    }
  }

  /**
   * The partition in terms of what the model reads: such a text is either part of the consolidated
   * text, at its place, or a line of the history, and never both.
   */
  lemma {:induction false} TextIsReadOnce(rows: seq<InboundRow>, current: nat, elsewhere: seq<Entry>, limit: nat, k: nat)
    requires current < |rows| && k < |rows| && k != current
    requires SameConversation(rows[k], rows[current]) && rows[k].status.Completed? && IsTextRow(rows[k])
    requires rows[k].createdAt <= rows[current].createdAt
    requires forall x :: 0 <= x < |elsewhere| ==> elsewhere[x].FromElsewhere?
    requires |HistoryRows(rows, current, |rows|)| + |elsewhere| <= limit
    ensures ShownInBuffer(rows, current, k) <==> RowEntry(rows, k) !in History(rows, current, elsewhere, limit)
  {
    ExactlyOnceInContext(rows, current, elsewhere, limit, k);
    ShownIffInBurst(rows, current, k);
    var ids, e, history := BufferIds(rows, current), RowEntry(rows, k), History(rows, current, elsewhere, limit);
    assert k in ids <==> k in multiset(ids);
    assert e in history <==> e in multiset(history);
  }

  /** The current message itself is in its own buffer once and never in its history. */
  lemma {:induction false} CurrentIsOnlyInBuffer(rows: seq<InboundRow>, current: nat, elsewhere: seq<Entry>, limit: nat)
    requires current < |rows| && HasPhone(rows[current].phone) && IsTextRow(rows[current])
    requires forall x :: 0 <= x < |elsewhere| ==> elsewhere[x].FromElsewhere?
    requires |HistoryRows(rows, current, |rows|)| + |elsewhere| <= limit
    ensures multiset(BufferIds(rows, current))[current] == 1
    ensures multiset(History(rows, current, elsewhere, limit))[RowEntry(rows, current)] == 0
  {
    BufferIdsAreRows(rows, current);
    CountInDistinct(BufferIds(rows, current), current);
    HistoryCount(rows, current, elsewhere, limit, current);
  }

  /** A row that a claim turned into history, seen from the claimed message. */
  lemma AbsorbedRow(rows: seq<InboundRow>, now: int, batch: nat, current: nat, k: nat)
    requires current in SelectPending(rows, now, batch) && k !in SelectPending(rows, now, batch)
    requires current < |rows| && k < |rows| && OlderFragment(rows, current, k)
    ensures RowNumbers(rows, SelectPending(rows, now, batch))
    ensures
      var after := ClaimAll(rows, SelectPending(rows, now, batch), now);
      && after[k] == Absorbed(rows[k], now)
      && after[current].instance == rows[current].instance && after[current].phone == rows[current].phone
      && after[current].createdAt == rows[current].createdAt
  {
    DebouncedClaim(rows, now, batch);
    var ids := SelectPending(rows, now, batch);
    var x :| 0 <= x < |ids| && ids[x] == current;
    assert AbsorbedBySome(rows, ids, k);
  }

  /**
   * Debouncing loses no text: whatever a claim turns into history unanswered reaches the model
   * exactly once, in the consolidated text or as a line, when the claimed message is handled.
   */
  lemma {:induction false} AbsorbedTextIsKept(rows: seq<InboundRow>, now: int, batch: nat, current: nat, k: nat,
                                              elsewhere: seq<Entry>, limit: nat)
    requires current in SelectPending(rows, now, batch) && k !in SelectPending(rows, now, batch)
    requires current < |rows| && k < |rows| && OlderFragment(rows, current, k) && IsTextRow(rows[k])
    requires forall x :: 0 <= x < |elsewhere| ==> elsewhere[x].FromElsewhere?
    requires RowNumbers(rows, SelectPending(rows, now, batch))
    requires var after := ClaimAll(rows, SelectPending(rows, now, batch), now);
             |HistoryRows(after, current, |after|)| + |elsewhere| <= limit
    ensures
      var after := ClaimAll(rows, SelectPending(rows, now, batch), now);
      && after[k].status.Completed? && rows[k].text == after[k].text && after[k].text.Some?
      && (ShownInBuffer(after, current, k) <==> RowEntry(after, k) !in History(after, current, elsewhere, limit))
  {
    AbsorbedRow(rows, now, batch, current, k);
    TextIsReadOnce(ClaimAll(rows, SelectPending(rows, now, batch), now), current, elsewhere, limit, k);
  }

  /** Beyond the limit the history forgets the oldest entries: every dropped one is no newer than every kept one. */
  lemma HistoryKeepsTheNewest(rows: seq<InboundRow>, current: nat, elsewhere: seq<Entry>, limit: nat, kept: nat, dropped: nat)
    requires current < |rows|
    requires var all := SortBy(NewestFirst, HistoryRows(rows, current, |rows|) + elsewhere);
             kept < limit <= dropped < |all|
    ensures var all := SortBy(NewestFirst, HistoryRows(rows, current, |rows|) + elsewhere);
            all[kept] == Take(all, limit)[kept] && all[dropped].createdAt <= all[kept].createdAt
  {
    var combined := HistoryRows(rows, current, |rows|) + elsewhere;
    SortIsSorted(NewestFirst, combined);
  }
}
