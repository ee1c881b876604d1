/** Reconciling a chair's stored opening hours with the shop's catalog. */
module HoursSeeds {
  import opened Prelude
  import opened Calendar
  import opened Agenda

  datatype WeekIntervalRecord = WeekInterval(weekday: Weekday, opensAt: TimeOfDay, closesAt: TimeOfDay)

  type WeekInterval = w: WeekIntervalRecord | w.opensAt < w.closesAt witness WeekInterval(0, 0, 1)

  datatype SeedCounts = SeedCounts(created: int, updated: int, kept: int)

  predicate Mine(r: HoursRow, instance: Key, resource: Key) {
    r.instance == instance && r.resource == resource
  }

  function IntervalOf(r: HoursRow): WeekInterval {
    WeekInterval(r.weekday, r.opensAt, r.closesAt)
  }

  /** The intervals a chair has rows for. */
  function Stored(rows: seq<HoursRow>, instance: Key, resource: Key): set<WeekInterval> {
    set i | 0 <= i < |rows| && Mine(rows[i], instance, resource) :: IntervalOf(rows[i])
  }

  function Active(rows: seq<HoursRow>, instance: Key, resource: Key): set<WeekInterval> {
    set i | 0 <= i < |rows| && Mine(rows[i], instance, resource) && rows[i].active :: IntervalOf(rows[i])
  }

  /** `uq_business_hours_exact_interval`. */
  ghost predicate UniqueIntervals(rows: seq<HoursRow>) {
    forall i, j :: 0 <= i < j < |rows| && rows[i].instance == rows[j].instance && rows[i].resource == rows[j].resource
      ==> IntervalOf(rows[i]) != IntervalOf(rows[j])
  }

  function FindInterval(rows: seq<HoursRow>, instance: Key, resource: Key, w: WeekInterval): (r: Option<nat>)
    ensures r.Some? ==> r.value < |rows| && Mine(rows[r.value], instance, resource) && IntervalOf(rows[r.value]) == w
    ensures r.None? <==> w !in Stored(rows, instance, resource)
  {
    if rows == [] then None
    else
      var last := |rows| - 1;
      assert Stored(rows, instance, resource)
          == Stored(rows[..last], instance, resource) + (if Mine(rows[last], instance, resource) then {IntervalOf(rows[last])} else {}) by {
        StoredSnoc(rows, instance, resource);
      }
      if Mine(rows[last], instance, resource) && IntervalOf(rows[last]) == w then Some(last)
      else FindInterval(rows[..last], instance, resource, w)
  }

  lemma StoredSnoc(rows: seq<HoursRow>, instance: Key, resource: Key)
    requires rows != []
    ensures var last := |rows| - 1;
            Stored(rows, instance, resource)
              == Stored(rows[..last], instance, resource) + if Mine(rows[last], instance, resource) then {IntervalOf(rows[last])} else {}
  {
    var last := |rows| - 1;
    forall w | w in Stored(rows, instance, resource)
      ensures w in Stored(rows[..last], instance, resource) || (Mine(rows[last], instance, resource) && w == IntervalOf(rows[last]))
    {
      var i :| 0 <= i < |rows| && Mine(rows[i], instance, resource) && IntervalOf(rows[i]) == w;
      assert i < last ==> rows[..last][i] == rows[i];
    }
    forall w | w in Stored(rows[..last], instance, resource) ensures w in Stored(rows, instance, resource) {
      var i :| 0 <= i < last && Mine(rows[..last][i], instance, resource) && IntervalOf(rows[..last][i]) == w;
      assert rows[i] == rows[..last][i];
    }
  }

  // ------------------------------------------------------------ what a seed does

  /** The stored rows after a reconciling seed: flags follow the catalog, missing intervals are added. */
  ghost predicate Reconciled(before: seq<HoursRow>, after: seq<HoursRow>, instance: Key, resource: Key, desired: set<WeekInterval>) {
    && |after| == |before| + |desired - Stored(before, instance, resource)|
    && (forall i :: 0 <= i < |before| ==>
          after[i] == if Mine(before[i], instance, resource) then before[i].(active := IntervalOf(before[i]) in desired) else before[i])
    && (forall i :: |before| <= i < |after| ==>
          Mine(after[i], instance, resource) && after[i].active && IntervalOf(after[i]) in desired - Stored(before, instance, resource))
    && Active(after, instance, resource) == desired
    && Stored(after, instance, resource) == Stored(before, instance, resource) + desired
  }

  /** The counters as sizes of set differences and intersections. */
  predicate ReconciledCounts(stored: set<WeekInterval>, active: set<WeekInterval>, desired: set<WeekInterval>, c: SeedCounts) {
    && c.created == |desired - stored|
    && c.updated == |desired * stored - active| + |active - desired|
    && c.kept == |desired * active|
  }

  /** A seed that only fills gaps leaves every stored row alone. */
  ghost predicate GapsFilled(before: seq<HoursRow>, after: seq<HoursRow>, instance: Key, resource: Key, desired: set<WeekInterval>) {
    && before <= after && |after| == |before| + |desired - Stored(before, instance, resource)|
    && (forall i :: |before| <= i < |after| ==>
          Mine(after[i], instance, resource) && after[i].active && IntervalOf(after[i]) in desired - Stored(before, instance, resource))
    && Stored(after, instance, resource) == Stored(before, instance, resource) + desired
  }

  // ---------------------------------------------------------------- the passes

  /** The rows that were there: catalog intervals visited so far are active again, the rest is as before. */
  ghost predicate Revisited(before: seq<HoursRow>, rows: seq<HoursRow>, instance: Key, resource: Key, done: set<WeekInterval>, update: bool) {
    && |before| <= |rows|
    && forall i :: 0 <= i < |before| ==>
         rows[i] == if update && Mine(before[i], instance, resource) && IntervalOf(before[i]) in done
                    then before[i].(active := true) else before[i]
  }

  /** The rows added: one active row for each visited interval that had none. */
  ghost predicate Additions(count: nat, stored: set<WeekInterval>, rows: seq<HoursRow>, instance: Key, resource: Key, done: set<WeekInterval>) {
    && |rows| == count + |done - stored|
    && (forall i :: count <= i < |rows| ==>
          Mine(rows[i], instance, resource) && rows[i].active && IntervalOf(rows[i]) in done && IntervalOf(rows[i]) !in stored)
    && (forall i, j :: count <= i < j < |rows| ==> IntervalOf(rows[i]) != IntervalOf(rows[j]))
  }

  /** First pass, so far: `done` are the catalog intervals visited, `stored` those that had a row before. */
  ghost predicate FirstPass(before: seq<HoursRow>, stored: set<WeekInterval>, rows: seq<HoursRow>, instance: Key, resource: Key,
                            done: set<WeekInterval>, update: bool)
  {
    && Revisited(before, rows, instance, resource, done, update)
    && Additions(|before|, stored, rows, instance, resource, done)
    && (forall w :: w in done && w !in stored ==> Appended(before, rows, w))
  }

  ghost predicate Appended(before: seq<HoursRow>, rows: seq<HoursRow>, w: WeekInterval) {
    exists i :: |before| <= i < |rows| && IntervalOf(rows[i]) == w
  }

  predicate FirstCounts(stored: set<WeekInterval>, active: set<WeekInterval>, done: set<WeekInterval>, update: bool, c: SeedCounts) {
    && c.created == |done - stored|
    && c.updated == (if update then |done * stored - active| else 0)
    && c.kept == (if update then |done * active| else |done * stored|)
  }

  ghost predicate Progress(before: seq<HoursRow>, rows: seq<HoursRow>, instance: Key, resource: Key,
                           done: set<WeekInterval>, update: bool, c: SeedCounts)
  {
    && FirstPass(before, Stored(before, instance, resource), rows, instance, resource, done, update)
    && FirstCounts(Stored(before, instance, resource), Active(before, instance, resource), done, update, c)
  }

  /** What visiting one catalog interval does to the counters. */
  function Visit(c: SeedCounts, isStored: bool, isActive: bool, update: bool): SeedCounts {
    if !isStored then c.(created := c.created + 1)
    else if !update || isActive then c.(kept := c.kept + 1)
    else c.(updated := c.updated + 1)
  }

  lemma ActiveIsStored(rows: seq<HoursRow>, instance: Key, resource: Key)
    ensures Active(rows, instance, resource) <= Stored(rows, instance, resource)
  {
  }

  lemma ActiveByRow(rows: seq<HoursRow>, instance: Key, resource: Key, i: nat)
    requires UniqueIntervals(rows) && i < |rows| && Mine(rows[i], instance, resource)
    ensures IntervalOf(rows[i]) in Active(rows, instance, resource) <==> rows[i].active
  {
    if IntervalOf(rows[i]) in Active(rows, instance, resource) {
      var j :| 0 <= j < |rows| && Mine(rows[j], instance, resource) && rows[j].active && IntervalOf(rows[j]) == IntervalOf(rows[i]);
      assert i == j;
    }
  }

  lemma VisitedGrows<T>(desired: set<T>, todo: set<T>, w: T)
    requires w in todo && todo <= desired
    ensures desired - (todo - {w}) == (desired - todo) + {w}
    ensures w !in desired - todo && todo - {w} <= desired
  {
  }

  lemma NothingVisited<T>(desired: set<T>)
    ensures desired - desired == {} && desired - {} == desired
  {
  }

  lemma GrowSize<T>(a: set<T>, w: T, b: set<T>)
    requires w !in a && b == a + {w}
    ensures |b| == |a| + 1
  {
  }

  lemma CountIn<T>(done: set<T>, w: T, a: set<T>)
    requires w !in done
    ensures |(done + {w}) * a| == |done * a| + if w in a then 1 else 0
  {
    if w in a {
      GrowSize(done * a, w, (done + {w}) * a);
    } else {
      assert (done + {w}) * a == done * a;
    }
  }

  lemma CountOutside<T>(done: set<T>, w: T, a: set<T>)
    requires w !in done
    ensures |(done + {w}) - a| == |done - a| + if w in a then 0 else 1
  {
    if w !in a {
      GrowSize(done - a, w, (done + {w}) - a);
    } else {
      assert (done + {w}) - a == done - a;
    }
  }

  lemma CountBetween<T>(done: set<T>, w: T, a: set<T>, b: set<T>)
    requires w !in done
    ensures |(done + {w}) * a - b| == |done * a - b| + if w in a && w !in b then 1 else 0
  {
    assert (done + {w}) * a - b == (done + {w}) * (a - b);
    assert done * a - b == done * (a - b);
    CountIn(done, w, a - b);
  }

  /** One more visited interval changes each count by its own membership. */
  lemma CountNext(stored: set<WeekInterval>, active: set<WeekInterval>, done: set<WeekInterval>, w: WeekInterval, update: bool, c: SeedCounts)
    requires w !in done && active <= stored && FirstCounts(stored, active, done, update, c)
    ensures FirstCounts(stored, active, done + {w}, update, Visit(c, w in stored, w in active, update))
    ensures |(done + {w}) - stored| == |done - stored| + if w in stored then 0 else 1
  {
    CountOutside(done, w, stored);
    CountBetween(done, w, stored, active);
    CountIn(done, w, active);
    CountIn(done, w, stored);
  }

  lemma FirstPassStart(before: seq<HoursRow>, stored: set<WeekInterval>, active: set<WeekInterval>, instance: Key, resource: Key, update: bool)
    ensures FirstPass(before, stored, before, instance, resource, {}, update)
    ensures FirstCounts(stored, active, {}, update, SeedCounts(0, 0, 0))
  {
    var none: set<WeekInterval> := {};
    assert none - stored == {} && none * stored == {} && none * active == {};
  }

  lemma AddOne(count: nat, stored: set<WeekInterval>, rows: seq<HoursRow>, instance: Key, resource: Key,
               done: set<WeekInterval>, w: WeekInterval, row: HoursRow)
    requires Additions(count, stored, rows, instance, resource, done) && w !in done && w !in stored && count <= |rows|
    requires Mine(row, instance, resource) && row.active && IntervalOf(row) == w
    ensures Additions(count, stored, rows + [row], instance, resource, done + {w})
  {
    CountOutside(done, w, stored);
  }

  lemma AppendedStays(before: seq<HoursRow>, rows: seq<HoursRow>, after: seq<HoursRow>, w: WeekInterval)
    requires Appended(before, rows, w) && |rows| <= |after|
    requires forall i :: |before| <= i < |rows| ==> after[i] == rows[i]
    ensures Appended(before, after, w)
  {
    var i :| |before| <= i < |rows| && IntervalOf(rows[i]) == w;
    assert after[i] == rows[i];
  }

  lemma FirstPassAppend(before: seq<HoursRow>, stored: set<WeekInterval>, rows: seq<HoursRow>, instance: Key, resource: Key,
                        done: set<WeekInterval>, update: bool, w: WeekInterval, row: HoursRow)
    requires FirstPass(before, stored, rows, instance, resource, done, update) && w !in done && w !in stored
    requires forall i :: 0 <= i < |before| && Mine(before[i], instance, resource) ==> IntervalOf(before[i]) in stored
    requires Mine(row, instance, resource) && row.active && IntervalOf(row) == w
    ensures FirstPass(before, stored, rows + [row], instance, resource, done + {w}, update)
  {
    var after := rows + [row];
    assert Revisited(before, after, instance, resource, done + {w}, update);
    AddOne(|before|, stored, rows, instance, resource, done, w, row);
    assert Appended(before, after, w) by {
      assert after[|rows|] == row;
    }
    forall v | v in done && v !in stored ensures Appended(before, after, v) {
      AppendedStays(before, rows, after, v);
    }
  }

  /** A row whose interval was not visited yet is as it was read. */
  lemma RevisitOne(before: seq<HoursRow>, rows: seq<HoursRow>, instance: Key, resource: Key,
                   done: set<WeekInterval>, update: bool, w: WeekInterval, id: nat)
    requires UniqueIntervals(before) && Revisited(before, rows, instance, resource, done, update) && w !in done
    requires id < |before| && Mine(before[id], instance, resource) && IntervalOf(before[id]) == w
    ensures rows[id] == before[id]
    ensures Revisited(before, if update then rows[id := rows[id].(active := true)] else rows, instance, resource, done + {w}, update)
  {
    forall i | 0 <= i < |before| && i != id && Mine(before[i], instance, resource) ensures IntervalOf(before[i]) != w {
    }
  }

  lemma FirstPassVisit(before: seq<HoursRow>, stored: set<WeekInterval>, rows: seq<HoursRow>, instance: Key, resource: Key,
                       done: set<WeekInterval>, update: bool, w: WeekInterval, id: nat)
    requires UniqueIntervals(before) && FirstPass(before, stored, rows, instance, resource, done, update) && w !in done && w in stored
    requires id < |before| && Mine(before[id], instance, resource) && IntervalOf(before[id]) == w
    ensures rows[id] == before[id]
    ensures FirstPass(before, stored, if update then rows[id := rows[id].(active := true)] else rows, instance, resource, done + {w}, update)
  {
    RevisitOne(before, rows, instance, resource, done, update, w, id);
    assert (done + {w}) - stored == done - stored;
    var after := if update then rows[id := rows[id].(active := true)] else rows;
    assert Additions(|before|, stored, after, instance, resource, done + {w});
    forall v | v in done + {w} && v !in stored ensures Appended(before, after, v) {
      AppendedStays(before, rows, after, v);
    }
  }

  /** The first pass neither adds nor renames an interval among the rows that were there. */
  lemma FirstPassActive(before: seq<HoursRow>, visited: seq<HoursRow>, instance: Key, resource: Key, desired: set<WeekInterval>)
    requires UniqueIntervals(before) && FirstPass(before, Stored(before, instance, resource), visited, instance, resource, desired, true)
    ensures UniqueIntervals(visited[..|before|])
    ensures Active(visited[..|before|], instance, resource) - desired == Active(before, instance, resource) - desired
  {
    var kept := visited[..|before|];
    forall w | w in Active(kept, instance, resource) - desired ensures w in Active(before, instance, resource) {
      var i :| 0 <= i < |kept| && Mine(kept[i], instance, resource) && kept[i].active && IntervalOf(kept[i]) == w;
      assert Mine(before[i], instance, resource) && before[i].active && IntervalOf(before[i]) == w;
    }
    forall w | w in Active(before, instance, resource) - desired ensures w in Active(kept, instance, resource) {
      var i :| 0 <= i < |before| && Mine(before[i], instance, resource) && before[i].active && IntervalOf(before[i]) == w;
      assert Mine(kept[i], instance, resource) && kept[i].active && IntervalOf(kept[i]) == w;
    }
  }

  /** Stored intervals after any seed: the old ones and the catalog's. */
  lemma StoredAfter(before: seq<HoursRow>, after: seq<HoursRow>, instance: Key, resource: Key, desired: set<WeekInterval>)
    requires |before| <= |after|
    requires forall i :: 0 <= i < |before| ==> Mine(after[i], instance, resource) == Mine(before[i], instance, resource) && IntervalOf(after[i]) == IntervalOf(before[i])
    requires forall i :: |before| <= i < |after| ==> Mine(after[i], instance, resource) && IntervalOf(after[i]) in desired
    requires forall w :: w in desired - Stored(before, instance, resource) ==> Appended(before, after, w)
    ensures Stored(after, instance, resource) == Stored(before, instance, resource) + desired
  {
    forall w | w in Stored(after, instance, resource) ensures w in Stored(before, instance, resource) + desired {
      var i :| 0 <= i < |after| && Mine(after[i], instance, resource) && IntervalOf(after[i]) == w;
      assert i < |before| ==> Mine(before[i], instance, resource) && IntervalOf(before[i]) == w;
    }
    forall w | w in Stored(before, instance, resource) + desired ensures w in Stored(after, instance, resource) {
      if w in Stored(before, instance, resource) {
        var i :| 0 <= i < |before| && Mine(before[i], instance, resource) && IntervalOf(before[i]) == w;
        assert Mine(after[i], instance, resource) && IntervalOf(after[i]) == w;
      } else {
        assert Appended(before, after, w);
        var i :| |before| <= i < |after| && IntervalOf(after[i]) == w;
        assert Mine(after[i], instance, resource);
      }
    }
  }

  /** When every flag of the chair follows the catalog, the active set is the catalog. */
  lemma ActiveAfter(rows: seq<HoursRow>, instance: Key, resource: Key, desired: set<WeekInterval>)
    requires desired <= Stored(rows, instance, resource)
    requires forall i :: 0 <= i < |rows| && Mine(rows[i], instance, resource) ==> (rows[i].active <==> IntervalOf(rows[i]) in desired)
    ensures Active(rows, instance, resource) == desired
  {
    forall w | w in desired ensures w in Active(rows, instance, resource) {
      var i :| 0 <= i < |rows| && Mine(rows[i], instance, resource) && IntervalOf(rows[i]) == w;
      assert rows[i].active;
    }
  }

  lemma SecondPassReconciles(before: seq<HoursRow>, visited: seq<HoursRow>, after: seq<HoursRow>,
                             instance: Key, resource: Key, desired: set<WeekInterval>)
    requires FirstPass(before, Stored(before, instance, resource), visited, instance, resource, desired, true)
    requires |after| == |visited| && after[|before|..] == visited[|before|..]
    requires forall i :: 0 <= i < |before| ==>
      after[i] == if Mine(visited[i], instance, resource) && IntervalOf(visited[i]) !in desired
                  then visited[i].(active := false) else visited[i]
    ensures Reconciled(before, after, instance, resource, desired)
    ensures forall i, j :: |before| <= i < j < |after| ==> IntervalOf(after[i]) != IntervalOf(after[j])
  {
    forall i | |before| <= i < |after| ensures after[i] == visited[i] {
      assert after[i] == after[|before|..][i - |before|] && visited[i] == visited[|before|..][i - |before|];
    }
    forall w | w in desired - Stored(before, instance, resource) ensures Appended(before, after, w) {
      assert Appended(before, visited, w);
      var i :| |before| <= i < |visited| && IntervalOf(visited[i]) == w;
      assert after[i] == visited[i];
    }
    StoredAfter(before, after, instance, resource, desired);
    ActiveAfter(after, instance, resource, desired);
  }

  lemma ReconciledIsUnique(before: seq<HoursRow>, after: seq<HoursRow>, instance: Key, resource: Key, desired: set<WeekInterval>)
    requires UniqueIntervals(before) && Reconciled(before, after, instance, resource, desired)
    requires forall i, j :: |before| <= i < j < |after| ==> IntervalOf(after[i]) != IntervalOf(after[j])
    ensures UniqueIntervals(after)
  {
    SeedKeepsUnique(before, after, instance, resource);
  }

  lemma FirstPassFillsGaps(before: seq<HoursRow>, after: seq<HoursRow>, instance: Key, resource: Key, desired: set<WeekInterval>)
    requires FirstPass(before, Stored(before, instance, resource), after, instance, resource, desired, false)
    ensures GapsFilled(before, after, instance, resource, desired)
  {
    StoredAfter(before, after, instance, resource, desired);
  }

  /** New rows carry intervals nobody had, so the unique constraint holds. */
  lemma SeedKeepsUnique(before: seq<HoursRow>, after: seq<HoursRow>, instance: Key, resource: Key)
    requires UniqueIntervals(before) && |before| <= |after|
    requires forall i :: 0 <= i < |before| ==>
      after[i].instance == before[i].instance && after[i].resource == before[i].resource && IntervalOf(after[i]) == IntervalOf(before[i])
    requires forall i :: |before| <= i < |after| ==> Mine(after[i], instance, resource) && IntervalOf(after[i]) !in Stored(before, instance, resource)
    requires forall i, j :: |before| <= i < j < |after| ==> IntervalOf(after[i]) != IntervalOf(after[j])
    ensures UniqueIntervals(after)
  {
    forall i, j | 0 <= i < j < |after| && after[i].instance == after[j].instance && after[i].resource == after[j].resource
      ensures IntervalOf(after[i]) != IntervalOf(after[j])
    {
      if i < |before| && |before| <= j {
        assert Mine(before[i], instance, resource);
        assert IntervalOf(before[i]) in Stored(before, instance, resource);
      }
    }
  }

  predicate Unlisted(r: HoursRow, instance: Key, resource: Key, desired: set<WeekInterval>) {
    Mine(r, instance, resource) && r.active && IntervalOf(r) !in desired
  }

  function CountUnlisted(rows: seq<HoursRow>, instance: Key, resource: Key, desired: set<WeekInterval>, n: nat): nat
    requires n <= |rows|
  {
    if n == 0 then 0
    else CountUnlisted(rows, instance, resource, desired, n - 1) + if Unlisted(rows[n - 1], instance, resource, desired) then 1 else 0
  }

  /** Each active interval outside the catalog is counted with the one row that holds it. */
  lemma {:induction false} UnlistedAreIntervals(rows: seq<HoursRow>, instance: Key, resource: Key, desired: set<WeekInterval>, n: nat)
    requires UniqueIntervals(rows) && n <= |rows|
    ensures CountUnlisted(rows, instance, resource, desired, n) == |Active(rows[..n], instance, resource) - desired|
  {
    if n == 0 {
      assert Active(rows[..0], instance, resource) - desired == {};
    } else {
      UnlistedAreIntervals(rows, instance, resource, desired, n - 1);
      ActiveSnoc(rows, instance, resource, n - 1);
      if Mine(rows[n - 1], instance, resource) && rows[n - 1].active {
        NotEarlier(rows, instance, resource, n - 1);
        CountOutside(Active(rows[..n - 1], instance, resource), IntervalOf(rows[n - 1]), desired);
      }
    }
  }

  lemma NotEarlier(rows: seq<HoursRow>, instance: Key, resource: Key, i: nat)
    requires UniqueIntervals(rows) && i < |rows| && Mine(rows[i], instance, resource)
    ensures IntervalOf(rows[i]) !in Active(rows[..i], instance, resource)
  {
    forall k | 0 <= k < i && Mine(rows[..i][k], instance, resource) ensures IntervalOf(rows[..i][k]) != IntervalOf(rows[i]) {
      assert rows[..i][k] == rows[k];
    }
  }

  lemma ActiveSnoc(rows: seq<HoursRow>, instance: Key, resource: Key, i: nat)
    requires i < |rows|
    ensures Active(rows[..i + 1], instance, resource)
         == Active(rows[..i], instance, resource) + if Mine(rows[i], instance, resource) && rows[i].active then {IntervalOf(rows[i])} else {}
  {
    forall w | w in Active(rows[..i + 1], instance, resource)
      ensures w in Active(rows[..i], instance, resource) || (Mine(rows[i], instance, resource) && rows[i].active && w == IntervalOf(rows[i]))
    {
      var k :| 0 <= k < i + 1 && Mine(rows[k], instance, resource) && rows[k].active && IntervalOf(rows[k]) == w;
      assert k < i ==> rows[..i][k] == rows[k];
    }
    forall w | w in Active(rows[..i], instance, resource) ensures w in Active(rows[..i + 1], instance, resource) {
      var k :| 0 <= k < i && Mine(rows[k], instance, resource) && rows[k].active && IntervalOf(rows[k]) == w;
      assert rows[..i + 1][k] == rows[k];
    }
    if Mine(rows[i], instance, resource) && rows[i].active {
      assert rows[..i + 1][i] == rows[i];
    }
  }

  // ------------------------------------------------------------------- the class

  class HoursTable {
    var rows: seq<HoursRow>

    constructor (rows: seq<HoursRow>)
      ensures this.rows == rows
    {
      this.rows := rows;
    }

    method Reactivate(id: nat) returns (changed: bool)
      requires id < |rows|
      modifies this
      ensures rows == old(rows)[id := old(rows)[id].(active := true)] && changed == !old(rows)[id].active
    {
      changed := !rows[id].active;
      if changed {
        rows := rows[id := rows[id].(active := true)];
      }
    }

    /** The loop body for one catalog interval; `existing` are the rows read before the loop. */
    method VisitInterval(existing: seq<HoursRow>, instance: Key, resource: Key, w: WeekInterval, updateExisting: bool, c: SeedCounts,
                         ghost stored: set<WeekInterval>, ghost active: set<WeekInterval>, ghost done: set<WeekInterval>)
      returns (c': SeedCounts)
      requires UniqueIntervals(existing) && stored == Stored(existing, instance, resource) && active == Active(existing, instance, resource)
      requires FirstPass(existing, stored, rows, instance, resource, done, updateExisting) && w !in done
      modifies this
      ensures FirstPass(existing, stored, rows, instance, resource, done + {w}, updateExisting)
      ensures c' == Visit(c, w in stored, w in active, updateExisting)
    {
      var found := FindInterval(existing, instance, resource, w);
      ghost var visit := Visit(c, w in stored, w in active, updateExisting);
      if found.None? {
        assert visit == c.(created := c.created + 1);
        c' := c.(created := c.created + 1);
        var row: HoursRow := HoursRow(instance, resource, w.weekday, w.opensAt, w.closesAt, true);
        FirstPassAppend(existing, stored, rows, instance, resource, done, updateExisting, w, row);
        rows := rows + [row];
        return;
      }
      var id := found.value;
      assert w in stored && (w in active <==> existing[id].active) by { ActiveByRow(existing, instance, resource, id); }
      assert visit == if !updateExisting || existing[id].active then c.(kept := c.kept + 1) else c.(updated := c.updated + 1);
      FirstPassVisit(existing, stored, rows, instance, resource, done, updateExisting, w, id);
      if !updateExisting {
        return c.(kept := c.kept + 1);
      }
      var changed := Reactivate(id);
      c' := if changed then c.(updated := c.updated + 1) else c.(kept := c.kept + 1);
    }

    /** One step of the catalog loop, rows and counters together. */
    method Advance(existing: seq<HoursRow>, instance: Key, resource: Key, w: WeekInterval, updateExisting: bool, c: SeedCounts,
                   ghost done: set<WeekInterval>)
      returns (c': SeedCounts)
      requires UniqueIntervals(existing) && w !in done
      requires Progress(existing, rows, instance, resource, done, updateExisting, c)
      modifies this
      ensures Progress(existing, rows, instance, resource, done + {w}, updateExisting, c')
    {
      ghost var stored, active := Stored(existing, instance, resource), Active(existing, instance, resource);
      ActiveIsStored(existing, instance, resource);
      CountNext(stored, active, done, w, updateExisting, c);
      c' := VisitInterval(existing, instance, resource, w, updateExisting, c, stored, active, done);
    }

    /** The loop over the catalog: create, keep or reactivate. */
    method VisitCatalog(instance: Key, resource: Key, desired: set<WeekInterval>, updateExisting: bool) returns (c: SeedCounts)
      requires UniqueIntervals(rows)
      modifies this
      ensures Progress(old(rows), rows, instance, resource, desired, updateExisting, c)
    {
      var existing := rows;
      c := SeedCounts(0, 0, 0);
      var todo := desired;
      FirstPassStart(existing, Stored(existing, instance, resource), Active(existing, instance, resource), instance, resource, updateExisting);
      NothingVisited(desired);
      while todo != {}
        invariant todo <= desired && Progress(existing, rows, instance, resource, desired - todo, updateExisting, c)
        decreases todo
      {
        var w: WeekInterval :| w in todo;
        c := Advance(existing, instance, resource, w, updateExisting, c, desired - todo);
        VisitedGrows(desired, todo, w);
        todo := todo - {w};
      }
      NothingVisited(desired);
    }

    /** The loop over the stored rows: deactivate what the catalog does not list. */
    method DeactivateRest(instance: Key, resource: Key, desired: set<WeekInterval>, count: nat) returns (updated: nat)
      requires count <= |rows| && UniqueIntervals(rows[..count])
      modifies this
      ensures |rows| == |old(rows)| && rows[count..] == old(rows)[count..]
      ensures forall i :: 0 <= i < count ==>
        rows[i] == if Mine(old(rows)[i], instance, resource) && IntervalOf(old(rows)[i]) !in desired
                   then old(rows)[i].(active := false) else old(rows)[i]
      ensures updated == |Active(old(rows)[..count], instance, resource) - desired|
    {
      updated := 0;
      ghost var before := rows[..count];
      for i := 0 to count
        invariant |rows| == |old(rows)| && rows[count..] == old(rows)[count..]
        invariant forall k :: 0 <= k < i ==>
          rows[k] == if Mine(old(rows)[k], instance, resource) && IntervalOf(old(rows)[k]) !in desired
                     then old(rows)[k].(active := false) else old(rows)[k]
        invariant forall k :: i <= k < count ==> rows[k] == old(rows)[k]
        invariant updated == CountUnlisted(before, instance, resource, desired, i)
      {
        var row := rows[i];
        if Mine(row, instance, resource) && IntervalOf(row) !in desired && row.active {
          rows := rows[i := row.(active := false)];
          updated := updated + 1;
        }
      }
      UnlistedAreIntervals(before, instance, resource, desired, count);
      assert before[..count] == before;
    }

    /** `seed_confirmed_business_hours` with `update_existing`. */
    method Reconcile(instance: Key, resource: Key, desired: set<WeekInterval>) returns (c: SeedCounts)
      requires UniqueIntervals(rows)
      modifies this
      ensures UniqueIntervals(rows)
      ensures Reconciled(old(rows), rows, instance, resource, desired)
      ensures ReconciledCounts(Stored(old(rows), instance, resource), Active(old(rows), instance, resource), desired, c)
    {
      var existing := rows;
      c := VisitCatalog(instance, resource, desired, true);
      var gone := FinishReconcile(existing, instance, resource, desired);
      c := c.(updated := c.updated + gone);
    }

    method FinishReconcile(existing: seq<HoursRow>, instance: Key, resource: Key, desired: set<WeekInterval>) returns (gone: nat)
      requires UniqueIntervals(existing)
      requires FirstPass(existing, Stored(existing, instance, resource), rows, instance, resource, desired, true)
      modifies this
      ensures UniqueIntervals(rows) && Reconciled(existing, rows, instance, resource, desired)
      ensures gone == |Active(existing, instance, resource) - desired|
    {
      ghost var visited := rows;
      FirstPassActive(existing, visited, instance, resource, desired);
      gone := DeactivateRest(instance, resource, desired, |existing|);
      SecondPassReconciles(existing, visited, rows, instance, resource, desired);
      ReconciledIsUnique(existing, rows, instance, resource, desired);
    }

    /** `seed_confirmed_business_hours` without `update_existing`. */
    method FillGaps(instance: Key, resource: Key, desired: set<WeekInterval>) returns (c: SeedCounts)
      requires UniqueIntervals(rows)
      modifies this
      ensures UniqueIntervals(rows)
      ensures GapsFilled(old(rows), rows, instance, resource, desired)
      ensures c == SeedCounts(|desired - Stored(old(rows), instance, resource)|, 0, |desired * Stored(old(rows), instance, resource)|)
    {
      var existing := rows;
      c := VisitCatalog(instance, resource, desired, false);
      FirstPassFillsGaps(existing, rows, instance, resource, desired);
      SeedKeepsUnique(existing, rows, instance, resource);
    }

    /** `seed_confirmed_business_hours`. */
    method SeedConfirmedBusinessHours(instance: Key, resource: Key, desired: set<WeekInterval>, updateExisting: bool) returns (c: SeedCounts)
      requires UniqueIntervals(rows)
      modifies this
      ensures UniqueIntervals(rows)
      ensures updateExisting ==>
        && Reconciled(old(rows), rows, instance, resource, desired)
        && ReconciledCounts(Stored(old(rows), instance, resource), Active(old(rows), instance, resource), desired, c)
      ensures !updateExisting ==>
        && GapsFilled(old(rows), rows, instance, resource, desired)
        && c == SeedCounts(|desired - Stored(old(rows), instance, resource)|, 0, |desired * Stored(old(rows), instance, resource)|)
    {
      if updateExisting {
        c := Reconcile(instance, resource, desired);
      } else {
        c := FillGaps(instance, resource, desired);
      }
    }
  }

  // --------------------------------------------------------- catalog and check

  /** The catalog: opening intervals chair by chair. */
  datatype ChairHours = ChairHours(resource: Key, intervals: set<WeekInterval>)

  ghost predicate DistinctChairs(catalog: seq<ChairHours>) {
    forall i, j :: 0 <= i < j < |catalog| ==> catalog[i].resource != catalog[j].resource
  }

  /** The hours part of `check_database_configuration`: the chairs whose active set differs. */
  function HoursErrors(rows: seq<HoursRow>, instance: Key, catalog: seq<ChairHours>): seq<Key> {
    if catalog == [] then []
    else (if Active(rows, instance, catalog[0].resource) != catalog[0].intervals then [catalog[0].resource] else [])
         + HoursErrors(rows, instance, catalog[1..])
  }

  lemma {:induction false} NoErrorsIffAllMatch(rows: seq<HoursRow>, instance: Key, catalog: seq<ChairHours>)
    ensures HoursErrors(rows, instance, catalog) == []
       <==> forall i :: 0 <= i < |catalog| ==> Active(rows, instance, catalog[i].resource) == catalog[i].intervals
  {
    if catalog != [] {
      NoErrorsIffAllMatch(rows, instance, catalog[1..]);
      assert forall i :: 0 < i < |catalog| ==> catalog[i] == catalog[1..][i - 1];
    }
  }

  /** Reconciling one chair leaves every other chair's hours alone. */
  lemma ReconcileKeepsOthers(before: seq<HoursRow>, after: seq<HoursRow>, instance: Key, resource: Key,
                             desired: set<WeekInterval>, other: Key)
    requires Reconciled(before, after, instance, resource, desired) && other != resource
    ensures Active(after, instance, other) == Active(before, instance, other)
  {
    forall w | w in Active(after, instance, other) ensures w in Active(before, instance, other) {
      var i :| 0 <= i < |after| && Mine(after[i], instance, other) && after[i].active && IntervalOf(after[i]) == w;
      assert i < |before| && after[i] == before[i];
    }
    forall w | w in Active(before, instance, other) ensures w in Active(after, instance, other) {
      var i :| 0 <= i < |before| && Mine(before[i], instance, other) && before[i].active && IntervalOf(before[i]) == w;
      assert after[i] == before[i];
    }
  }

  ghost predicate Seeded(rows: seq<HoursRow>, instance: Key, catalog: seq<ChairHours>, k: nat)
    requires k <= |catalog|
  {
    forall i :: 0 <= i < k ==> Active(rows, instance, catalog[i].resource) == catalog[i].intervals
  }

  lemma SeedNext(before: seq<HoursRow>, after: seq<HoursRow>, instance: Key, catalog: seq<ChairHours>, k: nat)
    requires k < |catalog| && DistinctChairs(catalog) && Seeded(before, instance, catalog, k)
    requires Reconciled(before, after, instance, catalog[k].resource, catalog[k].intervals)
    ensures Seeded(after, instance, catalog, k + 1)
  {
    forall i | 0 <= i < k ensures Active(after, instance, catalog[i].resource) == catalog[i].intervals {
      ReconcileKeepsOthers(before, after, instance, catalog[k].resource, catalog[k].intervals, catalog[i].resource);
    }
  }

  /** Seeding every chair of the catalog makes the configuration check report no error. */
  method SeedAllHours(table: HoursTable, instance: Key, catalog: seq<ChairHours>)
    requires UniqueIntervals(table.rows) && DistinctChairs(catalog)
    modifies table
    ensures UniqueIntervals(table.rows) && HoursErrors(table.rows, instance, catalog) == []
  {
    for k := 0 to |catalog|
      invariant UniqueIntervals(table.rows) && Seeded(table.rows, instance, catalog, k)
    {
      ghost var before := table.rows;
      var counts := table.Reconcile(instance, catalog[k].resource, catalog[k].intervals);
      SeedNext(before, table.rows, instance, catalog, k);
    }
    NoErrorsIffAllMatch(table.rows, instance, catalog);
  }

  lemma QuietCounts(stored: set<WeekInterval>, desired: set<WeekInterval>, c: SeedCounts)
    requires desired <= stored && ReconciledCounts(stored, desired, desired, c)
    ensures desired - stored == {} && c == SeedCounts(0, 0, |desired|)
  {
    assert desired - stored == {};
    assert desired * stored - desired == {} && desired - desired == {} && desired * desired == desired;
  }

  lemma FlagsFollowCatalog(rows: seq<HoursRow>, instance: Key, resource: Key, desired: set<WeekInterval>)
    requires UniqueIntervals(rows) && Active(rows, instance, resource) == desired
    ensures forall i :: 0 <= i < |rows| && Mine(rows[i], instance, resource) ==> (rows[i].active <==> IntervalOf(rows[i]) in desired)
  {
    forall i | 0 <= i < |rows| && Mine(rows[i], instance, resource) ensures rows[i].active <==> IntervalOf(rows[i]) in desired {
      ActiveByRow(rows, instance, resource, i);
    }
  }

  /**
   * Reconciling is idempotent: a second seed creates and updates nothing, counts every catalog
   * interval as unchanged, and leaves the table as it is.
   */
  lemma SecondSeedIsQuiet(before: seq<HoursRow>, once: seq<HoursRow>, twice: seq<HoursRow>,
                          instance: Key, resource: Key, desired: set<WeekInterval>, c: SeedCounts)
    requires UniqueIntervals(once) && Reconciled(before, once, instance, resource, desired)
    requires Reconciled(once, twice, instance, resource, desired)
    requires ReconciledCounts(Stored(once, instance, resource), Active(once, instance, resource), desired, c)
    ensures twice == once && c == SeedCounts(0, 0, |desired|)
  {
    QuietCounts(Stored(once, instance, resource), desired, c);
    FlagsFollowCatalog(once, instance, resource, desired);
    SameTable(once, twice, instance, resource, desired);
  }

  lemma SameTable(once: seq<HoursRow>, twice: seq<HoursRow>, instance: Key, resource: Key, desired: set<WeekInterval>)
    requires |twice| == |once|
    requires forall i :: 0 <= i < |once| ==>
      twice[i] == if Mine(once[i], instance, resource) then once[i].(active := IntervalOf(once[i]) in desired) else once[i]
    requires forall i :: 0 <= i < |once| && Mine(once[i], instance, resource) ==> (once[i].active <==> IntervalOf(once[i]) in desired)
    ensures twice == once
  {
  }
}
