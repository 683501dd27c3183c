/**
  The work log of metrics aggregation: one entry for each minute and each hour that was handed to a task. The runners
  extend it from where it ends up to a delayed present; an hour is handed out only if the log counts all its minutes
  as done.
 */
module MetricsLog {
  import opened Prelude

  /** In seconds. */
  const MINUTE: int := 60
  const HOUR: int := 3600

  datatype Status = Queued | Done | Failed

  datatype Entry = Entry(left: int, right: int, status: Status)

  /** The delay with which each step is aggregated. */
  function Delay(step: int): int {
    if step == MINUTE then 60 else 300
  }

  /** A multiple of the step, which is a minute or an hour. */
  predicate Aligned(x: int, step: int) {
    if step == MINUTE then x % 60 == 0 else x % 3600 == 0
  }

  function FloorTo(x: int, step: int): int {
    if step == MINUTE then 60 * (x / 60) else 3600 * (x / 3600)
  }

  lemma FloorIsAligned(x: int, step: int)
    ensures Aligned(FloorTo(x, step), step) && FloorTo(x, step) <= x
  {
  }

  lemma AlignedNext(x: int, step: int)
    requires Aligned(x, step) && (step == MINUTE || step == HOUR)
    ensures Aligned(x + step, step) && Aligned(x - step, step)
  {
  }

  function Seconds(e: Entry): int {
    e.right - e.left
  }

  // ------------------------------------------------------------------ queries

  /** The greatest right boundary among the entries of a step. */
  function Latest(log: seq<Entry>, step: int): Option<int> {
    if log == [] then None
    else
      var rest := Latest(log[..|log| - 1], step);
      var e := log[|log| - 1];
      if Seconds(e) != step then rest
      else if rest.Some? && rest.value > e.right then rest
      else Some(e.right)
  }

  function Earliest(log: seq<Entry>): Option<int> {
    if log == [] then None
    else
      var rest := Earliest(log[..|log| - 1]);
      var e := log[|log| - 1];
      if rest.Some? && rest.value < e.right then rest else Some(e.right)
  }

  /** The right boundary of the first interval to hand out. */
  function Resume(log: seq<Entry>, step: int, until: int): int {
    var latest := Latest(log, step);
    var earliest := Earliest(log);
    if latest.Some? then latest.value + step
    else if earliest.Some? then FloorTo(earliest.value + step, step)
    else FloorTo(until, step)
  }

  predicate CountsFor(e: Entry, left: int, right: int, step: int) {
    left <= e.left && e.right <= right && Seconds(e) == step && e.status == Done
  }

  function CountDone(log: seq<Entry>, left: int, right: int, step: int): nat {
    if log == [] then 0
    else CountDone(log[..|log| - 1], left, right, step) + if CountsFor(log[|log| - 1], left, right, step) then 1 else 0
  }

  predicate IsCovered(log: seq<Entry>, left: int, right: int, step: int)
    requires step > 0
  {
    CountDone(log, left, right, step) == (right - left) / step
  }

  // ------------------------------------------------------------------ the runners

  /** An interval of this length, ending at the cursor, is to be handed out. */
  predicate Due(log: seq<Entry>, cursor: int, step: int) {
    step == MINUTE || (step == HOUR && IsCovered(log, cursor - step, cursor, MINUTE))
  }

  function WithDue(log: seq<Entry>, cursor: int, step: int): seq<Entry> {
    if Due(log, cursor, step) then log + [Entry(cursor - step, cursor, Queued)] else log
  }

  function Advance(log: seq<Entry>, cursor: int, until: int, step: int): seq<Entry>
    requires step > 0
    decreases until - cursor
  {
    if cursor > until then log else Advance(WithDue(log, cursor, step), cursor + step, until, step)
  }

  function RunAt(log: seq<Entry>, now: int, step: int): seq<Entry>
    requires step > 0
  {
    var until := now - Delay(step);
    Advance(log, Resume(log, step, until), until, step)
  }

  // ------------------------------------------------------------------ tiling

  /** The left boundaries of the entries of a step, in the order of the log. */
  function Lefts(log: seq<Entry>, step: int): seq<int> {
    if log == [] then []
    else Lefts(log[..|log| - 1], step) + if Seconds(log[|log| - 1]) == step then [log[|log| - 1].left] else []
  }

  /** Aligned intervals, each beginning where the one before ends. */
  predicate Tiles(lefts: seq<int>, step: int) {
    && (forall i :: 0 <= i < |lefts| ==> Aligned(lefts[i], step))
    && (forall i, j :: 0 <= i && j == i + 1 < |lefts| ==> lefts[j] == lefts[i] + step)
  }

  /** Aligned intervals that never come back. */
  predicate Steps(lefts: seq<int>, step: int) {
    && (forall i :: 0 <= i < |lefts| ==> Aligned(lefts[i], step))
    && (forall i, j :: 0 <= i < j < |lefts| ==> lefts[i] + step <= lefts[j])
  }

  lemma {:induction false} TilesStep(lefts: seq<int>, step: int)
    requires step > 0 && Tiles(lefts, step)
    ensures Steps(lefts, step)
  {
    if |lefts| > 1 {
      var front := lefts[..|lefts| - 1];
      TilesStep(front, step);
      assert lefts[|lefts| - 1] == lefts[|lefts| - 2] + step;
      forall i, j | 0 <= i < j < |lefts| ensures lefts[i] + step <= lefts[j] {
        if j == |lefts| - 1 && i < j - 1 {
          assert front[i] + step <= front[j - 1];
        } else if j < |lefts| - 1 {
          assert front[i] + step <= front[j];
        }
      }
    }
  }

  predicate TwoSteps(log: seq<Entry>) {
    forall i :: 0 <= i < |log| ==> Seconds(log[i]) == MINUTE || Seconds(log[i]) == HOUR
  }

  lemma LeftsAppend(log: seq<Entry>, e: Entry, step: int)
    ensures Lefts(log + [e], step) == Lefts(log, step) + if Seconds(e) == step then [e.left] else []
  {
    assert (log + [e])[..|log|] == log;
  }

  /** What the log had before its last entry; an entry of the step lies past all before it. */
  lemma LeftsFront(log: seq<Entry>, step: int)
    requires step > 0 && log != [] && Steps(Lefts(log, step), step)
    ensures var front := Lefts(log[..|log| - 1], step);
            var e := log[|log| - 1];
            && Steps(front, step)
            && (Seconds(e) != step ==> Lefts(log, step) == front)
            && (Seconds(e) == step ==> Lefts(log, step) == front + [e.left] && forall x :: x in front ==> x + step <= e.left)
  {
    var front, lefts := Lefts(log[..|log| - 1], step), Lefts(log, step);
    var e := log[|log| - 1];
    if Seconds(e) != step {
      NothingAdded(front);
    } else {
      assert lefts == front + [e.left];
      assert forall i :: 0 <= i < |front| ==> front[i] == lefts[i];
      forall x | x in front ensures x + step <= e.left {
        var i :| 0 <= i < |front| && front[i] == x;
        assert lefts[i] + step <= lefts[|front|];
      }
    }
  }

  /** An interval past the last one may follow it. */
  lemma StepsAppend(lefts: seq<int>, x: int, step: int)
    requires Steps(lefts, step) && Aligned(x, step) && step > 0
    requires lefts != [] ==> lefts[|lefts| - 1] + step <= x
    ensures Steps(lefts + [x], step)
  {
    forall i | 0 <= i < |lefts| ensures lefts[i] + step <= x {
      assert i < |lefts| - 1 ==> lefts[i] + step <= lefts[|lefts| - 1];
    }
  }

  lemma TilesAppend(lefts: seq<int>, x: int, step: int)
    requires Tiles(lefts, step) && Aligned(x, step)
    requires lefts != [] ==> lefts[|lefts| - 1] + step == x
    ensures Tiles(lefts + [x], step)
  {
  }

  lemma {:induction false} LatestIsLast(log: seq<Entry>, step: int)
    requires step > 0 && Steps(Lefts(log, step), step)
    ensures var lefts := Lefts(log, step);
            Latest(log, step) == if lefts == [] then None else Some(lefts[|lefts| - 1] + step)
  {
    if log != [] {
      var front := log[..|log| - 1];
      LeftsFront(log, step);
      LatestIsLast(front, step);
      var before := Lefts(front, step);
      if Seconds(log[|log| - 1]) == step && before != [] {
        assert before[|before| - 1] in before;
      }
    }
  }

  // ------------------------------------------------------------------ coverage

  predicate DoneAt(log: seq<Entry>, left: int) {
    exists i :: 0 <= i < |log| && log[i] == Entry(left, left + MINUTE, Done)
  }

  function DoneSet(log: seq<Entry>, left: int, right: int): set<int> {
    if log == [] then {}
    else
      var e := log[|log| - 1];
      DoneSet(log[..|log| - 1], left, right) + if CountsFor(e, left, right, MINUTE) then {e.left} else {}
  }

  lemma {:induction false} DoneSetMembers(log: seq<Entry>, left: int, right: int, x: int)
    requires x in DoneSet(log, left, right)
    ensures left <= x && x + MINUTE <= right && DoneAt(log, x) && x in Lefts(log, MINUTE)
  {
    var front := log[..|log| - 1];
    var e := log[|log| - 1];
    if CountsFor(e, left, right, MINUTE) && x == e.left {
      assert log[|log| - 1] == Entry(x, x + MINUTE, Done);
    } else {
      DoneSetMembers(front, left, right, x);
      var i :| 0 <= i < |front| && front[i] == Entry(x, x + MINUTE, Done);
      assert log[i] == Entry(x, x + MINUTE, Done);
    }
  }

  /** Entries that never come back are counted once each. */
  lemma {:induction false} CountIsCardinality(log: seq<Entry>, left: int, right: int)
    requires Steps(Lefts(log, MINUTE), MINUTE)
    ensures |DoneSet(log, left, right)| == CountDone(log, left, right, MINUTE)
  {
    if log != [] {
      var front := log[..|log| - 1];
      var e := log[|log| - 1];
      LeftsFront(log, MINUTE);
      CountIsCardinality(front, left, right);
      if CountsFor(e, left, right, MINUTE) && e.left in DoneSet(front, left, right) {
        DoneSetMembers(front, left, right, e.left);
        assert false;
      }
    }
  }

  function Slots(left: int, n: nat): set<int> {
    if n == 0 then {} else Slots(left, n - 1) + {left + 60 * (n - 1)}
  }

  lemma {:induction false} SlotsAre(left: int, n: nat)
    ensures |Slots(left, n)| == n
    ensures forall x :: x in Slots(left, n) <==> left <= x < left + 60 * n && (x - left) % 60 == 0
  {
    if n > 0 {
      SlotsAre(left, n - 1);
    }
  }

  lemma SubsetOfSameSize(a: set<int>, b: set<int>)
    requires a <= b && |a| == |b|
    ensures a == b
  {
    assert |b - a| == |b| - |a|;
    assert b == a + (b - a);
  }

  lemma DoneSetInSlots(log: seq<Entry>, left: int)
    requires Steps(Lefts(log, MINUTE), MINUTE) && Aligned(left, HOUR)
    ensures DoneSet(log, left, left + HOUR) <= Slots(left, 60)
  {
    SlotsAre(left, 60);
    forall y | y in DoneSet(log, left, left + HOUR) ensures y in Slots(left, 60) {
      DoneSetMembers(log, left, left + HOUR, y);
      var i :| 0 <= i < |Lefts(log, MINUTE)| && Lefts(log, MINUTE)[i] == y;
      AlignedOffset(left, y);
    }
  }

  /** Sixty done minutes inside an hour are all the minutes of the hour. */
  lemma CoveredMeansAllDone(log: seq<Entry>, left: int, x: int)
    requires Steps(Lefts(log, MINUTE), MINUTE) && Aligned(left, HOUR)
    requires IsCovered(log, left, left + HOUR, MINUTE)
    requires left <= x < left + HOUR && Aligned(x, MINUTE)
    ensures DoneAt(log, x)
  {
    var done, slots := DoneSet(log, left, left + HOUR), Slots(left, 60);
    CountIsCardinality(log, left, left + HOUR);
    SlotsAre(left, 60);
    DoneSetInSlots(log, left);
    SubsetOfSameSize(done, slots);
    AlignedOffset(left, x);
    DoneSetMembers(log, left, left + HOUR, x);
  }

  lemma AlignedOffset(left: int, x: int)
    requires Aligned(left, HOUR) && Aligned(x, MINUTE)
    ensures (x - left) % 60 == 0 && Aligned(left, MINUTE)
  {
    var hours, minutes := left / 3600, x / 60;
    assert left == 3600 * hours && x == 60 * minutes;
    assert x - left == 60 * (minutes - 60 * hours);
    assert left == 60 * (60 * hours);
  }
}
