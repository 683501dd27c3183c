/**
  Metrics from counted hits to hourly values: hits go to the bucket of their minute, a minute task moves a bucket into
  the minute table, an hour task adds up the minute table. Runners and tasks interleave freely with time and hits.
 */
module MetricsAggregation {
  import opened Prelude
  import opened MetricsLog

  type Key = string

  datatype Hit = Hit(time: int, key: Key, amount: nat)

  /** Values by timestamp and key. */
  type Table = map<int, map<Key, nat>>

  datatype State = State(now: int, hits: seq<Hit>, buckets: Table, log: seq<Entry>, minutes: Table, hours: Table)

  datatype Outcome =
    | Completed
    /** An aggregation raised; its rows are rolled back but a bucket it deleted stays deleted. */
    | RolledBack(bucketLost: bool)
    /** The rows are committed and a listener raised afterwards, so the entry is marked failed all the same. */
    | ListenerFailed

  datatype Action =
    | Tick(now: int)
    | Count(key: Key, amount: nat)
    | RunMinutes
    | RunHours
    | MinuteTask(i: nat, outcome: Outcome)
    | HourTask(i: nat, outcome: Outcome)

  function Value(table: Table, timestamp: int, key: Key): nat {
    if timestamp in table && key in table[timestamp] then table[timestamp][key] else 0
  }

  function Bucket(table: Table, timestamp: int): map<Key, nat> {
    if timestamp in table then table[timestamp] else map[]
  }

  /** The sum of a key over n minutes. */
  function SumMinutes(table: Table, left: int, n: nat, key: Key): nat {
    if n == 0 then 0 else SumMinutes(table, left, n - 1, key) + Value(table, left + 60 * (n - 1), key)
  }

  function KeysOf(table: Table, left: int, n: nat): set<Key> {
    if n == 0 then {} else KeysOf(table, left, n - 1) + Bucket(table, left + 60 * (n - 1)).Keys
  }

  function GroupedOver(table: Table, left: int, n: nat): map<Key, nat> {
    map key | key in KeysOf(table, left, n) :: SumMinutes(table, left, n, key)
  }

  /** The minute table grouped by key over an hour. */
  function Grouped(table: Table, left: int): map<Key, nat> {
    GroupedOver(table, left, 60)
  }

  /** What was counted in an interval. */
  function SumHits(hits: seq<Hit>, left: int, right: int, key: Key): nat {
    if hits == [] then 0
    else
      var h := hits[|hits| - 1];
      SumHits(hits[..|hits| - 1], left, right, key) + if left <= h.time < right && h.key == key then h.amount else 0
  }

  // ------------------------------------------------------------------ steps

  predicate Possible(s: State, a: Action) {
    match a
    case Tick(now) => s.now <= now
    case MinuteTask(i, _) => i < |s.log| && Seconds(s.log[i]) == MINUTE && s.log[i].status == Queued
    case HourTask(i, _) => i < |s.log| && Seconds(s.log[i]) == HOUR && s.log[i].status == Queued
    case _ => true
  }

  function Mark(log: seq<Entry>, i: nat, status: Status): seq<Entry>
    requires i < |log|
  {
    log[i := log[i].(status := status)]
  }

  function Counting(s: State, key: Key, amount: nat): State {
    var m := FloorTo(s.now, MINUTE);
    s.(hits := s.hits + [Hit(s.now, key, amount)],
       buckets := s.buckets[m := Bucket(s.buckets, m)[key := Value(s.buckets, m, key) + amount]])
  }

  function RunMinuteTask(s: State, i: nat, outcome: Outcome): State
    requires i < |s.log|
  {
    var left := s.log[i].left;
    match outcome
    case RolledBack(lost) =>
      s.(log := Mark(s.log, i, Failed), buckets := if lost then s.buckets - {left} else s.buckets)
    case _ =>
      s.(log := Mark(s.log, i, if outcome.Completed? then Done else Failed),
         minutes := s.minutes[left := Bucket(s.buckets, left)], buckets := s.buckets - {left})
  }

  function RunHourTask(s: State, i: nat, outcome: Outcome): State
    requires i < |s.log|
  {
    var left := s.log[i].left;
    match outcome
    case Completed => s.(log := Mark(s.log, i, Done), hours := s.hours[left := Grouped(s.minutes, left)])
    case ListenerFailed => s.(log := Mark(s.log, i, Failed), hours := s.hours[left := Grouped(s.minutes, left)])
    case RolledBack(_) => s.(log := Mark(s.log, i, Failed))
  }

  function Step(s: State, a: Action): State
    requires Possible(s, a)
  {
    match a
    case Tick(now) => s.(now := now)
    case Count(key, amount) => Counting(s, key, amount)
    case RunMinutes => s.(log := RunAt(s.log, s.now, MINUTE))
    case RunHours => s.(log := RunAt(s.log, s.now, HOUR))
    case MinuteTask(i, outcome) => RunMinuteTask(s, i, outcome)
    case HourTask(i, outcome) => RunHourTask(s, i, outcome)
  }

  function Init(now: int): State {
    State(now, [], map[], [], map[], map[])
  }

  predicate IsRun(s: State, actions: seq<Action>)
    decreases |actions|
  {
    actions == [] || (Possible(s, actions[0]) && IsRun(Step(s, actions[0]), actions[1..]))
  }

  function Execute(s: State, actions: seq<Action>): State
    requires IsRun(s, actions)
    decreases |actions|
  {
    if actions == [] then s else Execute(Step(s, actions[0]), actions[1..])
  }

  // ------------------------------------------------------------------ the log

  predicate InHour(left: int, x: int) {
    left <= x < left + HOUR && Aligned(x, MINUTE)
  }

  /** Every minute of every hour in the log is done. */
  ghost predicate HoursCovered(log: seq<Entry>) {
    forall i, x :: 0 <= i < |log| && Seconds(log[i]) == HOUR && InHour(log[i].left, x) ==> DoneAt(log, x)
  }

  predicate Past(log: seq<Entry>, now: int) {
    forall i :: 0 <= i < |log| ==> log[i].right + MINUTE <= now
  }

  ghost predicate LogOk(log: seq<Entry>, now: int) {
    && TwoSteps(log)
    && Tiles(Lefts(log, MINUTE), MINUTE)
    && Steps(Lefts(log, HOUR), HOUR)
    && HoursCovered(log)
    && Past(log, now)
    && (log != [] ==> Lefts(log, MINUTE) != [])
  }

  lemma DoneAtAppend(log: seq<Entry>, e: Entry, x: int)
    requires DoneAt(log, x)
    ensures DoneAt(log + [e], x)
  {
    var i :| 0 <= i < |log| && log[i] == Entry(x, x + MINUTE, Done);
    assert (log + [e])[i] == Entry(x, x + MINUTE, Done);
  }

  lemma AppendMinute(log: seq<Entry>, cursor: int, now: int)
    requires LogOk(log, now) && Aligned(cursor, MINUTE) && cursor + MINUTE <= now
    requires var lefts := Lefts(log, MINUTE); lefts != [] ==> lefts[|lefts| - 1] == cursor - MINUTE - MINUTE
    ensures LogOk(log + [Entry(cursor - MINUTE, cursor, Queued)], now)
    ensures Lefts(log + [Entry(cursor - MINUTE, cursor, Queued)], MINUTE) == Lefts(log, MINUTE) + [cursor - MINUTE]
  {
    var e := Entry(cursor - MINUTE, cursor, Queued);
    var after := log + [e];
    AlignedNext(cursor, MINUTE);
    LeftsAppend(log, e, MINUTE);
    LeftsAppend(log, e, HOUR);
    NothingAdded(Lefts(log, HOUR));
    TilesAppend(Lefts(log, MINUTE), e.left, MINUTE);
    forall i, x | 0 <= i < |after| && Seconds(after[i]) == HOUR && InHour(after[i].left, x) ensures DoneAt(after, x) {
      assert after[i] == log[i];
      DoneAtAppend(log, e, x);
    }
  }

  lemma AppendHour(log: seq<Entry>, cursor: int, now: int)
    requires LogOk(log, now) && Aligned(cursor, HOUR) && cursor + MINUTE <= now
    requires IsCovered(log, cursor - HOUR, cursor, MINUTE)
    requires var lefts := Lefts(log, HOUR); lefts != [] ==> lefts[|lefts| - 1] + HOUR <= cursor - HOUR
    ensures LogOk(log + [Entry(cursor - HOUR, cursor, Queued)], now)
    ensures Lefts(log + [Entry(cursor - HOUR, cursor, Queued)], HOUR) == Lefts(log, HOUR) + [cursor - HOUR]
  {
    var e := Entry(cursor - HOUR, cursor, Queued);
    var after := log + [e];
    AlignedNext(cursor, HOUR);
    LeftsAppend(log, e, MINUTE);
    LeftsAppend(log, e, HOUR);
    NothingAdded(Lefts(log, MINUTE));
    StepsAppend(Lefts(log, HOUR), e.left, HOUR);
    TilesStep(Lefts(log, MINUTE), MINUTE);
    HourCoveredAppend(log, e);
    AlignedOffset(e.left, 0);
    CoveredMeansAllDone(log, e.left, e.left);
  }

  lemma HourCoveredAppend(log: seq<Entry>, e: Entry)
    requires HoursCovered(log) && Steps(Lefts(log, MINUTE), MINUTE)
    requires Seconds(e) == HOUR && Aligned(e.left, HOUR) && IsCovered(log, e.left, e.left + HOUR, MINUTE)
    ensures HoursCovered(log + [e])
  {
    var after := log + [e];
    forall i, x | 0 <= i < |after| && Seconds(after[i]) == HOUR && InHour(after[i].left, x) ensures DoneAt(after, x) {
      if i < |log| {
        assert after[i] == log[i];
      } else {
        CoveredMeansAllDone(log, e.left, x);
      }
      DoneAtAppend(log, e, x);
    }
  }

  /** The cursor goes on after the entries of its step. */
  predicate Beyond(log: seq<Entry>, cursor: int, step: int) {
    var lefts := Lefts(log, step);
    lefts != [] ==> if step == MINUTE then lefts[|lefts| - 1] + step == cursor - step
                    else lefts[|lefts| - 1] + step <= cursor - step
  }

  /** The log with a new entry of the step, or as it was. */
  predicate Grows(after: seq<Entry>, log: seq<Entry>, step: int) {
    log <= after && forall i :: |log| <= i < |after| ==> Seconds(after[i]) == step && after[i].status == Queued
  }

  lemma WithDueKeepsLog(log: seq<Entry>, cursor: int, step: int, now: int)
    requires step == MINUTE || step == HOUR
    requires LogOk(log, now) && Aligned(cursor, step) && Beyond(log, cursor, step) && cursor + MINUTE <= now
    ensures LogOk(WithDue(log, cursor, step), now) && Beyond(WithDue(log, cursor, step), cursor + step, step)
  {
    if step == MINUTE {
      AppendMinute(log, cursor, now);
    } else if Due(log, cursor, step) {
      AppendHour(log, cursor, now);
    }
  }

  lemma {:induction false} AdvanceKeepsLog(log: seq<Entry>, cursor: int, until: int, step: int, now: int)
    requires step == MINUTE || step == HOUR
    requires LogOk(log, now) && Aligned(cursor, step) && Beyond(log, cursor, step) && until + MINUTE <= now
    ensures LogOk(Advance(log, cursor, until, step), now)
    decreases until - cursor
  {
    if cursor <= until {
      WithDueKeepsLog(log, cursor, step, now);
      AlignedNext(cursor, step);
      AdvanceKeepsLog(WithDue(log, cursor, step), cursor + step, until, step, now);
    }
  }

  lemma {:induction false} AdvanceGrows(log: seq<Entry>, cursor: int, until: int, step: int)
    requires step > 0
    ensures Grows(Advance(log, cursor, until, step), log, step)
    decreases until - cursor
  {
    if cursor <= until {
      var next := WithDue(log, cursor, step);
      AdvanceGrows(next, cursor + step, until, step);
      GrowsTwice(Advance(next, cursor + step, until, step), next, log, step);
    }
  }

  lemma GrowsTwice(c: seq<Entry>, b: seq<Entry>, a: seq<Entry>, step: int)
    requires Grows(c, b, step) && Grows(b, a, step)
    ensures Grows(c, a, step)
  {
    forall i | |a| <= i < |c| ensures Seconds(c[i]) == step && c[i].status == Queued {
      assert i < |b| ==> c[i] == b[i];
    }
  }

  lemma RunKeepsLog(log: seq<Entry>, now: int, step: int)
    requires (step == MINUTE || step == HOUR) && LogOk(log, now)
    ensures LogOk(RunAt(log, now, step), now) && Grows(RunAt(log, now, step), log, step)
  {
    var until := now - Delay(step);
    var cursor := Resume(log, step, until);
    ResumesBeyond(log, step, until);
    AdvanceKeepsLog(log, cursor, until, step, now);
    AdvanceGrows(log, cursor, until, step);
  }

  // ------------------------------------------------------------------ the runners leave nothing behind

  /** The minute runner always finds its cursor due, and goes on right after the new entry. */
  lemma MinuteIsDue(log: seq<Entry>, cursor: int, now: int)
    requires LogOk(log, now) && Aligned(cursor, MINUTE) && Beyond(log, cursor, MINUTE) && cursor + MINUTE <= now
    ensures var next := WithDue(log, cursor, MINUTE);
            && LogOk(next, now) && Aligned(cursor + MINUTE, MINUTE) && Beyond(next, cursor + MINUTE, MINUTE)
            && Lefts(next, MINUTE) == Lefts(log, MINUTE) + [cursor - MINUTE]
  {
    AppendMinute(log, cursor, now);
    AlignedNext(cursor, MINUTE);
  }

  /** The tiling reaches to within a minute of `until`, and not past it unless it did before. */
  predicate ReachesUntil(lefts: seq<int>, cursor: int, until: int) {
    && lefts != []
    && (lefts[|lefts| - 1] + MINUTE <= until || cursor > until)
    && lefts[|lefts| - 1] + MINUTE + MINUTE > until
  }

  lemma AdvanceOnce(log: seq<Entry>, cursor: int, until: int)
    requires cursor <= until
    ensures var next := WithDue(log, cursor, MINUTE);
            && Advance(log, cursor, until, MINUTE) == Advance(next, cursor + MINUTE, until, MINUTE)
            && (cursor + MINUTE > until ==> Advance(next, cursor + MINUTE, until, MINUTE) == next)
  {
  }

  lemma StillReaches(after: seq<int>, next: seq<int>, cursor: int, until: int)
    requires cursor <= until && next != [] && next[|next| - 1] == cursor - MINUTE
    requires ReachesUntil(after, cursor + MINUTE, until) && (cursor + MINUTE > until ==> after == next)
    ensures ReachesUntil(after, cursor, until)
  {
  }

  lemma {:induction false} AdvanceReachesUntil(log: seq<Entry>, cursor: int, until: int, now: int)
    requires LogOk(log, now) && Aligned(cursor, MINUTE) && Beyond(log, cursor, MINUTE) && until + MINUTE <= now
    requires cursor <= until || Lefts(log, MINUTE) != []
    ensures ReachesUntil(Lefts(Advance(log, cursor, until, MINUTE), MINUTE), cursor, until)
    decreases until - cursor
  {
    if cursor <= until {
      var next := WithDue(log, cursor, MINUTE);
      MinuteIsDue(log, cursor, now);
      AdvanceReachesUntil(next, cursor + MINUTE, until, now);
      AdvanceOnce(log, cursor, until);
      StillReaches(Lefts(Advance(next, cursor + MINUTE, until, MINUTE), MINUTE), Lefts(next, MINUTE), cursor, until);
    }
  }

  /** After a run of the minute runner, the tiling reaches the last full minute before the delayed present. */
  lemma MinutesReachPresent(log: seq<Entry>, now: int)
    requires LogOk(log, now)
    ensures var lefts := Lefts(RunAt(log, now, MINUTE), MINUTE);
            var until := now - Delay(MINUTE);
            lefts != [] && lefts[|lefts| - 1] + MINUTE <= until < lefts[|lefts| - 1] + MINUTE + MINUTE
  {
    var until := now - Delay(MINUTE);
    var cursor := Resume(log, MINUTE, until);
    ResumesBeyond(log, MINUTE, until);
    AdvanceReachesUntil(log, cursor, until, now);
    if cursor > until {
      assert Advance(log, cursor, until, MINUTE) == log;
      LastMinutePast(log, now);
    }
  }

  lemma LastMinutePast(log: seq<Entry>, now: int)
    requires Past(log, now) && Lefts(log, MINUTE) != []
    ensures Lefts(log, MINUTE)[|Lefts(log, MINUTE)| - 1] + MINUTE + MINUTE <= now
  {
    var n := |log| - 1;
    if Seconds(log[n]) != MINUTE {
      NothingAdded(Lefts(log[..n], MINUTE));
      LastMinutePast(log[..n], now);
    }
  }

  /** Where a runner resumes: aligned, and past the entries of its step. */
  lemma ResumesBeyond(log: seq<Entry>, step: int, until: int)
    requires step == MINUTE || step == HOUR
    requires Tiles(Lefts(log, MINUTE), MINUTE) && Steps(Lefts(log, HOUR), HOUR) && (log != [] ==> Lefts(log, MINUTE) != [])
    ensures Aligned(Resume(log, step, until), step) && Beyond(log, Resume(log, step, until), step)
    ensures log == [] ==> Resume(log, step, until) <= until
  {
    var lefts := Lefts(log, step);
    TilesStep(Lefts(log, MINUTE), MINUTE);
    LatestIsLast(log, step);
    EarliestExists(log);
    if lefts != [] {
      AlignedNext(lefts[|lefts| - 1], step);
      AlignedNext(lefts[|lefts| - 1] + step, step);
    } else {
      FloorIsAligned(until, step);
      if log != [] {
        FloorIsAligned(Earliest(log).value + step, step);
      }
    }
  }

  lemma CountIgnoresHour(log: seq<Entry>, e: Entry, left: int, right: int)
    requires Seconds(e) == HOUR
    ensures CountDone(log + [e], left, right, MINUTE) == CountDone(log, left, right, MINUTE)
  {
    PartsOfConcat(log, [e]);
  }

  lemma HourInGrown(after: seq<Entry>, log: seq<Entry>, left: int)
    requires log <= after && HourInLog(log, left)
    ensures HourInLog(after, left)
  {
    var i :| 0 <= i < |log| && log[i].left == left && Seconds(log[i]) == HOUR;
    assert after[i] == log[i];
  }

  lemma {:induction false} AdvanceHandsOut(log: seq<Entry>, cursor: int, until: int, right: int)
    requires Aligned(cursor, HOUR) && Aligned(right, HOUR) && cursor <= right <= until
    requires IsCovered(log, right - HOUR, right, MINUTE)
    ensures HourInLog(Advance(log, cursor, until, HOUR), right - HOUR)
    decreases until - cursor
  {
    var next := WithDue(log, cursor, HOUR);
    if cursor == right {
      assert next[|log|].left == right - HOUR && Seconds(next[|log|]) == HOUR;
      AdvanceGrows(next, cursor + HOUR, until, HOUR);
      HourInGrown(Advance(next, cursor + HOUR, until, HOUR), next, right - HOUR);
    } else {
      if Due(log, cursor, HOUR) {
        CountIgnoresHour(log, Entry(cursor - HOUR, cursor, Queued), right - HOUR, right);
      }
      AlignedNext(cursor, HOUR);
      NextAligned(cursor, right);
      AdvanceHandsOut(next, cursor + HOUR, until, right);
    }
  }

  lemma NextAligned(a: int, b: int)
    requires Aligned(a, HOUR) && Aligned(b, HOUR) && a < b
    ensures a + HOUR <= b
  {
    var m, n := a / 3600, b / 3600;
    assert a == 3600 * m && b == 3600 * n;
  }

  /** A run of the hour runner hands out every covered hour from where it resumes up to the delayed present. */
  lemma CoveredHoursAreHandedOut(log: seq<Entry>, now: int, right: int)
    requires LogOk(log, now) && Aligned(right, HOUR) && IsCovered(log, right - HOUR, right, MINUTE)
    requires Resume(log, HOUR, now - Delay(HOUR)) <= right <= now - Delay(HOUR)
    ensures HourInLog(RunAt(log, now, HOUR), right - HOUR)
  {
    ResumesBeyond(log, HOUR, now - Delay(HOUR));
    AdvanceHandsOut(log, Resume(log, HOUR, now - Delay(HOUR)), now - Delay(HOUR), right);
  }

  lemma EarliestExists(log: seq<Entry>)
    ensures Earliest(log).Some? <==> log != []
  {
  }

  lemma {:induction false} LeftsOfMarked(log: seq<Entry>, i: nat, status: Status, step: int)
    requires i < |log|
    ensures Lefts(Mark(log, i, status), step) == Lefts(log, step)
  {
    var n := |log| - 1;
    var marked := Mark(log, i, status);
    if i < n {
      assert marked[..n] == Mark(log[..n], i, status);
      LeftsOfMarked(log[..n], i, status, step);
    } else {
      assert marked[..n] == log[..n];
    }
  }

  lemma MarkKeepsLog(log: seq<Entry>, i: nat, status: Status, now: int)
    requires i < |log| && LogOk(log, now) && (log[i].status == Queued || Seconds(log[i]) == HOUR)
    ensures LogOk(Mark(log, i, status), now)
    ensures forall x :: DoneAt(log, x) ==> DoneAt(Mark(log, i, status), x)
  {
    var marked := Mark(log, i, status);
    LeftsOfMarked(log, i, status, MINUTE);
    LeftsOfMarked(log, i, status, HOUR);
    forall x | DoneAt(log, x) ensures DoneAt(marked, x) {
      var j :| 0 <= j < |log| && log[j] == Entry(x, x + MINUTE, Done);
      assert marked[j] == log[j];
    }
    forall j, x | 0 <= j < |marked| && Seconds(marked[j]) == HOUR && InHour(marked[j].left, x) ensures DoneAt(marked, x) {
      assert marked[j].left == log[j].left && Seconds(log[j]) == HOUR;
    }
  }

  // ------------------------------------------------------------------ the values

  /** The aggregation of this minute has run, well or not. */
  predicate Ran(log: seq<Entry>, m: int) {
    exists i :: 0 <= i < |log| && log[i].left == m && Seconds(log[i]) == MINUTE && log[i].status != Queued
  }

  /** Until its task runs, a minute's bucket holds what was counted in the minute. */
  ghost predicate BucketOk(s: State, m: int, key: Key) {
    Aligned(m, MINUTE) && !Ran(s.log, m) ==> Value(s.buckets, m, key) == SumHits(s.hits, m, m + MINUTE, key)
  }

  /** A done minute's row is what was counted in the minute. */
  ghost predicate MinuteOk(s: State, m: int, key: Key) {
    DoneAt(s.log, m) ==> Value(s.minutes, m, key) == SumHits(s.hits, m, m + MINUTE, key)
  }

  predicate HourInLog(log: seq<Entry>, left: int) {
    exists i :: 0 <= i < |log| && log[i].left == left && Seconds(log[i]) == HOUR
  }

  ghost predicate HourOk(s: State, left: int, key: Key) {
    left in s.hours ==> HourInLog(s.log, left) && Value(s.hours, left, key) == SumHits(s.hits, left, left + HOUR, key)
  }

  /** A done hour has its rows. */
  predicate HoursStored(s: State) {
    forall i :: 0 <= i < |s.log| && Seconds(s.log[i]) == HOUR && s.log[i].status == Done ==> s.log[i].left in s.hours
  }

  ghost predicate Inv(s: State) {
    && LogOk(s.log, s.now)
    && (forall m, key :: BucketOk(s, m, key))
    && (forall m, key :: MinuteOk(s, m, key))
    && (forall left, key :: HourOk(s, left, key))
    && HoursStored(s)
  }

  lemma FloorUnique(x: int, m: int)
    requires Aligned(m, MINUTE)
    ensures m <= x < m + MINUTE <==> m == FloorTo(x, MINUTE)
  {
  }

  lemma SumHitsAppend(hits: seq<Hit>, h: Hit, left: int, right: int, key: Key)
    ensures SumHits(hits + [h], left, right, key)
            == SumHits(hits, left, right, key) + if left <= h.time < right && h.key == key then h.amount else 0
  {
    assert (hits + [h])[..|hits|] == hits;
  }

  lemma CountKeepsInv(s: State, key: Key, amount: nat)
    requires Inv(s)
    ensures Inv(Counting(s, key, amount))
  {
    var t := Counting(s, key, amount);
    var h := Hit(s.now, key, amount);
    forall m, k ensures BucketOk(t, m, k) {
      assert BucketOk(s, m, k);
      SumHitsAppend(s.hits, h, m, m + MINUTE, k);
      if Aligned(m, MINUTE) {
        FloorUnique(s.now, m);
      }
    }
    forall m, k ensures MinuteOk(t, m, k) {
      assert MinuteOk(s, m, k);
      SumHitsAppend(s.hits, h, m, m + MINUTE, k);
      if DoneAt(s.log, m) {
        var i :| 0 <= i < |s.log| && s.log[i] == Entry(m, m + MINUTE, Done);
      }
    }
    forall left, k ensures HourOk(t, left, k) {
      assert HourOk(s, left, k);
      SumHitsAppend(s.hits, h, left, left + HOUR, k);
      if left in s.hours {
        var i :| 0 <= i < |s.log| && s.log[i].left == left && Seconds(s.log[i]) == HOUR;
      }
    }
  }

  lemma GrownLog(s: State, after: seq<Entry>, step: int)
    requires Inv(s) && LogOk(after, s.now) && Grows(after, s.log, step)
    ensures Inv(s.(log := after))
  {
    var t := s.(log := after);
    forall m ensures Ran(s.log, m) ==> Ran(after, m)
             ensures DoneAt(after, m) ==> DoneAt(s.log, m)
    {
      if Ran(s.log, m) {
        var i :| 0 <= i < |s.log| && s.log[i].left == m && Seconds(s.log[i]) == MINUTE && s.log[i].status != Queued;
        assert after[i] == s.log[i];
      }
      if DoneAt(after, m) {
        var i :| 0 <= i < |after| && after[i] == Entry(m, m + MINUTE, Done);
        assert s.log[i] == after[i];
      }
    }
    forall m, k ensures BucketOk(t, m, k) && MinuteOk(t, m, k) {
      assert BucketOk(s, m, k) && MinuteOk(s, m, k);
    }
    forall left, k ensures HourOk(t, left, k) {
      assert HourOk(s, left, k);
      if left in s.hours {
        var i :| 0 <= i < |s.log| && s.log[i].left == left && Seconds(s.log[i]) == HOUR;
        assert after[i] == s.log[i];
      }
    }
    forall i | 0 <= i < |after| && Seconds(after[i]) == HOUR && after[i].status == Done ensures after[i].left in s.hours {
      assert after[i] == s.log[i];
    }
  }

  /** No two entries of one step have the same left boundary. */
  lemma {:induction false} SameLeft(log: seq<Entry>, step: int, i: nat, j: nat)
    requires step > 0 && Steps(Lefts(log, step), step)
    requires i < |log| && j < |log| && Seconds(log[i]) == Seconds(log[j]) == step && log[i].left == log[j].left
    ensures i == j
  {
    var n := |log| - 1;
    LeftsFront(log, step);
    if i < n && j < n {
      SameLeft(log[..n], step, i, j);
    } else if i < n {
      LeftsHas(log[..n], step, i);
    } else if j < n {
      LeftsHas(log[..n], step, j);
    }
  }

  lemma {:induction false} LeftsHas(log: seq<Entry>, step: int, i: nat)
    requires i < |log| && Seconds(log[i]) == step
    ensures log[i].left in Lefts(log, step)
  {
    if i < |log| - 1 { LeftsHas(log[..|log| - 1], step, i); }
  }

  lemma MarkedMinute(log: seq<Entry>, i: nat, status: Status, now: int, m: int)
    requires LogOk(log, now) && i < |log| && Seconds(log[i]) == MINUTE && log[i].status == Queued && status != Queued
    ensures Ran(log, log[i].left) == false
    ensures var after := Mark(log, i, status);
            && Ran(after, log[i].left)
            && (m != log[i].left ==> Ran(after, m) == Ran(log, m) && DoneAt(after, m) == DoneAt(log, m))
            && (DoneAt(after, log[i].left) ==> status == Done)
  {
    TilesStep(Lefts(log, MINUTE), MINUTE);
    var left := log[i].left;
    forall j | 0 <= j < |log| && log[j].left == left && Seconds(log[j]) == MINUTE ensures j == i {
      SameLeft(log, MINUTE, i, j);
    }
    var after := Mark(log, i, status);
    assert after[i].left == left && Seconds(after[i]) == MINUTE && after[i].status != Queued;
    if m != left {
      assert forall j :: 0 <= j < |log| && log[j].left == m ==> after[j] == log[j];
      assert forall j :: 0 <= j < |log| && after[j].left == m ==> after[j] == log[j];
    }
  }

  /** A minute task leaves all other minutes alone, and stores a bucket in the row of its own minute. */
  lemma MinuteTaskKeepsMinute(s: State, i: nat, outcome: Outcome, m: int, k: Key)
    requires LogOk(s.log, s.now) && BucketOk(s, m, k) && MinuteOk(s, m, k) && Possible(s, MinuteTask(i, outcome))
    ensures BucketOk(RunMinuteTask(s, i, outcome), m, k) && MinuteOk(RunMinuteTask(s, i, outcome), m, k)
  {
    var t := RunMinuteTask(s, i, outcome);
    MarkedMinute(s.log, i, if outcome.Completed? then Done else Failed, s.now, m);
    if m == s.log[i].left {
      MinuteAligned(s.log, i, s.now);
    } else {
      assert Value(t.buckets, m, k) == Value(s.buckets, m, k) && Value(t.minutes, m, k) == Value(s.minutes, m, k);
    }
  }

  lemma MinuteTaskKeepsInv(s: State, i: nat, outcome: Outcome)
    requires Inv(s) && Possible(s, MinuteTask(i, outcome))
    ensures Inv(RunMinuteTask(s, i, outcome))
  {
    var t := RunMinuteTask(s, i, outcome);
    MarkKeepsLog(s.log, i, if outcome.Completed? then Done else Failed, s.now);
    forall m, k ensures BucketOk(t, m, k) && MinuteOk(t, m, k) {
      assert BucketOk(s, m, k) && MinuteOk(s, m, k);
      MinuteTaskKeepsMinute(s, i, outcome, m, k);
    }
    forall l, k ensures HourOk(t, l, k) {
      assert HourOk(s, l, k);
      if l in s.hours {
        var j :| 0 <= j < |s.log| && s.log[j].left == l && Seconds(s.log[j]) == HOUR;
        assert t.log[j] == s.log[j];
      }
    }
    forall j | 0 <= j < |t.log| && Seconds(t.log[j]) == HOUR && t.log[j].status == Done ensures t.log[j].left in t.hours {
      assert t.log[j] == s.log[j];
    }
  }

  lemma MinuteAligned(log: seq<Entry>, i: nat, now: int)
    requires LogOk(log, now) && i < |log| && Seconds(log[i]) == MINUTE
    ensures Aligned(log[i].left, MINUTE)
  {
    LeftsHas(log, MINUTE, i);
    var j :| 0 <= j < |Lefts(log, MINUTE)| && Lefts(log, MINUTE)[j] == log[i].left;
  }

  // ------------------------------------------------------------------ an hour adds up its minutes

  lemma {:induction false} SumHitsSplit(hits: seq<Hit>, left: int, mid: int, right: int, key: Key)
    requires left <= mid <= right
    ensures SumHits(hits, left, right, key) == SumHits(hits, left, mid, key) + SumHits(hits, mid, right, key)
  {
    if hits != [] { SumHitsSplit(hits[..|hits| - 1], left, mid, right, key); }
  }

  lemma {:induction false} EmptyInterval(hits: seq<Hit>, left: int, key: Key)
    ensures SumHits(hits, left, left, key) == 0
  {
    if hits != [] { EmptyInterval(hits[..|hits| - 1], left, key); }
  }

  lemma {:induction false} MinutesAddUp(s: State, left: int, n: nat, key: Key)
    requires forall j :: 0 <= j < n ==>
               Value(s.minutes, left + 60 * j, key) == SumHits(s.hits, left + 60 * j, left + 60 * j + MINUTE, key)
    ensures SumMinutes(s.minutes, left, n, key) == SumHits(s.hits, left, left + 60 * n, key)
  {
    if n == 0 {
      EmptyInterval(s.hits, left, key);
    } else {
      MinutesAddUp(s, left, n - 1, key);
      SumHitsSplit(s.hits, left, left + 60 * (n - 1), left + 60 * n, key);
    }
  }

  lemma {:induction false} KeysSummed(table: Table, left: int, n: nat, key: Key)
    requires key !in KeysOf(table, left, n)
    ensures SumMinutes(table, left, n, key) == 0
  {
    if n > 0 { KeysSummed(table, left, n - 1, key); }
  }

  lemma GroupedValue(s: State, left: int, key: Key)
    ensures Value(map[left := Grouped(s.minutes, left)], left, key) == SumMinutes(s.minutes, left, 60, key)
  {
    if key !in KeysOf(s.minutes, left, 60) {
      KeysSummed(s.minutes, left, 60, key);
    }
  }

  lemma HourAligned(log: seq<Entry>, i: nat, now: int)
    requires LogOk(log, now) && i < |log| && Seconds(log[i]) == HOUR
    ensures Aligned(log[i].left, HOUR)
  {
    LeftsHas(log, HOUR, i);
    var j :| 0 <= j < |Lefts(log, HOUR)| && Lefts(log, HOUR)[j] == log[i].left;
  }

  lemma AlignedMinuteOf(left: int, j: nat)
    requires Aligned(left, HOUR) && j < 60
    ensures InHour(left, left + 60 * j)
  {
    AlignedOffset(left, 0);
  }

  /** What an hour task stores is what was counted in the hour. */
  lemma HourIsExact(s: State, i: nat, key: Key)
    requires Inv(s) && i < |s.log| && Seconds(s.log[i]) == HOUR
    ensures var left := s.log[i].left;
            SumMinutes(s.minutes, left, 60, key) == SumHits(s.hits, left, left + HOUR, key)
  {
    var left := s.log[i].left;
    HourAligned(s.log, i, s.now);
    forall j | 0 <= j < 60
      ensures Value(s.minutes, left + 60 * j, key) == SumHits(s.hits, left + 60 * j, left + 60 * j + MINUTE, key)
    {
      AlignedMinuteOf(left, j);
      assert DoneAt(s.log, left + 60 * j);
      assert MinuteOk(s, left + 60 * j, key);
    }
    MinutesAddUp(s, left, 60, key);
  }

  lemma MarkedHour(log: seq<Entry>, i: nat, status: Status, m: int)
    requires i < |log| && Seconds(log[i]) == HOUR
    ensures Ran(Mark(log, i, status), m) == Ran(log, m)
    ensures DoneAt(Mark(log, i, status), m) == DoneAt(log, m)
    ensures HourInLog(Mark(log, i, status), m) == HourInLog(log, m)
  {
    var after := Mark(log, i, status);
    assert forall j :: 0 <= j < |log| && Seconds(log[j]) == MINUTE ==> after[j] == log[j];
    assert forall j :: 0 <= j < |log| ==> after[j].left == log[j].left && Seconds(after[j]) == Seconds(log[j]);
  }

  lemma HourTaskKeepsInv(s: State, i: nat, outcome: Outcome)
    requires Inv(s) && Possible(s, HourTask(i, outcome))
    ensures Inv(RunHourTask(s, i, outcome))
  {
    var t := RunHourTask(s, i, outcome);
    var left := s.log[i].left;
    var status := if outcome.Completed? then Done else Failed;
    MarkKeepsLog(s.log, i, status, s.now);
    forall m, k ensures BucketOk(t, m, k) && MinuteOk(t, m, k) {
      assert BucketOk(s, m, k) && MinuteOk(s, m, k);
      MarkedHour(s.log, i, status, m);
    }
    forall l, k ensures HourOk(t, l, k) {
      assert HourOk(s, l, k);
      MarkedHour(s.log, i, status, l);
      if l == left && l in t.hours {
        assert HourInLog(s.log, left);
        HourIsExact(s, i, k);
        GroupedValue(s, left, k);
      }
    }
    forall j | 0 <= j < |t.log| && Seconds(t.log[j]) == HOUR && t.log[j].status == Done ensures t.log[j].left in t.hours {
      if j != i {
        assert t.log[j] == s.log[j];
      }
    }
  }

  // ------------------------------------------------------------------ every run

  lemma TickKeepsInv(s: State, now: int)
    requires Inv(s) && s.now <= now
    ensures Inv(s.(now := now))
  {
    var t := s.(now := now);
    forall m, k ensures BucketOk(t, m, k) && MinuteOk(t, m, k) {
      assert BucketOk(s, m, k) && MinuteOk(s, m, k);
    }
    forall left, k ensures HourOk(t, left, k) {
      assert HourOk(s, left, k);
    }
  }

  lemma StepKeepsInv(s: State, a: Action)
    requires Inv(s) && Possible(s, a)
    ensures Inv(Step(s, a))
  {
    match a
    case Tick(now) => TickKeepsInv(s, now);
    case Count(key, amount) => CountKeepsInv(s, key, amount);
    case RunMinutes => RunKeepsLog(s.log, s.now, MINUTE); GrownLog(s, RunAt(s.log, s.now, MINUTE), MINUTE);
    case RunHours => RunKeepsLog(s.log, s.now, HOUR); GrownLog(s, RunAt(s.log, s.now, HOUR), HOUR);
    case MinuteTask(i, outcome) => MinuteTaskKeepsInv(s, i, outcome);
    case HourTask(i, outcome) => HourTaskKeepsInv(s, i, outcome);
  }

  lemma {:induction false} RunKeepsInv(s: State, actions: seq<Action>)
    requires Inv(s) && IsRun(s, actions)
    ensures Inv(Execute(s, actions))
    decreases |actions|
  {
    if actions != [] {
      StepKeepsInv(s, actions[0]);
      RunKeepsInv(Step(s, actions[0]), actions[1..]);
    }
  }

  lemma InitInv(now: int)
    ensures Inv(Init(now))
  {
  }

  /** Over any run: minutes tile time, and an hour is handed out at most once and only with all its minutes done. */
  lemma LogTilesTime(now: int, actions: seq<Action>, i: nat, x: int)
    requires IsRun(Init(now), actions)
    ensures var log := Execute(Init(now), actions).log;
            && Tiles(Lefts(log, MINUTE), MINUTE)
            && Steps(Lefts(log, HOUR), HOUR)
            && (i < |log| && Seconds(log[i]) == HOUR && InHour(log[i].left, x) ==> DoneAt(log, x))
  {
    InitInv(now);
    RunKeepsInv(Init(now), actions);
  }

  /** The value of a done hour is the sum of its minute rows and of everything counted in the hour. */
  lemma HourValuesAreExact(now: int, actions: seq<Action>, i: nat, key: Key)
    requires IsRun(Init(now), actions)
    requires var log := Execute(Init(now), actions).log; i < |log| && Seconds(log[i]) == HOUR && log[i].status == Done
    ensures var s := Execute(Init(now), actions);
            var left := s.log[i].left;
            Value(s.hours, left, key) == SumMinutes(s.minutes, left, 60, key) == SumHits(s.hits, left, left + HOUR, key)
  {
    InitInv(now);
    RunKeepsInv(Init(now), actions);
    var s := Execute(Init(now), actions);
    assert HourOk(s, s.log[i].left, key);
    HourIsExact(s, i, key);
  }

  // ------------------------------------------------------------------ the tasks

  class MetricsStore {
    var now: int
    var buckets: Table
    var log: seq<Entry>
    var minutes: Table
    var hours: Table
    ghost var hits: seq<Hit>

    ghost function Value(): State
      reads this
    {
      State(now, hits, buckets, log, minutes, hours)
    }

    constructor (now: int)
      ensures Value() == Init(now)
    {
      this.now, buckets, log, minutes, hours, hits := now, map[], [], map[], map[], [];
    }

    method Increment(key: Key, amount: nat)
      modifies this
      ensures Value() == Counting(old(Value()), key, amount)
    {
      var m := FloorTo(now, MINUTE);
      var bucket: map<Key, nat> := if m in buckets then buckets[m] else map[];
      var increased: nat := amount + if key in bucket then bucket[key] else 0;
      buckets := buckets[m := bucket[key := increased]];
      hits := hits + [Hit(now, key, amount)];
    }

    /** Hands out intervals from where the log ends up to the delayed present. */
    method RunRunner(step: int)
      requires step == MINUTE || step == HOUR
      modifies this`log
      ensures log == RunAt(old(log), now, step)
    {
      var until := now - Delay(step);
      var cursor := Resume(log, step, until);
      while cursor <= until
        invariant Advance(log, cursor, until, step) == RunAt(old(log), now, step)
        decreases until - cursor
      {
        if step == MINUTE || IsCovered(log, cursor - step, cursor, MINUTE) {
          log := log + [Entry(cursor - step, cursor, Queued)];
        }
        cursor := cursor + step;
      }
    }

    /** Copies the fields of the minute's bucket one by one and deletes the bucket. */
    method AggregateMinute(left: int) returns (rows: map<Key, nat>)
      modifies this`buckets
      ensures rows == Bucket(old(buckets), left) && buckets == old(buckets) - {left}
    {
      var bucket := Bucket(buckets, left);
      var todo := bucket.Keys;
      rows := map[];
      while todo != {}
        invariant todo <= bucket.Keys && rows.Keys == bucket.Keys - todo
        invariant forall key :: key in rows ==> rows[key] == bucket[key]
        decreases |todo|
      {
        var key :| key in todo;
        rows := rows[key := bucket[key]];
        todo := todo - {key};
      }
      assert rows == bucket;
      buckets := buckets - {left};
    }

    method RunMinute(i: nat, outcome: Outcome)
      requires Possible(Value(), MinuteTask(i, outcome))
      modifies this
      ensures Value() == RunMinuteTask(old(Value()), i, outcome)
    {
      var left := log[i].left;
      if !outcome.RolledBack? || outcome.bucketLost {
        var rows := AggregateMinute(left);
        if !outcome.RolledBack? {
          minutes := minutes[left := rows];
        }
      }
      log := Mark(log, i, if outcome.Completed? then Done else Failed);
    }

    /** Adds the rows of so many minutes up, key by key. */
    method AggregateMinutes(left: int, n: nat) returns (rows: map<Key, nat>)
      ensures rows == GroupedOver(minutes, left, n)
    {
      var table := minutes;
      var keys := KeysOf(table, left, n);
      var todo := keys;
      rows := map[];
      while todo != {}
        invariant todo <= keys && rows.Keys == keys - todo
        invariant forall key :: key in rows ==> rows[key] == SumMinutes(table, left, n, key)
        decreases |todo|
      {
        var key :| key in todo;
        rows := rows[key := SumMinutes(table, left, n, key)];
        todo := todo - {key};
      }
    }

    method RunHour(i: nat, outcome: Outcome)
      requires Possible(Value(), HourTask(i, outcome))
      modifies this
      ensures Value() == RunHourTask(old(Value()), i, outcome)
    {
      var left := log[i].left;
      var rows := AggregateMinutes(left, 60);
      if !outcome.RolledBack? {
        hours := hours[left := rows];
      }
      log := Mark(log, i, if outcome.Completed? then Done else Failed);
    }
  }
}
