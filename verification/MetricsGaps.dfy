/**
  Which hours are never handed out. A runner resumes after the latest entry of its step, so an hour that it passed
  over because one of its minutes was not done is lost once a later hour is in the log.
 */
module MetricsGaps {
  import opened Prelude
  import opened MetricsLog
  import opened MetricsAggregation

  // ------------------------------------------------------------------ where the hour runner resumes

  /** No hour from this one on is in the log. */
  predicate LaterThanAll(log: seq<Entry>, left: int) {
    forall i :: 0 <= i < |log| && Seconds(log[i]) == HOUR ==> log[i].left < left
  }

  lemma {:induction false} EarliestAtMost(log: seq<Entry>, i: nat)
    requires i < |log|
    ensures Earliest(log).Some? && Earliest(log).value <= log[i].right
  {
    if i < |log| - 1 {
      EarliestAtMost(log[..|log| - 1], i);
    }
  }

  lemma FloorBelow(x: int, right: int)
    requires Aligned(right, HOUR) && x < right + HOUR
    ensures FloorTo(x, HOUR) <= right
  {
    var n := right / 3600;
    assert right == 3600 * n;
  }

  lemma {:induction false} LeftsMember(log: seq<Entry>, step: int, x: int) returns (i: nat)
    requires x in Lefts(log, step)
    ensures i < |log| && log[i].left == x && Seconds(log[i]) == step
  {
    i := |log| - 1;
    if !(Seconds(log[i]) == step && log[i].left == x) {
      i := LeftsMember(log[..|log| - 1], step, x);
    }
  }

  lemma ResumesByThen(log: seq<Entry>, now: int, until: int, right: int)
    requires LogOk(log, now) && Aligned(right, HOUR) && IsCovered(log, right - HOUR, right, MINUTE)
    requires LaterThanAll(log, right - HOUR)
    ensures Resume(log, HOUR, until) <= right
  {
    var left := right - HOUR;
    AlignedNext(right, HOUR);
    AlignedOffset(left, 0);
    TilesStep(Lefts(log, MINUTE), MINUTE);
    CoveredMeansAllDone(log, left, left);
    var i :| 0 <= i < |log| && log[i] == Entry(left, left + MINUTE, Done);
    EarliestAtMost(log, i);
    LatestIsLast(log, HOUR);
    var lefts := Lefts(log, HOUR);
    if lefts == [] {
      FloorBelow(Earliest(log).value + HOUR, right);
    } else {
      var last := lefts[|lefts| - 1];
      var j := LeftsMember(log, HOUR, last);
      NextAligned(last, left);
    }
  }

  // ------------------------------------------------------------------ a later hour in the log

  /** Entries of a step come in order. */
  lemma {:induction false} EntriesInOrder(log: seq<Entry>, step: int, i: nat, j: nat)
    requires step > 0 && Steps(Lefts(log, step), step)
    requires i < j < |log| && Seconds(log[i]) == step && Seconds(log[j]) == step
    ensures log[i].left + step <= log[j].left
  {
    var n := |log| - 1;
    LeftsFront(log, step);
    if j < n {
      EntriesInOrder(log[..n], step, i, j);
    } else {
      LeftsHas(log[..n], step, i);
    }
  }

  /** Once an hour from this one on is in the log, whatever is added to the log is later still. */
  lemma GrownKeepsLost(after: seq<Entry>, log: seq<Entry>, now: int, step: int, left: int)
    requires LogOk(after, now) && Grows(after, log, step)
    requires !LaterThanAll(log, left) && !HourInLog(log, left)
    ensures !LaterThanAll(after, left) && !HourInLog(after, left)
  {
    var j :| 0 <= j < |log| && Seconds(log[j]) == HOUR && log[j].left >= left;
    assert after[j] == log[j];
    forall i | 0 <= i < |after| && Seconds(after[i]) == HOUR ensures after[i].left != left {
      if i < |log| {
        assert log[i] == after[i];
      } else {
        EntriesInOrder(after, HOUR, j, i);
      }
    }
  }

  /**
    A covered hour up to the delayed present is in the log after a run of the hour runner if and only if it was there
    already or no later hour was.
   */
  lemma HandedOutIff(log: seq<Entry>, now: int, right: int)
    requires LogOk(log, now) && Aligned(right, HOUR) && IsCovered(log, right - HOUR, right, MINUTE)
    requires right <= now - Delay(HOUR)
    ensures HourInLog(RunAt(log, now, HOUR), right - HOUR)
            <==> HourInLog(log, right - HOUR) || LaterThanAll(log, right - HOUR)
  {
    RunKeepsLog(log, now, HOUR);
    if HourInLog(log, right - HOUR) {
      HourInGrown(RunAt(log, now, HOUR), log, right - HOUR);
    } else if LaterThanAll(log, right - HOUR) {
      ResumesByThen(log, now, now - Delay(HOUR), right);
      CoveredHoursAreHandedOut(log, now, right);
    } else {
      GrownKeepsLost(RunAt(log, now, HOUR), log, now, HOUR, right - HOUR);
    }
  }

  /** The hour is not in the log and a later one is. */
  ghost predicate Lost(s: State, left: int) {
    !HourInLog(s.log, left) && !LaterThanAll(s.log, left)
  }

  lemma MarkKeepsLost(log: seq<Entry>, i: nat, status: Status, left: int)
    requires i < |log|
    ensures HourInLog(Mark(log, i, status), left) == HourInLog(log, left)
    ensures LaterThanAll(Mark(log, i, status), left) == LaterThanAll(log, left)
  {
    var after := Mark(log, i, status);
    assert forall j :: 0 <= j < |log| ==> after[j].left == log[j].left && Seconds(after[j]) == Seconds(log[j]);
  }

  lemma StepKeepsLost(s: State, a: Action, left: int)
    requires Inv(s) && Possible(s, a) && Lost(s, left)
    ensures Lost(Step(s, a), left)
  {
    match a
    case RunMinutes =>
      RunKeepsLog(s.log, s.now, MINUTE);
      GrownKeepsLost(RunAt(s.log, s.now, MINUTE), s.log, s.now, MINUTE, left);
    case RunHours =>
      RunKeepsLog(s.log, s.now, HOUR);
      GrownKeepsLost(RunAt(s.log, s.now, HOUR), s.log, s.now, HOUR, left);
    case MinuteTask(i, outcome) => MarkKeepsLost(s.log, i, if outcome.Completed? then Done else Failed, left);
    case HourTask(i, outcome) => MarkKeepsLost(s.log, i, if outcome.Completed? then Done else Failed, left);
    case _ =>
  }

  /** A lost hour stays lost, whatever happens. */
  lemma {:induction false} LostForEver(s: State, actions: seq<Action>, left: int)
    requires Inv(s) && IsRun(s, actions) && Lost(s, left)
    ensures Lost(Execute(s, actions), left)
    decreases |actions|
  {
    if actions != [] {
      StepKeepsLost(s, actions[0], left);
      StepKeepsInv(s, actions[0]);
      LostForEver(Step(s, actions[0]), actions[1..], left);
    }
  }

  // ------------------------------------------------------------------ an hour with a failed minute

  /** The task of this minute failed, whether or not its rows were stored. */
  predicate FailedAt(log: seq<Entry>, x: int) {
    exists i :: 0 <= i < |log| && log[i].left == x && Seconds(log[i]) == MINUTE && log[i].status == Failed
  }

  lemma StepKeepsFailed(s: State, a: Action, x: int)
    requires Inv(s) && Possible(s, a) && FailedAt(s.log, x)
    ensures FailedAt(Step(s, a).log, x)
  {
    var i :| 0 <= i < |s.log| && s.log[i].left == x && Seconds(s.log[i]) == MINUTE && s.log[i].status == Failed;
    match a
    case RunMinutes => RunKeepsLog(s.log, s.now, MINUTE); assert RunAt(s.log, s.now, MINUTE)[i] == s.log[i];
    case RunHours => RunKeepsLog(s.log, s.now, HOUR); assert RunAt(s.log, s.now, HOUR)[i] == s.log[i];
    case _ => assert Step(s, a).log[i] == s.log[i];
  }

  /** An hour with a failed minute is not in the log. */
  lemma FailedHourIsOut(s: State, left: int, x: int)
    requires Inv(s) && InHour(left, x) && FailedAt(s.log, x)
    ensures !HourInLog(s.log, left)
  {
    if HourInLog(s.log, left) {
      assert DoneAt(s.log, x);
      var i :| 0 <= i < |s.log| && s.log[i].left == x && Seconds(s.log[i]) == MINUTE && s.log[i].status == Failed;
      var j :| 0 <= j < |s.log| && s.log[j] == Entry(x, x + MINUTE, Done);
      TilesStep(Lefts(s.log, MINUTE), MINUTE);
      SameLeft(s.log, MINUTE, i, j);
    }
  }

  /**
    Once the task of a minute has failed, its hour is never handed out: not even when all that failed was a listener,
    after the minute's rows had been stored.
   */
  lemma {:induction false} FailedMinuteLosesHour(s: State, actions: seq<Action>, left: int, x: int)
    requires Inv(s) && IsRun(s, actions) && InHour(left, x) && FailedAt(s.log, x)
    ensures !HourInLog(Execute(s, actions).log, left)
    decreases |actions|
  {
    if actions == [] {
      FailedHourIsOut(s, left, x);
    } else {
      StepKeepsFailed(s, actions[0], x);
      StepKeepsInv(s, actions[0]);
      FailedMinuteLosesHour(Step(s, actions[0]), actions[1..], left, x);
    }
  }

  /** A failing listener alone does it: the rows are those of the completed task, but the entry has failed. */
  lemma FailingListenerFailsMinute(s: State, i: nat)
    requires Inv(s) && Possible(s, MinuteTask(i, ListenerFailed))
    ensures var t, u := Step(s, MinuteTask(i, ListenerFailed)), Step(s, MinuteTask(i, Completed));
            t.minutes == u.minutes && t.buckets == u.buckets && FailedAt(t.log, s.log[i].left)
  {
    var t := Step(s, MinuteTask(i, ListenerFailed));
    assert t.log[i].left == s.log[i].left && Seconds(t.log[i]) == MINUTE && t.log[i].status == Failed;
  }

  // ------------------------------------------------------------------ a run that loses an hour

  ghost predicate Reaches(now: int, s: State) {
    exists actions :: IsRun(Init(now), actions) && Execute(Init(now), actions) == s
  }

  lemma {:induction false} RunSnoc(s: State, actions: seq<Action>, a: Action)
    requires IsRun(s, actions) && Possible(Execute(s, actions), a)
    ensures IsRun(s, actions + [a]) && Execute(s, actions + [a]) == Step(Execute(s, actions), a)
    decreases |actions|
  {
    if actions == [] {
      assert actions + [a] == [a] && [a][1..] == [];
      assert IsRun(Step(s, a), []) && Execute(Step(s, a), []) == Step(s, a);
    } else {
      HeadOfConcat(actions, [a]);
      RunSnoc(Step(s, actions[0]), actions[1..], a);
    }
  }

  lemma Go(now: int, s: State, a: Action) returns (t: State)
    requires Reaches(now, s) && Possible(s, a)
    ensures t == Step(s, a) && Reaches(now, t)
  {
    var actions :| IsRun(Init(now), actions) && Execute(Init(now), actions) == s;
    RunSnoc(Init(now), actions, a);
    t := Step(s, a);
  }

  lemma ReachedIsOk(now: int, s: State)
    requires Reaches(now, s)
    ensures Inv(s)
  {
    var actions :| IsRun(Init(now), actions) && Execute(Init(now), actions) == s;
    InitInv(now);
    RunKeepsInv(Init(now), actions);
  }

  /** The first n minutes from the epoch on, those from the k-th on done. */
  predicate Minutes(log: seq<Entry>, n: nat, k: nat) {
    |log| == n && forall i :: 0 <= i < n ==> log[i] == Entry(60 * i, 60 * i + 60, if i >= k then Done else Queued)
  }

  lemma {:induction false} AllMinutes(log: seq<Entry>)
    requires forall i :: 0 <= i < |log| ==> Seconds(log[i]) == MINUTE
    ensures |Lefts(log, MINUTE)| == |log| && forall i :: 0 <= i < |log| ==> Lefts(log, MINUTE)[i] == log[i].left
  {
    if log != [] { AllMinutes(log[..|log| - 1]); }
  }

  lemma {:induction false} TileAt(lefts: seq<int>, i: nat)
    requires Tiles(lefts, MINUTE) && i < |lefts|
    ensures lefts[i] == lefts[0] + 60 * i
  {
    if i > 0 {
      TileAt(lefts, i - 1);
      assert lefts[i] == lefts[i - 1] + MINUTE;
    }
  }

  /** The runner runs at 120 seconds and again at 7800. */
  lemma MinutesHandedOut() returns (s: State)
    ensures Reaches(120, s) && s.now == 7800 && Minutes(s.log, 129, 129)
  {
    s := Init(120);
    assert IsRun(s, []) && Execute(s, []) == s;
    s := Go(120, s, RunMinutes);
    assert s.log == [Entry(0, 60, Queued)] by { FirstMinute(); }
    s := Go(120, s, Tick(7800));
    var log := s.log;
    ReachedIsOk(120, s);
    RunKeepsLog(log, 7800, MINUTE);
    MinutesReachPresent(log, 7800);
    s := Go(120, s, RunMinutes);
    ManyMinutes(s.log, log);
  }

  lemma FirstMinute()
    ensures RunAt([], 120, MINUTE) == [Entry(0, 60, Queued)]
  {
    assert Resume([], MINUTE, 60) == 60;
    var one := [Entry(0, 60, Queued)];
    assert WithDue([], 60, MINUTE) == one;
    assert Advance(one, 120, 60, MINUTE) == one;
  }

  lemma ManyMinutes(after: seq<Entry>, log: seq<Entry>)
    requires log == [Entry(0, 60, Queued)] && Grows(after, log, MINUTE) && LogOk(after, 7800)
    requires var lefts := Lefts(after, MINUTE);
             lefts != [] && lefts[|lefts| - 1] + 60 <= 7740 < lefts[|lefts| - 1] + 120
    ensures Minutes(after, 129, 129)
  {
    assert after[0] == log[0];
    AllMinutes(after);
    var lefts := Lefts(after, MINUTE);
    forall i | 0 <= i < |after| ensures after[i] == Entry(60 * i, 60 * i + 60, Queued) {
      TileAt(lefts, i);
    }
    TileAt(lefts, |lefts| - 1);
  }

  /** The tasks of all minutes but the first are done, from the last on. */
  lemma {:induction false} MinutesDone(k: nat) returns (s: State)
    requires 1 <= k <= 129
    ensures Reaches(120, s) && s.now == 7800 && Minutes(s.log, 129, k)
    decreases 129 - k
  {
    if k == 129 {
      s := MinutesHandedOut();
    } else {
      var before := MinutesDone(k + 1);
      s := Go(120, before, MinuteTask(k, Completed));
    }
  }

  lemma {:induction false} DoneSetHas(log: seq<Entry>, left: int, right: int, i: nat)
    requires i < |log| && CountsFor(log[i], left, right, MINUTE)
    ensures log[i].left in DoneSet(log, left, right)
  {
    if i < |log| - 1 { DoneSetHas(log[..|log| - 1], left, right, i); }
  }

  lemma SlotsInDoneSet(log: seq<Entry>, left: int)
    requires Aligned(left, HOUR) && forall x :: InHour(left, x) ==> DoneAt(log, x)
    ensures Slots(left, 60) <= DoneSet(log, left, left + HOUR)
  {
    SlotsAre(left, 60);
    forall x | x in Slots(left, 60) ensures x in DoneSet(log, left, left + HOUR) {
      OffsetAligned(left, x);
      assert InHour(left, x);
      var i :| 0 <= i < |log| && log[i] == Entry(x, x + MINUTE, Done);
      DoneSetHas(log, left, left + HOUR, i);
    }
  }

  /** The converse of what a covered hour means. */
  lemma AllDoneMeansCovered(log: seq<Entry>, left: int)
    requires Steps(Lefts(log, MINUTE), MINUTE) && Aligned(left, HOUR)
    requires forall x :: InHour(left, x) ==> DoneAt(log, x)
    ensures IsCovered(log, left, left + HOUR, MINUTE)
  {
    var done, slots := DoneSet(log, left, left + HOUR), Slots(left, 60);
    CountIsCardinality(log, left, left + HOUR);
    SlotsAre(left, 60);
    DoneSetInSlots(log, left);
    SlotsInDoneSet(log, left);
    assert done == slots;
  }

  lemma OffsetAligned(left: int, x: int)
    requires Aligned(left, HOUR) && left <= x < left + 3600 && (x - left) % 60 == 0
    ensures Aligned(x, MINUTE) && x + MINUTE <= left + HOUR
  {
    var hours, minutes := left / 3600, (x - left) / 60;
    assert left == 3600 * hours && x - left == 60 * minutes;
    assert x == 60 * (60 * hours + minutes);
  }

  lemma MinuteOfHour(log: seq<Entry>, n: nat, k: nat, hour: nat, x: int)
    requires n <= |log| && Minutes(log[..n], n, k) && k <= 60 * hour && 60 * hour + 60 <= n
    requires InHour(3600 * hour, x)
    ensures DoneAt(log, x)
  {
    var i := x / 60;
    assert x == 60 * i;
    assert log[..n][i] == log[i];
  }

  lemma MinuteHourCovered(log: seq<Entry>, n: nat, k: nat, hour: nat)
    requires n <= |log| && Minutes(log[..n], n, k) && k <= 60 * hour && 60 * hour + 60 <= n
    requires Steps(Lefts(log, MINUTE), MINUTE)
    ensures IsCovered(log, 3600 * hour, 3600 * hour + HOUR, MINUTE)
  {
    forall x | InHour(3600 * hour, x) ensures DoneAt(log, x) {
      MinuteOfHour(log, n, k, hour, x);
    }
    AllDoneMeansCovered(log, 3600 * hour);
  }

  lemma {:induction false} EarliestIs(log: seq<Entry>, n: nat, k: nat)
    requires n > 0 && Minutes(log, n, k)
    ensures Earliest(log) == Some(60)
  {
    if n > 1 {
      EarliestIs(log[..n - 1], n - 1, k);
    }
  }

  /** The hour runner passes the first hour over and hands the second one out. */
  lemma PassesOver(log: seq<Entry>)
    requires Minutes(log, 129, 1) && LogOk(log, 7800)
    ensures RunAt(log, 7800, HOUR) == log + [Entry(3600, 7200, Queued)]
  {
    TilesStep(Lefts(log, MINUTE), MINUTE);
    LatestIsLast(log, HOUR);
    NoHours(log);
    EarliestIs(log, 129, 1);
    assert Resume(log, HOUR, 7500) == 3600;
    assert !DoneAt(log, 0);
    if IsCovered(log, 0, 3600, MINUTE) {
      CoveredMeansAllDone(log, 0, 0);
    }
    assert log[..129] == log;
    MinuteHourCovered(log, 129, 1, 1);
    var after := log + [Entry(3600, 7200, Queued)];
    assert WithDue(log, 3600, HOUR) == log && WithDue(log, 7200, HOUR) == after;
    assert Advance(after, 10800, 7500, HOUR) == after;
    assert Advance(log, 7200, 7500, HOUR) == after;
  }

  lemma {:induction false} NoHours(log: seq<Entry>)
    requires forall i :: 0 <= i < |log| ==> Seconds(log[i]) == MINUTE
    ensures Lefts(log, HOUR) == []
  {
    if log != [] { NoHours(log[..|log| - 1]); }
  }

  lemma SecondHourOnly(s: State, log: seq<Entry>)
    requires Minutes(log, 129, 1) && s.log == Mark(log + [Entry(3600, 7200, Queued)], 0, Done)
    ensures |s.log| == 130 && Minutes(s.log[..129], 129, 0) && Lost(s, 0)
  {
    assert s.log[129] == Entry(3600, 7200, Queued);
    assert s.log[0] == Entry(0, 60, Done);
    forall i | 0 <= i < 129 ensures s.log[..129][i] == Entry(60 * i, 60 * i + 60, Done) {
      assert i > 0 ==> s.log[i] == log[i];
    }
    assert forall i :: 0 <= i < 129 ==> s.log[..129][i] == s.log[i];
    assert forall i :: 0 <= i < 130 && Seconds(s.log[i]) == HOUR ==> i == 129;
  }

  /**
    The first minute is done only after the runner has gone on to the second hour: the first hour is then covered
    and past its delay, and is never handed out.
   */
  lemma HourCanBeLost() returns (s: State)
    ensures Reaches(120, s) && Inv(s) && 3600 <= s.now - Delay(HOUR)
    ensures IsCovered(s.log, 0, 3600, MINUTE) && Lost(s, 0)
  {
    s := MinutesDone(1);
    ReachedIsOk(120, s);
    PassesOver(s.log);
    var log := s.log;
    s := Go(120, s, RunHours);
    s := Go(120, s, MinuteTask(0, Completed));
    ReachedIsOk(120, s);
    TilesStep(Lefts(s.log, MINUTE), MINUTE);
    SecondHourOnly(s, log);
    MinuteHourCovered(s.log, 129, 0, 0);
  }
}
