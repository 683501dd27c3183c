/**
  The per-instance concurrency limiter of `CodeBoxRunTask`: a shared counter, a priority and a normal queue of spec
  keys, and tasks that requeue themselves. Increment and decrement are separate steps, as in the code.
 */
module ScriptLimiter {
  /** Where a task stands in `run`. */
  datatype Phase =
    | Testing
    | Refused
    | PopPriority
    | PopNormal
    | Processing(key: nat, priority: bool)
    | Cleaning
    | CheckPriority
    | CheckNormal
    | Gone

  /** `pending` counts the queued task messages, `wakers` the enqueuers that have pushed a key but not yet woken a task. */
  datatype State = State(
    counter: int, priority: seq<nat>, normal: seq<nat>, pending: nat, wakers: nat, tasks: seq<Phase>,
    pushed: multiset<nat>, finished: multiset<nat>)

  /** Every task is given its own limit; tasks are numbered in the order in which they start. */
  type Limits = nat -> nat

  datatype Action =
    | Push(key: nat, toPriority: bool)
    | Wake
    | Start
    | Step(task: nat, pushBack: bool)

  function Init(): State {
    State(0, [], [], 0, 0, [], multiset{}, multiset{})
  }

  predicate Possible(s: State, a: Action) {
    match a
    case Push(_, _) => true
    case Wake => s.wakers > 0
    case Start => s.pending > 0
    case Step(t, _) => t < |s.tasks| && !s.tasks[t].Gone?
  }

  function At(s: State, t: nat, phase: Phase): State
    requires t < |s.tasks|
  {
    s.(tasks := s.tasks[t := phase])
  }

  /** `cleanup`: decrement, and delete the key should it ever become negative. */
  function Decrement(counter: int): int {
    if counter - 1 < 0 then 0 else counter - 1
  }

  function StepTask(s: State, t: nat, pushBack: bool, limits: Limits): State
    requires t < |s.tasks|
  {
    match s.tasks[t]
    case Testing =>
      At(s.(counter := s.counter + 1), t, if s.counter + 1 > limits(t) then Refused else PopPriority)
    case Refused => At(s.(counter := s.counter - 1), t, Gone)
    case PopPriority =>
      if s.priority == [] then At(s, t, PopNormal)
      else At(s.(priority := s.priority[1..]), t, Processing(s.priority[0], true))
    case PopNormal =>
      if s.normal == [] then At(s, t, Cleaning)
      else At(s.(normal := s.normal[1..]), t, Processing(s.normal[0], false))
    case Processing(key, priority) =>
      if !pushBack then At(s.(finished := s.finished + multiset{key}), t, Cleaning)
      else if priority then At(s.(priority := [key] + s.priority), t, Cleaning)
      else At(s.(normal := [key] + s.normal), t, Cleaning)
    case Cleaning => At(s.(counter := Decrement(s.counter)), t, CheckPriority)
    case CheckPriority =>
      if s.priority != [] then At(s.(pending := s.pending + 1), t, Gone) else At(s, t, CheckNormal)
    case CheckNormal =>
      if s.normal != [] then At(s.(pending := s.pending + 1), t, Gone) else At(s, t, Gone)
    case Gone => s
  }

  function Next(s: State, a: Action, limits: Limits): State
    requires Possible(s, a)
  {
    match a
    case Push(key, toPriority) =>
      var t := s.(wakers := s.wakers + 1, pushed := s.pushed + multiset{key});
      if toPriority then t.(priority := s.priority + [key]) else t.(normal := s.normal + [key])
    case Wake => s.(wakers := s.wakers - 1, pending := s.pending + 1)
    case Start => s.(pending := s.pending - 1, tasks := s.tasks + [Testing])
    case Step(t, pushBack) => StepTask(s, t, pushBack, limits)
  }

  predicate IsRun(s: State, actions: seq<Action>, limits: Limits)
    decreases |actions|
  {
    actions == [] || (Possible(s, actions[0]) && IsRun(Next(s, actions[0], limits), actions[1..], limits))
  }

  function Execute(s: State, actions: seq<Action>, limits: Limits): State
    requires IsRun(s, actions, limits)
    decreases |actions|
  {
    if actions == [] then s else Execute(Next(s, actions[0], limits), actions[1..], limits)
  }

  // ------------------------------------------------------------------ counting tasks

  predicate Running(p: Phase) {
    p.PopPriority? || p.PopNormal? || p.Processing? || p.Cleaning?
  }

  /** A task that has incremented the counter and not yet decremented it. */
  predicate Holding(p: Phase) {
    Running(p) || p.Refused?
  }

  function One(b: bool): nat {
    if b then 1 else 0
  }

  function Count(tasks: seq<Phase>, p: Phase -> bool): nat {
    if tasks == [] then 0 else Count(tasks[..|tasks| - 1], p) + One(p(tasks[|tasks| - 1]))
  }

  /** Whether a task is processing the spec with this key. */
  function Has(key: nat): Phase -> bool {
    (p: Phase) => p.Processing? && p.key == key
  }

  lemma {:induction false} CountUpdate(tasks: seq<Phase>, t: nat, phase: Phase, p: Phase -> bool)
    requires t < |tasks|
    ensures Count(tasks[t := phase], p) == Count(tasks, p) - One(p(tasks[t])) + One(p(phase))
    ensures Count(tasks, p) >= One(p(tasks[t]))
    decreases |tasks|
  {
    var n := |tasks| - 1;
    if t < n {
      assert tasks[t := phase][..n] == tasks[..n][t := phase];
      CountUpdate(tasks[..n], t, phase, p);
    } else {
      assert tasks[t := phase][..n] == tasks[..n];
    }
  }

  lemma {:induction false} CountMonotone(tasks: seq<Phase>, p: Phase -> bool, q: Phase -> bool)
    requires forall x :: p(x) ==> q(x)
    ensures Count(tasks, p) <= Count(tasks, q)
    decreases |tasks|
  {
    if tasks != [] {
      CountMonotone(tasks[..|tasks| - 1], p, q);
    }
  }

  lemma {:induction false} CountPositive(tasks: seq<Phase>, p: Phase -> bool) returns (t: nat)
    requires Count(tasks, p) > 0
    ensures t < |tasks| && p(tasks[t])
    decreases |tasks|
  {
    var n := |tasks| - 1;
    if p(tasks[n]) {
      t := n;
    } else {
      t := CountPositive(tasks[..n], p);
    }
  }

  // ------------------------------------------------------------------ no more tasks hold a slot than the limits allow

  ghost predicate CounterOk(s: State) {
    s.counter == Count(s.tasks, Holding)
  }

  ghost predicate SlotsOk(s: State, bound: nat) {
    CounterOk(s) && Count(s.tasks, Running) <= bound
  }

  ghost predicate Within(limits: Limits, bound: nat) {
    forall t :: limits(t) <= bound
  }

  lemma CountSnoc(tasks: seq<Phase>, phase: Phase, p: Phase -> bool)
    ensures Count(tasks + [phase], p) == Count(tasks, p) + One(p(phase))
  {
    assert (tasks + [phase])[..|tasks|] == tasks;
  }

  /** A step of a task moves the counter exactly as it takes or gives up a slot, and runs on only within its limit. */
  lemma TaskMovesCounter(s: State, t: nat, pushBack: bool, limits: Limits)
    requires t < |s.tasks| && (Holding(s.tasks[t]) ==> s.counter > 0)
    ensures var u := StepTask(s, t, pushBack, limits);
      && |u.tasks| == |s.tasks| && u.tasks == s.tasks[t := u.tasks[t]]
      && u.counter - s.counter == One(Holding(u.tasks[t])) - One(Holding(s.tasks[t]))
      && (Running(u.tasks[t]) ==> Running(s.tasks[t]) || u.counter <= limits(t))
  {
  }

  lemma SlotsAfter(s: State, u: State, t: nat, limit: nat, bound: nat)
    requires t < |s.tasks| && |u.tasks| == |s.tasks| && u.tasks == s.tasks[t := u.tasks[t]] && CounterOk(s)
    requires u.counter - s.counter == One(Holding(u.tasks[t])) - One(Holding(s.tasks[t]))
    requires Running(u.tasks[t]) ==> Running(s.tasks[t]) || u.counter <= limit
    ensures CounterOk(u)
    ensures SlotsOk(s, bound) && limit <= bound ==> SlotsOk(u, bound)
  {
    CountUpdate(s.tasks, t, u.tasks[t], Holding);
    CountUpdate(s.tasks, t, u.tasks[t], Running);
    CountMonotone(u.tasks, Running, Holding);
  }

  lemma TaskKeepsSlots(s: State, t: nat, pushBack: bool, limits: Limits, bound: nat)
    requires CounterOk(s) && t < |s.tasks|
    ensures CounterOk(StepTask(s, t, pushBack, limits))
    ensures SlotsOk(s, bound) && limits(t) <= bound ==> SlotsOk(StepTask(s, t, pushBack, limits), bound)
  {
    CountUpdate(s.tasks, t, s.tasks[t], Holding);
    TaskMovesCounter(s, t, pushBack, limits);
    SlotsAfter(s, StepTask(s, t, pushBack, limits), t, limits(t), bound);
  }

  lemma StepKeepsSlots(s: State, a: Action, limits: Limits, bound: nat)
    requires CounterOk(s) && Possible(s, a)
    ensures CounterOk(Next(s, a, limits))
    ensures SlotsOk(s, bound) && Within(limits, bound) ==> SlotsOk(Next(s, a, limits), bound)
  {
    if a.Start? {
      CountSnoc(s.tasks, Testing, Holding);
      CountSnoc(s.tasks, Testing, Running);
    } else if a.Step? {
      TaskKeepsSlots(s, a.task, a.pushBack, limits, bound);
    }
  }

  // ------------------------------------------------------------------ no key is lost or duplicated

  function Occurs(queue: seq<nat>, key: nat): nat {
    if queue == [] then 0 else One(queue[0] == key) + Occurs(queue[1..], key)
  }

  lemma {:induction false} OccursSnoc(queue: seq<nat>, x: nat, key: nat)
    ensures Occurs(queue + [x], key) == Occurs(queue, key) + One(x == key)
    decreases |queue|
  {
    if queue == [] {
      assert queue + [x] == [x];
    } else {
      assert (queue + [x])[1..] == queue[1..] + [x];
      OccursSnoc(queue[1..], x, key);
    }
  }

  /** In how many places a key is: the queues, the tasks at work, and the specs done with. */
  function Places(s: State, key: nat): nat {
    Occurs(s.priority, key) + Occurs(s.normal, key) + Count(s.tasks, Has(key)) + s.finished[key]
  }

  ghost predicate KeysOk(s: State) {
    forall key :: Places(s, key) == s.pushed[key]
  }

  /** What a step of a task does to a key, in the queues, in the task's hands and among the specs done with. */
  lemma TaskMovesKey(s: State, t: nat, pushBack: bool, limits: Limits, key: nat)
    requires t < |s.tasks|
    ensures var u := StepTask(s, t, pushBack, limits);
      && |u.tasks| == |s.tasks| && u.tasks == s.tasks[t := u.tasks[t]]
      && Occurs(u.priority, key) + Occurs(u.normal, key) + One(Has(key)(u.tasks[t])) + u.finished[key]
         == Occurs(s.priority, key) + Occurs(s.normal, key) + One(Has(key)(s.tasks[t])) + s.finished[key]
  {
    match s.tasks[t]
    case Processing(k, priority) =>
      if pushBack {
        var queue := if priority then s.priority else s.normal;
        assert ([k] + queue)[1..] == queue;
      }
    case _ =>
  }

  lemma TaskKeepsPlaces(s: State, t: nat, pushBack: bool, limits: Limits, key: nat)
    requires t < |s.tasks|
    ensures Places(StepTask(s, t, pushBack, limits), key) == Places(s, key)
  {
    TaskMovesKey(s, t, pushBack, limits, key);
    CountUpdate(s.tasks, t, StepTask(s, t, pushBack, limits).tasks[t], Has(key));
  }

  lemma StepKeepsPlaces(s: State, a: Action, limits: Limits, key: nat)
    requires Possible(s, a)
    ensures Places(Next(s, a, limits), key) - Places(s, key) == Next(s, a, limits).pushed[key] - s.pushed[key]
  {
    match a
    case Push(k, toPriority) => OccursSnoc(if toPriority then s.priority else s.normal, k, key);
    case Wake =>
    case Start => assert (s.tasks + [Testing])[..|s.tasks|] == s.tasks;
    case Step(t, pushBack) => TaskKeepsPlaces(s, t, pushBack, limits, key);
  }

  lemma StepKeepsKeys(s: State, a: Action, limits: Limits)
    requires KeysOk(s) && Possible(s, a)
    ensures KeysOk(Next(s, a, limits))
  {
    forall key ensures Places(Next(s, a, limits), key) == Next(s, a, limits).pushed[key] {
      StepKeepsPlaces(s, a, limits, key);
    }
  }

  lemma {:induction false} RunKeepsSlotsAndKeys(s: State, actions: seq<Action>, limits: Limits, bound: nat)
    requires SlotsOk(s, bound) && Within(limits, bound) && KeysOk(s) && IsRun(s, actions, limits)
    ensures SlotsOk(Execute(s, actions, limits), bound) && KeysOk(Execute(s, actions, limits))
    decreases |actions|
  {
    if actions != [] {
      StepKeepsSlots(s, actions[0], limits, bound);
      StepKeepsKeys(s, actions[0], limits);
      RunKeepsSlotsAndKeys(Next(s, actions[0], limits), actions[1..], limits, bound);
    }
  }

  /**
    In every interleaving no more tasks process a spec than the largest limit, the counter never goes negative, and every pushed key
    is in as many places (a queue, a task, or done) as it was pushed times: never dropped, never duplicated.
   */
  lemma LimitIsRespected(actions: seq<Action>, limits: Limits, bound: nat)
    requires IsRun(Init(), actions, limits) && Within(limits, bound)
    ensures var end := Execute(Init(), actions, limits);
      && Count(end.tasks, (p: Phase) => p.Processing?) <= bound
      && end.counter >= 0
      && forall key :: Places(end, key) == end.pushed[key]
  {
    RunKeepsSlotsAndKeys(Init(), actions, limits, bound);
    CountMonotone(Execute(Init(), actions, limits).tasks, (p: Phase) => p.Processing?, Running);
  }

  // ------------------------------------------------------------------ no wake-up is lost

  /** A task that has yet to look at the priority queue for the last time. */
  predicate WillCheckPriority(p: Phase) {
    p.Testing? || Running(p) || p.CheckPriority?
  }

  predicate WillCheckNormal(p: Phase) {
    WillCheckPriority(p) || p.CheckNormal?
  }

  /** Whenever a queue is not empty, a task is on its way or some task has yet to make its final check of it. */
  ghost predicate Covered(s: State) {
    && (s.priority != [] ==> s.pending > 0 || s.wakers > 0 || exists t :: 0 <= t < |s.tasks| && WillCheckPriority(s.tasks[t]))
    && (s.normal != [] ==> s.pending > 0 || s.wakers > 0 || exists t :: 0 <= t < |s.tasks| && WillCheckNormal(s.tasks[t]))
  }

  /** A task is about to be refused. */
  predicate Refusal(s: State, a: Action, limits: Limits) {
    a.Step? && a.task < |s.tasks| && s.tasks[a.task].Testing? && s.counter + 1 > limits(a.task)
  }

  /** A refusal happens only while some task holds a slot. */
  ghost predicate Witnessed(s: State, a: Action, limits: Limits) {
    Refusal(s, a, limits) ==> exists t :: 0 <= t < |s.tasks| && Running(s.tasks[t])
  }

  /** A task that sees to no key and dispatches nothing leaves those yet to check as they were. */
  lemma CheckersRemain(s: State, a: Action, limits: Limits)
    requires Covered(s) && a.Step? && Possible(s, a) && Next(s, a, limits).pending == s.pending
    requires !Running(s.tasks[a.task]) && !s.tasks[a.task].Testing?
    ensures Covered(Next(s, a, limits))
  {
    var u, me := Next(s, a, limits), a.task;
    assert forall t :: 0 <= t < |s.tasks| && t != me ==> u.tasks[t] == s.tasks[t];
    if s.pending == 0 && s.wakers == 0 {
      if s.priority != [] {
        var t :| 0 <= t < |s.tasks| && WillCheckPriority(s.tasks[t]);
        assert t != me && WillCheckPriority(u.tasks[t]);
      }
      if s.normal != [] {
        var t :| 0 <= t < |s.tasks| && WillCheckNormal(s.tasks[t]);
        assert WillCheckNormal(u.tasks[t]);
      }
    }
  }

  lemma TaskKeepsCovered(s: State, a: Action, limits: Limits)
    requires Covered(s) && a.Step? && Possible(s, a) && Witnessed(s, a, limits)
    ensures Covered(Next(s, a, limits))
  {
    var u, me := Next(s, a, limits), a.task;
    assert forall t :: 0 <= t < |s.tasks| && t != me ==> u.tasks[t] == s.tasks[t];
    if Refusal(s, a, limits) {
      var t :| 0 <= t < |s.tasks| && Running(s.tasks[t]);
      assert Running(u.tasks[t]);
    } else if s.tasks[me].Testing? || (Running(s.tasks[me]) && !s.tasks[me].Cleaning?) {
      assert Running(u.tasks[me]);
    } else if s.tasks[me].Cleaning? {
      assert u.tasks[me].CheckPriority?;
    } else if u.pending == s.pending {
      CheckersRemain(s, a, limits);
    }
  }

  lemma StepKeepsCovered(s: State, a: Action, limits: Limits)
    requires Covered(s) && Possible(s, a) && Witnessed(s, a, limits)
    ensures Covered(Next(s, a, limits))
  {
    if a.Step? {
      TaskKeepsCovered(s, a, limits);
    } else if a.Start? {
      assert Next(s, a, limits).tasks[|s.tasks|].Testing?;
    }
  }

  /** A task that is the last one that could have seen to a queued key. */
  ghost predicate LastHope(s: State, me: nat) {
    && s.pending == 0 && s.wakers == 0
    && ((s.priority != [] && forall t :: 0 <= t < |s.tasks| && t != me ==> !WillCheckPriority(s.tasks[t])) ||
        (s.normal != [] && forall t :: 0 <= t < |s.tasks| && t != me ==> !WillCheckNormal(s.tasks[t])))
  }

  /** Exactly one kind of step can lose a wake-up: refusing the last task that could have seen to a queued key. */
  lemma CoverIsLostExactly(s: State, a: Action, limits: Limits)
    requires Covered(s) && Possible(s, a)
    ensures !Covered(Next(s, a, limits)) <==> Refusal(s, a, limits) && LastHope(s, a.task)
  {
    if Refusal(s, a, limits) {
      var u := Next(s, a, limits);
      assert forall t :: 0 <= t < |s.tasks| && t != a.task ==> u.tasks[t] == s.tasks[t];
      assert u.tasks[a.task].Refused?;
    } else {
      StepKeepsCovered(s, a, limits);
    }
  }

  ghost predicate IsWitnessedRun(s: State, actions: seq<Action>, limits: Limits)
    decreases |actions|
  {
    actions == [] ||
    (Possible(s, actions[0]) && Witnessed(s, actions[0], limits) &&
     IsWitnessedRun(Next(s, actions[0], limits), actions[1..], limits))
  }

  lemma {:induction false} RunKeepsCovered(s: State, actions: seq<Action>, limits: Limits)
    requires Covered(s) && IsWitnessedRun(s, actions, limits)
    ensures IsRun(s, actions, limits) && Covered(Execute(s, actions, limits))
    decreases |actions|
  {
    if actions != [] {
      StepKeepsCovered(s, actions[0], limits);
      RunKeepsCovered(Next(s, actions[0], limits), actions[1..], limits);
    }
  }

  /** No task is given a limit of nothing. */
  ghost predicate RoomForOne(limits: Limits) {
    forall t :: limits(t) >= 1
  }

  /** If no refused task has still to undo its increment, a refusal means that all slots are taken. */
  lemma RefusalWithoutUndoIsWitnessed(s: State, a: Action, limits: Limits)
    requires CounterOk(s) && RoomForOne(limits)
    requires forall t :: 0 <= t < |s.tasks| ==> !s.tasks[t].Refused?
    ensures Witnessed(s, a, limits)
  {
    if Refusal(s, a, limits) {
      var t := CountPositive(s.tasks, Holding);
    }
  }

  /** A refused task undoes its increment before anything else happens. */
  ghost predicate UndoesAtOnce(s: State, a: Action) {
    (exists t :: 0 <= t < |s.tasks| && s.tasks[t].Refused?) ==>
      a.Step? && a.task < |s.tasks| && s.tasks[a.task].Refused?
  }

  ghost predicate IsAtomicRun(s: State, actions: seq<Action>, limits: Limits)
    decreases |actions|
  {
    actions == [] ||
    (Possible(s, actions[0]) && UndoesAtOnce(s, actions[0]) &&
     IsAtomicRun(Next(s, actions[0], limits), actions[1..], limits))
  }

  lemma {:induction false} AtomicRunsAreWitnessed(s: State, actions: seq<Action>, limits: Limits)
    requires CounterOk(s) && RoomForOne(limits) && IsAtomicRun(s, actions, limits)
    ensures IsWitnessedRun(s, actions, limits)
    decreases |actions|
  {
    if actions != [] {
      if Refusal(s, actions[0], limits) {
        RefusalWithoutUndoIsWitnessed(s, actions[0], limits);
      }
      StepKeepsSlots(s, actions[0], limits, 0);
      AtomicRunsAreWitnessed(Next(s, actions[0], limits), actions[1..], limits);
    }
  }

  /** With test and undo as one step and room for at least one task, no wake-up is ever lost. */
  lemma NoLostWakeUp(actions: seq<Action>, limits: Limits)
    requires RoomForOne(limits) && IsAtomicRun(Init(), actions, limits)
    ensures IsRun(Init(), actions, limits) && Covered(Execute(Init(), actions, limits))
  {
    AtomicRunsAreWitnessed(Init(), actions, limits);
    RunKeepsCovered(Init(), actions, limits);
  }

  // ------------------------------------------------------------------ few pushes lose no wake-up

  function Pushes(actions: seq<Action>): nat {
    if actions == [] then 0 else One(actions[0].Push?) + Pushes(actions[1..])
  }

  predicate Alive(p: Phase) {
    !p.Gone?
  }

  /** Every push leads to at most one waker, message or task at a time. */
  ghost predicate CrowdOk(s: State) {
    CounterOk(s) && Count(s.tasks, Alive) + s.pending + s.wakers <= |s.pushed|
  }

  lemma TaskStaysOne(s: State, t: nat, pushBack: bool, limits: Limits)
    requires t < |s.tasks|
    ensures var u := StepTask(s, t, pushBack, limits);
      && |u.tasks| == |s.tasks| && u.tasks == s.tasks[t := u.tasks[t]] && u.wakers == s.wakers && u.pushed == s.pushed
      && One(Alive(u.tasks[t])) + u.pending <= One(Alive(s.tasks[t])) + s.pending
  {
  }

  lemma StepKeepsCrowd(s: State, a: Action, limits: Limits)
    requires CrowdOk(s) && Possible(s, a)
    ensures CrowdOk(Next(s, a, limits))
    ensures |Next(s, a, limits).pushed| == |s.pushed| + One(a.Push?)
  {
    StepKeepsSlots(s, a, limits, 0);
    if a.Start? {
      CountSnoc(s.tasks, Testing, Alive);
    } else if a.Step? {
      TaskStaysOne(s, a.task, a.pushBack, limits);
      CountUpdate(s.tasks, a.task, Next(s, a, limits).tasks[a.task], Alive);
    }
  }

  lemma {:induction false} HoldersAndTesters(tasks: seq<Phase>)
    ensures Count(tasks, Holding) + Count(tasks, (p: Phase) => p.Testing?) <= Count(tasks, Alive)
    decreases |tasks|
  {
    if tasks != [] {
      HoldersAndTesters(tasks[..|tasks| - 1]);
    }
  }

  /** As long as no more keys were pushed than a task's limit, it is not refused. */
  lemma CrowdIsNotRefused(s: State, a: Action, limits: Limits)
    requires CrowdOk(s) && Possible(s, a) && forall t :: |s.pushed| <= limits(t)
    ensures !Refusal(s, a, limits)
  {
    if a.Step? && s.tasks[a.task].Testing? {
      HoldersAndTesters(s.tasks);
      CountUpdate(s.tasks, a.task, Testing, (p: Phase) => p.Testing?);
      assert |s.pushed| <= limits(a.task);
    }
  }

  lemma {:induction false} FewPushesKeepCover(s: State, actions: seq<Action>, limits: Limits)
    requires CrowdOk(s) && Covered(s) && IsRun(s, actions, limits)
    requires forall t :: |s.pushed| + Pushes(actions) <= limits(t)
    ensures Covered(Execute(s, actions, limits))
    decreases |actions|
  {
    if actions != [] {
      forall t ensures |s.pushed| <= limits(t) {
        assert |s.pushed| + Pushes(actions) <= limits(t);
      }
      CrowdIsNotRefused(s, actions[0], limits);
      StepKeepsCovered(s, actions[0], limits);
      StepKeepsCrowd(s, actions[0], limits);
      FewPushesKeepCover(Next(s, actions[0], limits), actions[1..], limits);
    }
  }

  lemma {:induction false} PushesAreCounted(s: State, actions: seq<Action>, limits: Limits)
    requires IsRun(s, actions, limits)
    ensures |Execute(s, actions, limits).pushed| == |s.pushed| + Pushes(actions)
    decreases |actions|
  {
    if actions != [] {
      PushesAreCounted(Next(s, actions[0], limits), actions[1..], limits);
    }
  }

  // ------------------------------------------------------------------ a lost wake-up, whatever the limits

  /** All tasks are given the same limit, as for a plan that does not change. */
  function Same(limit: nat): Limits {
    (t: nat) => limit
  }

  /** The state is reached under the limits, by an atomic run if `atomic`. */
  ghost predicate Reaches(s: State, limits: Limits, atomic: bool) {
    exists actions ::
      IsRun(Init(), actions, limits) && Execute(Init(), actions, limits) == s
      && (atomic ==> IsAtomicRun(Init(), actions, limits))
  }

  lemma {:induction false} RunSnoc(s: State, actions: seq<Action>, a: Action, limits: Limits)
    requires IsRun(s, actions, limits) && Possible(Execute(s, actions, limits), a)
    ensures IsRun(s, actions + [a], limits)
    ensures Execute(s, actions + [a], limits) == Next(Execute(s, actions, limits), a, limits)
    ensures IsAtomicRun(s, actions, limits) && UndoesAtOnce(Execute(s, actions, limits), a) ==>
              IsAtomicRun(s, actions + [a], limits)
    decreases |actions|
  {
    if actions == [] {
      assert actions + [a] == [a] && [a][1..] == [];
      var t := Next(s, a, limits);
      assert IsRun(t, [], limits) && IsAtomicRun(t, [], limits) && Execute(t, [], limits) == t;
    } else {
      assert (actions + [a])[0] == actions[0] && (actions + [a])[1..] == actions[1..] + [a];
      RunSnoc(Next(s, actions[0], limits), actions[1..], a, limits);
    }
  }

  lemma Nowhere(limits: Limits, atomic: bool)
    ensures Reaches(Init(), limits, atomic)
  {
    assert IsRun(Init(), [], limits) && IsAtomicRun(Init(), [], limits) && Execute(Init(), [], limits) == Init();
  }

  lemma Go(s: State, a: Action, limits: Limits, atomic: bool) returns (t: State)
    requires Reaches(s, limits, atomic) && Possible(s, a) && (atomic ==> UndoesAtOnce(s, a))
    ensures t == Next(s, a, limits) && Reaches(t, limits, atomic)
  {
    var actions :| IsRun(Init(), actions, limits) && Execute(Init(), actions, limits) == s
      && (atomic ==> IsAtomicRun(Init(), actions, limits));
    RunSnoc(Init(), actions, a, limits);
    t := Next(s, a, limits);
  }

  /** A key is pushed and a task started for it, which is about to test the counter. */
  lemma PushAndStart(s: State, key: nat, limits: Limits, atomic: bool) returns (t: State)
    requires Reaches(s, limits, atomic) && s.pending == 0 && s.wakers == 0
    requires atomic ==> forall i :: 0 <= i < |s.tasks| ==> !s.tasks[i].Refused?
    ensures Reaches(t, limits, atomic) && t.pending == 0 && t.wakers == 0
    ensures t.counter == s.counter && t.priority == s.priority && t.normal == s.normal + [key]
    ensures t.tasks == s.tasks + [Testing] && |t.pushed| == |s.pushed| + 1
  {
    t := Go(s, Push(key, false), limits, atomic);
    t := Go(t, Wake, limits, atomic);
    t := Go(t, Start, limits, atomic);
  }

  /** So many tasks process a spec each, and nothing else is going on. */
  predicate Filled(s: State, n: nat) {
    && s.counter == n && s.priority == [] && s.normal == [] && s.pending == 0 && s.wakers == 0 && |s.pushed| == n
    && |s.tasks| == n && forall i :: 0 <= i < n ==> s.tasks[i].Processing?
  }

  /** A task that passes the test takes the only queued key. */
  lemma TakeSlot(s: State, key: nat, limits: Limits, atomic: bool) returns (t: State)
    requires Reaches(s, limits, atomic) && s.pending == 0 && s.wakers == 0 && s.priority == [] && s.normal == [key]
    requires s.tasks != [] && s.tasks[|s.tasks| - 1] == Testing && s.counter + 1 <= limits(|s.tasks| - 1)
    requires atomic ==> forall i :: 0 <= i < |s.tasks| ==> !s.tasks[i].Refused?
    ensures Reaches(t, limits, atomic) && t.counter == s.counter + 1 && t.priority == [] && t.normal == []
    ensures t.pending == 0 && t.wakers == 0 && t.tasks == s.tasks[|s.tasks| - 1 := Processing(key, false)]
    ensures t.pushed == s.pushed
  {
    var me := |s.tasks| - 1;
    t := Go(s, Step(me, false), limits, atomic);
    t := Go(t, Step(me, false), limits, atomic);
    t := Go(t, Step(me, false), limits, atomic);
    assert [key][1..] == [];
  }

  lemma {:induction false} FillSlots(n: nat, limit: nat) returns (s: State)
    requires n <= limit
    ensures Reaches(s, Same(limit), false) && Filled(s, n)
  {
    if n == 0 {
      s := Init();
      Nowhere(Same(limit), false);
    } else {
      var before := FillSlots(n - 1, limit);
      var testing := PushAndStart(before, n, Same(limit), false);
      assert [] + [n] == [n];
      s := TakeSlot(testing, n, Same(limit), false);
      forall i | 0 <= i < n ensures s.tasks[i].Processing? {
        if i < n - 1 {
          assert s.tasks[i] == before.tasks[i];
        }
      }
    }
  }

  /**
    One key is queued. Of the holders the first j are gone; for each of them, and for the key itself, a task was
    refused that has not yet undone its increment, so the counter stands one above the limit.
   */
  predicate Blocked(s: State, limit: nat, j: nat) {
    && j <= limit && s.counter == limit + 1 && s.priority == [] && s.normal != [] && s.pending == 0 && s.wakers == 0
    && |s.tasks| == limit + 1 + j && |s.pushed| == limit + 1
    && (forall i :: 0 <= i < j ==> s.tasks[i].Gone?)
    && (forall i :: j <= i < limit ==> s.tasks[i].Processing?)
    && (forall i :: limit <= i < limit + 1 + j ==> s.tasks[i].Refused?)
  }

  lemma FirstRefusal(limit: nat) returns (s: State)
    ensures Reaches(s, Same(limit), false) && Blocked(s, limit, 0)
  {
    var full := FillSlots(limit, limit);
    var testing := PushAndStart(full, 0, Same(limit), false);
    s := Go(testing, Step(limit, false), Same(limit), false);
  }

  /** A holder finishes its spec and gives its slot back. */
  lemma HolderCleans(s: State, t: nat, limits: Limits, atomic: bool) returns (u: State)
    requires Reaches(s, limits, atomic) && t < |s.tasks| && s.tasks[t].Processing? && s.counter > 0
    requires atomic ==> forall i :: 0 <= i < |s.tasks| ==> !s.tasks[i].Refused?
    ensures Reaches(u, limits, atomic) && u.counter == s.counter - 1 && u.priority == s.priority && u.normal == s.normal
    ensures u.pending == s.pending && u.wakers == s.wakers && u.tasks == s.tasks[t := CheckPriority]
    ensures u.pushed == s.pushed
  {
    u := Go(s, Step(t, false), limits, atomic);
    u := Go(u, Step(t, false), limits, atomic);
    assert u.tasks == s.tasks[t := CheckPriority];
  }

  /** A holder finishes, gives its slot back, sees the queued key and requeues. */
  lemma HolderRequeues(s: State, t: nat, limit: nat) returns (u: State)
    requires Reaches(s, Same(limit), false) && t < |s.tasks| && s.tasks[t].Processing?
    requires s.priority == [] && s.normal != [] && s.counter > 0
    ensures Reaches(u, Same(limit), false) && u.counter == s.counter - 1 && u.priority == [] && u.normal == s.normal
    ensures u.pending == s.pending + 1 && u.wakers == s.wakers && u.tasks == s.tasks[t := Gone]
    ensures u.pushed == s.pushed
  {
    u := HolderCleans(s, t, Same(limit), false);
    u := Go(u, Step(t, false), Same(limit), false);
    u := Go(u, Step(t, false), Same(limit), false);
    assert u.tasks == s.tasks[t := Gone];
  }

  /** The requeued task finds the counter at the limit and is refused. */
  lemma RequeuedIsRefused(s: State, limit: nat) returns (u: State)
    requires Reaches(s, Same(limit), false) && s.pending == 1 && s.counter == limit
    ensures Reaches(u, Same(limit), false) && u.counter == limit + 1 && u.priority == s.priority && u.normal == s.normal
    ensures u.pending == 0 && u.wakers == s.wakers && u.tasks == s.tasks + [Refused] && u.pushed == s.pushed
  {
    u := Go(s, Start, Same(limit), false);
    u := Go(u, Step(|s.tasks|, false), Same(limit), false);
    assert u.tasks == s.tasks + [Refused];
  }

  lemma {:induction false} HoldersFinish(j: nat, limit: nat) returns (s: State)
    requires j <= limit
    ensures Reaches(s, Same(limit), false) && Blocked(s, limit, j)
  {
    if j == 0 {
      s := FirstRefusal(limit);
    } else {
      var before := HoldersFinish(j - 1, limit);
      var requeued := HolderRequeues(before, j - 1, limit);
      s := RequeuedIsRefused(requeued, limit);
      forall i | 0 <= i < |s.tasks|
        ensures s.tasks[i] == if i < |before.tasks| then before.tasks[j - 1 := Gone][i] else Refused
      {
      }
    }
  }

  /** Of the refused tasks, so many have undone their increments. */
  predicate Undone(s: State, limit: nat, n: nat) {
    && n <= limit + 1 && s.counter == limit + 1 - n && s.normal != [] && s.pending == 0 && s.wakers == 0
    && |s.tasks| == 2 * limit + 1 && |s.pushed| == limit + 1
    && (forall i :: 0 <= i < limit + n ==> s.tasks[i].Gone?)
    && (forall i :: limit + n <= i < |s.tasks| ==> s.tasks[i].Refused?)
  }

  lemma {:induction false} RefusedUndo(n: nat, limit: nat) returns (s: State)
    requires n <= limit + 1
    ensures Reaches(s, Same(limit), false) && Undone(s, limit, n)
  {
    if n == 0 {
      s := HoldersFinish(limit, limit);
    } else {
      var before := RefusedUndo(n - 1, limit);
      s := Go(before, Step(limit + n - 1, false), Same(limit), false);
    }
  }

  /**
    With increment and undo as separate steps, a wake-up can be lost whatever the limit: each holder's requeued task
    is refused because of the increments that refused tasks have still to undo, and in the end nobody is left for the
    queued key.
   */
  lemma WakeUpCanBeLost(limit: nat) returns (end: State)
    ensures Reaches(end, Same(limit), false) && !Covered(end)
    ensures end.normal != [] && end.pending == 0 && end.wakers == 0 && end.counter == 0
    ensures forall t :: 0 <= t < |end.tasks| ==> end.tasks[t].Gone?
    ensures |end.pushed| == limit + 1
  {
    end := RefusedUndo(limit + 1, limit);
  }

  // ------------------------------------------------------------------ what a caller can know

  ghost predicate FewPushesAreCovered(actions: seq<Action>, limit: nat, pushes: nat) {
    IsRun(Init(), actions, Same(limit)) && Pushes(actions) <= pushes ==> Covered(Execute(Init(), actions, Same(limit)))
  }

  /** For the code as it is: runs with so many pushes keep all wake-ups if and only if the common limit allows as many. */
  lemma FewPushesAreCoveredIff(limit: nat, pushes: nat)
    ensures pushes <= limit <==> forall actions :: FewPushesAreCovered(actions, limit, pushes)
  {
    if pushes <= limit {
      forall actions ensures FewPushesAreCovered(actions, limit, pushes) {
        if IsRun(Init(), actions, Same(limit)) && Pushes(actions) <= pushes {
          FewPushesKeepCover(Init(), actions, Same(limit));
        }
      }
    } else {
      var end := WakeUpCanBeLost(limit);
      var actions :| IsRun(Init(), actions, Same(limit)) && Execute(Init(), actions, Same(limit)) == end;
      PushesAreCounted(Init(), actions, Same(limit));
      assert !FewPushesAreCovered(actions, limit, pushes);
    }
  }

  ghost predicate AtomicIsCovered(actions: seq<Action>, limits: Limits) {
    IsRun(Init(), actions, limits) && IsAtomicRun(Init(), actions, limits) ==> Covered(Execute(Init(), actions, limits))
  }

  /** So many tasks have come and gone. */
  predicate AllGone(s: State, n: nat) {
    && s.counter == 0 && s.priority == [] && s.normal == [] && s.pending == 0 && s.wakers == 0
    && |s.tasks| == n && forall i :: 0 <= i < n ==> s.tasks[i].Gone?
  }

  /** The only holder finishes and finds both queues empty. */
  lemma HolderLeaves(s: State, t: nat, limits: Limits) returns (u: State)
    requires Reaches(s, limits, true) && t < |s.tasks| && s.tasks[t].Processing?
    requires s.priority == [] && s.normal == [] && s.counter == 1
    requires forall i :: 0 <= i < |s.tasks| ==> !s.tasks[i].Refused?
    ensures Reaches(u, limits, true) && u.counter == 0 && u.priority == [] && u.normal == []
    ensures u.pending == s.pending && u.wakers == s.wakers && u.tasks == s.tasks[t := Gone]
  {
    u := HolderCleans(s, t, limits, true);
    u := Go(u, Step(t, false), limits, true);
    u := Go(u, Step(t, false), limits, true);
    assert u.tasks == s.tasks[t := Gone];
  }

  lemma {:induction false} ServeTasks(n: nat, limits: Limits) returns (s: State)
    requires forall t :: 0 <= t < n ==> limits(t) >= 1
    ensures Reaches(s, limits, true) && AllGone(s, n)
  {
    if n == 0 {
      s := Init();
      Nowhere(limits, true);
    } else {
      var before := ServeTasks(n - 1, limits);
      var testing := PushAndStart(before, n, limits, true);
      assert [] + [n] == [n];
      var holding := TakeSlot(testing, n, limits, true);
      s := HolderLeaves(holding, n - 1, limits);
      assert s.tasks == before.tasks + [Gone];
    }
  }

  /** The first task that is given a limit of nothing is refused alone, and its key stays behind. */
  lemma NoRoom(n: nat, limits: Limits) returns (actions: seq<Action>)
    requires limits(n) == 0 && forall t :: 0 <= t < n ==> limits(t) >= 1
    ensures !AtomicIsCovered(actions, limits)
  {
    var s := ServeTasks(n, limits);
    s := PushAndStart(s, 0, limits, true);
    s := Go(s, Step(n, false), limits, true);
    assert !Covered(s);
    actions :| IsRun(Init(), actions, limits) && Execute(Init(), actions, limits) == s && IsAtomicRun(Init(), actions, limits);
  }

  lemma {:induction false} FirstWithoutRoom(n: nat, limits: Limits) returns (m: nat)
    requires limits(n) == 0
    ensures m <= n && limits(m) == 0 && forall t :: 0 <= t < m ==> limits(t) >= 1
  {
    m := n;
    if t :| 0 <= t < n && limits(t) == 0 {
      m := FirstWithoutRoom(t, limits);
    }
  }

  /** With test and undo as one step, wake-ups are safe in every run if and only if each task is given room for one. */
  lemma AtomicRunsAreCoveredIff(limits: Limits)
    ensures RoomForOne(limits) <==> forall actions :: AtomicIsCovered(actions, limits)
  {
    if RoomForOne(limits) {
      forall actions ensures AtomicIsCovered(actions, limits) {
        if IsAtomicRun(Init(), actions, limits) {
          NoLostWakeUp(actions, limits);
        }
      }
    } else {
      var n :| limits(n) == 0;
      var m := FirstWithoutRoom(n, limits);
      var actions := NoRoom(m, limits);
      assert !AtomicIsCovered(actions, limits);
    }
  }
}
