/**
  The versioned two-level cache behind `Cached`: one cached key, its version key in Redis, the shared store and one
  local store per process, under every interleaving of readers, commits, invalidations and the passage of time.

  A value is represented by the number of commits it was computed after, so an older number is an older value.
  Version keys are represented by their number: they are never repeated. 0 stands for no version.
 */
module CacheCoherence {
  import opened Prelude

  /** Seconds by which a version key outlives the entries it guards. */
  const MARGIN: nat := 300

  /**
    `timeout` and `localTimeout` are the lives of shared and local entries; a reader stores a value at most
    `storeDelay` after it was computed or validated, and checks the version at most `checkDelay` after a lookup.
   */
  datatype Config = Config(timeout: nat, localTimeout: nat, storeDelay: nat, checkDelay: nat)

  /** `born` is when the value was computed, or last found valid before it was copied. */
  datatype Entry = Entry(value: nat, version: nat, expires: nat, born: nat)

  datatype Phase =
    | LookLocal
    | CheckLocal(entry: Entry, at: nat)
    | LookShared
    | CheckShared(entry: Entry, at: nat)
    | Compute
    | SetShared(value: nat, born: nat)
    | SetLocal(value: nat, born: nat)
    | Done(value: nat)

  /** `version` is the field of the `Cached` object; `began` and `seen` are the newest commit known to be
      invalidated when the get began and at its last version check or computation. */
  datatype Reader = Reader(process: nat, version: nat, began: nat, seen: nat, phase: Phase)

  /** `issued` numbers the current version key, set at `setAt`; `floor` is the newest commit already invalidated. */
  datatype Store = Store(clock: nat, commits: nat, floor: nat, issued: nat, setAt: nat,
                         shared: Option<Entry>, locals: map<nat, Entry>)

  datatype State = State(store: Store, readers: map<nat, Reader>)

  datatype Action =
    | Tick(seconds: nat)
    | Commit
    | Invalidate(commit: nat)
    | Begin(reader: nat, process: nat, version: nat)
    | Step(reader: nat)

  function Init(): State {
    State(Store(0, 0, 0, 0, 0, None, map[]), map[])
  }

  /** The version key, until it expires. */
  function CurrentVersion(c: Config, s: Store): Option<nat> {
    if s.issued > 0 && s.clock < s.setAt + c.timeout + MARGIN then Some(s.issued) else None
  }

  function Lookup(entry: Option<Entry>, clock: nat): Option<Entry> {
    if entry.Some? && clock < entry.value.expires then entry else None
  }

  function LocalEntry(s: Store, process: nat): Option<Entry> {
    if process in s.locals then Some(s.locals[process]) else None
  }

  predicate CheckVersion(c: Config, s: Store, entry: Entry) {
    var current := CurrentVersion(c, s);
    current.Some? ==> current.value == entry.version
  }

  /** The version a reader holds after a check. */
  function VersionAfterCheck(c: Config, s: Store, r: Reader): nat {
    var current := CurrentVersion(c, s);
    if current.Some? then current.value else r.version
  }

  function StepReader(c: Config, s: Store, r: Reader): Reader {
    match r.phase
    case LookLocal =>
      var found := Lookup(LocalEntry(s, r.process), s.clock);
      r.(phase := if found.Some? then CheckLocal(found.value, s.clock) else LookShared)
    case CheckLocal(entry, _) =>
      r.(version := VersionAfterCheck(c, s, r), seen := s.floor,
         phase := if CheckVersion(c, s, entry) then Done(entry.value) else LookShared)
    case LookShared =>
      var found := Lookup(s.shared, s.clock);
      r.(phase := if found.Some? then CheckShared(found.value, s.clock) else Compute)
    case CheckShared(entry, _) =>
      r.(version := VersionAfterCheck(c, s, r), seen := s.floor,
         phase := if CheckVersion(c, s, entry) then SetLocal(entry.value, s.clock) else Compute)
    case Compute => r.(seen := s.floor, phase := SetShared(s.commits, s.clock))
    case SetShared(value, born) => r.(phase := SetLocal(value, born))
    case SetLocal(value, _) => r.(phase := Done(value))
    case Done(_) => r
  }

  function StepStore(c: Config, s: Store, r: Reader): Store {
    match r.phase
    case SetShared(value, born) => s.(shared := Some(Entry(value, r.version, s.clock + c.timeout, born)))
    case SetLocal(value, born) =>
      s.(locals := s.locals[r.process := Entry(value, r.version, s.clock + c.localTimeout, born)])
    case _ => s
  }

  predicate Possible(s: State, a: Action) {
    match a
    case Invalidate(commit) => 1 <= commit <= s.store.commits
    case Begin(r, _, version) => r !in s.readers && version <= s.store.issued
    case Step(r) => r in s.readers
    case _ => true
  }

  /** A reader acts within its delays. */
  predicate Timely(c: Config, s: State, a: Action) {
    a.Step? && a.reader in s.readers ==>
      match s.readers[a.reader].phase
      case CheckLocal(_, at) => s.store.clock <= at + c.checkDelay
      case CheckShared(_, at) => s.store.clock <= at + c.checkDelay
      case SetShared(_, born) => s.store.clock <= born + c.storeDelay
      case SetLocal(_, born) => s.store.clock <= born + c.storeDelay
      case _ => true
  }

  function Next(c: Config, s: State, a: Action): State
    requires Possible(s, a)
  {
    var store := s.store;
    match a
    case Tick(seconds) => s.(store := store.(clock := store.clock + seconds))
    case Commit => s.(store := store.(commits := store.commits + 1))
    case Invalidate(commit) =>
      s.(store := store.(floor := Max(store.floor, commit), issued := store.issued + 1, setAt := store.clock))
    case Begin(r, process, version) =>
      s.(readers := s.readers[r := Reader(process, version, store.floor, store.floor, LookLocal)])
    case Step(r) =>
      State(StepStore(c, store, s.readers[r]), s.readers[r := StepReader(c, store, s.readers[r])])
  }

  predicate IsRun(c: Config, s: State, actions: seq<Action>)
    decreases |actions|
  {
    actions == [] || (Possible(s, actions[0]) && Timely(c, s, actions[0]) && IsRun(c, Next(c, s, actions[0]), actions[1..]))
  }

  function Execute(c: Config, s: State, actions: seq<Action>): State
    requires IsRun(c, s, actions)
    decreases |actions|
  {
    if actions == [] then s else Execute(c, Next(c, s, actions[0]), actions[1..])
  }

  /** The delays fit into the margin, counting how much longer a local entry may live than a shared one. */
  predicate WithinMargin(c: Config) {
    Max(c.timeout, c.localTimeout) + c.storeDelay + c.checkDelay <= c.timeout + MARGIN
  }

  // ------------------------------------------------------------------ the invariant

  /** A value that an invalidation has overtaken carries a version older than the version key that replaced it. */
  ghost predicate Guarded(s: Store, value: nat, version: nat, born: nat) {
    && value <= s.commits && born <= s.clock && version <= s.issued
    && (value < s.floor ==> born <= s.setAt && version < s.issued)
  }

  ghost predicate EntryOk(c: Config, s: Store, e: Entry) {
    Guarded(s, e.value, e.version, e.born) && e.expires <= e.born + c.storeDelay + Max(c.timeout, c.localTimeout)
  }

  ghost predicate StoreOk(c: Config, s: Store) {
    && s.floor <= s.commits && s.setAt <= s.clock && (s.floor > 0 ==> s.issued > 0)
    && (s.shared.Some? ==> EntryOk(c, s, s.shared.value))
    && (forall p :: p in s.locals ==> EntryOk(c, s, s.locals[p]))
  }

  ghost predicate ReaderOk(c: Config, s: Store, r: Reader) {
    && r.version <= s.issued && r.began <= r.seen <= s.floor
    && match r.phase
       case CheckLocal(entry, at) => EntryOk(c, s, entry) && at < entry.expires
       case CheckShared(entry, at) => EntryOk(c, s, entry) && at < entry.expires
       case SetShared(value, born) => Guarded(s, value, r.version, born) && value >= r.seen
       case SetLocal(value, born) => Guarded(s, value, r.version, born) && value >= r.seen
       case Done(value) => value >= r.seen
       case _ => true
  }

  ghost predicate Inv(c: Config, s: State) {
    StoreOk(c, s.store) && forall r :: r in s.readers ==> ReaderOk(c, s.store, s.readers[r])
  }

  /** A timely check turns down every value that an invalidation has overtaken. */
  lemma CheckRefusesStale(c: Config, s: Store, e: Entry, at: nat)
    requires WithinMargin(c) && StoreOk(c, s) && EntryOk(c, s, e)
    requires at < e.expires && s.clock <= at + c.checkDelay
    requires e.value < s.floor
    ensures !CheckVersion(c, s, e)
  {
  }

  lemma StepKeepsReaderOk(c: Config, s: Store, r: Reader)
    requires WithinMargin(c) && StoreOk(c, s) && ReaderOk(c, s, r)
    requires Timely(c, State(s, map[0 := r]), Step(0))
    ensures ReaderOk(c, StepStore(c, s, r), StepReader(c, s, r))
  {
    match r.phase
    case CheckLocal(entry, at) => if entry.value < s.floor { CheckRefusesStale(c, s, entry, at); }
    case CheckShared(entry, at) => if entry.value < s.floor { CheckRefusesStale(c, s, entry, at); }
    case _ =>
  }

  lemma StepKeepsStoreOk(c: Config, s: Store, r: Reader)
    requires StoreOk(c, s) && ReaderOk(c, s, r)
    requires Timely(c, State(s, map[0 := r]), Step(0))
    ensures StoreOk(c, StepStore(c, s, r))
  {
  }

  /** Time, commits and invalidations keep every stored and every pending value guarded. */
  lemma EnvironmentKeepsInv(c: Config, s: State, a: Action)
    requires Inv(c, s) && Possible(s, a) && (a.Tick? || a.Commit? || a.Invalidate?)
    ensures Inv(c, Next(c, s, a))
  {
    var t := Next(c, s, a).store;
    assert forall v, l, b :: Guarded(s.store, v, l, b) ==> Guarded(t, v, l, b);
    forall r | r in s.readers ensures ReaderOk(c, t, s.readers[r]) {
    }
  }

  lemma StepKeepsInv(c: Config, s: State, a: Action)
    requires WithinMargin(c) && Inv(c, s) && Possible(s, a) && Timely(c, s, a)
    ensures Inv(c, Next(c, s, a))
  {
    if a.Step? {
      var r := s.readers[a.reader];
      StepKeepsReaderOk(c, s.store, r);
      StepKeepsStoreOk(c, s.store, r);
    } else if !a.Begin? {
      EnvironmentKeepsInv(c, s, a);
    }
  }

  lemma {:induction false} RunKeepsInv(c: Config, s: State, actions: seq<Action>)
    requires WithinMargin(c) && Inv(c, s) && IsRun(c, s, actions)
    ensures Inv(c, Execute(c, s, actions))
    decreases |actions|
  {
    if actions != [] {
      StepKeepsInv(c, s, actions[0]);
      RunKeepsInv(c, Next(c, s, actions[0]), actions[1..]);
    }
  }

  /** A finished get returned a value older than some commit that was invalidated before its version check. */
  predicate ReturnedStale(s: State, r: nat) {
    r in s.readers && s.readers[r].phase.Done? && s.readers[r].phase.value < s.readers[r].seen
  }

  /**
    In every run, a get returns a value at least as new as every commit whose invalidation preceded its version
    check; in particular every commit invalidated before the get began.
   */
  lemma GetsAreCoherent(c: Config, actions: seq<Action>, r: nat)
    requires WithinMargin(c) && IsRun(c, Init(), actions)
    ensures !ReturnedStale(Execute(c, Init(), actions), r)
    ensures var end := Execute(c, Init(), actions);
      r in end.readers && end.readers[r].phase.Done? ==>
        end.readers[r].began <= end.readers[r].seen <= end.readers[r].phase.value
  {
    RunKeepsInv(c, Init(), actions);
  }

  // ------------------------------------------------------------------ the margin is needed

  ghost predicate Reaches(c: Config, s: State) {
    exists actions :: IsRun(c, Init(), actions) && Execute(c, Init(), actions) == s
  }

  lemma {:induction false} RunSnoc(c: Config, s: State, actions: seq<Action>, a: Action)
    requires IsRun(c, s, actions)
    requires Possible(Execute(c, s, actions), a) && Timely(c, Execute(c, s, actions), a)
    ensures IsRun(c, s, actions + [a]) && Execute(c, s, actions + [a]) == Next(c, Execute(c, s, actions), a)
    decreases |actions|
  {
    if actions == [] {
      assert actions + [a] == [a] && [a][1..] == [];
      assert IsRun(c, Next(c, s, a), []) && Execute(c, Next(c, s, a), []) == Next(c, s, a);
    } else {
      assert (actions + [a])[0] == actions[0] && (actions + [a])[1..] == actions[1..] + [a];
      RunSnoc(c, Next(c, s, actions[0]), actions[1..], a);
    }
  }

  lemma Go(c: Config, s: State, a: Action, t: State)
    requires Reaches(c, s) && Possible(s, a) && Timely(c, s, a) && Next(c, s, a) == t
    ensures Reaches(c, t)
  {
    var actions :| IsRun(c, Init(), actions) && Execute(c, Init(), actions) == s;
    RunSnoc(c, Init(), actions, a);
  }

  function LateEntry(c: Config, life: nat): Entry {
    Entry(0, 0, c.storeDelay + life, 0)
  }

  /** A reader computes a value, a commit is invalidated, and the reader stores the old value as late as it may. */
  function LateStores(c: Config): Store {
    Store(c.storeDelay, 1, 1, 1, 0, Some(LateEntry(c, c.timeout)), map[0 := LateEntry(c, c.localTimeout)])
  }

  lemma ReaderComputes(c: Config)
    ensures Reaches(c, State(Store(0, 0, 0, 0, 0, None, map[]), map[0 := Reader(0, 0, 0, 0, SetShared(0, 0))]))
  {
    var s := Init();
    assert IsRun(c, s, []) && Execute(c, s, []) == s;
    var r := Reader(0, 0, 0, 0, LookLocal);
    assert map[][0 := r] == map[0 := r];
    Go(c, s, Begin(0, 0, 0), State(s.store, map[0 := r]));
    Go(c, State(s.store, map[0 := r]), Step(0), State(s.store, map[0 := r.(phase := LookShared)]));
    Go(c, State(s.store, map[0 := r.(phase := LookShared)]), Step(0), State(s.store, map[0 := r.(phase := Compute)]));
    Go(c, State(s.store, map[0 := r.(phase := Compute)]), Step(0),
       State(s.store, map[0 := r.(phase := SetShared(0, 0))]));
  }

  lemma ReaderStoresLate(c: Config)
    ensures Reaches(c, State(LateStores(c), map[0 := Reader(0, 0, 0, 0, Done(0))]))
  {
    var r := Reader(0, 0, 0, 0, SetShared(0, 0));
    ReaderComputes(c);
    var s0 := Store(0, 1, 0, 0, 0, None, map[]);
    var s1 := Store(0, 1, 1, 1, 0, None, map[]);
    var s2 := Store(c.storeDelay, 1, 1, 1, 0, None, map[]);
    var s3 := Store(c.storeDelay, 1, 1, 1, 0, Some(LateEntry(c, c.timeout)), map[]);
    Go(c, State(Init().store, map[0 := r]), Commit, State(s0, map[0 := r]));
    Go(c, State(s0, map[0 := r]), Invalidate(1), State(s1, map[0 := r]));
    Go(c, State(s1, map[0 := r]), Tick(c.storeDelay), State(s2, map[0 := r]));
    Go(c, State(s2, map[0 := r]), Step(0), State(s3, map[0 := r.(phase := SetLocal(0, 0))]));
    assert s3.locals[0 := LateEntry(c, c.localTimeout)] == map[0 := LateEntry(c, c.localTimeout)];
    Go(c, State(s3, map[0 := r.(phase := SetLocal(0, 0))]), Step(0), State(LateStores(c), map[0 := r.(phase := Done(0))]));
  }

  /** A second reader finds the old entry in its last second and checks after the version key has expired. */
  lemma SharedEntryOutlivesVersion(c: Config) returns (end: State)
    requires !WithinMargin(c) && c.localTimeout <= c.timeout && c.timeout > 0
    ensures Reaches(c, end) && ReturnedStale(end, 1)
  {
    var first := Reader(0, 0, 0, 0, Done(0));
    var entry, at := LateEntry(c, c.timeout), c.storeDelay + c.timeout - 1;
    ReaderStoresLate(c);
    var s0 := LateStores(c).(clock := at);
    Go(c, State(LateStores(c), map[0 := first]), Tick(c.timeout - 1), State(s0, map[0 := first]));
    var r := Reader(1, 0, 1, 1, LookLocal);
    Go(c, State(s0, map[0 := first]), Begin(1, 1, 0), State(s0, map[0 := first, 1 := r]));
    Go(c, State(s0, map[0 := first, 1 := r]), Step(1), State(s0, map[0 := first, 1 := r.(phase := LookShared)]));
    var checking := r.(phase := CheckShared(entry, at));
    Go(c, State(s0, map[0 := first, 1 := r.(phase := LookShared)]), Step(1), State(s0, map[0 := first, 1 := checking]));
    end := LastCheck(c, s0, first, checking);
  }

  lemma LastCheck(c: Config, s0: Store, first: Reader, checking: Reader) returns (end: State)
    requires Reaches(c, State(s0, map[0 := first, 1 := checking])) && checking.phase.CheckShared?
    requires checking.phase.at == s0.clock && checking.phase.entry.value < s0.floor
    requires s0.clock + c.checkDelay >= s0.setAt + c.timeout + MARGIN
    ensures Reaches(c, end) && ReturnedStale(end, 1)
  {
    var s1 := s0.(clock := s0.clock + c.checkDelay);
    Go(c, State(s0, map[0 := first, 1 := checking]), Tick(c.checkDelay), State(s1, map[0 := first, 1 := checking]));
    var copying := StepReader(c, s1, checking);
    assert map[0 := first, 1 := checking][1 := copying] == map[0 := first, 1 := copying];
    Go(c, State(s1, map[0 := first, 1 := checking]), Step(1), State(s1, map[0 := first, 1 := copying]));
    end := Next(c, State(s1, map[0 := first, 1 := copying]), Step(1));
    Go(c, State(s1, map[0 := first, 1 := copying]), Step(1), end);
  }

  lemma LocalEntryOutlivesVersion(c: Config) returns (end: State)
    requires !WithinMargin(c) && c.localTimeout > c.timeout
    ensures Reaches(c, end) && ReturnedStale(end, 1)
  {
    var first := Reader(0, 0, 0, 0, Done(0));
    var entry, at := LateEntry(c, c.localTimeout), c.storeDelay + c.localTimeout - 1;
    ReaderStoresLate(c);
    var s0 := LateStores(c).(clock := at);
    Go(c, State(LateStores(c), map[0 := first]), Tick(c.localTimeout - 1), State(s0, map[0 := first]));
    var r := Reader(0, 0, 1, 1, LookLocal);
    Go(c, State(s0, map[0 := first]), Begin(1, 0, 0), State(s0, map[0 := first, 1 := r]));
    var checking := r.(phase := CheckLocal(entry, at));
    Go(c, State(s0, map[0 := first, 1 := r]), Step(1), State(s0, map[0 := first, 1 := checking]));
    var s1 := s0.(clock := at + c.checkDelay);
    Go(c, State(s0, map[0 := first, 1 := checking]), Tick(c.checkDelay), State(s1, map[0 := first, 1 := checking]));
    end := Next(c, State(s1, map[0 := first, 1 := checking]), Step(1));
    Go(c, State(s1, map[0 := first, 1 := checking]), Step(1), end);
  }

  /** No get of the run returned a stale value. */
  ghost predicate Coherent(c: Config, actions: seq<Action>) {
    IsRun(c, Init(), actions) ==> forall r :: !ReturnedStale(Execute(c, Init(), actions), r)
  }

  /** Coherence holds for every run exactly when the delays fit into the margin. */
  lemma CoherentIffWithinMargin(c: Config)
    requires c.timeout > 0
    ensures WithinMargin(c) <==> forall actions :: Coherent(c, actions)
  {
    if WithinMargin(c) {
      forall actions ensures Coherent(c, actions) {
        if IsRun(c, Init(), actions) {
          forall r ensures !ReturnedStale(Execute(c, Init(), actions), r) {
            GetsAreCoherent(c, actions, r);
          }
        }
      }
    } else {
      var end: State;
      if c.localTimeout <= c.timeout {
        end := SharedEntryOutlivesVersion(c);
      } else {
        end := LocalEntryOutlivesVersion(c);
      }
      var actions :| IsRun(c, Init(), actions) && Execute(c, Init(), actions) == end;
      assert ReturnedStale(Execute(c, Init(), actions), 1);
      assert !Coherent(c, actions);
    }
  }

  // ------------------------------------------------------------------ one uninterrupted get

  function Rank(phase: Phase): nat {
    match phase
    case LookLocal => 7
    case CheckLocal(_, _) => 6
    case LookShared => 5
    case CheckShared(_, _) => 4
    case Compute => 3
    case SetShared(_, _) => 2
    case SetLocal(_, _) => 1
    case Done(_) => 0
  }

  /** The steps of one reader with nothing in between. */
  function FinishGet(c: Config, s: Store, r: Reader): (Store, Reader)
    decreases Rank(r.phase)
  {
    if r.phase.Done? then (s, r) else FinishGet(c, StepStore(c, s, r), StepReader(c, s, r))
  }

  lemma FinishSetLocal(c: Config, s: Store, r: Reader)
    requires r.phase.SetLocal?
    ensures FinishGet(c, s, r) == (StepStore(c, s, r), StepReader(c, s, r))
  {
    assert FinishGet(c, StepStore(c, s, r), StepReader(c, s, r)) == (StepStore(c, s, r), StepReader(c, s, r));
  }

  lemma FinishCompute(c: Config, s: Store, r: Reader)
    requires r.phase.Compute?
    ensures var r1 := StepReader(c, s, r);
      var s2, r2 := StepStore(c, s, r1), StepReader(c, s, r1);
      FinishGet(c, s, r) == (StepStore(c, s2, r2), StepReader(c, s2, r2))
  {
    var r1 := StepReader(c, s, r);
    var s2, r2 := StepStore(c, s, r1), StepReader(c, s, r1);
    assert FinishGet(c, s, r1) == FinishGet(c, s2, r2);
    FinishSetLocal(c, s2, r2);
  }

  class Cached {
    const config: Config
    const process: nat
    var version: nat
    var store: Store

    constructor (config: Config, process: nat, store: Store)
      ensures this.config == config && this.process == process && this.store == store && version == 0
    {
      this.config, this.process, this.store, version := config, process, store, 0;
    }

    ghost function Reading(): Reader
      reads this
    {
      Reader(process, version, store.floor, store.floor, LookLocal)
    }

    method Check(entry: Entry) returns (ok: bool)
      modifies this`version
      ensures ok == CheckVersion(config, store, entry)
      ensures version == VersionAfterCheck(config, store, old(Reading()))
    {
      var current := CurrentVersion(config, store);
      ok := true;
      if current.Some? {
        version := current.value;
        ok := current.value == entry.version;
      }
    }

    method StoreLocally(value: nat)
      modifies this`store
      ensures store == StepStore(config, old(store), old(Reading()).(phase := SetLocal(value, old(store).clock)))
    {
      var entry := Entry(value, version, store.clock + config.localTimeout, store.clock);
      store := store.(locals := store.locals[process := entry]);
    }

    method Get() returns (value: nat)
      modifies this
      ensures var (s, r) := FinishGet(config, old(store), old(Reading()));
        store == s && r.phase == Done(value) && version == r.version
    {
      ghost var result := FinishGet(config, store, Reading());
      ghost var r := StepReader(config, store, Reading());
      assert FinishGet(config, store, r) == result;
      var found := Lookup(LocalEntry(store, process), store.clock);
      if found.Some? {
        var ok := Check(found.value);
        r := StepReader(config, store, r);
        assert FinishGet(config, store, r) == result;
        if ok {
          return found.value.value;
        }
      }
      found := Lookup(store.shared, store.clock);
      r := StepReader(config, store, r);
      assert FinishGet(config, store, r) == result;
      if found.Some? {
        var ok := Check(found.value);
        r := StepReader(config, store, r);
        assert FinishGet(config, store, r) == result;
        if ok {
          FinishSetLocal(config, store, r);
          StoreLocally(found.value.value);
          return found.value.value;
        }
      }
      FinishCompute(config, store, r);
      value := store.commits;
      store := store.(shared := Some(Entry(value, version, store.clock + config.timeout, store.clock)));
      StoreLocally(value);
    }
  }
}
