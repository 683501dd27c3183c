/**
  The life of one class: schema edits made while it is unlocked, and the background task that creates and drops
  indexes, which may succeed, fail at any operation, or die and be started again.
 */
module KlassMigration {
  import opened Prelude
  import opened KlassSchema

  /** What to create and drop for each type of index, and the type that a schema asks for first, which goes first. */
  datatype Plan = Plan(changes: PerType<Changes>, first: IndexType) {
    function Of(t: IndexType): Changes {
      changes.Of(t)
    }
  }

  /** The stored row of a class. `changes` is the plan of a pending migration: the class is locked while there is one. */
  datatype Row = Row(revision: nat, schema: seq<Field>, mapping: Mapping,
                     recorded: PerType<seq<Source>>, changes: Option<Plan>)

  /** Names a physical index. */
  datatype Index = Index(kind: IndexType, source: Source)

  /** The physical indexes, and whether each is valid. */
  type Physical = map<Index, bool>

  /** `ledger` remembers what each source ever given to a field was given for. */
  datatype State = State(row: Row, physical: Physical, ledger: map<Source, Definition>)

  datatype Op = Op(create: bool, index: Index)

  datatype Action =
    | Edit(schema: seq<Field>)
    | Succeed
    /** The operation numbered `at` fails and leaves its index absent, invalid or valid. */
    | Fail(at: nat, left: Option<bool>)
    /** Every operation succeeds but saving the unlocked row fails. */
    | FailToSave
    /** The worker dies during the operation numbered `at`; the class stays locked and the index task starts again. */
    | Die(at: nat, left: Option<bool>)

  datatype Refusal = Locked

  const NOTHING_RECORDED: PerType<seq<Source>> := PerType([], [])

  const NO_ROW: Row := Row(1, [], map[], NOTHING_RECORDED, None)

  // ------------------------------------------------------------------ saving a schema

  function AllFlagged(schema: seq<Field>, mapping: Mapping): PerType<seq<Source>>
    requires Maps(mapping, schema)
  {
    PerType(FlaggedSources(schema, mapping, Order), FlaggedSources(schema, mapping, Filter))
  }

  /** The type of the first index to create or, if there is none to create, of the first to drop. */
  function FirstChanged(recorded: PerType<seq<Source>>, oldSchema: seq<Field>, schema: seq<Field>,
                        oldMapping: Mapping, mapping: Mapping): Option<IndexType>
    requires Maps(oldMapping, oldSchema) && Maps(mapping, schema)
  {
    var created := FirstMissing(schema, mapping, recorded);
    if created.Some? then created else FirstMissing(oldSchema, oldMapping, AllFlagged(schema, mapping))
  }

  function PlanFor(recorded: PerType<seq<Source>>, oldSchema: seq<Field>, schema: seq<Field>,
                   oldMapping: Mapping, mapping: Mapping): Plan
    requires Maps(oldMapping, oldSchema) && Maps(mapping, schema)
  {
    var before, after := AllFlagged(oldSchema, oldMapping), AllFlagged(schema, mapping);
    var first := FirstChanged(recorded, oldSchema, schema, oldMapping, mapping);
    Plan(PerType(ChangesFor(recorded.order, before.order, after.order),
                 ChangesFor(recorded.filter, before.filter, after.filter)),
         if first.Some? then first.value else Order)
  }

  function KeptFor(recorded: PerType<seq<Source>>, schema: seq<Field>, mapping: Mapping): PerType<seq<Source>>
    requires Maps(mapping, schema)
  {
    PerType(Among(FlaggedSources(schema, mapping, Order), recorded.order),
            Among(FlaggedSources(schema, mapping, Filter), recorded.filter))
  }

  const NO_CHANGES: PerType<Changes> := PerType(Changes([], []), Changes([], []))

  predicate RowOk(row: Row) {
    DistinctNames(row.schema) && row.mapping.Keys == Names(row.schema)
  }

  lemma RowMaps(row: Row)
    requires RowOk(row)
    ensures Maps(row.mapping, row.schema)
  {
    forall i | 0 <= i < |row.schema| ensures row.schema[i].name in row.mapping {
      assert row.schema[i].name in Names(row.schema);
    }
  }

  function Remapped(row: Row, schema: seq<Field>, revision: nat): (m: Mapping)
    requires DistinctNames(schema)
    ensures m.Keys == Names(schema) && Maps(m, schema)
  {
    MappingForEach(schema, row.schema, row.mapping, revision);
    MappingFor(schema, row.schema, row.mapping, revision)
  }

  /** The new mapping is stored at once; the class is locked only if indexes have to change. */
  function Migrated(row: Row, schema: seq<Field>, revision: nat): (r: Row)
    requires RowOk(row) && DistinctNames(schema)
    ensures RowOk(r)
  {
    var mapping := Remapped(row, schema, revision);
    RowMaps(row);
    var plan := PlanFor(row.recorded, row.schema, schema, row.mapping, mapping);
    if plan.changes == NO_CHANGES then row.(revision := revision, schema := schema, mapping := mapping)
    else Row(revision, schema, mapping, KeptFor(row.recorded, schema, mapping), Some(plan))
  }

  /** A new class keeps revision 1. */
  function Created(schema: seq<Field>): Row
    requires DistinctNames(schema)
  {
    Migrated(NO_ROW, schema, 1)
  }

  function Edited(row: Row, schema: seq<Field>): Result<Row, Refusal>
    requires RowOk(row) && DistinctNames(schema)
  {
    if row.changes.Some? then Failure(Locked)
    else if schema == row.schema then Success(row)
    else Success(Migrated(row, schema, row.revision + 1))
  }

  // ------------------------------------------------------------------ the index task

  function OpsOf(t: IndexType, create: bool, sources: seq<Source>): (ops: seq<Op>)
    ensures |ops| == |sources|
    ensures forall i :: 0 <= i < |sources| ==> ops[i] == Op(create, Index(t, sources[i]))
  {
    seq(|sources|, i requires 0 <= i < |sources| => Op(create, Index(t, sources[i])))
  }

  function TypeOps(t: IndexType, changes: Changes): seq<Op> {
    OpsOf(t, true, changes.add) + OpsOf(t, false, changes.drop)
  }

  function Other(t: IndexType): IndexType {
    if t == Order then Filter else Order
  }

  /** Type by type, in the order in which the scan came upon them; for each type creations come first. */
  function PlanOps(plan: Plan): seq<Op> {
    TypeOps(plan.first, plan.Of(plan.first)) + TypeOps(Other(plan.first), plan.Of(Other(plan.first)))
  }

  /** An invalid index is dropped and created again; dropping an index that is not there does nothing. */
  function Apply(physical: Physical, op: Op): Physical {
    if op.create then physical[op.index := true] else physical - {op.index}
  }

  function ApplyAll(physical: Physical, ops: seq<Op>): Physical {
    if ops == [] then physical else Apply(ApplyAll(physical, ops[..|ops| - 1]), ops[|ops| - 1])
  }

  function Leave(physical: Physical, index: Index, left: Option<bool>): Physical {
    if left.Some? then physical[index := left.value] else physical - {index}
  }

  /** What the interrupted task has done when its operation numbered `at` breaks. */
  function Interrupted(physical: Physical, ops: seq<Op>, at: nat, left: Option<bool>): Physical
    requires at < |ops|
  {
    Leave(ApplyAll(physical, ops[..at]), ops[at].index, left)
  }

  /** The sources of the indexes created by these operations. */
  function Done(ops: seq<Op>, t: IndexType): seq<Source> {
    if ops == [] then []
    else
      var op := ops[|ops| - 1];
      Done(ops[..|ops| - 1], t) + (if op.create && op.index.kind == t then [op.index.source] else [])
  }

  function DoneBy(ops: seq<Op>): PerType<seq<Source>> {
    PerType(Done(ops, Order), Done(ops, Filter))
  }

  function Recording(recorded: PerType<seq<Source>>, done: PerType<seq<Source>>): PerType<seq<Source>> {
    PerType(recorded.order + done.order, recorded.filter + done.filter)
  }

  /** Unlocking records what was created; a rollback also takes back the flags that have no index. */
  function Unlocked(row: Row, done: PerType<seq<Source>>, rollback: bool): (r: Row)
    requires RowOk(row)
    ensures RowOk(r) && r.changes.None?
  {
    RowMaps(row);
    var recorded := Recording(row.recorded, done);
    var schema := if rollback then CleanedSchema(row.schema, row.mapping, recorded) else row.schema;
    assert Names(schema) == Names(row.schema) by {
      SameNames(schema, row.schema);
    }
    row.(schema := schema, recorded := recorded, changes := None)
  }

  lemma SameNames(a: seq<Field>, b: seq<Field>)
    requires |a| == |b| && forall i :: 0 <= i < |a| ==> a[i].name == b[i].name
    ensures Names(a) == Names(b)
  {
    assert forall n :: n in Names(a) ==> n in Names(b);
    forall n | n in Names(b) ensures n in Names(a) {
      var i :| 0 <= i < |b| && b[i].name == n;
      assert a[i].name == n;
    }
  }

  // ------------------------------------------------------------------ runs

  predicate Possible(s: State, a: Action) {
    && RowOk(s.row)
    && match a
       case Edit(schema) => DistinctNames(schema)
       case Succeed => s.row.changes.Some?
       case FailToSave => s.row.changes.Some?
       case Fail(at, _) => s.row.changes.Some? && at < |PlanOps(s.row.changes.value)|
       case Die(at, _) => s.row.changes.Some? && at < |PlanOps(s.row.changes.value)|
  }

  /** The ledger with the sources of a schema entered where they are new to it. */
  function Enter(ledger: map<Source, Definition>, schema: seq<Field>, mapping: Mapping): map<Source, Definition>
    requires Maps(mapping, schema)
  {
    if schema == [] then ledger
    else
      var f := schema[|schema| - 1];
      var entered := Enter(ledger, schema[..|schema| - 1], mapping);
      if mapping[f.name] in entered then entered else entered[mapping[f.name] := DefinitionOf(f)]
  }

  function Entered(ledger: map<Source, Definition>, row: Row): map<Source, Definition>
    requires RowOk(row)
  {
    RowMaps(row);
    Enter(ledger, row.schema, row.mapping)
  }

  function Step(s: State, a: Action): State
    requires Possible(s, a)
  {
    match a
    case Edit(schema) =>
      var r := Edited(s.row, schema);
      if r.Failure? then s else State(r.value, s.physical, Entered(s.ledger, r.value))
    case Succeed =>
      var ops := PlanOps(s.row.changes.value);
      s.(row := Unlocked(s.row, DoneBy(ops), false), physical := ApplyAll(s.physical, ops))
    case FailToSave =>
      var ops := PlanOps(s.row.changes.value);
      s.(row := Unlocked(Unlocked(s.row, DoneBy(ops), false), DoneBy(ops), true),
         physical := ApplyAll(s.physical, ops))
    case Fail(at, left) =>
      var ops := PlanOps(s.row.changes.value);
      s.(row := Unlocked(s.row, DoneBy(ops[..at]), true), physical := Interrupted(s.physical, ops, at, left))
    case Die(at, left) =>
      s.(physical := Interrupted(s.physical, PlanOps(s.row.changes.value), at, left))
  }

  function Init(schema: seq<Field>): State
    requires DistinctNames(schema)
  {
    State(Created(schema), map[], Entered(map[], Created(schema)))
  }

  predicate IsRun(s: State, actions: seq<Action>)
    decreases |actions|
  {
    actions == [] || (Possible(s, actions[0]) && IsRun(Step(s, actions[0]), actions[1..]))
  }

  function Execute(s: State, actions: seq<Action>): State
    requires IsRun(s, actions)
    decreases |actions|
  {
    if actions == [] then s else Execute(Step(s, actions[0]), actions[1..])
  }

  // ------------------------------------------------------------------ sources

  ghost predicate Named(source: Source, name: string, revision: nat) {
    exists r: nat :: r <= revision && source == SourceName(r, name)
  }

  ghost predicate LedgerOk(ledger: map<Source, Definition>, revision: nat) {
    forall s :: s in ledger ==> Named(s, ledger[s].name, revision)
  }

  /** The ledger has this field's source, for this very definition. */
  predicate Known(f: Field, mapping: Mapping, ledger: map<Source, Definition>) {
    f.name in mapping && mapping[f.name] in ledger && ledger[mapping[f.name]] == DefinitionOf(f)
  }

  predicate AllKnown(schema: seq<Field>, mapping: Mapping, ledger: map<Source, Definition>) {
    forall i :: 0 <= i < |schema| ==> Known(schema[i], mapping, ledger)
  }

  predicate Extends(after: map<Source, Definition>, before: map<Source, Definition>) {
    forall s :: s in before ==> s in after && after[s] == before[s]
  }

  predicate FreshSource(f: Field, mapping: Mapping, ledger: map<Source, Definition>, revision: nat) {
    f.name in mapping && mapping[f.name] !in ledger && mapping[f.name] == SourceName(revision, f.name)
  }

  predicate KnownOrFresh(schema: seq<Field>, mapping: Mapping, ledger: map<Source, Definition>, revision: nat) {
    forall i :: 0 <= i < |schema| ==>
      Known(schema[i], mapping, ledger) || FreshSource(schema[i], mapping, ledger, revision)
  }

  lemma {:induction false} EnterKeeps(ledger: map<Source, Definition>, schema: seq<Field>, mapping: Mapping)
    requires Maps(mapping, schema)
    ensures Extends(Enter(ledger, schema, mapping), ledger)
  {
    if schema != [] { EnterKeeps(ledger, schema[..|schema| - 1], mapping); }
  }

  lemma {:induction false} EnterNew(ledger: map<Source, Definition>, schema: seq<Field>, mapping: Mapping, revision: nat)
    requires Maps(mapping, schema) && DistinctNames(schema)
    requires KnownOrFresh(schema, mapping, ledger, revision)
    ensures AllKnown(schema, mapping, Enter(ledger, schema, mapping))
    ensures forall s :: s in Enter(ledger, schema, mapping) && s !in ledger ==>
              s == SourceName(revision, Enter(ledger, schema, mapping)[s].name)
              && Enter(ledger, schema, mapping)[s].name in Names(schema)
  {
    if schema != [] {
      var front := schema[..|schema| - 1];
      var f := schema[|schema| - 1];
      EnterNew(ledger, front, mapping, revision);
      EnterKeeps(ledger, front, mapping);
      var entered := Enter(ledger, front, mapping);
      assert Known(f, mapping, ledger) || FreshSource(f, mapping, ledger, revision);
      if mapping[f.name] in entered && mapping[f.name] !in ledger {
        SourceNameInjective(revision, f.name, revision, entered[mapping[f.name]].name);
        assert false;
      }
      var after := Enter(ledger, schema, mapping);
      assert Known(f, mapping, after);
      forall i | 0 <= i < |schema| ensures Known(schema[i], mapping, after) {
        if i < |front| {
          assert Known(front[i], mapping, entered);
        }
      }
      assert Names(front) <= Names(schema);
      assert f.name in Names(schema);
    }
  }

  lemma NewerSourceIsFresh(ledger: map<Source, Definition>, revision: nat, newer: nat, name: string)
    requires LedgerOk(ledger, revision) && newer > revision
    ensures SourceName(newer, name) !in ledger
  {
    var s := SourceName(newer, name);
    if s in ledger {
      var r: nat :| r <= revision && s == SourceName(r, ledger[s].name);
      SourceNameInjective(newer, name, r, ledger[s].name);
    }
  }

  /** The definition of a field's former self, if it is stored in the same way. */
  predicate SameStorage(f: Field, schema: seq<Field>) {
    exists i :: 0 <= i < |schema| && DefinitionOf(schema[i]) == DefinitionOf(f)
  }

  /** A field stored as before keeps its source; any other gets a source of the new revision. */
  lemma SourceForCases(f: Field, row: Row, revision: nat)
    requires RowOk(row)
    ensures SameStorage(f, row.schema) ==>
              f.name in row.mapping && SourceFor(f, row.schema, row.mapping, revision) == row.mapping[f.name]
    ensures !SameStorage(f, row.schema) ==> SourceFor(f, row.schema, row.mapping, revision) == SourceName(revision, f.name)
  {
    LookupFinds(row.schema, f.name);
    if SameStorage(f, row.schema) {
      var i :| 0 <= i < |row.schema| && DefinitionOf(row.schema[i]) == DefinitionOf(f);
      assert row.schema[i].name in Names(row.schema);
    } else if f.name in row.mapping {
      var former := Lookup(row.schema, f.name).value;
      var i :| 0 <= i < |row.schema| && row.schema[i] == former;
      assert DefinitionOf(row.schema[i]) != DefinitionOf(f);
    }
  }

  lemma RemappedEach(row: Row, schema: seq<Field>, revision: nat, i: nat)
    requires DistinctNames(schema) && i < |schema|
    ensures Maps(Remapped(row, schema, revision), schema)
    ensures Remapped(row, schema, revision)[schema[i].name] == SourceFor(schema[i], row.schema, row.mapping, revision)
  {
    MappingForEach(schema, row.schema, row.mapping, revision);
  }

  ghost predicate SourcesOk(s: State) {
    && RowOk(s.row)
    && LedgerOk(s.ledger, s.row.revision)
    && AllKnown(s.row.schema, s.row.mapping, s.ledger)
  }

  lemma RemappedKnownOrFresh(row: Row, ledger: map<Source, Definition>, schema: seq<Field>, revision: nat)
    requires RowOk(row) && AllKnown(row.schema, row.mapping, ledger) && DistinctNames(schema)
    requires forall name :: SourceName(revision, name) !in ledger
    ensures KnownOrFresh(schema, Remapped(row, schema, revision), ledger, revision)
  {
    var mapping := Remapped(row, schema, revision);
    forall i | 0 <= i < |schema|
      ensures Known(schema[i], mapping, ledger) || FreshSource(schema[i], mapping, ledger, revision)
    {
      RemappedEach(row, schema, revision, i);
      SourceForCases(schema[i], row, revision);
      if SameStorage(schema[i], row.schema) {
        var j :| 0 <= j < |row.schema| && DefinitionOf(row.schema[j]) == DefinitionOf(schema[i]);
        assert Known(row.schema[j], row.mapping, ledger);
      }
    }
  }

  lemma MigratedKeepsSources(row: Row, ledger: map<Source, Definition>, schema: seq<Field>, revision: nat)
    requires RowOk(row) && AllKnown(row.schema, row.mapping, ledger) && DistinctNames(schema)
    requires LedgerOk(ledger, revision)
    requires forall name :: SourceName(revision, name) !in ledger
    ensures var r := Migrated(row, schema, revision);
            && LedgerOk(Entered(ledger, r), revision)
            && AllKnown(r.schema, r.mapping, Entered(ledger, r))
            && Extends(Entered(ledger, r), ledger)
  {
    var r := Migrated(row, schema, revision);
    RowMaps(r);
    RemappedKnownOrFresh(row, ledger, schema, revision);
    EnterKeeps(ledger, r.schema, r.mapping);
    EnterNew(ledger, r.schema, r.mapping, revision);
    var after := Entered(ledger, r);
    forall s | s in after ensures Named(s, after[s].name, revision) {
      if s in ledger {
        assert Named(s, ledger[s].name, revision);
      } else {
        assert s == SourceName(revision, after[s].name);
      }
    }
  }

  lemma LedgerOkLater(ledger: map<Source, Definition>, revision: nat, newer: nat)
    requires LedgerOk(ledger, revision) && revision <= newer
    ensures LedgerOk(ledger, newer)
  {
    forall s | s in ledger ensures Named(s, ledger[s].name, newer) {
      assert Named(s, ledger[s].name, revision);
    }
  }

  lemma UnlockedKeepsKnown(row: Row, ledger: map<Source, Definition>, done: PerType<seq<Source>>, rollback: bool)
    requires RowOk(row) && AllKnown(row.schema, row.mapping, ledger)
    ensures AllKnown(Unlocked(row, done, rollback).schema, row.mapping, ledger)
  {
    var r := Unlocked(row, done, rollback);
    RowMaps(row);
    forall i | 0 <= i < |r.schema| ensures Known(r.schema[i], row.mapping, ledger) {
      assert Known(row.schema[i], row.mapping, ledger);
    }
  }

  lemma EditKeepsSources(s: State, schema: seq<Field>)
    requires SourcesOk(s) && DistinctNames(schema)
    ensures SourcesOk(Step(s, Edit(schema))) && Extends(Step(s, Edit(schema)).ledger, s.ledger)
  {
    var r := Edited(s.row, schema);
    if r.Success? && schema != s.row.schema {
      var revision := s.row.revision + 1;
      forall name ensures SourceName(revision, name) !in s.ledger {
        NewerSourceIsFresh(s.ledger, s.row.revision, revision, name);
      }
      LedgerOkLater(s.ledger, s.row.revision, revision);
      MigratedKeepsSources(s.row, s.ledger, schema, revision);
    } else if r.Success? {
      RowMaps(s.row);
      EnterKeeps(s.ledger, s.row.schema, s.row.mapping);
      EnterKnown(s.ledger, s.row.schema, s.row.mapping);
    }
  }

  lemma {:induction false} EnterKnown(ledger: map<Source, Definition>, schema: seq<Field>, mapping: Mapping)
    requires Maps(mapping, schema) && AllKnown(schema, mapping, ledger)
    ensures Enter(ledger, schema, mapping) == ledger
  {
    if schema != [] {
      assert Known(schema[|schema| - 1], mapping, ledger);
      EnterKnown(ledger, schema[..|schema| - 1], mapping);
    }
  }

  lemma StepKeepsSources(s: State, a: Action)
    requires SourcesOk(s) && Possible(s, a)
    ensures SourcesOk(Step(s, a)) && Extends(Step(s, a).ledger, s.ledger)
  {
    match a
    case Edit(schema) => EditKeepsSources(s, schema);
    case Succeed => UnlockedKeepsKnown(s.row, s.ledger, DoneBy(PlanOps(s.row.changes.value)), false);
    case FailToSave =>
      var done := DoneBy(PlanOps(s.row.changes.value));
      UnlockedKeepsKnown(s.row, s.ledger, done, false);
      UnlockedKeepsKnown(Unlocked(s.row, done, false), s.ledger, done, true);
    case Fail(at, _) => UnlockedKeepsKnown(s.row, s.ledger, DoneBy(PlanOps(s.row.changes.value)[..at]), true);
    case Die(_, _) =>
  }

  lemma {:induction false} RunKeepsSources(s: State, actions: seq<Action>)
    requires SourcesOk(s) && IsRun(s, actions)
    ensures SourcesOk(Execute(s, actions)) && Extends(Execute(s, actions).ledger, s.ledger)
    decreases |actions|
  {
    if actions != [] {
      StepKeepsSources(s, actions[0]);
      RunKeepsSources(Step(s, actions[0]), actions[1..]);
    }
  }

  lemma InitSourcesOk(schema: seq<Field>)
    requires DistinctNames(schema)
    ensures SourcesOk(Init(schema))
  {
    MigratedKeepsSources(NO_ROW, map[], schema, 1);
  }

  predicate Injective(mapping: Mapping) {
    forall m, n :: m in mapping && n in mapping && mapping[m] == mapping[n] ==> m == n
  }

  lemma SourcesOkInjective(s: State)
    requires SourcesOk(s)
    ensures Injective(s.row.mapping)
  {
    var row := s.row;
    forall m, n | m in row.mapping && n in row.mapping && row.mapping[m] == row.mapping[n] ensures m == n {
      var i :| 0 <= i < |row.schema| && row.schema[i].name == m;
      var j :| 0 <= j < |row.schema| && row.schema[j].name == n;
      assert Known(row.schema[i], row.mapping, s.ledger) && Known(row.schema[j], row.mapping, s.ledger);
    }
  }

  lemma {:induction false} RunSplit(s: State, actions: seq<Action>, k: nat)
    requires IsRun(s, actions) && k <= |actions|
    ensures IsRun(s, actions[..k]) && IsRun(Execute(s, actions[..k]), actions[k..])
    ensures Execute(s, actions) == Execute(Execute(s, actions[..k]), actions[k..])
    decreases k
  {
    if k == 0 {
      assert actions[..0] == [] && actions[0..] == actions;
    } else {
      RunSplit(Step(s, actions[0]), actions[1..], k - 1);
      assert actions[..k][1..] == actions[1..][..k - 1];
      assert actions[1..][k - 1..] == actions[k..];
    }
  }

  /** The field reads its data from this source. */
  predicate ReadsFrom(row: Row, f: Field, source: Source) {
    f in row.schema && f.name in row.mapping && row.mapping[f.name] == source
  }

  lemma ReadsFromKnown(s: State, f: Field, source: Source)
    requires SourcesOk(s) && ReadsFrom(s.row, f, source)
    ensures source in s.ledger && s.ledger[source] == DefinitionOf(f)
  {
    var i :| 0 <= i < |s.row.schema| && s.row.schema[i] == f;
    assert Known(s.row.schema[i], s.row.mapping, s.ledger);
  }

  /**
    Over the whole history of a class: fields never share a source, and two fields that read one source, at whatever
    two moments, have the same name, type and settings.
   */
  lemma StorageIsNeverReinterpreted(schema: seq<Field>, run: seq<Action>, k: nat, f: Field, g: Field, source: Source)
    requires DistinctNames(schema) && IsRun(Init(schema), run) && k <= |run|
    ensures Injective(Execute(Init(schema), run).row.mapping)
    ensures IsRun(Init(schema), run[..k])
    ensures ReadsFrom(Execute(Init(schema), run[..k]).row, f, source) && ReadsFrom(Execute(Init(schema), run).row, g, source)
            ==> DefinitionOf(f) == DefinitionOf(g)
  {
    InitSourcesOk(schema);
    RunSplit(Init(schema), run, k);
    RunKeepsSources(Init(schema), run[..k]);
    var s := Execute(Init(schema), run[..k]);
    RunKeepsSources(s, run[k..]);
    var t := Execute(Init(schema), run);
    SourcesOkInjective(t);
    if ReadsFrom(s.row, f, source) && ReadsFrom(t.row, g, source) {
      ReadsFromKnown(s, f, source);
      ReadsFromKnown(t, g, source);
    }
  }

  /** At no moment of a run does any field read this source. */
  ghost predicate NeverRead(s: State, run: seq<Action>, source: Source) {
    forall k: nat, g: Field :: k <= |run| && IsRun(s, run[..k]) ==> !ReadsFrom(Execute(s, run[..k]).row, g, source)
  }

  lemma UnknownIsNeverRead(s: State, run: seq<Action>, source: Source)
    requires SourcesOk(s) && IsRun(s, run)
    requires source !in Execute(s, run).ledger
    ensures NeverRead(s, run, source)
  {
    forall k: nat, g: Field | k <= |run| && IsRun(s, run[..k])
      ensures !ReadsFrom(Execute(s, run[..k]).row, g, source)
    {
      RunSplit(s, run, k);
      RunKeepsSources(s, run[..k]);
      RunKeepsSources(Execute(s, run[..k]), run[k..]);
      if ReadsFrom(Execute(s, run[..k]).row, g, source) {
        ReadsFromKnown(Execute(s, run[..k]), g, source);
      }
    }
  }

  lemma EditedSource(row: Row, edited: seq<Field>, i: nat)
    requires RowOk(row) && row.changes.None? && DistinctNames(edited) && i < |edited|
    ensures var r := Edited(row, edited);
            && r.Success? && r.value.schema == edited && edited[i].name in r.value.mapping
            && var source := r.value.mapping[edited[i].name];
               if SameStorage(edited[i], row.schema) then edited[i].name in row.mapping && source == row.mapping[edited[i].name]
               else source == SourceName(row.revision + 1, edited[i].name)
  {
    if edited == row.schema {
      RowMaps(row);
      assert DefinitionOf(row.schema[i]) == DefinitionOf(edited[i]);
    } else {
      RemappedEach(row, edited, row.revision + 1, i);
      SourceForCases(edited[i], row, row.revision + 1);
    }
  }

  /**
    An accepted edit, after any history: a field whose type and settings are as they were keeps its source, and every
    other field gets a source that no field has ever read before.
   */
  lemma EditKeepsOrRenewsSources(schema: seq<Field>, run: seq<Action>, edited: seq<Field>, i: nat)
    requires DistinctNames(schema) && DistinctNames(edited) && i < |edited|
    requires IsRun(Init(schema), run)
    requires Execute(Init(schema), run).row.changes.None?
    ensures var row := Execute(Init(schema), run).row;
            && RowOk(row)
            && var r := Edited(row, edited);
               && r.Success? && r.value.schema == edited && edited[i].name in r.value.mapping
               && var source := r.value.mapping[edited[i].name];
                  if SameStorage(edited[i], row.schema)
                  then edited[i].name in row.mapping && source == row.mapping[edited[i].name]
                  else NeverRead(Init(schema), run, source)
  {
    InitSourcesOk(schema);
    RunKeepsSources(Init(schema), run);
    var s := Execute(Init(schema), run);
    EditedSource(s.row, edited, i);
    if !SameStorage(edited[i], s.row.schema) {
      NewerSourceIsFresh(s.ledger, s.row.revision, s.row.revision + 1, edited[i].name);
      UnknownIsNeverRead(Init(schema), run, SourceName(s.row.revision + 1, edited[i].name));
    }
  }

  // ------------------------------------------------------------------ indexes

  predicate NoDuplicates(sources: seq<Source>) {
    forall i, j :: 0 <= i < j < |sources| ==> sources[i] != sources[j]
  }

  ghost predicate Settled(recorded: seq<Source>, flagged: seq<Source>) {
    forall x :: x in recorded <==> x in flagged
  }

  ghost predicate Planned(recorded: seq<Source>, flagged: seq<Source>, changes: Changes) {
    && (forall x :: x in flagged <==> x in recorded || x in changes.add)
    && (forall x :: x in changes.drop ==> x !in flagged)
    && (forall x :: x in changes.add ==> x !in recorded)
    && NoDuplicates(changes.add)
  }

  ghost predicate Present(recorded: seq<Source>, t: IndexType, physical: Physical) {
    forall x :: x in recorded ==> Index(t, x) in physical && physical[Index(t, x)]
  }

  /** Recorded, flagged and physical indexes of one type agree, up to what a pending migration has yet to do. */
  ghost predicate TypeOk(row: Row, physical: Physical, t: IndexType)
    requires Maps(row.mapping, row.schema)
  {
    var flagged := FlaggedSources(row.schema, row.mapping, t);
    && Present(row.recorded.Of(t), t, physical)
    && (if row.changes.None? then Settled(row.recorded.Of(t), flagged)
        else Planned(row.recorded.Of(t), flagged, row.changes.value.Of(t)))
  }

  /** Every physical index is recorded or about to be handled. */
  ghost predicate TypeExact(row: Row, physical: Physical, t: IndexType) {
    forall x :: Index(t, x) in physical ==>
      || x in row.recorded.Of(t)
      || (row.changes.Some? && (x in row.changes.value.Of(t).add || x in row.changes.value.Of(t).drop))
  }

  ghost predicate IndexesOk(s: State) {
    && Maps(s.row.mapping, s.row.schema)
    && forall t: IndexType :: TypeOk(s.row, s.physical, t)
  }

  ghost predicate IndexesExact(s: State) {
    forall t: IndexType :: TypeExact(s.row, s.physical, t)
  }

  lemma {:induction false} NotAmongNoDuplicates(sources: seq<Source>, others: seq<Source>)
    requires NoDuplicates(sources)
    ensures NoDuplicates(NotAmong(sources, others))
  {
    if sources != [] {
      var front := sources[..|sources| - 1];
      var x := sources[|sources| - 1];
      NotAmongNoDuplicates(front, others);
      AmongMembers(front, others, x);
    }
  }

  lemma {:induction false} FlaggedSourcesMember(schema: seq<Field>, mapping: Mapping, t: IndexType, x: Source)
    requires Maps(mapping, schema) && x in FlaggedSources(schema, mapping, t)
    ensures exists i :: 0 <= i < |schema| && mapping[schema[i].name] == x
  {
    var front := schema[..|schema| - 1];
    if x in FlaggedSources(front, mapping, t) {
      FlaggedSourcesMember(front, mapping, t, x);
      var i :| 0 <= i < |front| && mapping[front[i].name] == x;
      assert schema[i] == front[i];
    } else {
      assert mapping[schema[|schema| - 1].name] == x;
    }
  }

  lemma {:induction false} FlaggedSourcesNoDuplicates(schema: seq<Field>, mapping: Mapping, t: IndexType)
    requires Maps(mapping, schema) && DistinctNames(schema) && Injective(mapping)
    ensures NoDuplicates(FlaggedSources(schema, mapping, t))
  {
    if schema != [] {
      var front := schema[..|schema| - 1];
      var x := mapping[schema[|schema| - 1].name];
      FlaggedSourcesNoDuplicates(front, mapping, t);
      if x in FlaggedSources(front, mapping, t) {
        FlaggedSourcesMember(front, mapping, t, x);
      }
    }
  }

  lemma ChangesMembers(recorded: seq<Source>, before: seq<Source>, after: seq<Source>)
    ensures forall x :: x in NotAmong(after, recorded) <==> x in after && x !in recorded
    ensures forall x :: x in Among(after, recorded) <==> x in after && x in recorded
    ensures forall x :: x in NotAmong(before, after) <==> x in before && x !in after
  {
    forall x ensures x in NotAmong(after, recorded) <==> x in after && x !in recorded
             ensures x in Among(after, recorded) <==> x in after && x in recorded
             ensures x in NotAmong(before, after) <==> x in before && x !in after
    {
      AmongMembers(after, recorded, x);
      AmongMembers(before, after, x);
    }
  }

  lemma MigratedType(row: Row, schema: seq<Field>, revision: nat, physical: Physical, t: IndexType)
    requires RowOk(row) && DistinctNames(schema) && row.changes.None?
    requires Maps(row.mapping, row.schema) && TypeOk(row, physical, t)
    requires Injective(Migrated(row, schema, revision).mapping)
    ensures var r := Migrated(row, schema, revision);
            Maps(r.mapping, r.schema) && TypeOk(r, physical, t) && (TypeExact(row, physical, t) ==> TypeExact(r, physical, t))
  {
    var r := Migrated(row, schema, revision);
    var before := FlaggedSources(row.schema, row.mapping, t);
    RowMaps(r);
    var after := FlaggedSources(r.schema, r.mapping, t);
    var recorded := row.recorded.Of(t);
    var plan := PlanFor(row.recorded, row.schema, schema, row.mapping, r.mapping);
    assert plan.Of(t) == ChangesFor(recorded, before, after);
    ChangesMembers(recorded, before, after);
    if plan.changes == NO_CHANGES {
      assert r.recorded == row.recorded && NotAmong(after, recorded) == [] && NotAmong(before, after) == [];
      assert Settled(recorded, after);
    } else {
      assert r.recorded.Of(t) == Among(after, recorded);
      FlaggedSourcesNoDuplicates(r.schema, r.mapping, t);
      NotAmongNoDuplicates(after, recorded);
      assert Planned(r.recorded.Of(t), after, r.changes.value.Of(t));
    }
  }

  lemma OpsOfMembers(t: IndexType, create: bool, sources: seq<Source>, op: Op)
    ensures op in OpsOf(t, create, sources) <==>
            op.index.kind == t && op.create == create && op.index.source in sources
  {
    if op.index.kind == t && op.create == create && op.index.source in sources {
      var i :| 0 <= i < |sources| && sources[i] == op.index.source;
      assert OpsOf(t, create, sources)[i] == op;
    }
  }

  lemma TypeOpsMembers(t: IndexType, changes: Changes, op: Op)
    ensures op in TypeOps(t, changes) <==>
            op.index.kind == t && op.index.source in (if op.create then changes.add else changes.drop)
  {
    OpsOfMembers(t, true, changes.add, op);
    OpsOfMembers(t, false, changes.drop, op);
  }

  lemma PlanOpsMembers(plan: Plan, create: bool, index: Index)
    ensures Op(create, index) in PlanOps(plan) <==>
            index.source in (if create then plan.Of(index.kind).add else plan.Of(index.kind).drop)
  {
    TypeOpsMembers(plan.first, plan.Of(plan.first), Op(create, index));
    TypeOpsMembers(Other(plan.first), plan.Of(Other(plan.first)), Op(create, index));
  }

  /** The type that goes first has something to do, and something to create if anything is to be created. */
  lemma FirstTypeHasWork(recorded: PerType<seq<Source>>, oldSchema: seq<Field>, schema: seq<Field>,
                         oldMapping: Mapping, mapping: Mapping)
    requires Maps(oldMapping, oldSchema) && Maps(mapping, schema)
    ensures var plan := PlanFor(recorded, oldSchema, schema, oldMapping, mapping);
            && (plan.changes != NO_CHANGES ==> TypeOps(plan.first, plan.Of(plan.first)) != [])
            && (plan.changes.order.add != [] || plan.changes.filter.add != [] ==> plan.Of(plan.first).add != [])
  {
    var plan := PlanFor(recorded, oldSchema, schema, oldMapping, mapping);
    MissingMeansWork(schema, mapping, recorded);
    MissingMeansWork(oldSchema, oldMapping, AllFlagged(schema, mapping));
  }

  lemma {:induction false} MissingMeansWork(schema: seq<Field>, mapping: Mapping, others: PerType<seq<Source>>)
    requires Maps(mapping, schema)
    ensures var first, flagged := FirstMissing(schema, mapping, others), AllFlagged(schema, mapping);
            if first.Some? then NotAmong(flagged.Of(first.value), others.Of(first.value)) != []
            else NotAmong(flagged.order, others.order) == [] && NotAmong(flagged.filter, others.filter) == []
  {
    if schema != [] {
      MissingMeansWork(schema[..|schema| - 1], mapping, others);
      NotAmongGrows(schema, mapping, others, Order);
      NotAmongGrows(schema, mapping, others, Filter);
    }
  }

  lemma NotAmongGrows(schema: seq<Field>, mapping: Mapping, others: PerType<seq<Source>>, t: IndexType)
    requires Maps(mapping, schema) && schema != []
    ensures var front, f := schema[..|schema| - 1], schema[|schema| - 1];
            && Maps(mapping, front)
            && NotAmong(FlaggedSources(schema, mapping, t), others.Of(t))
               == if Missing(f, mapping, others, t)
                  then NotAmong(FlaggedSources(front, mapping, t), others.Of(t)) + [mapping[f.name]]
                  else NotAmong(FlaggedSources(front, mapping, t), others.Of(t))
  {
    FlaggedOfFront(schema, mapping, t);
    AmongWithNext(FlaggedSources(schema[..|schema| - 1], mapping, t), mapping[schema[|schema| - 1].name], others.Of(t));
  }

  lemma {:induction false} DoneMembers(ops: seq<Op>, t: IndexType, x: Source)
    ensures x in Done(ops, t) <==> Op(true, Index(t, x)) in ops
  {
    if ops != [] {
      assert ops == ops[..|ops| - 1] + [ops[|ops| - 1]];
      DoneMembers(ops[..|ops| - 1], t, x);
    }
  }

  /** What operations do to one index that they do not both create and drop. */
  lemma {:induction false} ApplyAllAt(physical: Physical, ops: seq<Op>, index: Index)
    ensures var after := ApplyAll(physical, ops);
            && (Op(false, index) !in ops && (Op(true, index) in ops || (index in physical && physical[index]))
                ==> index in after && after[index])
            && (index in after ==> index in physical || Op(true, index) in ops)
            && (Op(true, index) !in ops && Op(false, index) in ops ==> index !in after)
  {
    if ops != [] {
      assert ops == ops[..|ops| - 1] + [ops[|ops| - 1]];
      ApplyAllAt(physical, ops[..|ops| - 1], index);
    }
  }

  lemma SucceedType(row: Row, physical: Physical, t: IndexType)
    requires RowOk(row) && row.changes.Some? && Maps(row.mapping, row.schema) && TypeOk(row, physical, t)
    ensures var ops := PlanOps(row.changes.value);
            var r := Unlocked(row, DoneBy(ops), false);
            && Maps(r.mapping, r.schema) && TypeOk(r, ApplyAll(physical, ops), t)
            && (TypeExact(row, physical, t) ==> TypeExact(r, ApplyAll(physical, ops), t))
  {
    var changes := row.changes.value.Of(t);
    var ops := PlanOps(row.changes.value);
    forall x ensures x in Done(ops, t) <==> x in changes.add
             ensures Op(true, Index(t, x)) in ops <==> x in changes.add
             ensures Op(false, Index(t, x)) in ops <==> x in changes.drop
    {
      DoneMembers(ops, t, x);
      PlanOpsMembers(row.changes.value, true, Index(t, x));
      PlanOpsMembers(row.changes.value, false, Index(t, x));
    }
    var r := Unlocked(row, DoneBy(ops), false);
    var after := ApplyAll(physical, ops);
    assert r.recorded.Of(t) == row.recorded.Of(t) + Done(ops, t);
    forall x | x in r.recorded.Of(t) ensures Index(t, x) in after && after[Index(t, x)] {
      ApplyAllAt(physical, ops, Index(t, x));
    }
    if TypeExact(row, physical, t) {
      forall x | Index(t, x) in after ensures x in r.recorded.Of(t) {
        ApplyAllAt(physical, ops, Index(t, x));
      }
    }
  }

  lemma InterruptedAt(physical: Physical, ops: seq<Op>, at: nat, left: Option<bool>, index: Index)
    requires at < |ops|
    ensures var after := Interrupted(physical, ops, at, left);
            && (ops[at].index != index && Op(false, index) !in ops
                && (Op(true, index) in ops[..at] || (index in physical && physical[index]))
                ==> index in after && after[index])
            && (index in after ==> index in physical || Op(true, index) in ops || Op(false, index) in ops)
  {
    ApplyAllAt(physical, ops[..at], index);
    assert forall op :: op in ops[..at] ==> op in ops;
    assert ops[at] in ops;
    assert ops[at] == Op(true, ops[at].index) || ops[at] == Op(false, ops[at].index);
  }

  lemma TypeOpsDistinct(t: IndexType, changes: Changes, i: nat, j: nat)
    requires NoDuplicates(changes.add) && i < j < |TypeOps(t, changes)|
    requires TypeOps(t, changes)[i].create && TypeOps(t, changes)[j].create
    ensures TypeOps(t, changes)[i].index != TypeOps(t, changes)[j].index
  {
    assert j < |changes.add|;
  }

  lemma TypeOpsKind(t: IndexType, changes: Changes, i: nat)
    requires i < |TypeOps(t, changes)|
    ensures TypeOps(t, changes)[i].index.kind == t
  {
  }

  lemma PlanOpsDistinct(plan: Plan, i: nat, j: nat)
    requires NoDuplicates(plan.Of(Order).add) && NoDuplicates(plan.Of(Filter).add)
    requires i < j < |PlanOps(plan)| && PlanOps(plan)[i].create && PlanOps(plan)[j].create
    ensures PlanOps(plan)[i].index != PlanOps(plan)[j].index
  {
    var t, u := plan.first, Other(plan.first);
    var a := |TypeOps(t, plan.Of(t))|;
    if j < a {
      TypeOpsDistinct(t, plan.Of(t), i, j);
    } else if i < a {
      TypeOpsKind(t, plan.Of(t), i);
      TypeOpsKind(u, plan.Of(u), j - a);
    } else {
      TypeOpsDistinct(u, plan.Of(u), i - a, j - a);
    }
  }

  /** No operation concerns this index. */
  predicate Untouched(ops: seq<Op>, index: Index) {
    Op(true, index) !in ops && Op(false, index) !in ops
  }

  lemma PlanNeverBoth(row: Row, physical: Physical, index: Index)
    requires row.changes.Some? && Maps(row.mapping, row.schema) && TypeOk(row, physical, index.kind)
    ensures var ops := PlanOps(row.changes.value);
            && !(Op(true, index) in ops && Op(false, index) in ops)
            && (index.source in row.recorded.Of(index.kind) ==> Untouched(ops, index))
  {
    PlanOpsMembers(row.changes.value, true, index);
    PlanOpsMembers(row.changes.value, false, index);
  }

  lemma BrokenIsUnrecorded(row: Row, physical: Physical, at: nat)
    requires row.changes.Some? && Maps(row.mapping, row.schema)
    requires TypeOk(row, physical, Order) && TypeOk(row, physical, Filter)
    requires at < |PlanOps(row.changes.value)|
    ensures var ops := PlanOps(row.changes.value);
            var index := ops[at].index;
            index.source !in row.recorded.Of(index.kind) && index.source !in Done(ops[..at], index.kind)
  {
    var plan := row.changes.value;
    var ops := PlanOps(plan);
    var index := ops[at].index;
    assert ops[at] in ops && (ops[at] == Op(true, index) || ops[at] == Op(false, index));
    assert TypeOk(row, physical, index.kind);
    PlanNeverBoth(row, physical, index);
    DoneMembers(ops[..at], index.kind, index.source);
    if Op(true, index) in ops[..at] {
      var i :| 0 <= i < at && ops[..at][i] == Op(true, index);
      assert ops[i] in ops;
      PlanOpsDistinct(plan, i, at);
    }
  }

  /** What unlocking makes of the records and the flags of one type. */
  lemma UnlockedRow(row: Row, done: PerType<seq<Source>>, rollback: bool, t: IndexType)
    requires RowOk(row) && Maps(row.mapping, row.schema)
    ensures var r := Unlocked(row, done, rollback);
            var flagged := FlaggedSources(row.schema, row.mapping, t);
            && r.mapping == row.mapping && r.changes.None? && Maps(r.mapping, r.schema)
            && r.recorded.Of(t) == row.recorded.Of(t) + done.Of(t)
            && FlaggedSources(r.schema, r.mapping, t) == if rollback then Among(flagged, r.recorded.Of(t)) else flagged
  {
    CleanedFlags(row.schema, row.mapping, Recording(row.recorded, done), t);
  }

  lemma RollbackSettles(recorded: seq<Source>, flagged: seq<Source>)
    requires forall x :: x in recorded ==> x in flagged
    ensures Settled(recorded, Among(flagged, recorded))
  {
    forall x ensures x in recorded <==> x in Among(flagged, recorded) {
      AmongMembers(flagged, recorded, x);
    }
  }

  /** A rollback after any number of operations records what was created and takes back the other flags. */
  lemma FailType(row: Row, physical: Physical, at: nat, left: Option<bool>, t: IndexType)
    requires RowOk(row) && row.changes.Some? && Maps(row.mapping, row.schema)
    requires TypeOk(row, physical, t) && TypeOk(row, physical, Order) && TypeOk(row, physical, Filter)
    requires at < |PlanOps(row.changes.value)|
    ensures var ops := PlanOps(row.changes.value);
            var r := Unlocked(row, DoneBy(ops[..at]), true);
            Maps(r.mapping, r.schema) && TypeOk(r, Interrupted(physical, ops, at, left), t)
  {
    var ops := PlanOps(row.changes.value);
    UnlockedRow(row, DoneBy(ops[..at]), true, t);
    FailedRecords(row, physical, at, left, t);
    RollbackSettles(row.recorded.Of(t) + Done(ops[..at], t), FlaggedSources(row.schema, row.mapping, t));
  }

  lemma FailedRecords(row: Row, physical: Physical, at: nat, left: Option<bool>, t: IndexType)
    requires RowOk(row) && row.changes.Some? && Maps(row.mapping, row.schema)
    requires TypeOk(row, physical, t) && TypeOk(row, physical, Order) && TypeOk(row, physical, Filter)
    requires at < |PlanOps(row.changes.value)|
    ensures var recorded := row.recorded.Of(t) + Done(PlanOps(row.changes.value)[..at], t);
            && (forall x :: x in recorded ==> x in FlaggedSources(row.schema, row.mapping, t))
            && Present(recorded, t, Interrupted(physical, PlanOps(row.changes.value), at, left))
  {
    var recorded := row.recorded.Of(t) + Done(PlanOps(row.changes.value)[..at], t);
    var after := Interrupted(physical, PlanOps(row.changes.value), at, left);
    forall x | x in recorded
      ensures x in FlaggedSources(row.schema, row.mapping, t) && Index(t, x) in after && after[Index(t, x)]
    {
      FailedRecord(row, physical, at, left, t, x);
    }
  }

  lemma FailedRecord(row: Row, physical: Physical, at: nat, left: Option<bool>, t: IndexType, x: Source)
    requires RowOk(row) && row.changes.Some? && Maps(row.mapping, row.schema)
    requires TypeOk(row, physical, t) && TypeOk(row, physical, Order) && TypeOk(row, physical, Filter)
    requires at < |PlanOps(row.changes.value)|
    requires x in row.recorded.Of(t) || x in Done(PlanOps(row.changes.value)[..at], t)
    ensures var after := Interrupted(physical, PlanOps(row.changes.value), at, left);
            && x in FlaggedSources(row.schema, row.mapping, t)
            && Index(t, x) in after && after[Index(t, x)]
  {
    var ops := PlanOps(row.changes.value);
    var index := Index(t, x);
    InterruptedAt(physical, ops, at, left, index);
    PlanNeverBoth(row, physical, index);
    DoneMembers(ops[..at], t, x);
    assert forall op :: op in ops[..at] ==> op in ops;
    PlanOpsMembers(row.changes.value, true, index);
    BrokenIsUnrecorded(row, physical, at);
  }

  lemma {:induction false} ApplyAllUntouched(physical: Physical, ops: seq<Op>, index: Index)
    requires Untouched(ops, index)
    ensures index in ApplyAll(physical, ops) <==> index in physical
  {
    if ops != [] {
      var front, last := ops[..|ops| - 1], ops[|ops| - 1];
      assert ops == front + [last] && last in ops;
      assert last == Op(true, last.index) || last == Op(false, last.index);
      ApplyAllUntouched(physical, front, index);
    }
  }

  /** What the operations before the broken one do to another index, and whether it is then recorded. */
  lemma PassedOver(row: Row, physical: Physical, at: nat, index: Index)
    requires row.changes.Some? && Maps(row.mapping, row.schema) && TypeOk(row, physical, index.kind)
    requires at < |PlanOps(row.changes.value)|
    ensures var ops := PlanOps(row.changes.value);
            var recorded := index.source in row.recorded.Of(index.kind) || index.source in Done(ops[..at], index.kind);
            (index in ApplyAll(physical, ops[..at]) && !recorded)
            <==> (index in physical && Untouched(ops[..at], index) && index.source !in row.recorded.Of(index.kind))
  {
    var ops := PlanOps(row.changes.value);
    assert forall op :: op in ops[..at] ==> op in ops;
    PlanNeverBoth(row, physical, index);
    DoneMembers(ops[..at], index.kind, index.source);
    assert Index(index.kind, index.source) == index;
    if Untouched(ops[..at], index) {
      ApplyAllUntouched(physical, ops[..at], index);
    } else if Op(true, index) !in ops[..at] {
      ApplyAllAt(physical, ops[..at], index);
    }
  }

  lemma RecordedAfter(row: Row, ops: seq<Op>, index: Index)
    requires RowOk(row)
    ensures index.source in Unlocked(row, DoneBy(ops), true).recorded.Of(index.kind)
            <==> index.source in row.recorded.Of(index.kind) || index.source in Done(ops, index.kind)
  {
  }

  lemma InterruptedMembers(physical: Physical, ops: seq<Op>, at: nat, left: Option<bool>, index: Index)
    requires at < |ops|
    ensures index in Interrupted(physical, ops, at, left)
            <==> if index == ops[at].index then left.Some? else index in ApplyAll(physical, ops[..at])
  {
  }

  /** The index exists although the class does not record it. */
  predicate Stray(row: Row, physical: Physical, index: Index) {
    index in physical && index.source !in row.recorded.Of(index.kind)
  }

  /**
    After a failed operation exactly these indexes exist unrecorded: the one it concerned, if the failure left it
    there, and those that existed unrecorded before and were not reached by the operations that ran.
   */
  lemma FailLeavesExactly(row: Row, physical: Physical, at: nat, left: Option<bool>, index: Index)
    requires RowOk(row) && row.changes.Some? && Maps(row.mapping, row.schema)
    requires TypeOk(row, physical, Order) && TypeOk(row, physical, Filter)
    requires at < |PlanOps(row.changes.value)|
    ensures var ops := PlanOps(row.changes.value);
            Stray(Unlocked(row, DoneBy(ops[..at]), true), Interrupted(physical, ops, at, left), index)
            <==> if index == ops[at].index then left.Some? else Stray(row, physical, index) && Untouched(ops[..at], index)
  {
    var ops := PlanOps(row.changes.value);
    RecordedAfter(row, ops[..at], index);
    StrayAfter(row, physical, at, left, index);
  }

  lemma StrayAfter(row: Row, physical: Physical, at: nat, left: Option<bool>, index: Index)
    requires row.changes.Some? && Maps(row.mapping, row.schema)
    requires TypeOk(row, physical, Order) && TypeOk(row, physical, Filter)
    requires at < |PlanOps(row.changes.value)|
    ensures var ops := PlanOps(row.changes.value);
            var recorded := index.source in row.recorded.Of(index.kind) || index.source in Done(ops[..at], index.kind);
            index in Interrupted(physical, ops, at, left) && !recorded
            <==> if index == ops[at].index then left.Some? else Stray(row, physical, index) && Untouched(ops[..at], index)
  {
    var ops := PlanOps(row.changes.value);
    InterruptedMembers(physical, ops, at, left, index);
    assert TypeOk(row, physical, index.kind);
    if index == ops[at].index {
      BrokenIsUnrecorded(row, physical, at);
    } else {
      PassedOver(row, physical, at, index);
    }
  }

  /** If there were no others before, all of them are indexes that the plan was still to create or drop. */
  lemma FailStraysArePlanned(s: State, at: nat, left: Option<bool>, index: Index)
    requires SourcesOk(s) && IndexesOk(s) && IndexesExact(s) && Possible(s, Fail(at, left))
    ensures var ops := PlanOps(s.row.changes.value);
            var t := Step(s, Fail(at, left));
            Stray(t.row, t.physical, index)
            <==> (if index == ops[at].index then left.Some?
                  else index in s.physical && Untouched(ops[..at], index) && !Untouched(ops[at + 1..], index))
  {
    var plan := s.row.changes.value;
    var ops := PlanOps(plan);
    assert TypeOk(s.row, s.physical, Order) && TypeOk(s.row, s.physical, Filter) && TypeOk(s.row, s.physical, index.kind);
    FailLeavesExactly(s.row, s.physical, at, left, index);
    if index != ops[at].index {
      if Untouched(ops[..at], index) {
        PlannedLater(ops, at, index);
      }
      PlanOpsMembers(plan, true, index);
      PlanOpsMembers(plan, false, index);
      PlanNeverBoth(s.row, s.physical, index);
      assert TypeExact(s.row, s.physical, index.kind);
      assert Index(index.kind, index.source) == index;
    }
  }

  lemma PlannedLater(ops: seq<Op>, at: nat, index: Index)
    requires at < |ops| && ops[at].index != index && Untouched(ops[..at], index)
    ensures Untouched(ops[at + 1..], index) <==> Untouched(ops, index)
  {
    SplitAt(ops, at);
  }

  lemma SameRecords(row: Row, r: Row, physical: Physical, t: IndexType)
    requires row.changes.None? && Maps(row.mapping, row.schema) && TypeOk(row, physical, t)
    requires r.changes.None? && Maps(r.mapping, r.schema)
    requires forall x :: x in r.recorded.Of(t) <==> x in row.recorded.Of(t)
    requires Settled(r.recorded.Of(t), FlaggedSources(r.schema, r.mapping, t))
    ensures TypeOk(r, physical, t) && (TypeExact(row, physical, t) ==> TypeExact(r, physical, t))
  {
  }

  lemma UnlockedTwice(row: Row, done: PerType<seq<Source>>, t: IndexType)
    requires RowOk(row) && Maps(row.mapping, row.schema)
    requires Settled(row.recorded.Of(t), FlaggedSources(row.schema, row.mapping, t))
    requires forall x :: x in done.Of(t) ==> x in row.recorded.Of(t)
    ensures var r := Unlocked(row, done, true);
            && Maps(r.mapping, r.schema)
            && (forall x :: x in r.recorded.Of(t) <==> x in row.recorded.Of(t))
            && Settled(r.recorded.Of(t), FlaggedSources(r.schema, r.mapping, t))
  {
    UnlockedRow(row, done, true, t);
    StaysSettled(row.recorded.Of(t), done.Of(t), FlaggedSources(row.schema, row.mapping, t));
  }

  lemma StaysSettled(recorded: seq<Source>, done: seq<Source>, flagged: seq<Source>)
    requires Settled(recorded, flagged) && forall x :: x in done ==> x in recorded
    ensures forall x :: x in recorded + done <==> x in recorded
    ensures Settled(recorded + done, Among(flagged, recorded + done))
  {
    RollbackSettles(recorded + done, flagged);
  }

  /** Unlocking again, with a rollback, changes nothing that matters. */
  lemma UnlockedTwiceType(row: Row, physical: Physical, done: PerType<seq<Source>>, t: IndexType)
    requires RowOk(row) && row.changes.None? && Maps(row.mapping, row.schema) && TypeOk(row, physical, t)
    requires forall x :: x in done.Of(t) ==> x in row.recorded.Of(t)
    ensures var r := Unlocked(row, done, true);
            && Maps(r.mapping, r.schema) && TypeOk(r, physical, t)
            && (TypeExact(row, physical, t) ==> TypeExact(r, physical, t))
  {
    UnlockedTwice(row, done, t);
    SameRecords(row, Unlocked(row, done, true), physical, t);
  }

  lemma FailToSaveType(row: Row, physical: Physical, t: IndexType)
    requires RowOk(row) && row.changes.Some? && Maps(row.mapping, row.schema) && TypeOk(row, physical, t)
    ensures var ops := PlanOps(row.changes.value);
            var r := Unlocked(Unlocked(row, DoneBy(ops), false), DoneBy(ops), true);
            && Maps(r.mapping, r.schema) && TypeOk(r, ApplyAll(physical, ops), t)
            && (TypeExact(row, physical, t) ==> TypeExact(r, ApplyAll(physical, ops), t))
  {
    var ops := PlanOps(row.changes.value);
    SucceedType(row, physical, t);
    var u := Unlocked(row, DoneBy(ops), false);
    assert u.recorded.Of(t) == row.recorded.Of(t) + DoneBy(ops).Of(t);
    UnlockedTwiceType(u, ApplyAll(physical, ops), DoneBy(ops), t);
  }

  lemma DieType(row: Row, physical: Physical, at: nat, left: Option<bool>, t: IndexType)
    requires RowOk(row) && row.changes.Some? && Maps(row.mapping, row.schema)
    requires TypeOk(row, physical, t) && TypeOk(row, physical, Order) && TypeOk(row, physical, Filter)
    requires at < |PlanOps(row.changes.value)|
    ensures var after := Interrupted(physical, PlanOps(row.changes.value), at, left);
            TypeOk(row, after, t) && (TypeExact(row, physical, t) ==> TypeExact(row, after, t))
  {
    var plan := row.changes.value;
    var ops := PlanOps(plan);
    var after := Interrupted(physical, ops, at, left);
    forall x | x in row.recorded.Of(t) ensures Index(t, x) in after && after[Index(t, x)] {
      FailedRecord(row, physical, at, left, t, x);
    }
    if TypeExact(row, physical, t) {
      forall x | Index(t, x) in after
        ensures x in row.recorded.Of(t) || x in plan.Of(t).add || x in plan.Of(t).drop
      {
        InterruptedAt(physical, ops, at, left, Index(t, x));
        PlanOpsMembers(plan, true, Index(t, x));
        PlanOpsMembers(plan, false, Index(t, x));
      }
    }
  }

  lemma EditType(s: State, schema: seq<Field>, t: IndexType)
    requires SourcesOk(s) && IndexesOk(s) && DistinctNames(schema)
    ensures var r := Step(s, Edit(schema));
            && Maps(r.row.mapping, r.row.schema) && TypeOk(r.row, r.physical, t)
            && (TypeExact(s.row, s.physical, t) ==> TypeExact(r.row, r.physical, t))
  {
    assert TypeOk(s.row, s.physical, t);
    if s.row.changes.None? && schema != s.row.schema {
      EditKeepsSources(s, schema);
      SourcesOkInjective(Step(s, Edit(schema)));
      MigratedType(s.row, schema, s.row.revision + 1, s.physical, t);
    }
  }

  lemma StepKeepsIndexes(s: State, a: Action)
    requires SourcesOk(s) && IndexesOk(s) && Possible(s, a)
    ensures IndexesOk(Step(s, a))
    ensures IndexesExact(s) && !a.Fail? ==> IndexesExact(Step(s, a))
  {
    var r := Step(s, a);
    forall t: IndexType
      ensures Maps(r.row.mapping, r.row.schema) && TypeOk(r.row, r.physical, t)
      ensures TypeExact(s.row, s.physical, t) && !a.Fail? ==> TypeExact(r.row, r.physical, t)
    {
      StepKeepsType(s, a, t);
    }
    assert Maps(r.row.mapping, r.row.schema) by {
      StepKeepsType(s, a, Order);
    }
    if IndexesExact(s) && !a.Fail? {
      forall t: IndexType ensures TypeExact(r.row, r.physical, t) {
        assert TypeExact(s.row, s.physical, t);
      }
    }
  }

  lemma StepKeepsType(s: State, a: Action, t: IndexType)
    requires SourcesOk(s) && IndexesOk(s) && Possible(s, a)
    ensures var r := Step(s, a);
            && Maps(r.row.mapping, r.row.schema) && TypeOk(r.row, r.physical, t)
            && (TypeExact(s.row, s.physical, t) && !a.Fail? ==> TypeExact(r.row, r.physical, t))
  {
    assert TypeOk(s.row, s.physical, t) && TypeOk(s.row, s.physical, Order) && TypeOk(s.row, s.physical, Filter);
    match a
    case Edit(schema) => EditType(s, schema, t);
    case Succeed => SucceedType(s.row, s.physical, t);
    case FailToSave => FailToSaveType(s.row, s.physical, t);
    case Fail(at, left) => FailType(s.row, s.physical, at, left, t);
    case Die(at, left) => DieType(s.row, s.physical, at, left, t);
  }

  /** No operation of any index task reports a failure; workers may still die and saves may still fail. */
  predicate FailureFree(run: seq<Action>) {
    forall i :: 0 <= i < |run| ==> !run[i].Fail?
  }

  lemma {:induction false} RunKeepsIndexes(s: State, run: seq<Action>)
    requires SourcesOk(s) && IndexesOk(s) && IsRun(s, run)
    ensures IndexesOk(Execute(s, run))
    ensures IndexesExact(s) && FailureFree(run) ==> IndexesExact(Execute(s, run))
    decreases |run|
  {
    if run != [] {
      StepKeepsSources(s, run[0]);
      StepKeepsIndexes(s, run[0]);
      RunKeepsIndexes(Step(s, run[0]), run[1..]);
      if FailureFree(run) {
        assert !run[0].Fail?;
        assert forall i :: 0 <= i < |run[1..]| ==> run[1..][i] == run[i + 1];
      }
    }
  }

  lemma InitIndexesOk(schema: seq<Field>)
    requires DistinctNames(schema)
    ensures IndexesOk(Init(schema)) && IndexesExact(Init(schema))
  {
    InitSourcesOk(schema);
    SourcesOkInjective(Init(schema));
    assert Maps(map[], []);
    forall t: IndexType
      ensures Maps(Created(schema).mapping, schema) && TypeOk(Created(schema), map[], t) && TypeExact(Created(schema), map[], t)
    {
      assert TypeOk(NO_ROW, map[], t);
      assert TypeExact(NO_ROW, map[], t);
      MigratedType(NO_ROW, schema, 1, map[], t);
    }
    assert Maps(Created(schema).mapping, schema) by {
      RowMaps(Created(schema));
    }
  }

  /**
    Over every run of edits and index tasks: whenever the class is unlocked, the recorded indexes are exactly the ones
    that its schema flags, and each of them exists and is valid; if no operation ever failed there are no others.
   */
  lemma UnlockedIndexesAgree(schema: seq<Field>, run: seq<Action>, t: IndexType, x: Source)
    requires DistinctNames(schema) && IsRun(Init(schema), run)
    requires Execute(Init(schema), run).row.changes.None?
    ensures var s := Execute(Init(schema), run);
            && Maps(s.row.mapping, s.row.schema)
            && (x in s.row.recorded.Of(t) <==> x in FlaggedSources(s.row.schema, s.row.mapping, t))
            && (x in s.row.recorded.Of(t) ==> Index(t, x) in s.physical && s.physical[Index(t, x)])
            && (FailureFree(run) && Index(t, x) in s.physical ==> x in s.row.recorded.Of(t))
  {
    InitSourcesOk(schema);
    InitIndexesOk(schema);
    RunKeepsIndexes(Init(schema), run);
    var s := Execute(Init(schema), run);
    assert TypeOk(s.row, s.physical, t);
    if FailureFree(run) {
      assert TypeExact(s.row, s.physical, t);
    }
  }
}
