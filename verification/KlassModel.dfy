/**
  The class object and the index task as they run: loops over fields and index operations that update the row and the
  database in place, proved to make exactly the steps of the migration model.
 */
module KlassModel {
  import opened Prelude
  import opened KlassSchema
  import opened KlassMigration

  lemma DoneWithNext(ops: seq<Op>, i: nat)
    requires i < |ops|
    ensures var done := DoneBy(ops[..i]);
            var kind := ops[i].index.kind;
            DoneBy(ops[..i + 1]) == if ops[i].create then done.With(kind, done.Of(kind) + [ops[i].index.source]) else done
  {
    assert ops[..i + 1][..i] == ops[..i] && ops[..i + 1][i] == ops[i];
    assert Done(ops[..i], Order) + [] == Done(ops[..i], Order);
    assert Done(ops[..i], Filter) + [] == Done(ops[..i], Filter);
  }

  /** The flagged sources of a schema, with one field more. */
  lemma FlaggedWithNext(schema: seq<Field>, mapping: Mapping, t: IndexType, i: nat)
    requires Maps(mapping, schema) && i < |schema|
    ensures var before := FlaggedSources(schema[..i], mapping, t);
            FlaggedSources(schema[..i + 1], mapping, t)
            == if Flagged(schema[i], t) then before + [mapping[schema[i].name]] else before
  {
    assert schema[..i + 1][..i] == schema[..i] && schema[..i + 1][i] == schema[i];
    NothingAdded(FlaggedSources(schema[..i], mapping, t));
  }

  /** What the scan of the new schema has found for one type of index. */
  datatype Scan = Scan(add: seq<Source>, kept: seq<Source>, indexed: set<Source>)

  ghost predicate ScanOk(scan: Scan, flagged: seq<Source>, recorded: seq<Source>) {
    && scan.add == NotAmong(flagged, recorded) && scan.kept == Among(flagged, recorded)
    && forall x :: x in scan.indexed <==> x in flagged
  }

  lemma FirstMissingWithNext(schema: seq<Field>, mapping: Mapping, others: PerType<seq<Source>>, i: nat)
    requires Maps(mapping, schema) && i < |schema|
    ensures var before := FirstMissing(schema[..i], mapping, others);
            FirstMissing(schema[..i + 1], mapping, others)
            == if before.Some? then before
               else if Missing(schema[i], mapping, others, Order) then Some(Order)
               else if Missing(schema[i], mapping, others, Filter) then Some(Filter)
               else None
  {
    assert schema[..i + 1][..i] == schema[..i] && schema[..i + 1][i] == schema[i];
  }

  function Noted(scan: Scan, source: Source, recorded: seq<Source>): Scan {
    var indexed := scan.indexed + {source};
    if source in recorded then scan.(kept := scan.kept + [source], indexed := indexed)
    else scan.(add := scan.add + [source], indexed := indexed)
  }

  lemma NotedOk(scan: Scan, flagged: seq<Source>, source: Source, recorded: seq<Source>)
    requires ScanOk(scan, flagged, recorded)
    ensures ScanOk(Noted(scan, source, recorded), flagged + [source], recorded)
  {
    AmongWithNext(flagged, source, recorded);
  }

  /** Notes one field of the new schema for one type of index. */
  method ScanField(t: IndexType, schema: seq<Field>, mapping: Mapping, i: nat, recorded: seq<Source>, before: Scan)
    returns (scan: Scan, missing: bool)
    requires Maps(mapping, schema) && i < |schema|
    requires ScanOk(before, FlaggedSources(schema[..i], mapping, t), recorded)
    ensures ScanOk(scan, FlaggedSources(schema[..i + 1], mapping, t), recorded)
    ensures missing == (Flagged(schema[i], t) && mapping[schema[i].name] !in recorded)
  {
    scan, missing := before, false;
    FlaggedWithNext(schema, mapping, t, i);
    if Flagged(schema[i], t) {
      var source := mapping[schema[i].name];
      NotedOk(before, FlaggedSources(schema[..i], mapping, t), source, recorded);
      scan, missing := Noted(before, source, recorded), source !in recorded;
    }
  }

  function FirstOf(first: Option<IndexType>, missing: bool, t: IndexType): Option<IndexType> {
    if missing && first.None? then Some(t) else first
  }

  /** Looks for the flagged fields of the new schema whose index is not recorded, and which type comes first. */
  method ScanNew(recorded: PerType<seq<Source>>, schema: seq<Field>, mapping: Mapping)
    returns (order: Scan, filter: Scan, first: Option<IndexType>)
    requires Maps(mapping, schema)
    ensures ScanOk(order, FlaggedSources(schema, mapping, Order), recorded.order)
    ensures ScanOk(filter, FlaggedSources(schema, mapping, Filter), recorded.filter)
    ensures first == FirstMissing(schema, mapping, recorded)
  {
    order, filter, first := Scan([], [], {}), Scan([], [], {}), None;
    var missing := false;
    for i := 0 to |schema|
      invariant ScanOk(order, FlaggedSources(schema[..i], mapping, Order), recorded.order)
      invariant ScanOk(filter, FlaggedSources(schema[..i], mapping, Filter), recorded.filter)
      invariant first == FirstMissing(schema[..i], mapping, recorded)
    {
      FirstMissingWithNext(schema, mapping, recorded, i);
      order, missing := ScanField(Order, schema, mapping, i, recorded.order, order);
      first := FirstOf(first, missing, Order);
      filter, missing := ScanField(Filter, schema, mapping, i, recorded.filter, filter);
      first := FirstOf(first, missing, Filter);
    }
    assert schema[..|schema|] == schema;
  }

  /** Notes one field of the old schema for one type of index. */
  method DropField(t: IndexType, schema: seq<Field>, mapping: Mapping, i: nat, indexed: set<Source>,
                   ghost after: seq<Source>, before: seq<Source>)
    returns (drop: seq<Source>, missing: bool)
    requires Maps(mapping, schema) && i < |schema|
    requires forall x :: x in indexed <==> x in after
    requires before == NotAmong(FlaggedSources(schema[..i], mapping, t), after)
    ensures drop == NotAmong(FlaggedSources(schema[..i + 1], mapping, t), after)
    ensures missing == (Flagged(schema[i], t) && mapping[schema[i].name] !in after)
  {
    drop, missing := before, false;
    FlaggedWithNext(schema, mapping, t, i);
    if Flagged(schema[i], t) {
      var source := mapping[schema[i].name];
      AmongWithNext(FlaggedSources(schema[..i], mapping, t), source, after);
      if source !in indexed {
        drop, missing := drop + [source], true;
      }
    }
  }

  /** Looks for the flagged fields of the old schema whose index is no longer wanted. */
  method ScanOld(indexed: PerType<set<Source>>, ghost after: PerType<seq<Source>>, schema: seq<Field>, mapping: Mapping)
    returns (order: seq<Source>, filter: seq<Source>, first: Option<IndexType>)
    requires Maps(mapping, schema)
    requires forall x :: x in indexed.order <==> x in after.order
    requires forall x :: x in indexed.filter <==> x in after.filter
    ensures order == NotAmong(FlaggedSources(schema, mapping, Order), after.order)
    ensures filter == NotAmong(FlaggedSources(schema, mapping, Filter), after.filter)
    ensures first == FirstMissing(schema, mapping, after)
  {
    order, filter, first := [], [], None;
    var missing := false;
    for i := 0 to |schema|
      invariant order == NotAmong(FlaggedSources(schema[..i], mapping, Order), after.order)
      invariant filter == NotAmong(FlaggedSources(schema[..i], mapping, Filter), after.filter)
      invariant first == FirstMissing(schema[..i], mapping, after)
    {
      FirstMissingWithNext(schema, mapping, after, i);
      order, missing := DropField(Order, schema, mapping, i, indexed.order, after.order, order);
      first := FirstOf(first, missing, Order);
      filter, missing := DropField(Filter, schema, mapping, i, indexed.filter, after.filter, filter);
      first := FirstOf(first, missing, Filter);
    }
    assert schema[..|schema|] == schema;
  }

  /** The index diff of a schema edit; the plan lists the types in the order in which the scans come upon them. */
  method ProcessIndexChanges(recorded: PerType<seq<Source>>, oldSchema: seq<Field>, schema: seq<Field>,
                             oldMapping: Mapping, mapping: Mapping)
    returns (plan: Plan, kept: PerType<seq<Source>>)
    requires Maps(oldMapping, oldSchema) && Maps(mapping, schema)
    ensures plan == PlanFor(recorded, oldSchema, schema, oldMapping, mapping)
    ensures kept == KeptFor(recorded, schema, mapping)
  {
    var order, filter, first := ScanNew(recorded, schema, mapping);
    var dropOrder, dropFilter, firstDropped :=
      ScanOld(PerType(order.indexed, filter.indexed), AllFlagged(schema, mapping), oldSchema, oldMapping);
    if first.None? {
      first := firstDropped;
    }
    plan := Plan(PerType(Changes(order.add, dropOrder), Changes(filter.add, dropFilter)),
                 if first.Some? then first.value else Order);
    kept := PerType(order.kept, filter.kept);
  }

  class Klass {
    var revision: nat
    var schema: seq<Field>
    /** The schema as change tracking last saw it. The tracker keeps the very list of the row, not a copy of it. */
    var tracked: seq<Field>
    var mapping: Mapping
    var recorded: PerType<seq<Source>>
    var changes: Option<Plan>

    function Value(): Row
      reads this
    {
      Row(revision, schema, mapping, recorded, changes)
    }

    ghost predicate Valid()
      reads this
    {
      RowOk(Value()) && tracked == schema
    }

    method ProcessMapping(oldSchema: seq<Field>, newSchema: seq<Field>) returns (m: Mapping)
      requires DistinctNames(newSchema) && mapping.Keys == Names(oldSchema)
      ensures m == MappingFor(newSchema, oldSchema, mapping, revision)
    {
      m := map[];
      for i := 0 to |newSchema|
        invariant m == MappingFor(newSchema[..i], oldSchema, mapping, revision)
      {
        var f := newSchema[i];
        assert newSchema[..i + 1][..i] == newSchema[..i] && newSchema[..i + 1][i] == f;
        var source: Option<Source> := None;
        if f.name in mapping {
          LookupFinds(oldSchema, f.name);
          var former := Lookup(oldSchema, f.name).value;
          if f.kind == former.kind && f.setup == former.setup {
            source := Some(mapping[f.name]);
          }
        }
        if source.None? {
          source := Some(SourceName(revision, f.name));
        }
        m := m[f.name := source.value];
      }
      assert newSchema[..|newSchema|] == newSchema;
    }

    /** The part of a save that new and changed schemas go through. */
    method Migrate(oldSchema: seq<Field>, newSchema: seq<Field>, newRevision: nat)
      requires DistinctNames(oldSchema) && mapping.Keys == Names(oldSchema) && DistinctNames(newSchema)
      modifies this
      ensures var before := Row(old(revision), oldSchema, old(mapping), old(recorded), old(changes));
              RowOk(before) && Value() == Migrated(before, newSchema, newRevision)
      ensures Valid()
    {
      ghost var before := Row(revision, oldSchema, mapping, recorded, changes);
      RowMaps(before);
      revision := newRevision;
      var oldMapping := mapping;
      var newMapping := ProcessMapping(oldSchema, newSchema);
      assert newMapping == Remapped(before, newSchema, newRevision);
      schema, mapping := newSchema, newMapping;
      var plan, kept := ProcessIndexChanges(recorded, oldSchema, newSchema, oldMapping, newMapping);
      if plan.changes != NO_CHANGES {
        changes := Some(plan);
        recorded := kept;
      }
      tracked := schema;
    }

    constructor (newSchema: seq<Field>)
      requires DistinctNames(newSchema)
      ensures Valid() && Value() == Created(newSchema)
    {
      revision, schema, tracked, mapping := 1, [], [], map[];
      recorded, changes := NOTHING_RECORDED, None;
      new;
      Migrate([], newSchema, 1);
    }

    /** An edit is validated and saved; a schema equal to the tracked one saves no migration. */
    method Edit(newSchema: seq<Field>) returns (r: Result<(), Refusal>)
      requires Valid() && DistinctNames(newSchema)
      modifies this
      ensures Valid()
      ensures r == (if Edited(old(Value()), newSchema).Success? then Success(()) else Failure(Locked))
      ensures Value() == (var e := Edited(old(Value()), newSchema); if e.Success? then e.value else old(Value()))
    {
      if changes.Some? {
        return Failure(Locked);
      }
      if newSchema != tracked {
        Migrate(tracked, newSchema, revision + 1);
      }
      r := Success(());
    }

    method CleanupField(f: Field) returns (g: Field)
      requires f.name in mapping
      ensures g == Cleaned(f, mapping, recorded)
    {
      g := f;
      if Flagged(g, Order) && mapping[g.name] !in recorded.order {
        g := g.(order := None);
      }
      if Flagged(g, Filter) && mapping[g.name] !in recorded.filter {
        g := g.(filter := None, unique := None);
      }
    }

    /** The flags of the row's own list are removed in place, so the tracked schema changes with it. */
    method CleanupSchema()
      requires Valid()
      modifies this`schema, this`tracked
      ensures Maps(mapping, old(schema)) && schema == CleanedSchema(old(schema), mapping, recorded)
      ensures Valid()
    {
      ghost var before := schema;
      RowMaps(Value());
      for i := 0 to |schema|
        invariant |schema| == |before| && tracked == schema
        invariant forall j :: 0 <= j < i ==> schema[j] == Cleaned(before[j], mapping, recorded)
        invariant forall j :: i <= j < |schema| ==> schema[j] == before[j]
      {
        var f := CleanupField(schema[i]);
        schema := schema[i := f];
        tracked := schema;
      }
      assert schema == CleanedSchema(before, mapping, recorded);
      SameNames(schema, before);
    }

    /** Saves nothing more than the unlocked row: the tracker sees no change of schema, so no migration follows. */
    method Unlock(done: PerType<seq<Source>>, rollback: bool)
      requires Valid()
      modifies this
      ensures Valid() && Value() == Unlocked(old(Value()), done, rollback)
    {
      RowMaps(Value());
      recorded := Recording(recorded, done);
      changes := None;
      if rollback {
        CleanupSchema();
      }
    }
  }

  /** How an index task ends, other than by finishing. */
  datatype Fault = NoFault | Broken(at: nat, left: Option<bool>) | SaveLost

  class Database {
    var physical: Physical

    constructor ()
      ensures physical == map[]
    {
      physical := map[];
    }

    method ProcessIndex(op: Op)
      modifies this
      ensures physical == Apply(old(physical), op)
    {
      if op.create {
        if op.index in physical {
          if physical[op.index] {
            assert physical == physical[op.index := true];
            return;
          }
          physical := physical - {op.index};
        }
        physical := physical[op.index := true];
      } else {
        physical := physical - {op.index};
      }
    }

    /** Runs the operations up to the one that breaks, if any, and tells which indexes were created. */
    method ProcessIndexes(ops: seq<Op>, fault: Fault) returns (done: PerType<seq<Source>>, ok: bool)
      requires fault.Broken? ==> fault.at < |ops|
      modifies this
      ensures ok == !fault.Broken?
      ensures done == DoneBy(if ok then ops else ops[..fault.at])
      ensures physical == if ok then ApplyAll(old(physical), ops) else Interrupted(old(physical), ops, fault.at, fault.left)
    {
      ghost var before := physical;
      done := NOTHING_RECORDED;
      for i := 0 to |ops|
        invariant fault.Broken? ==> i <= fault.at
        invariant done == DoneBy(ops[..i])
        invariant physical == ApplyAll(before, ops[..i])
      {
        var op := ops[i];
        if fault.Broken? && fault.at == i {
          physical := Leave(physical, op.index, fault.left);
          return done, false;
        }
        assert ops[..i + 1][..i] == ops[..i];
        DoneWithNext(ops, i);
        ProcessIndex(op);
        if op.create {
          done := done.With(op.index.kind, done.Of(op.index.kind) + [op.index.source]);
        }
      }
      assert ops[..|ops|] == ops;
      ok := true;
    }
  }

  /** The index task on a locked class: unlock on success, unlock and roll back on any exception. */
  method RunIndexTask(klass: Klass, db: Database, fault: Fault)
    requires klass.Valid() && klass.changes.Some?
    requires fault.Broken? ==> fault.at < |PlanOps(klass.changes.value)|
    modifies klass, db
    ensures klass.Valid()
    ensures var s := State(old(klass.Value()), old(db.physical), map[]);
            var a := match fault case NoFault => Succeed case SaveLost => FailToSave case Broken(at, left) => Fail(at, left);
            State(klass.Value(), db.physical, map[]) == Step(s, a)
  {
    var ops := PlanOps(klass.changes.value);
    var done, ok := db.ProcessIndexes(ops, fault);
    if ok {
      klass.Unlock(done, false);
      if fault.SaveLost? {
        klass.Unlock(done, true);
      }
    } else {
      klass.Unlock(done, true);
    }
  }
}
