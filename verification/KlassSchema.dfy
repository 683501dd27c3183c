/**
  Class schemas: field definitions, the storage source of each field, and the index changes that a schema edit asks
  for. Names of one schema are distinct, as its validator demands.
 */
module KlassSchema {
  import opened Prelude

  datatype IndexType = Order | Filter

  /** A key that is absent from the definition is None; `setup` holds the settings that are not about indexes. */
  datatype Field = Field(name: string, kind: string, setup: map<string, string>,
                         order: Option<bool>, filter: Option<bool>, unique: Option<bool>)

  /** What the stored data of a field depends on. */
  datatype Definition = Definition(name: string, kind: string, setup: map<string, string>)

  type Source = string

  type Mapping = map<string, Source>

  datatype PerType<T> = PerType(order: T, filter: T) {
    function Of(t: IndexType): T {
      if t == Order then order else filter
    }

    function With(t: IndexType, x: T): PerType<T> {
      if t == Order then this.(order := x) else this.(filter := x)
    }
  }

  datatype Changes = Changes(add: seq<Source>, drop: seq<Source>)

  function DefinitionOf(f: Field): Definition {
    Definition(f.name, f.kind, f.setup)
  }

  predicate Flagged(f: Field, t: IndexType) {
    var flag := if t == Order then f.order else f.filter;
    flag.Some? && flag.value
  }

  predicate DistinctNames(schema: seq<Field>) {
    forall i, j :: 0 <= i < j < |schema| ==> schema[i].name != schema[j].name
  }

  function Names(schema: seq<Field>): set<string> {
    set i | 0 <= i < |schema| :: schema[i].name
  }

  // ------------------------------------------------------------------ names of sources

  function Digit(d: nat): char
    requires d < 10
  {
    '0' + d as char
  }

  function Decimal(n: nat): string {
    if n < 10 then [Digit(n)] else Decimal(n / 10) + [Digit(n % 10)]
  }

  function SourceName(revision: nat, name: string): Source {
    Decimal(revision) + "_" + name
  }

  lemma {:induction false} DecimalHasNoUnderscore(n: nat)
    ensures forall i :: 0 <= i < |Decimal(n)| ==> Decimal(n)[i] != '_'
  {
    if n >= 10 { DecimalHasNoUnderscore(n / 10); }
  }

  lemma {:induction false} DecimalInjective(m: nat, n: nat)
    requires Decimal(m) == Decimal(n)
    ensures m == n
  {
    var a, b := Decimal(m), Decimal(n);
    assert a[|a| - 1] == b[|b| - 1];
    if m >= 10 && n >= 10 {
      assert a[..|a| - 1] == Decimal(m / 10) && b[..|b| - 1] == Decimal(n / 10);
      DecimalInjective(m / 10, n / 10);
    }
  }

  /** The revision and the field can be read off a source. */
  lemma SourceNameInjective(r: nat, m: string, s: nat, n: string)
    requires SourceName(r, m) == SourceName(s, n)
    ensures r == s && m == n
  {
    var a, b := Decimal(r), Decimal(s);
    var x := SourceName(r, m);
    DecimalHasNoUnderscore(r);
    DecimalHasNoUnderscore(s);
    assert x[..|a|] == a && x[|a|] == '_' && x[|a| + 1..] == m;
    assert x == SourceName(s, n) && x[..|b|] == b && x[|b|] == '_' && x[|b| + 1..] == n;
    assert |a| == |b|;
    DecimalInjective(r, s);
  }

  // ------------------------------------------------------------------ the mapping of fields to sources

  function Lookup(schema: seq<Field>, name: string): Option<Field> {
    if schema == [] then None
    else if schema[|schema| - 1].name == name then Some(schema[|schema| - 1])
    else Lookup(schema[..|schema| - 1], name)
  }

  lemma {:induction false} LookupFinds(schema: seq<Field>, name: string)
    ensures name in Names(schema) <==> Lookup(schema, name).Some?
    ensures Lookup(schema, name).Some? ==> Lookup(schema, name).value in schema && Lookup(schema, name).value.name == name
    ensures DistinctNames(schema) ==>
              forall i :: 0 <= i < |schema| && schema[i].name == name ==> Lookup(schema, name) == Some(schema[i])
  {
    if schema != [] {
      var front := schema[..|schema| - 1];
      assert schema == front + [schema[|schema| - 1]];
      LookupFinds(front, name);
      assert forall n :: n in Names(schema) <==> n in Names(front) || n == schema[|schema| - 1].name;
    }
  }

  /** A field keeps its source while its type and its settings other than indexes stay the same. */
  function SourceFor(f: Field, oldSchema: seq<Field>, oldMapping: Mapping, revision: nat): Source {
    if f.name in oldMapping && Lookup(oldSchema, f.name).Some?
       && Lookup(oldSchema, f.name).value.kind == f.kind && Lookup(oldSchema, f.name).value.setup == f.setup
    then oldMapping[f.name]
    else SourceName(revision, f.name)
  }

  function MappingFor(schema: seq<Field>, oldSchema: seq<Field>, oldMapping: Mapping, revision: nat): Mapping {
    if schema == [] then map[]
    else
      var f := schema[|schema| - 1];
      MappingFor(schema[..|schema| - 1], oldSchema, oldMapping, revision)
        [f.name := SourceFor(f, oldSchema, oldMapping, revision)]
  }

  lemma {:induction false} MappingForEach(schema: seq<Field>, oldSchema: seq<Field>, oldMapping: Mapping, revision: nat)
    requires DistinctNames(schema)
    ensures var m := MappingFor(schema, oldSchema, oldMapping, revision);
            && m.Keys == Names(schema)
            && forall i :: 0 <= i < |schema| ==>
                 schema[i].name in m && m[schema[i].name] == SourceFor(schema[i], oldSchema, oldMapping, revision)
  {
    if schema != [] {
      var front := schema[..|schema| - 1];
      var f := schema[|schema| - 1];
      assert schema == front + [f];
      MappingForEach(front, oldSchema, oldMapping, revision);
      var m := MappingFor(schema, oldSchema, oldMapping, revision);
      assert forall n :: n in Names(schema) <==> n in Names(front) || n == f.name;
      assert m.Keys == Names(schema);
    }
  }

  // ------------------------------------------------------------------ indexes

  predicate Maps(mapping: Mapping, schema: seq<Field>) {
    forall i :: 0 <= i < |schema| ==> schema[i].name in mapping
  }

  /** The sources whose fields are flagged for an index, in schema order. */
  function FlaggedSources(schema: seq<Field>, mapping: Mapping, t: IndexType): (sources: seq<Source>)
    requires Maps(mapping, schema)
  {
    if schema == [] then []
    else
      var f := schema[|schema| - 1];
      FlaggedSources(schema[..|schema| - 1], mapping, t) + (if Flagged(f, t) then [mapping[f.name]] else [])
  }

  /** The flagged sources without and with the last field. */
  lemma FlaggedOfFront(schema: seq<Field>, mapping: Mapping, t: IndexType)
    requires Maps(mapping, schema) && schema != []
    ensures var front, f := schema[..|schema| - 1], schema[|schema| - 1];
            && Maps(mapping, front)
            && FlaggedSources(schema, mapping, t)
               == if Flagged(f, t) then FlaggedSources(front, mapping, t) + [mapping[f.name]]
                  else FlaggedSources(front, mapping, t)
  {
    NothingAdded(FlaggedSources(schema[..|schema| - 1], mapping, t));
  }

  function Among(sources: seq<Source>, others: seq<Source>): seq<Source> {
    if sources == [] then []
    else
      var x := sources[|sources| - 1];
      Among(sources[..|sources| - 1], others) + (if x in others then [x] else [])
  }

  function NotAmong(sources: seq<Source>, others: seq<Source>): seq<Source> {
    if sources == [] then []
    else
      var x := sources[|sources| - 1];
      NotAmong(sources[..|sources| - 1], others) + (if x in others then [] else [x])
  }

  lemma {:induction false} AmongMembers(sources: seq<Source>, others: seq<Source>, x: Source)
    ensures x in Among(sources, others) <==> x in sources && x in others
    ensures x in NotAmong(sources, others) <==> x in sources && x !in others
  {
    if sources != [] {
      assert sources == sources[..|sources| - 1] + [sources[|sources| - 1]];
      AmongMembers(sources[..|sources| - 1], others, x);
    }
  }

  lemma AmongWithNext(sources: seq<Source>, x: Source, others: seq<Source>)
    ensures Among(sources + [x], others) == if x in others then Among(sources, others) + [x] else Among(sources, others)
    ensures NotAmong(sources + [x], others)
            == if x in others then NotAmong(sources, others) else NotAmong(sources, others) + [x]
  {
    PartsOfConcat(sources, [x]);
    NothingAdded(Among(sources, others));
    NothingAdded(NotAmong(sources, others));
  }

  /** Flagged and not recorded: to be created. Flagged before and no longer: to be dropped. */
  function ChangesFor(recorded: seq<Source>, before: seq<Source>, after: seq<Source>): Changes {
    Changes(NotAmong(after, recorded), NotAmong(before, after))
  }

  /** Flagged for an index whose source is not among the others. */
  predicate Missing(f: Field, mapping: Mapping, others: PerType<seq<Source>>, t: IndexType)
    requires f.name in mapping
  {
    Flagged(f, t) && mapping[f.name] !in others.Of(t)
  }

  /** The type of the first missing index; a field's order index is looked at before its filter index. */
  function FirstMissing(schema: seq<Field>, mapping: Mapping, others: PerType<seq<Source>>): Option<IndexType>
    requires Maps(mapping, schema)
  {
    if schema == [] then None
    else
      var before := FirstMissing(schema[..|schema| - 1], mapping, others);
      var f := schema[|schema| - 1];
      if before.Some? then before
      else if Missing(f, mapping, others, Order) then Some(Order)
      else if Missing(f, mapping, others, Filter) then Some(Filter)
      else None
  }

  lemma {:induction false} FirstMissingIsFirst(schema: seq<Field>, mapping: Mapping, others: PerType<seq<Source>>)
    requires Maps(mapping, schema)
    ensures FirstMissing(schema, mapping, others).None? <==>
              forall i, t :: 0 <= i < |schema| ==> !Missing(schema[i], mapping, others, t)
    ensures forall t :: FirstMissing(schema, mapping, others) == Some(t) ==>
              exists i :: 0 <= i < |schema| && Missing(schema[i], mapping, others, t)
                          && (t == Filter ==> !Missing(schema[i], mapping, others, Order))
                          && forall j, u :: 0 <= j < i ==> !Missing(schema[j], mapping, others, u)
  {
    if schema != [] {
      var n := |schema| - 1;
      var front := schema[..n];
      FirstMissingIsFirst(front, mapping, others);
      assert forall j :: 0 <= j < n ==> schema[j] == front[j];
      if FirstMissing(front, mapping, others).None? {
        assert forall j, u :: 0 <= j < n ==> !Missing(schema[j], mapping, others, u);
        assert FirstMissing(schema, mapping, others) == None ==>
                 forall t :: !Missing(schema[n], mapping, others, t);
      } else {
        var t := FirstMissing(front, mapping, others).value;
        var i :| 0 <= i < |front| && Missing(front[i], mapping, others, t)
          && (t == Filter ==> !Missing(front[i], mapping, others, Order))
          && forall j, u :: 0 <= j < i ==> !Missing(front[j], mapping, others, u);
        assert Missing(schema[i], mapping, others, t);
      }
    }
  }

  /** A flag whose index is not recorded is removed from the definition; uniqueness goes with the filter index. */
  function Cleaned(f: Field, mapping: Mapping, recorded: PerType<seq<Source>>): Field
    requires f.name in mapping
  {
    var g := if Flagged(f, Order) && mapping[f.name] !in recorded.order then f.(order := None) else f;
    if Flagged(g, Filter) && mapping[g.name] !in recorded.filter then g.(filter := None, unique := None) else g
  }

  function CleanedSchema(schema: seq<Field>, mapping: Mapping, recorded: PerType<seq<Source>>): (r: seq<Field>)
    requires Maps(mapping, schema)
    ensures |r| == |schema|
    ensures forall i :: 0 <= i < |schema| ==>
              r[i] == Cleaned(schema[i], mapping, recorded) && DefinitionOf(r[i]) == DefinitionOf(schema[i])
  {
    seq(|schema|, i requires 0 <= i < |schema| => Cleaned(schema[i], mapping, recorded))
  }

  lemma CleanedFlag(f: Field, mapping: Mapping, recorded: PerType<seq<Source>>, t: IndexType)
    requires f.name in mapping
    ensures var g := Cleaned(f, mapping, recorded);
            g.name == f.name && (Flagged(g, t) <==> Flagged(f, t) && mapping[f.name] in recorded.Of(t))
  {
  }

  /** After cleaning, exactly the recorded ones among the flagged sources are flagged. */
  lemma {:induction false} CleanedFlags(schema: seq<Field>, mapping: Mapping, recorded: PerType<seq<Source>>, t: IndexType)
    requires Maps(mapping, schema)
    ensures Maps(mapping, CleanedSchema(schema, mapping, recorded))
    ensures FlaggedSources(CleanedSchema(schema, mapping, recorded), mapping, t)
            == Among(FlaggedSources(schema, mapping, t), recorded.Of(t))
  {
    if schema != [] {
      var front := schema[..|schema| - 1];
      var f := schema[|schema| - 1];
      CleanedFlags(front, mapping, recorded, t);
      var cleaned := CleanedSchema(schema, mapping, recorded);
      assert cleaned[..|schema| - 1] == CleanedSchema(front, mapping, recorded);
      CleanedFlag(f, mapping, recorded, t);
      FlaggedOfFront(schema, mapping, t);
      FlaggedOfFront(cleaned, mapping, t);
      AmongWithNext(FlaggedSources(front, mapping, t), mapping[f.name], recorded.Of(t));
    }
  }
}
