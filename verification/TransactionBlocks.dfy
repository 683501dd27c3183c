/**
  Operations queued for the end of nested atomic blocks. The code keeps a stack of lists, one for each open block, and
  resolves the innermost list when its block ends; here that machine is compared with what a reader of the nested
  blocks would expect to run.
 */
module TransactionBlocks {
  import opened Prelude

  datatype Kind = OnSuccess | OnError | Always

  datatype Op = Op(kind: Kind, id: nat)

  datatype Event = Enter | Add(op: Op) | Exit(ok: bool)

  /** The lists of the open blocks, innermost last, and the operations run so far. */
  datatype Blocks = Blocks(stack: seq<seq<Op>>, ran: seq<Op>)

  datatype Failure = NoOpenBlock

  function Filter(ops: seq<Op>, keep: Op -> bool): seq<Op> {
    if ops == [] then []
    else (if keep(ops[0]) then [ops[0]] else []) + Filter(ops[1..], keep)
  }

  /** An operation concerns a block that ended like this. */
  predicate Concerns(op: Op, ok: bool) {
    op.kind == Always || op.kind == (if ok then OnSuccess else OnError)
  }

  function Selected(ops: seq<Op>, ok: bool): seq<Op> {
    Filter(ops, (op: Op) => Concerns(op, ok))
  }

  /** Which operations raise when they are run. */
  type Faults = Op -> bool

  /** Running operations in turn: an exception ends the loop, and the rest is dropped. */
  function UpTo(ops: seq<Op>, faults: Faults): seq<Op> {
    if ops == [] then []
    else if faults(ops[0]) then [ops[0]]
    else [ops[0]] + UpTo(ops[1..], faults)
  }

  function Append(b: Blocks, ops: seq<Op>): Blocks
    requires b.stack != []
  {
    var n := |b.stack| - 1;
    b.(stack := b.stack[n := b.stack[n] + ops])
  }

  function ExitBlock(b: Blocks, ok: bool, faults: Faults): Blocks
    requires b.stack != []
  {
    var n := |b.stack| - 1;
    var rest := b.(stack := b.stack[..n]);
    var ops := Selected(b.stack[n], ok);
    if n > 0 && ok then Append(rest, ops) else rest.(ran := b.ran + UpTo(ops, faults))
  }

  /**
    Outside every block a success operation runs at once, an error operation is dropped, and nothing holds the rest.
    An exception of an operation travels outwards like any other: whether it makes the enclosing blocks fail is up to
    the events that follow.
   */
  function Step(b: Blocks, e: Event, faults: Faults): Result<Blocks, Failure> {
    match e
    case Enter => Success(b.(stack := b.stack + [[]]))
    case Add(op) =>
      if b.stack != [] then Success(Append(b, [op]))
      else (match op.kind
            case OnSuccess => Success(b.(ran := b.ran + [op]))
            case OnError => Success(b)
            case Always => Failure(NoOpenBlock))
    case Exit(ok) => if b.stack == [] then Failure(NoOpenBlock) else Success(ExitBlock(b, ok, faults))
  }

  function Run(b: Blocks, events: seq<Event>, faults: Faults): Result<Blocks, Failure>
    decreases |events|
  {
    if events == [] then Success(b)
    else
      var r := Step(b, events[0], faults);
      if r.Failure? then r else Run(r.value, events[1..], faults)
  }

  // ------------------------------------------------------------------ nested blocks

  /** The contents of a block: operations registered directly and inner blocks, in order. */
  datatype Body =
    | End
    | Register(op: Op, rest: Body)
    | Nested(inner: Body, ok: bool, rest: Body)

  function Events(body: Body): seq<Event> {
    match body
    case End => []
    case Register(op, rest) => [Add(op)] + Events(rest)
    case Nested(inner, ok, rest) => [Enter] + Events(inner) + [Exit(ok)] + Events(rest)
  }

  /** One registration, with the outcomes of its own block and of every enclosing block, innermost first. */
  datatype Registration = Registration(op: Op, outcomes: seq<bool>)

  function Registrations(body: Body, outcomes: seq<bool>): seq<Registration> {
    match body
    case End => []
    case Register(op, rest) => [Registration(op, outcomes)] + Registrations(rest, outcomes)
    case Nested(inner, ok, rest) => Registrations(inner, [ok] + outcomes) + Registrations(rest, outcomes)
  }

  predicate AllOk(outcomes: seq<bool>) {
    forall i :: 0 <= i < |outcomes| ==> outcomes[i]
  }

  /** What the three kinds of registration promise. */
  predicate ShouldRun(op: Op, outcomes: seq<bool>) {
    match op.kind
    case OnSuccess => AllOk(outcomes)
    case OnError => outcomes != [] && !outcomes[0]
    case Always => true
  }

  /** The operations that should run, in registration order. */
  function Expected(regs: seq<Registration>): seq<Op> {
    if regs == [] then []
    else (if ShouldRun(regs[0].op, regs[0].outcomes) then [regs[0].op] else []) + Expected(regs[1..])
  }

  /** Those of them that can only run when everything around them has succeeded, in registration order. */
  function Surviving(regs: seq<Registration>): seq<Op> {
    if regs == [] then []
    else (if regs[0].op.kind != OnError && AllOk(regs[0].outcomes) then [regs[0].op] else []) + Surviving(regs[1..])
  }

  // ------------------------------------------------------------------ what the machine does with a body

  /** What is in a block's list when the block ends. */
  function Deferred(body: Body): seq<Op> {
    match body
    case End => []
    case Register(op, rest) => [op] + Deferred(rest)
    case Nested(inner, ok, rest) => (if ok then Selected(Deferred(inner), true) else []) + Deferred(rest)
  }

  /** What failed inner blocks have set out to run by then, one batch for each. */
  function FailedBatches(body: Body): seq<seq<Op>> {
    match body
    case End => []
    case Register(_, rest) => FailedBatches(rest)
    case Nested(inner, ok, rest) =>
      FailedBatches(inner) + (if ok then [] else [Selected(Deferred(inner), false)]) + FailedBatches(rest)
  }

  /** What of it has run. */
  function Immediate(body: Body, faults: Faults): seq<Op> {
    match body
    case End => []
    case Register(_, rest) => Immediate(rest, faults)
    case Nested(inner, ok, rest) =>
      Immediate(inner, faults) + (if ok then [] else UpTo(Selected(Deferred(inner), false), faults))
      + Immediate(rest, faults)
  }

  lemma {:induction false} RunConcat(b: Blocks, first: seq<Event>, second: seq<Event>, faults: Faults)
    requires Run(b, first, faults).Success?
    ensures Run(b, first + second, faults) == Run(Run(b, first, faults).value, second, faults)
    decreases |first|
  {
    if first == [] {
      assert first + second == second;
    } else {
      HeadOfConcat(first, second);
      RunConcat(Step(b, first[0], faults).value, first[1..], second, faults);
    }
  }

  lemma RunOne(b: Blocks, e: Event, faults: Faults)
    ensures Run(b, [e], faults) == Step(b, e, faults)
  {
    assert [e][1..] == [];
    if Step(b, e, faults).Success? {
      assert Run(Step(b, e, faults).value, [], faults) == Step(b, e, faults);
    }
  }

  function After(b: Blocks, body: Body, faults: Faults): Blocks
    requires b.stack != []
  {
    Append(b, Deferred(body)).(ran := b.ran + Immediate(body, faults))
  }

  lemma AppendTwice(b: Blocks, first: seq<Op>, second: seq<Op>)
    requires b.stack != []
    ensures Append(Append(b, first), second) == Append(b, first + second)
  {
    var n := |b.stack| - 1;
    assert b.stack[n] + first + second == b.stack[n] + (first + second);
    assert Append(Append(b, first), second).stack == Append(b, first + second).stack;
  }

  lemma AppendNothing(b: Blocks)
    requires b.stack != []
    ensures Append(b, []) == b
  {
    var n := |b.stack| - 1;
    assert b.stack[n] + [] == b.stack[n];
    assert Append(b, []).stack == b.stack;
  }

  lemma EnteredBlock(b: Blocks, inner: Body, faults: Faults)
    ensures var b1 := After(b.(stack := b.stack + [[]]), inner, faults);
      |b1.stack| == |b.stack| + 1 && b1.stack[..|b.stack|] == b.stack && b1.stack[|b.stack|] == Deferred(inner)
  {
    NothingAdded(Deferred(inner));
  }

  /** What one inner block leaves to the enclosing one, and what it runs. */
  function Kept(inner: Body, ok: bool): seq<Op> {
    if ok then Selected(Deferred(inner), true) else []
  }

  function Batch(inner: Body, ok: bool, faults: Faults): seq<Op> {
    if ok then [] else UpTo(Selected(Deferred(inner), false), faults)
  }

  lemma ExitInner(b: Blocks, inner: Body, ok: bool, faults: Faults)
    requires b.stack != []
    ensures ExitBlock(After(b.(stack := b.stack + [[]]), inner, faults), ok, faults) ==
      Append(b, Kept(inner, ok)).(ran := b.ran + Immediate(inner, faults) + Batch(inner, ok, faults))
  {
    EnteredBlock(b, inner, faults);
    if !ok {
      AppendNothing(b);
    } else {
      NothingAdded(b.ran + Immediate(inner, faults));
    }
  }

  /** The enclosing block after one inner block. */
  function AfterInner(b: Blocks, inner: Body, ok: bool, faults: Faults): Blocks
    requires b.stack != []
  {
    Append(b, Kept(inner, ok)).(ran := b.ran + (Immediate(inner, faults) + Batch(inner, ok, faults)))
  }

  lemma AfterRegister(b: Blocks, op: Op, rest: Body, faults: Faults)
    requires b.stack != []
    ensures After(Append(b, [op]), rest, faults) == After(b, Register(op, rest), faults)
  {
    AppendTwice(b, [op], Deferred(rest));
  }

  lemma AfterNested(b: Blocks, inner: Body, ok: bool, rest: Body, faults: Faults)
    requires b.stack != []
    ensures After(AfterInner(b, inner, ok, faults), rest, faults) == After(b, Nested(inner, ok, rest), faults)
  {
    AppendTwice(b, Kept(inner, ok), Deferred(rest));
    Assoc(b.ran, Immediate(inner, faults) + Batch(inner, ok, faults), Immediate(rest, faults));
  }

  lemma {:induction false} RunBody(b: Blocks, body: Body, faults: Faults)
    requires b.stack != []
    ensures Run(b, Events(body), faults) == Success(After(b, body, faults))
    decreases body, 0
  {
    match body
    case End =>
      AppendNothing(b);
      assert b.ran + [] == b.ran;
    case Register(op, rest) =>
      RunOne(b, Add(op), faults);
      RunConcat(b, [Add(op)], Events(rest), faults);
      RunBody(Append(b, [op]), rest, faults);
      AfterRegister(b, op, rest, faults);
    case Nested(inner, ok, rest) =>
      RunInner(b, inner, ok, faults);
      RunConcat(b, [Enter] + Events(inner) + [Exit(ok)], Events(rest), faults);
      RunBody(AfterInner(b, inner, ok, faults), rest, faults);
      AfterNested(b, inner, ok, rest, faults);
  }

  lemma {:induction false} RunInner(b: Blocks, inner: Body, ok: bool, faults: Faults)
    requires b.stack != []
    ensures Run(b, [Enter] + Events(inner) + [Exit(ok)], faults) == Success(AfterInner(b, inner, ok, faults))
    decreases inner, 2
  {
    RunBlock(b, inner, ok, faults);
    ExitInner(b, inner, ok, faults);
    Assoc(b.ran, Immediate(inner, faults), Batch(inner, ok, faults));
  }

  lemma {:induction false} RunBlock(b: Blocks, inner: Body, ok: bool, faults: Faults)
    ensures var b1 := After(b.(stack := b.stack + [[]]), inner, faults);
      Run(b, [Enter] + Events(inner) + [Exit(ok)], faults) == Success(ExitBlock(b1, ok, faults))
    decreases inner, 1
  {
    var b0 := b.(stack := b.stack + [[]]);
    RunOne(b, Enter, faults);
    RunConcat(b, [Enter], Events(inner), faults);
    RunBody(b0, inner, faults);
    RunConcat(b, [Enter] + Events(inner), [Exit(ok)], faults);
    RunOne(After(b0, inner, faults), Exit(ok), faults);
  }

  /** A whole outermost block: what its failed inner blocks ran, then what its own end calls for, up to an exception. */
  lemma RunOutermost(ran: seq<Op>, body: Body, ok: bool, faults: Faults)
    ensures Run(Blocks([], ran), [Enter] + Events(body) + [Exit(ok)], faults) ==
      Success(Blocks([], ran + Immediate(body, faults) + UpTo(Selected(Deferred(body), ok), faults)))
  {
    var b0 := Blocks([], ran);
    RunBlock(b0, body, ok, faults);
    var b1 := After(b0.(stack := b0.stack + [[]]), body, faults);
    assert [] + Deferred(body) == Deferred(body);
    assert b1.stack == [Deferred(body)] && b1.stack[..0] == [];
  }

  // ------------------------------------------------------------------ batches

  /** All that a whole block sets out to run, batch by batch: what is run at one and the same end of a block. */
  function Batches(body: Body, ok: bool): seq<seq<Op>> {
    FailedBatches(body) + [Selected(Deferred(body), ok)]
  }

  function CutAll(batches: seq<seq<Op>>, faults: Faults): (cut: seq<seq<Op>>)
    ensures |cut| == |batches| && forall i :: 0 <= i < |batches| ==> cut[i] == UpTo(batches[i], faults)
  {
    seq(|batches|, i requires 0 <= i < |batches| => UpTo(batches[i], faults))
  }

  lemma CutConcat(a: seq<seq<Op>>, b: seq<seq<Op>>, faults: Faults)
    ensures CutAll(a + b, faults) == CutAll(a, faults) + CutAll(b, faults)
  {
  }

  lemma {:induction false} FlattenConcat(a: seq<seq<Op>>, b: seq<seq<Op>>)
    ensures Flatten(a + b) == Flatten(a) + Flatten(b)
    decreases |a|
  {
    if a == [] {
      NothingAdded(b);
      NothingAdded(Flatten(b));
    } else {
      HeadOfConcat(a, b);
      FlattenConcat(a[1..], b);
      Assoc(a[0], Flatten(a[1..]), Flatten(b));
    }
  }

  lemma FlattenOne(batch: seq<Op>)
    ensures Flatten([batch]) == batch
  {
    assert [batch][1..] == [];
    NothingAdded(batch);
  }

  lemma CutConcatFlat(a: seq<seq<Op>>, b: seq<seq<Op>>, faults: Faults)
    ensures Flatten(CutAll(a + b, faults)) == Flatten(CutAll(a, faults)) + Flatten(CutAll(b, faults))
  {
    CutConcat(a, b, faults);
    FlattenConcat(CutAll(a, faults), CutAll(b, faults));
  }

  lemma CutOne(batch: seq<Op>, faults: Faults)
    ensures Flatten(CutAll([batch], faults)) == UpTo(batch, faults)
  {
    assert CutAll([batch], faults) == [UpTo(batch, faults)];
    FlattenOne(UpTo(batch, faults));
  }

  /** What has run is each batch up to its first exception. */
  lemma {:induction false} ImmediateIsCut(body: Body, faults: Faults)
    ensures Immediate(body, faults) == Flatten(CutAll(FailedBatches(body), faults))
    decreases body
  {
    match body
    case End => assert CutAll([], faults) == [];
    case Register(_, rest) => ImmediateIsCut(rest, faults);
    case Nested(inner, ok, rest) =>
      ImmediateIsCut(inner, faults);
      ImmediateIsCut(rest, faults);
      var mine: seq<seq<Op>> := if ok then [] else [Selected(Deferred(inner), false)];
      CutConcatFlat(FailedBatches(inner) + mine, FailedBatches(rest), faults);
      CutConcatFlat(FailedBatches(inner), mine, faults);
      if ok {
        assert CutAll(mine, faults) == [];
      } else {
        CutOne(Selected(Deferred(inner), false), faults);
      }
  }

  /** No operation of the batch but possibly its last one raises. */
  predicate RunsThrough(batch: seq<Op>, faults: Faults) {
    forall i :: 0 <= i < |batch| - 1 ==> !faults(batch[i])
  }

  lemma {:induction false} UpToRunsThrough(batch: seq<Op>, faults: Faults)
    ensures |UpTo(batch, faults)| <= |batch|
    ensures |UpTo(batch, faults)| == |batch| <==> RunsThrough(batch, faults)
    ensures RunsThrough(batch, faults) ==> UpTo(batch, faults) == batch
    decreases |batch|
  {
    if batch != [] && !faults(batch[0]) {
      UpToRunsThrough(batch[1..], faults);
      assert batch == [batch[0]] + batch[1..];
      if RunsThrough(batch[1..], faults) {
        forall i | 0 <= i < |batch| - 1 ensures !faults(batch[i]) {
          assert i > 0 ==> batch[i] == batch[1..][i - 1];
        }
      } else {
        var i :| 0 <= i < |batch[1..]| - 1 && faults(batch[1..][i]);
        assert faults(batch[i + 1]);
      }
    } else if |batch| > 1 {
      assert faults(batch[0]);
    }
  }

  lemma {:induction false} CutKeepsAll(batches: seq<seq<Op>>, faults: Faults)
    ensures |Flatten(CutAll(batches, faults))| <= |Flatten(batches)|
    ensures |Flatten(CutAll(batches, faults))| == |Flatten(batches)| <==>
              forall i :: 0 <= i < |batches| ==> RunsThrough(batches[i], faults)
    ensures (forall i :: 0 <= i < |batches| ==> RunsThrough(batches[i], faults)) ==> CutAll(batches, faults) == batches
    decreases |batches|
  {
    forall i | 0 <= i < |batches| && RunsThrough(batches[i], faults) ensures UpTo(batches[i], faults) == batches[i] {
      UpToRunsThrough(batches[i], faults);
    }
    if batches != [] {
      UpToRunsThrough(batches[0], faults);
      assert CutAll(batches, faults)[1..] == CutAll(batches[1..], faults);
      CutKeepsAll(batches[1..], faults);
      assert forall i :: 0 < i < |batches| ==> batches[i] == batches[1..][i - 1];
    }
  }

  // ------------------------------------------------------------------ the machine runs what it should

  lemma {:induction false} FilterConcat(a: seq<Op>, b: seq<Op>, keep: Op -> bool)
    ensures Filter(a + b, keep) == Filter(a, keep) + Filter(b, keep)
    decreases |a|
  {
    if a == [] {
      NothingAdded(b);
      NothingAdded(Filter(b, keep));
    } else {
      HeadOfConcat(a, b);
      FilterConcat(a[1..], b, keep);
      Assoc(if keep(a[0]) then [a[0]] else [], Filter(a[1..], keep), Filter(b, keep));
    }
  }

  lemma {:induction false} FilterTwice(ops: seq<Op>, first: Op -> bool, second: Op -> bool, both: Op -> bool)
    requires forall op :: both(op) <==> first(op) && second(op)
    ensures Filter(Filter(ops, first), second) == Filter(ops, both)
    decreases |ops|
  {
    if ops != [] {
      FilterTwice(ops[1..], first, second, both);
      FilterConcat(if first(ops[0]) then [ops[0]] else [], Filter(ops[1..], first), second);
      assert [ops[0]][1..] == [];
    }
  }

  lemma {:induction false} FilterSame(ops: seq<Op>, first: Op -> bool, second: Op -> bool)
    requires forall op :: first(op) <==> second(op)
    ensures Filter(ops, first) == Filter(ops, second)
    decreases |ops|
  {
    if ops != [] {
      FilterSame(ops[1..], first, second);
    }
  }

  lemma {:induction false} ExpectedConcat(a: seq<Registration>, b: seq<Registration>)
    ensures Expected(a + b) == Expected(a) + Expected(b)
    decreases |a|
  {
    if a == [] {
      NothingAdded(b);
      NothingAdded(Expected(b));
    } else {
      HeadOfConcat(a, b);
      ExpectedConcat(a[1..], b);
      Assoc(if ShouldRun(a[0].op, a[0].outcomes) then [a[0].op] else [], Expected(a[1..]), Expected(b));
    }
  }

  lemma {:induction false} SurvivingConcat(a: seq<Registration>, b: seq<Registration>)
    ensures Surviving(a + b) == Surviving(a) + Surviving(b)
    decreases |a|
  {
    if a == [] {
      NothingAdded(b);
      NothingAdded(Surviving(b));
    } else {
      HeadOfConcat(a, b);
      SurvivingConcat(a[1..], b);
      Assoc(if a[0].op.kind != OnError && AllOk(a[0].outcomes) then [a[0].op] else [], Surviving(a[1..]), Surviving(b));
    }
  }

  lemma AllOkCons(ok: bool, outer: seq<bool>)
    ensures AllOk([ok] + outer) <==> ok && AllOk(outer)
  {
    if AllOk([ok] + outer) {
      assert ([ok] + outer)[0];
      forall i | 0 <= i < |outer| ensures outer[i] {
        assert ([ok] + outer)[i + 1];
      }
    }
  }

  /** What will run in the end of the operations in a block's list. */
  function Final(ops: seq<Op>, outcomes: seq<bool>): seq<Op> {
    Filter(ops, (op: Op) => ShouldRun(op, outcomes))
  }

  /** A block that fails runs its share at once; one that succeeds leaves exactly the right ones to its parent. */
  lemma ExitKeepsFinal(ops: seq<Op>, ok: bool, outer: seq<bool>)
    ensures Final(ops, [ok] + outer) == if ok then Final(Selected(ops, true), outer) else Selected(ops, false)
  {
    var mine := (op: Op) => ShouldRun(op, [ok] + outer);
    AllOkCons(ok, outer);
    if ok {
      FilterTwice(ops, (op: Op) => Concerns(op, true), (op: Op) => ShouldRun(op, outer),
                  (op: Op) => Concerns(op, true) && ShouldRun(op, outer));
      FilterSame(ops, mine, (op: Op) => Concerns(op, true) && ShouldRun(op, outer));
    } else {
      FilterSame(ops, mine, (op: Op) => Concerns(op, false));
    }
  }

  lemma BatchesOfNested(inner: Body, ok: bool, rest: Body)
    ensures Flatten(FailedBatches(Nested(inner, ok, rest))) ==
      Flatten(FailedBatches(inner)) + (if ok then [] else Selected(Deferred(inner), false)) + Flatten(FailedBatches(rest))
  {
    var last := Selected(Deferred(inner), false);
    var mine: seq<seq<Op>> := if ok then [] else [last];
    FlattenConcat(FailedBatches(inner) + mine, FailedBatches(rest));
    FlattenConcat(FailedBatches(inner), mine);
    FlattenOne(last);
  }

  lemma FinalOfNested(inner: Body, ok: bool, rest: Body, outcomes: seq<bool>)
    ensures Final(Deferred(Nested(inner, ok, rest)), outcomes) ==
      Final(Kept(inner, ok), outcomes) + Final(Deferred(rest), outcomes)
    ensures Final(Deferred(inner), [ok] + outcomes) ==
      if ok then Final(Kept(inner, ok), outcomes) else Selected(Deferred(inner), false)
  {
    FilterConcat(Kept(inner, ok), Deferred(rest), (op: Op) => ShouldRun(op, outcomes));
    ExitKeepsFinal(Deferred(inner), ok, outcomes);
  }

  /** What runs, grouped by batches and lists or by inner block and rest. */
  lemma Regrouped(early: seq<Op>, mine: seq<Op>, later: seq<Op>, kept: seq<Op>, last: seq<Op>, a: seq<Op>, b: seq<Op>)
    requires multiset(early) + multiset(mine + kept) == multiset(a) && multiset(later) + multiset(last) == multiset(b)
    ensures multiset(early + mine + later) + multiset(kept + last) == multiset(a + b)
  {
    assert multiset(mine + kept) == multiset(mine) + multiset(kept);
    assert multiset(early + mine + later) == multiset(early) + multiset(mine) + multiset(later);
  }

  lemma RegisterRunsExpected(op: Op, rest: Body, outcomes: seq<bool>)
    ensures var mine := if ShouldRun(op, outcomes) then [op] else [];
      && Final(Deferred(Register(op, rest)), outcomes) == mine + Final(Deferred(rest), outcomes)
      && Expected(Registrations(Register(op, rest), outcomes)) == mine + Expected(Registrations(rest, outcomes))
  {
    HeadOfConcat([op], Deferred(rest));
    HeadOfConcat([Registration(op, outcomes)], Registrations(rest, outcomes));
    NothingAdded(Deferred(rest));
    NothingAdded(Registrations(rest, outcomes));
  }

  lemma {:induction false} BodyRunsExpected(body: Body, outcomes: seq<bool>)
    ensures multiset(Flatten(FailedBatches(body))) + multiset(Final(Deferred(body), outcomes)) ==
      multiset(Expected(Registrations(body, outcomes)))
    decreases body
  {
    match body
    case End =>
    case Register(op, rest) =>
      BodyRunsExpected(rest, outcomes);
      RegisterRunsExpected(op, rest, outcomes);
    case Nested(inner, ok, rest) => NestedRunsExpected(inner, ok, rest, outcomes);
  }

  lemma {:induction false} NestedRunsExpected(inner: Body, ok: bool, rest: Body, outcomes: seq<bool>)
    ensures multiset(Flatten(FailedBatches(Nested(inner, ok, rest))))
            + multiset(Final(Deferred(Nested(inner, ok, rest)), outcomes))
         == multiset(Expected(Registrations(Nested(inner, ok, rest), outcomes)))
    decreases Nested(inner, ok, rest), 0
  {
    BodyRunsExpected(inner, [ok] + outcomes);
    BodyRunsExpected(rest, outcomes);
    var regs, others := Registrations(inner, [ok] + outcomes), Registrations(rest, outcomes);
    ExpectedConcat(regs, others);
    BatchesOfNested(inner, ok, rest);
    FinalOfNested(inner, ok, rest, outcomes);
    var mine, kept := if ok then [] else Selected(Deferred(inner), false), Final(Kept(inner, ok), outcomes);
    NothingAdded(if ok then kept else mine);
    Regrouped(Flatten(FailedBatches(inner)), mine, Flatten(FailedBatches(rest)), kept, Final(Deferred(rest), outcomes),
              Expected(regs), Expected(others));
  }

  lemma RunCutsBatches(ran: seq<Op>, body: Body, ok: bool, faults: Faults)
    ensures Run(Blocks([], ran), [Enter] + Events(body) + [Exit(ok)], faults) ==
      Success(Blocks([], ran + Flatten(CutAll(Batches(body, ok), faults))))
  {
    RunOutermost(ran, body, ok, faults);
    var last := Selected(Deferred(body), ok);
    ImmediateIsCut(body, faults);
    CutConcatFlat(FailedBatches(body), [last], faults);
    CutOne(last, faults);
    Assoc(ran, Immediate(body, faults), UpTo(last, faults));
  }

  lemma BatchesAreExpected(body: Body, ok: bool)
    ensures multiset(Flatten(Batches(body, ok))) == multiset(Expected(Registrations(body, [ok])))
  {
    var last := Selected(Deferred(body), ok);
    BodyRunsExpected(body, [ok]);
    FlattenConcat(FailedBatches(body), [last]);
    FlattenOne(last);
    assert Final(Deferred(body), [ok]) == last by {
      assert AllOk([ok]) ==> [ok][0];
      FilterSame(Deferred(body), (op: Op) => ShouldRun(op, [ok]), (op: Op) => Concerns(op, ok));
    }
  }

  /**
    Every registration of a well-nested run of blocks is honoured: a success operation is set out to run exactly once
    if its block and all enclosing blocks succeed and otherwise not at all, an error operation exactly once if its own
    block fails and otherwise not at all, and an "always" operation exactly once. What then runs is each batch up to
    its first operation that raises.
   */
  lemma BlocksRunExactlyWhatTheyShould(ran: seq<Op>, body: Body, ok: bool, faults: Faults)
    ensures Run(Blocks([], ran), [Enter] + Events(body) + [Exit(ok)], faults) ==
      Success(Blocks([], ran + Flatten(CutAll(Batches(body, ok), faults))))
    ensures multiset(Flatten(Batches(body, ok))) == multiset(Expected(Registrations(body, [ok])))
  {
    RunCutsBatches(ran, body, ok, faults);
    BatchesAreExpected(body, ok);
  }

  lemma SameOperationsIff(ran: seq<Op>, cut: seq<Op>, flat: seq<Op>)
    requires |cut| == |flat| ==> cut == flat
    ensures multiset(ran + cut) == multiset(ran) + multiset(flat) <==> |cut| == |flat|
  {
    assert multiset(ran + cut) == multiset(ran) + multiset(cut);
    if multiset(ran + cut) == multiset(ran) + multiset(flat) {
      assert |multiset(ran) + multiset(cut)| == |ran| + |cut| && |multiset(ran) + multiset(flat)| == |ran| + |flat|;
    }
  }

  /**
    All operations that should run do if and only if in no batch one that is followed by another raises. In
    particular nothing is lost when no operation raises.
   */
  lemma NothingIsLostIff(ran: seq<Op>, body: Body, ok: bool, faults: Faults)
    ensures var end := Run(Blocks([], ran), [Enter] + Events(body) + [Exit(ok)], faults);
      && end.Success?
      && (multiset(end.value.ran) == multiset(ran) + multiset(Expected(Registrations(body, [ok])))
          <==> forall i :: 0 <= i < |Batches(body, ok)| ==> RunsThrough(Batches(body, ok)[i], faults))
  {
    RunCutsBatches(ran, body, ok, faults);
    BatchesAreExpected(body, ok);
    CutKeepsAll(Batches(body, ok), faults);
    SameOperationsIff(ran, Flatten(CutAll(Batches(body, ok), faults)), Flatten(Batches(body, ok)));
  }

  lemma {:induction false} DeferredSurvives(body: Body, outcomes: seq<bool>)
    ensures Surviving(Registrations(body, outcomes)) ==
      if AllOk(outcomes) then Selected(Deferred(body), true) else []
    decreases body
  {
    match body
    case End =>
    case Register(op, rest) =>
      DeferredSurvives(rest, outcomes);
      assert ([op] + Deferred(rest))[1..] == Deferred(rest);
      var regs := Registrations(rest, outcomes);
      assert ([Registration(op, outcomes)] + regs)[1..] == regs;
    case Nested(inner, ok, rest) =>
      DeferredSurvives(inner, [ok] + outcomes);
      DeferredSurvives(rest, outcomes);
      SurvivingConcat(Registrations(inner, [ok] + outcomes), Registrations(rest, outcomes));
      AllOkCons(ok, outcomes);
      var kept := if ok then Selected(Deferred(inner), true) else [];
      FilterConcat(kept, Deferred(rest), (op: Op) => Concerns(op, true));
      FilterTwice(Deferred(inner), (op: Op) => Concerns(op, true), (op: Op) => Concerns(op, true),
                  (op: Op) => Concerns(op, true));
  }

  lemma {:induction false} FilterExcludes(ops: seq<Op>, keep: Op -> bool)
    ensures forall op :: op in Filter(ops, keep) ==> keep(op)
    decreases |ops|
  {
    if ops != [] {
      FilterExcludes(ops[1..], keep);
    }
  }

  lemma {:induction false} NoSuccessRunsEarly(body: Body, faults: Faults)
    ensures forall op :: op in Immediate(body, faults) ==> op.kind != OnSuccess
    decreases body
  {
    match body
    case End =>
    case Register(_, rest) => NoSuccessRunsEarly(rest, faults);
    case Nested(inner, ok, rest) =>
      NoSuccessRunsEarly(inner, faults);
      NoSuccessRunsEarly(rest, faults);
      FilterExcludes(Deferred(inner), (op: Op) => Concerns(op, false));
      UpToIsAmong(Selected(Deferred(inner), false), faults);
  }

  lemma {:induction false} UpToIsAmong(ops: seq<Op>, faults: Faults)
    ensures forall op :: op in UpTo(ops, faults) ==> op in ops
    decreases |ops|
  {
    if ops != [] {
      UpToIsAmong(ops[1..], faults);
    }
  }

  /**
    No success operation runs before the outermost block ends; when that block succeeds, everything still waiting
    runs then, in registration order across all the nested blocks, unless one of them raises.
   */
  lemma SuccessRunsInRegistrationOrder(ran: seq<Op>, body: Body, faults: Faults)
    ensures Run(Blocks([], ran), [Enter] + Events(body) + [Exit(true)], faults) ==
      Success(Blocks([], ran + Immediate(body, faults) + UpTo(Surviving(Registrations(body, [true])), faults)))
    ensures forall op :: op in Immediate(body, faults) ==> op.kind != OnSuccess
  {
    RunOutermost(ran, body, true, faults);
    DeferredSurvives(body, [true]);
    NoSuccessRunsEarly(body, faults);
  }

  // ------------------------------------------------------------------ the lists as the code keeps them

  /** The part of a list that concerns a block, split at one of its operations. */
  lemma SelectedNext(ops: seq<Op>, i: nat, ok: bool)
    requires i < |ops|
    ensures var before, op := Selected(ops[..i], ok), ops[i];
      && Selected(ops[..i + 1], ok) == (if Concerns(op, ok) then before + [op] else before)
      && Selected(ops, ok) == Selected(ops[..i + 1], ok) + Selected(ops[i + 1..], ok)
  {
    var keep := (o: Op) => Concerns(o, ok);
    assert ops[..i + 1] == ops[..i] + [ops[i]] && [ops[i]][1..] == [];
    FilterConcat(ops[..i], [ops[i]], keep);
    NothingAdded(Selected(ops[..i], ok));
    assert ops == ops[..i + 1] + ops[i + 1..];
    FilterConcat(ops[..i + 1], ops[i + 1..], keep);
  }

  lemma {:induction false} UpToStops(before: seq<Op>, op: Op, after: seq<Op>, faults: Faults)
    requires faults(op) && forall o :: o in before ==> !faults(o)
    ensures UpTo(before + [op] + after, faults) == before + [op]
    decreases |before|
  {
    if before == [] {
      assert before + [op] + after == [op] + after;
    } else {
      assert (before + [op] + after)[1..] == before[1..] + [op] + after;
      UpToStops(before[1..], op, after, faults);
      assert before == [before[0]] + before[1..];
    }
  }

  lemma {:induction false} UpToAll(ops: seq<Op>, faults: Faults)
    requires forall o :: o in ops ==> !faults(o)
    ensures UpTo(ops, faults) == ops
    decreases |ops|
  {
    if ops != [] {
      UpToAll(ops[1..], faults);
      assert ops == [ops[0]] + ops[1..];
    }
  }

  class BlockLists {
    var stack: seq<seq<Op>>
    var ran: seq<Op>

    ghost function Value(): Blocks
      reads this
    {
      Blocks(stack, ran)
    }

    constructor ()
      ensures Value() == Blocks([], [])
    {
      stack, ran := [], [];
    }

    method AddTransactionBlock()
      modifies this
      ensures forall faults: Faults :: Success(Value()) == Step(old(Value()), Enter, faults)
    {
      stack := stack + [[]];
    }

    /** An exception of an operation that runs at once is the caller's. */
    method AddOperation(op: Op, faults: Faults) returns (failed: bool, raised: bool)
      modifies this
      ensures failed <==> Step(old(Value()), Add(op), faults).Failure?
      ensures if failed then Value() == old(Value()) else Success(Value()) == Step(old(Value()), Add(op), faults)
      ensures raised <==> old(stack) == [] && op.kind == OnSuccess && faults(op)
    {
      failed, raised := false, false;
      if stack != [] {
        stack := stack[|stack| - 1 := stack[|stack| - 1] + [op]];
      } else if op.kind == OnSuccess {
        ran := ran + [op];
        raised := faults(op);
      } else if op.kind == Always {
        failed := true;
      }
    }

    /** Pops the ended block's list and runs each operation or hands it to the enclosing block. */
    method ProcessOperationBlock(successful: bool, faults: Faults) returns (raised: bool)
      requires stack != []
      modifies this
      ensures Success(Value()) == Step(old(Value()), Exit(successful), faults)
      ensures raised <==> (|old(stack)| == 1 || !successful)
                          && exists op :: op in Selected(old(stack)[|old(stack)| - 1], successful) && faults(op)
    {
      var n := |stack| - 1;
      var operations := stack[n];
      stack := stack[..n];
      ghost var base := Value();
      ghost var selected: seq<Op> := [];
      if n > 0 {
        AppendNothing(base);
      }
      for i := 0 to |operations|
        invariant |stack| == n
        invariant selected == Selected(operations[..i], successful)
        invariant (n > 0 && successful) || forall op :: op in selected ==> !faults(op)
        invariant Value() == if n > 0 && successful then Append(base, selected) else base.(ran := base.ran + selected)
      {
        var op := operations[i];
        SelectedNext(operations, i, successful);
        if op.kind == Always || op.kind == (if successful then OnSuccess else OnError) {
          if n > 0 && successful {
            AppendTwice(base, selected, [op]);
            stack := stack[n - 1 := stack[n - 1] + [op]];
          } else {
            Assoc(base.ran, selected, [op]);
            ran := ran + [op];
            if faults(op) {
              UpToStops(selected, op, Selected(operations[i + 1..], successful), faults);
              return true;
            }
          }
          selected := selected + [op];
        }
      }
      assert operations[..|operations|] == operations;
      if n == 0 || !successful {
        UpToAll(selected, faults);
      }
      raised := false;
    }
  }
}
