/**
  The bounded lists of stored objects. Every save takes an id from a sequence shared by the lists of a class, adds it
  to a sorted set and trims the set by rank, but only when the id exceeds the bound. Taking an id and adding it are
  separate commands, so the runs here let any number of saves overlap.
 */
module RedisList {
  import opened Prelude

  /** A sorted set whose members are named by their own scores, in rank order. */
  type SortedSet = seq<nat>

  function ZAdd(s: SortedSet, id: nat): SortedSet {
    if s == [] || s[|s| - 1] < id then s + [id]
    else if s[|s| - 1] == id then s
    else ZAdd(s[..|s| - 1], id) + [s[|s| - 1]]
  }

  /** A rank counted from the end when negative. */
  function Rank(s: SortedSet, rank: int): int {
    if rank < 0 then |s| + rank else rank
  }

  /** Removes the members ranked from start to stop, both included. */
  function ZRemRangeByRank(s: SortedSet, start: int, stop: int): SortedSet {
    var from := if Rank(s, start) < 0 then 0 else Rank(s, start);
    var to := if Rank(s, stop) >= |s| then |s| - 1 else Rank(s, stop);
    if from > to then s else s[..from] + s[to + 1..]
  }

  /** The bound 0 stands for no bound. */
  function SaveTo(s: SortedSet, id: nat, bound: nat): SortedSet {
    var added := ZAdd(s, id);
    if bound != 0 && id > bound then ZRemRangeByRank(added, 0, -(bound + 1)) else added
  }

  /** The newest k members, or all of them when there are fewer. */
  function Newest(s: seq<nat>, k: nat): seq<nat> {
    if |s| <= k then s else s[|s| - k..]
  }

  function Retained(saved: seq<nat>, bound: nat): seq<nat> {
    if bound == 0 then saved else Newest(saved, bound)
  }

  // ------------------------------------------------------------------ the sorted set

  lemma {:induction false} ZAddSorts(s: SortedSet, id: nat)
    requires Increasing(s)
    ensures Increasing(ZAdd(s, id))
    ensures forall x :: x in ZAdd(s, id) <==> x == id || x in s
    ensures id !in s ==> |ZAdd(s, id)| == |s| + 1
  {
    if s != [] && s[|s| - 1] > id {
      var front := s[..|s| - 1];
      assert s == front + [s[|s| - 1]];
      ZAddSorts(front, id);
      var added := ZAdd(front, id);
      forall i | 0 <= i < |added| ensures added[i] < s[|s| - 1] {
        assert added[i] in added;
      }
    }
  }

  lemma TrimKeepsNewest(s: SortedSet, bound: nat)
    ensures ZRemRangeByRank(s, 0, -(bound + 1)) == Newest(s, bound)
  {
  }

  lemma NewestOfAppended(s: seq<nat>, x: nat, k: nat)
    requires k > 0
    ensures Newest(s + [x], k) == Newest(s, k - 1) + [x]
  {
  }

  lemma NewestTwice(s: seq<nat>, j: nat, k: nat)
    requires j <= k
    ensures Newest(Newest(s, k), j) == Newest(s, j)
  {
  }

  lemma ZAddLast(front: SortedSet, last: nat, id: nat)
    ensures ZAdd(front + [last], id)
            == if last < id then front + [last] + [id] else if last == id then front + [last] else ZAdd(front, id) + [last]
  {
    PartsOfConcat(front, [last]);
  }

  lemma NewestWithGreater(front: SortedSet, last: nat, id: nat, k: nat)
    requires k > 0 && last < id
    ensures Newest(ZAdd(front + [last], id), k) == Newest(front + [last], k - 1) + [id]
  {
    ZAddLast(front, last, id);
    NewestOfAppended(front + [last], id, k);
  }

  lemma NewestWithLess(front: SortedSet, last: nat, id: nat, k: nat)
    requires k > 0 && last > id
    ensures Newest(ZAdd(front + [last], id), k) == Newest(ZAdd(front, id), k - 1) + [last]
  {
    ZAddLast(front, last, id);
    NewestOfAppended(ZAdd(front, id), last, k);
  }

  /** Adding does not look behind what is newest. */
  predicate LooksAtNewest(s: SortedSet, id: nat, k: nat) {
    Newest(ZAdd(s, id), k) == Newest(ZAdd(Newest(s, k), id), k)
  }

  lemma AddingGreater(front: SortedSet, last: nat, id: nat, k: nat)
    requires k > 0 && last < id
    ensures LooksAtNewest(front + [last], id, k)
  {
    var newest := Newest(front, k - 1);
    NewestOfAppended(front, last, k);
    NewestWithGreater(front, last, id, k);
    NewestWithGreater(newest, last, id, k);
    NewestTwice(front + [last], k - 1, k);
  }

  lemma AddingLess(front: SortedSet, last: nat, id: nat, k: nat)
    requires k > 0 && last > id && LooksAtNewest(front, id, k - 1)
    ensures LooksAtNewest(front + [last], id, k)
  {
    NewestOfAppended(front, last, k);
    NewestWithLess(front, last, id, k);
    NewestWithLess(Newest(front, k - 1), last, id, k);
  }

  lemma AddingAgain(front: SortedSet, last: nat, k: nat)
    requires k > 0
    ensures LooksAtNewest(front + [last], last, k)
  {
    NewestOfAppended(front, last, k);
    ZAddLast(front, last, last);
    ZAddLast(Newest(front, k - 1), last, last);
    NewestTwice(front + [last], k, k);
  }

  /** What is newest after an addition depends only on what was newest before it. */
  lemma {:induction false} NewestAfterAdding(s: SortedSet, id: nat, k: nat)
    ensures Newest(ZAdd(s, id), k) == Newest(ZAdd(Newest(s, k), id), k)
    decreases |s|
  {
    if k > 0 && s != [] {
      var last, front := s[|s| - 1], s[..|s| - 1];
      assert s == front + [last];
      if last < id {
        AddingGreater(front, last, id, k);
      } else if last > id {
        NewestAfterAdding(front, id, k - 1);
        AddingLess(front, last, id, k);
      } else {
        AddingAgain(front, last, k);
      }
    }
  }

  /** A save keeps the newest members right whether it trims or not. */
  lemma SaveKeepsNewest(list: SortedSet, saved: SortedSet, id: nat, bound: nat)
    requires Newest(list, bound) == Newest(saved, bound)
    ensures Newest(SaveTo(list, id, bound), bound) == Newest(ZAdd(saved, id), bound)
  {
    NewestAfterAdding(list, id, bound);
    NewestAfterAdding(saved, id, bound);
    TrimKeepsNewest(ZAdd(list, id), bound);
    NewestTwice(ZAdd(list, id), bound, bound);
  }

  /** The list has the newest of what was saved, and all of it if there is no bound. */
  predicate Agree(list: SortedSet, saved: SortedSet, bound: nat) {
    && Newest(list, bound) == Newest(saved, bound)
    && (bound == 0 ==> list == saved)
  }

  lemma SaveKeepsAgreement(list: SortedSet, saved: SortedSet, id: nat, bound: nat)
    requires Agree(list, saved, bound)
    ensures Agree(SaveTo(list, id, bound), ZAdd(saved, id), bound)
  {
    SaveKeepsNewest(list, saved, id, bound);
  }

  lemma TrimmingSaveIsExact(list: SortedSet, saved: SortedSet, id: nat, bound: nat)
    requires Agree(list, saved, bound) && (bound == 0 || id > bound)
    ensures SaveTo(list, id, bound) == Retained(ZAdd(saved, id), bound)
  {
    SaveKeepsNewest(list, saved, id, bound);
    TrimKeepsNewest(ZAdd(list, id), bound);
    NewestTwice(ZAdd(list, id), bound, bound);
  }

  lemma SmallListIsComplete(list: SortedSet, saved: SortedSet, bound: nat)
    requires Agree(list, saved, bound) && |saved| < bound
    ensures list == saved
  {
  }

  /**
    One save, at any bound, in any order of ids and onto any list that has the newest ids, exact or not: the list is
    then exactly what should be retained unless as many ids as the bound were saved before and this one never
    triggers a trim.
   */
  lemma SaveIsExactIff(list: SortedSet, saved: SortedSet, id: nat, bound: nat)
    requires Increasing(list) && Increasing(saved) && Agree(list, saved, bound)
    requires (forall x :: x in list ==> x in saved) && id !in saved
    ensures SaveTo(list, id, bound) == Retained(ZAdd(saved, id), bound)
            <==> bound == 0 || id > bound || |saved| < bound
  {
    ZAddSorts(saved, id);
    ZAddSorts(list, id);
    if bound == 0 || id > bound {
      TrimmingSaveIsExact(list, saved, id, bound);
    } else if |saved| < bound {
      SmallListIsComplete(list, saved, bound);
    } else {
      assert |Newest(list, bound)| == bound;
      assert |SaveTo(list, id, bound)| == |list| + 1 > bound;
    }
  }

  // ------------------------------------------------------------------ overlapping saves

  type Key = string

  /**
    The shared sequence, the ids taken but not yet stored, the lists, every id ever stored in each list, and the id
    that was stored in it last.
   */
  datatype State = State(sequence: nat, taken: set<nat>, lists: map<Key, SortedSet>, saved: map<Key, SortedSet>,
                         last: map<Key, nat>)

  datatype Action =
    | Take
    | Add(key: Key, id: nat)
    /** A save with no other save between its two commands. */
    | SaveAlone(key: Key)

  const INITIAL: State := State(0, {}, map[], map[], map[])

  function At(lists: map<Key, SortedSet>, key: Key): SortedSet {
    if key in lists then lists[key] else []
  }

  predicate Possible(s: State, a: Action) {
    a.Add? ==> a.id in s.taken
  }

  function Taking(s: State): State {
    s.(sequence := s.sequence + 1, taken := s.taken + {s.sequence + 1})
  }

  function Adding(s: State, key: Key, id: nat, bound: nat): State {
    s.(taken := s.taken - {id},
       lists := s.lists[key := SaveTo(At(s.lists, key), id, bound)],
       saved := s.saved[key := ZAdd(At(s.saved, key), id)],
       last := s.last[key := id])
  }

  /** The id last added to a list, 0 if there is none. */
  function LastAdded(s: State, key: Key): nat {
    if key in s.last then s.last[key] else 0
  }

  function Step(s: State, a: Action, bounds: Key -> nat): State {
    match a
    case Take => Taking(s)
    case Add(key, id) => Adding(s, key, id, bounds(key))
    case SaveAlone(key) => Adding(Taking(s), key, s.sequence + 1, bounds(key))
  }

  predicate IsRun(s: State, actions: seq<Action>, bounds: Key -> nat)
    decreases |actions|
  {
    actions == [] || (Possible(s, actions[0]) && IsRun(Step(s, actions[0], bounds), actions[1..], bounds))
  }

  function Execute(s: State, actions: seq<Action>, bounds: Key -> nat): State
    decreases |actions|
  {
    if actions == [] then s else Execute(Step(s, actions[0], bounds), actions[1..], bounds)
  }

  /** Stored ids are increasing, come from the sequence and are no longer taken; the newest of each list are right. */
  ghost predicate ListOk(s: State, key: Key, bound: nat) {
    && Increasing(At(s.saved, key))
    && Issued(At(s.saved, key), s.sequence, s.taken)
    && Agree(At(s.lists, key), At(s.saved, key), bound)
    && Kept(At(s.lists, key), At(s.saved, key), LastAdded(s, key), bound)
  }

  ghost predicate Issued(saved: SortedSet, sequence: nat, taken: set<nat>) {
    forall x :: x in saved ==> 1 <= x <= sequence && x !in taken
  }

  /** An id of the list was saved to it, and the list is exact whenever what was last added to it says so. */
  ghost predicate Kept(list: SortedSet, saved: SortedSet, last: nat, bound: nat) {
    && Increasing(list)
    && (forall x :: x in list ==> x in saved)
    && (list == Retained(saved, bound) <==> bound == 0 || |saved| <= bound || last > bound)
  }

  lemma NewestIsPart(s: SortedSet, k: nat)
    requires Increasing(s)
    ensures Increasing(Newest(s, k)) && forall x :: x in Newest(s, k) ==> x in s
  {
  }

  lemma SaveToIsPart(list: SortedSet, id: nat, bound: nat)
    requires Increasing(list)
    ensures Increasing(SaveTo(list, id, bound)) && forall x :: x in SaveTo(list, id, bound) ==> x in list || x == id
  {
    ZAddSorts(list, id);
    TrimKeepsNewest(ZAdd(list, id), bound);
    NewestIsPart(ZAdd(list, id), bound);
  }

  lemma SaveKeepsKept(list: SortedSet, saved: SortedSet, last: nat, id: nat, bound: nat)
    requires Increasing(saved) && Agree(list, saved, bound) && Kept(list, saved, last, bound) && id !in saved
    ensures Kept(SaveTo(list, id, bound), ZAdd(saved, id), id, bound)
  {
    SaveToIsPart(list, id, bound);
    ZAddSorts(saved, id);
    SaveIsExactIff(list, saved, id, bound);
  }

  ghost predicate Inv(s: State, bounds: Key -> nat) {
    && (forall x :: x in s.taken ==> 1 <= x <= s.sequence)
    && forall key :: ListOk(s, key, bounds(key))
  }

  lemma AddingKeepsInv(s: State, key: Key, id: nat, bounds: Key -> nat)
    requires Inv(s, bounds) && id in s.taken
    ensures Inv(Adding(s, key, id, bounds(key)), bounds)
  {
    var t := Adding(s, key, id, bounds(key));
    var list, saved := At(s.lists, key), At(s.saved, key);
    assert ListOk(s, key, bounds(key));
    assert ListOk(t, key, bounds(key)) by {
      assert At(t.lists, key) == SaveTo(list, id, bounds(key)) && At(t.saved, key) == ZAdd(saved, id);
      ZAddSorts(saved, id);
      assert Issued(ZAdd(saved, id), t.sequence, t.taken);
      SaveKeepsAgreement(list, saved, id, bounds(key));
      SaveKeepsKept(list, saved, LastAdded(s, key), id, bounds(key));
    }
    forall other ensures ListOk(t, other, bounds(other)) {
      if other != key {
        assert ListOk(s, other, bounds(other));
        assert At(t.lists, other) == At(s.lists, other) && At(t.saved, other) == At(s.saved, other);
      }
    }
  }

  lemma TakingKeepsInv(s: State, bounds: Key -> nat)
    requires Inv(s, bounds)
    ensures Inv(Taking(s), bounds)
  {
    forall key ensures ListOk(Taking(s), key, bounds(key)) {
      assert ListOk(s, key, bounds(key));
    }
  }

  lemma StepKeepsInv(s: State, a: Action, bounds: Key -> nat)
    requires Inv(s, bounds) && Possible(s, a)
    ensures Inv(Step(s, a, bounds), bounds)
  {
    match a
    case Take => TakingKeepsInv(s, bounds);
    case Add(key, id) => AddingKeepsInv(s, key, id, bounds);
    case SaveAlone(key) => TakingKeepsInv(s, bounds); AddingKeepsInv(Taking(s), key, s.sequence + 1, bounds);
  }

  lemma {:induction false} RunKeepsInv(s: State, actions: seq<Action>, bounds: Key -> nat)
    requires Inv(s, bounds) && IsRun(s, actions, bounds)
    ensures Inv(Execute(s, actions, bounds), bounds)
    decreases |actions|
  {
    if actions != [] {
      StepKeepsInv(s, actions[0], bounds);
      RunKeepsInv(Step(s, actions[0], bounds), actions[1..], bounds);
    }
  }

  /** However saves overlap, no list ever misses one of its newest ids, and an unbounded list misses none. */
  lemma NewestAreNeverLost(actions: seq<Action>, bounds: Key -> nat, key: Key)
    requires IsRun(INITIAL, actions, bounds)
    ensures var s := Execute(INITIAL, actions, bounds);
            && Newest(At(s.lists, key), bounds(key)) == Newest(At(s.saved, key), bounds(key))
            && (bounds(key) == 0 ==> At(s.lists, key) == At(s.saved, key))
  {
    RunKeepsInv(INITIAL, actions, bounds);
    assert ListOk(Execute(INITIAL, actions, bounds), key, bounds(key));
  }

  /**
    However saves overlap, a list is exactly what should be retained if and only if there is no bound, no more ids were
    saved than it allows, or the id last added exceeds it: any excess goes with the next save of a larger id.
   */
  lemma ListIsExactIff(actions: seq<Action>, bounds: Key -> nat, key: Key)
    requires IsRun(INITIAL, actions, bounds)
    ensures var s := Execute(INITIAL, actions, bounds);
            At(s.lists, key) == Retained(At(s.saved, key), bounds(key))
            <==> bounds(key) == 0 || |At(s.saved, key)| <= bounds(key) || LastAdded(s, key) > bounds(key)
  {
    RunKeepsInv(INITIAL, actions, bounds);
    assert ListOk(Execute(INITIAL, actions, bounds), key, bounds(key));
  }

  // ------------------------------------------------------------------ serial saves

  predicate Serial(actions: seq<Action>) {
    forall i :: 0 <= i < |actions| ==> actions[i].SaveAlone?
  }

  /** What was last added to a list is the largest id saved to it. */
  ghost predicate LastIsLargest(s: State) {
    forall key, x :: x in At(s.saved, key) ==> x <= LastAdded(s, key)
  }

  /** Increasing positive ids below a limit cannot outnumber it. */
  lemma {:induction false} CountBelow(saved: SortedSet, limit: nat)
    requires Increasing(saved)
    requires forall x :: x in saved ==> 1 <= x <= limit
    ensures |saved| <= limit
    decreases limit
  {
    if saved != [] {
      var front := saved[..|saved| - 1];
      var last := saved[|saved| - 1];
      assert last in saved;
      forall x | x in front ensures 1 <= x <= limit - 1 {
        var i :| 0 <= i < |front| && front[i] == x;
        assert saved[i] < last && saved[i] in saved;
      }
      CountBelow(front, limit - 1);
    }
  }

  lemma SerialSaveAddsLargest(s: State, key: Key, bounds: Key -> nat)
    requires Inv(s, bounds) && LastIsLargest(s)
    ensures LastIsLargest(Step(s, SaveAlone(key), bounds))
  {
    var t := Step(s, SaveAlone(key), bounds);
    assert ListOk(s, key, bounds(key));
    ZAddSorts(At(s.saved, key), s.sequence + 1);
    forall other, x | x in At(t.saved, other) ensures x <= LastAdded(t, other) {
      if other != key {
        assert x in At(s.saved, other);
      }
    }
  }

  lemma {:induction false} SerialRunKeepsLargest(s: State, actions: seq<Action>, bounds: Key -> nat)
    requires Inv(s, bounds) && LastIsLargest(s) && Serial(actions)
    ensures IsRun(s, actions, bounds)
    ensures Inv(Execute(s, actions, bounds), bounds) && LastIsLargest(Execute(s, actions, bounds))
    decreases |actions|
  {
    if actions != [] {
      StepKeepsInv(s, actions[0], bounds);
      SerialSaveAddsLargest(s, actions[0].key, bounds);
      SerialRunKeepsLargest(Step(s, actions[0], bounds), actions[1..], bounds);
    }
  }

  /** Serial saves to any lists leave in each exactly the newest ids saved to it, as many as the bound allows. */
  lemma SerialListsAreExact(actions: seq<Action>, bounds: Key -> nat, key: Key)
    requires Serial(actions)
    ensures var s := Execute(INITIAL, actions, bounds);
            && At(s.lists, key) == Retained(At(s.saved, key), bounds(key))
            && (bounds(key) > 0 ==> |At(s.lists, key)| <= bounds(key))
  {
    SerialRunKeepsLargest(INITIAL, actions, bounds);
    var s := Execute(INITIAL, actions, bounds);
    assert ListOk(s, key, bounds(key));
    CountBelow(At(s.saved, key), LastAdded(s, key));
  }

  lemma {:induction false} ExecuteOne(s: State, a: Action, t: State, rest: seq<Action>, bounds: Key -> nat)
    requires Possible(s, a) && Step(s, a, bounds) == t && IsRun(t, rest, bounds)
    ensures IsRun(s, [a] + rest, bounds) && Execute(s, [a] + rest, bounds) == Execute(t, rest, bounds)
  {
    PartsOfConcat([a], rest);
  }

  lemma LateAddition(key: Key)
    ensures Adding(State(2, {1, 2}, map[], map[], map[]), key, 2, 1) == State(2, {1}, map[key := [2]], map[key := [2]], map[key := 2])
    ensures Adding(State(2, {1}, map[key := [2]], map[key := [2]], map[key := 2]), key, 1, 1)
            == State(2, {}, map[key := [1, 2]], map[key := [1, 2]], map[key := 1])
  {
    assert {1, 2} - {2} == {1};
    assert {1} - {1} == {};
    assert [2][..0] == [];
    assert ZAdd([], 2) == [2] && ZAdd([2], 1) == [1, 2];
  }

  /** Two overlapping saves can leave a list one longer than its bound: the later addition has the smaller id. */
  lemma OverlapCanExceedBound(key: Key)
    ensures var bounds := (k: Key) => 1;
            var run := [Take] + ([Take] + ([Add(key, 2)] + ([Add(key, 1)] + [])));
            IsRun(INITIAL, run, bounds) && At(Execute(INITIAL, run, bounds).lists, key) == [1, 2]
  {
    var bounds := (k: Key) => 1;
    var a := State(2, {1, 2}, map[], map[], map[]);
    var b := State(2, {1}, map[key := [2]], map[key := [2]], map[key := 2]);
    var c := State(2, {}, map[key := [1, 2]], map[key := [1, 2]], map[key := 1]);
    LateAddition(key);
    assert Taking(Taking(INITIAL)) == a;
    ExecuteOne(b, Add(key, 1), c, [], bounds);
    ExecuteOne(a, Add(key, 2), b, [Add(key, 1)] + [], bounds);
    ExecuteOne(Taking(INITIAL), Take, a, [Add(key, 2)] + ([Add(key, 1)] + []), bounds);
    ExecuteOne(INITIAL, Take, Taking(INITIAL), [Take] + ([Add(key, 2)] + ([Add(key, 1)] + [])), bounds);
  }

  // ------------------------------------------------------------------ reading

  function Within(s: SortedSet, min: Option<int>, max: Option<int>): SortedSet {
    if s == [] then []
    else
      var keep := (min.None? || min.value <= s[0]) && (max.None? || s[0] <= max.value);
      (if keep then [s[0]] else []) + Within(s[1..], min, max)
  }

  /** The first page of ids in either order. A bound that is not positive asks for nothing. */
  function Listing(s: SortedSet, min: Option<int>, max: Option<int>, descending: bool, limit: nat): seq<nat> {
    if (min.Some? && min.value <= 0) || (max.Some? && max.value <= 0) then []
    else
      var found := Within(s, min, max);
      if descending then Reversed(Newest(found, limit))
      else if |found| <= limit then found else found[..limit]
  }

  lemma {:induction false} WithinAll(s: SortedSet)
    ensures Within(s, None, None) == s
  {
    if s != [] { WithinAll(s[1..]); }
  }

  /** Asking for the newest few, no more than the bound, gives the newest ever saved, whatever saves have overlapped. */
  lemma NewestListingIsComplete(actions: seq<Action>, bounds: Key -> nat, key: Key, limit: nat)
    requires IsRun(INITIAL, actions, bounds)
    requires bounds(key) == 0 || limit <= bounds(key)
    ensures var s := Execute(INITIAL, actions, bounds);
            Listing(At(s.lists, key), None, None, true, limit) == Reversed(Newest(At(s.saved, key), limit))
  {
    var s := Execute(INITIAL, actions, bounds);
    NewestAreNeverLost(actions, bounds, key);
    WithinAll(At(s.lists, key));
    if bounds(key) != 0 {
      NewestTwice(At(s.lists, key), limit, bounds(key));
      NewestTwice(At(s.saved, key), limit, bounds(key));
    }
  }

  // ------------------------------------------------------------------ the commands

  /** Adds an id to a sorted set and trims it. */
  method AddToList(list: SortedSet, id: nat, bound: nat) returns (r: SortedSet)
    ensures r == SaveTo(list, id, bound)
  {
    r := ZAdd(list, id);
    if bound != 0 && id > bound {
      r := ZRemRangeByRank(r, 0, -(bound + 1));
    }
  }

  /** The Redis side of a model class: its sequence and its lists. */
  class RedisModel {
    var sequence: nat
    var lists: map<Key, SortedSet>
    ghost var history: State

    ghost predicate Valid()
      reads this
    {
      sequence == history.sequence && lists == history.lists
    }

    constructor ()
      ensures Valid() && history == INITIAL
    {
      sequence, lists, history := 0, map[], INITIAL;
    }

    method Save(key: Key, bounds: Key -> nat) returns (id: nat)
      requires Valid()
      modifies this
      ensures Valid() && id == old(sequence) + 1
      ensures history == Step(old(history), SaveAlone(key), bounds)
    {
      sequence := sequence + 1;
      id := sequence;
      var list := AddToList(At(lists, key), id, bounds(key));
      lists := lists[key := list];
      history := Step(history, SaveAlone(key), bounds);
    }
  }
}
