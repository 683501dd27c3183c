/**
  The subscription timeline of one admin: date ranges that are created, closed, extended and deleted by subscribing to
  a plan and by cancelling. A change of a paid plan starts with the next month, one hour of grace included, so the
  last hour of a month counts as the first day of the next one.
 */
module Subscriptions {
  import opened Prelude

  // ------------------------------------------------------------------ the calendar

  /** Months are numbered from January of year 0; days from 1. */
  datatype Date = Date(month: nat, day: nat)

  datatype Instant = Instant(date: Date, hour: nat)

  predicate Leap(year: nat) {
    year % 4 == 0 && (year % 100 != 0 || year % 400 == 0)
  }

  function DaysIn(month: nat): nat {
    var m := month % 12;
    if m == 1 then (if Leap(month / 12) then 29 else 28)
    else if m == 3 || m == 5 || m == 8 || m == 10 then 30
    else 31
  }

  predicate ValidDate(d: Date) {
    1 <= d.day <= DaysIn(d.month)
  }

  predicate ValidInstant(now: Instant) {
    ValidDate(now.date) && now.hour < 24
  }

  predicate Earlier(a: Date, b: Date) {
    a.month < b.month || (a.month == b.month && a.day < b.day)
  }

  predicate NotAfter(a: Date, b: Date) {
    a == b || Earlier(a, b)
  }

  function NextDay(d: Date): Date {
    if d.day < DaysIn(d.month) then Date(d.month, d.day + 1) else Date(d.month + 1, 1)
  }

  function AddDays(d: Date, days: nat): Date {
    if days == 0 then d else NextDay(AddDays(d, days - 1))
  }

  function NextMonthStart(d: Date): Date {
    Date(d.month + 1, 1)
  }

  /** The date one hour from now. */
  function GraceDate(now: Instant): Date {
    if now.hour == 23 then NextDay(now.date) else now.date
  }

  predicate NoLater(a: Instant, b: Instant) {
    Earlier(a.date, b.date) || (a.date == b.date && a.hour <= b.hour)
  }

  lemma GraceMonotone(a: Instant, b: Instant)
    requires ValidInstant(a) && ValidInstant(b) && NoLater(a, b)
    ensures NotAfter(GraceDate(a), GraceDate(b)) && NotAfter(a.date, b.date)
  {
  }

  lemma GraceIsNotEarlier(now: Instant)
    requires ValidInstant(now)
    ensures NotAfter(now.date, GraceDate(now)) && ValidDate(GraceDate(now))
  {
  }

  lemma {:induction false} AddDaysIsLater(d: Date, days: nat)
    requires ValidDate(d)
    ensures ValidDate(AddDays(d, days)) && (if days == 0 then AddDays(d, days) == d else Earlier(d, AddDays(d, days)))
  {
    if days > 0 { AddDaysIsLater(d, days - 1); }
  }

  // ------------------------------------------------------------------ subscriptions

  datatype Plan = Plan(id: nat, paid: bool)

  /** A range from a date until a date, exclusive, or for ever. The database keeps no bounds of an empty range. */
  datatype Range = Empty | Since(start: Date, end: Option<Date>)

  datatype Sub = Sub(id: nat, plan: Plan, commitment: nat, range: Range)

  datatype State = State(now: Instant, subs: seq<Sub>, nextId: nat)

  datatype Error = PaymentFailed | CannotCancelUnpaid | NotFound | Ambiguous | BadRange

  function MakeRange(start: Date, end: Option<Date>): Result<Range, Error> {
    if end == Some(start) then Success(Empty)
    else if end.Some? && Earlier(end.value, start) then Failure(BadRange)
    else Success(Since(start, end))
  }

  predicate Contains(r: Range, d: Date) {
    r.Since? && NotAfter(r.start, d) && (r.end.None? || Earlier(d, r.end.value))
  }

  predicate Overlap(a: Range, b: Range) {
    && a.Since? && b.Since?
    && (a.end.None? || Earlier(b.start, a.end.value))
    && (b.end.None? || Earlier(a.start, b.end.value))
  }

  predicate Disjoint(subs: seq<Sub>) {
    forall i, j :: 0 <= i < j < |subs| ==> !Overlap(subs[i].range, subs[j].range)
  }

  function Active(subs: seq<Sub>, d: Date): seq<Sub> {
    if subs == [] then []
    else
      var last := subs[|subs| - 1];
      Active(subs[..|subs| - 1], d) + if Contains(last.range, d) then [last] else []
  }

  function WithRange(subs: seq<Sub>, id: nat, range: Range): (r: seq<Sub>)
    ensures |r| == |subs|
    ensures forall i :: 0 <= i < |subs| ==> r[i] == if subs[i].id == id then subs[i].(range := range) else subs[i]
  {
    seq(|subs|, i requires 0 <= i < |subs| => if subs[i].id == id then subs[i].(range := range) else subs[i])
  }

  predicate StartsOn(sub: Sub, d: Date) {
    sub.range.Since? && sub.range.start == d
  }

  function WithoutStarting(subs: seq<Sub>, d: Date): seq<Sub> {
    if subs == [] then []
    else
      var last := subs[|subs| - 1];
      WithoutStarting(subs[..|subs| - 1], d) + if StartsOn(last, d) then [] else [last]
  }

  /** Closes the current subscription, if any, and creates the new one without an end. */
  function CloseAndCreate(s: State, subs: seq<Sub>, current: Option<Sub>, start: Date, plan: Plan, commitment: nat)
    : Result<State, Error>
    requires current.Some? ==> current.value.range.Since?
  {
    var created := Sub(s.nextId, plan, commitment, Since(start, None));
    if current.None? then Success(State(s.now, subs + [created], s.nextId + 1))
    else
      var closed := MakeRange(current.value.range.start, Some(start));
      if closed.Failure? then Failure(closed.error)
      else Success(State(s.now, WithRange(subs, current.value.id, closed.value) + [created], s.nextId + 1))
  }

  /**
    The last subscription is extended if it is what is asked for; otherwise the current one is followed by another.
    An empty last range has no start to keep: the code would save a range without bounds. It fails here, and
    `SubscribeIsDisjointIff` shows that the last range is never empty.
   */
  function FollowUp(s: State, subs: seq<Sub>, current: Sub, start: Date, plan: Plan, commitment: nat)
    : Result<State, Error>
    requires current.range.Since?
  {
    if subs == [] then Failure(NotFound)
    else
      var last := subs[|subs| - 1];
      if last.plan == plan && last.commitment == commitment then
        if last.range.Empty? then Failure(BadRange)
        else Success(s.(subs := WithRange(subs, last.id, Since(last.range.start, None))))
      else CloseAndCreate(s, subs, Some(current), start, plan, commitment)
  }

  lemma {:induction false} ActiveContain(subs: seq<Sub>, d: Date)
    ensures forall i :: 0 <= i < |Active(subs, d)| ==> Active(subs, d)[i] in subs && Contains(Active(subs, d)[i].range, d)
  {
    if subs != [] { ActiveContain(subs[..|subs| - 1], d); }
  }

  /** `charged` tells whether the fee of a plan that starts at once could be collected. */
  function Subscribe(s: State, plan: Plan, commitment: nat, charged: bool): Result<State, Error> {
    var active := Active(s.subs, s.now.date);
    ActiveContain(s.subs, s.now.date);
    if |active| > 1 then Failure(Ambiguous)
    else if |active| == 1 && active[0].plan.paid then
      var start := NextMonthStart(GraceDate(s.now));
      FollowUp(s, WithoutStarting(s.subs, start), active[0], start, plan, commitment)
    else if !charged then Failure(PaymentFailed)
    else CloseAndCreate(s, s.subs, if active == [] then None else Some(active[0]), s.now.date, plan, commitment)
  }

  /**
    The subscription in place i, if it has not ended. An empty range has no start, and the code would compare nothing
    with a date; it fails here, and `CancelKeepsInv` shows that the range of a paid subscription is never empty.
   */
  function Cancel(s: State, i: nat): Result<State, Error> {
    if i >= |s.subs| then Failure(NotFound)
    else
      var sub := s.subs[i];
      var grace := GraceDate(s.now);
      if sub.range.Since? && sub.range.end.Some? && NotAfter(sub.range.end.value, s.now.date) then Failure(NotFound)
      else if !sub.plan.paid then Failure(CannotCancelUnpaid)
      else if sub.range.Empty? then Failure(BadRange)
      else if sub.range.end.Some? then Success(s)
      else if NotAfter(sub.range.start, grace) then
        var range := MakeRange(sub.range.start, Some(NextMonthStart(grace)));
        Success(s.(subs := WithRange(s.subs, sub.id, range.value)))
      else Success(s.(subs := s.subs[..i] + s.subs[i + 1..]))
  }

  // ------------------------------------------------------------------ runs

  datatype Action =
    | Wait(until: Instant)
    | Subscribing(plan: Plan, commitment: nat, charged: bool)
    | Cancelling(i: nat)

  /** A new admin gets an unpaid plan, for a number of days or for ever. */
  function Init(now: Instant, plan: Plan, trialDays: Option<nat>): State {
    var end := if trialDays.Some? && trialDays.value > 0 then Some(AddDays(now.date, trialDays.value)) else None;
    State(now, [Sub(0, plan, 0, Since(now.date, end))], 1)
  }

  predicate Possible(s: State, a: Action) {
    a.Wait? ==> ValidInstant(a.until) && NoLater(s.now, a.until)
  }

  /** A refused request changes nothing. */
  function Step(s: State, a: Action): State {
    match a
    case Wait(until) => s.(now := until)
    case Subscribing(plan, commitment, charged) =>
      var r := Subscribe(s, plan, commitment, charged); if r.Success? then r.value else s
    case Cancelling(i) =>
      var r := Cancel(s, i); if r.Success? then r.value else s
  }

  /** A subscription that has yet to start. */
  predicate Pending(sub: Sub, today: Date) {
    sub.range.Since? && Earlier(today, sub.range.start)
  }

  /** The request changes a plan in the hour before a subscription to another plan is due to start. */
  predicate Conflict(s: State, plan: Plan, commitment: nat) {
    && s.subs != []
    && var last := s.subs[|s.subs| - 1];
       && Pending(last, s.now.date)
       && NotAfter(last.range.start, GraceDate(s.now))
       && !(last.plan == plan && last.commitment == commitment)
  }

  predicate Prudent(s: State, a: Action) {
    a.Subscribing? ==> !Conflict(s, a.plan, a.commitment)
  }

  predicate IsRun(s: State, actions: seq<Action>)
    decreases |actions|
  {
    actions == []
    || (Possible(s, actions[0]) && Prudent(s, actions[0]) && IsRun(Step(s, actions[0]), actions[1..]))
  }

  function Execute(s: State, actions: seq<Action>): State
    decreases |actions|
  {
    if actions == [] then s else Execute(Step(s, actions[0]), actions[1..])
  }

  // ------------------------------------------------------------------ what every step keeps

  predicate Proper(r: Range) {
    r.Since? && r.end.Some? ==> Earlier(r.start, r.end.value)
  }

  /** The first range ends no later than the second begins. */
  predicate Precedes(a: Range, b: Range) {
    a.Since? && b.Since? ==> a.end.Some? && NotAfter(a.end.value, b.start)
  }

  predicate Chained(subs: seq<Sub>) {
    && (forall i :: 0 <= i < |subs| ==> Proper(subs[i].range))
    && (forall i, j :: 0 <= i < j < |subs| ==> Precedes(subs[i].range, subs[j].range))
  }

  predicate IdsOk(subs: seq<Sub>, nextId: nat) {
    && (forall i :: 0 <= i < |subs| ==> subs[i].id < nextId)
    && (forall i, j :: 0 <= i < j < |subs| ==> subs[i].id != subs[j].id)
  }

  /** It is the last subscription, and starts with a month, where the paid and started one before it ends. */
  predicate Follows(subs: seq<Sub>, i: nat, now: Instant)
    requires i < |subs| && subs[i].range.Since?
  {
    && i == |subs| - 1 && i > 0
    && subs[i].range.start.day == 1
    && NotAfter(subs[i].range.start, NextMonthStart(GraceDate(now)))
    && subs[i - 1].plan.paid
    && subs[i - 1].range.Since?
    && NotAfter(subs[i - 1].range.start, now.date)
    && subs[i - 1].range.end == Some(subs[i].range.start)
  }

  /** Only the last subscription may be pending. */
  predicate PendingOk(subs: seq<Sub>, now: Instant) {
    forall i :: 0 <= i < |subs| && Pending(subs[i], now.date) ==> Follows(subs, i, now)
  }

  predicate EmptyOk(subs: seq<Sub>) {
    && subs != []
    && subs[|subs| - 1].range.Since?
    && forall i :: 0 <= i < |subs| && subs[i].range.Empty? ==> !subs[i].plan.paid
  }

  predicate Inv(s: State) {
    && ValidInstant(s.now)
    && Chained(s.subs)
    && IdsOk(s.subs, s.nextId)
    && PendingOk(s.subs, s.now)
    && EmptyOk(s.subs)
  }

  lemma ChainedIsDisjoint(subs: seq<Sub>)
    requires Chained(subs)
    ensures Disjoint(subs)
  {
    forall i, j | 0 <= i < j < |subs| ensures !Overlap(subs[i].range, subs[j].range) {
      assert Precedes(subs[i].range, subs[j].range);
    }
  }

  /** Disjoint ranges cannot both contain a date. */
  lemma OneContains(subs: seq<Sub>, d: Date, i: nat, j: nat)
    requires Disjoint(subs) && i < |subs| && j < |subs|
    requires Contains(subs[i].range, d) && Contains(subs[j].range, d)
    ensures i == j
  {
  }

  lemma {:induction false} NoneActive(subs: seq<Sub>, d: Date)
    requires forall i :: 0 <= i < |subs| ==> !Contains(subs[i].range, d)
    ensures Active(subs, d) == []
  {
    if subs != [] { NoneActive(subs[..|subs| - 1], d); }
  }

  lemma {:induction false} ActiveIs(subs: seq<Sub>, d: Date, k: nat)
    requires k < |subs| && Contains(subs[k].range, d)
    requires forall i :: 0 <= i < |subs| && Contains(subs[i].range, d) ==> i == k
    ensures Active(subs, d) == [subs[k]]
  {
    var n := |subs| - 1;
    if k == n {
      NoneActive(subs[..n], d);
    } else {
      ActiveIs(subs[..n], d, k);
    }
  }

  /** With disjoint ranges, at most one subscription is active on any date. */
  lemma AtMostOneActive(subs: seq<Sub>, d: Date)
    requires Disjoint(subs)
    ensures |Active(subs, d)| <= 1
  {
    if k :| 0 <= k < |subs| && Contains(subs[k].range, d) {
      forall i | 0 <= i < |subs| && Contains(subs[i].range, d) ensures i == k {
        OneContains(subs, d, i, k);
      }
      ActiveIs(subs, d, k);
    } else {
      NoneActive(subs, d);
    }
  }

  lemma WaitKeepsInv(s: State, until: Instant)
    requires Inv(s) && ValidInstant(until) && NoLater(s.now, until)
    ensures Inv(s.(now := until))
  {
    GraceMonotone(s.now, until);
    forall i | 0 <= i < |s.subs| && Pending(s.subs[i], until.date) ensures Follows(s.subs, i, until) {
      StillFollows(s.subs, i, s.now, until);
    }
  }

  lemma StillFollows(subs: seq<Sub>, i: nat, now: Instant, until: Instant)
    requires PendingOk(subs, now) && i < |subs| && Pending(subs[i], until.date)
    requires NotAfter(GraceDate(now), GraceDate(until)) && NotAfter(now.date, until.date)
    ensures Follows(subs, i, until)
  {
    assert Pending(subs[i], now.date);
    assert Follows(subs, i, now);
  }

  // ------------------------------------------------------------------ where the current subscription is

  lemma BeforePendingIsActive(s: State)
    requires Inv(s) && Pending(s.subs[|s.subs| - 1], s.now.date)
    ensures |s.subs| >= 2 && Contains(s.subs[|s.subs| - 2].range, s.now.date) && s.subs[|s.subs| - 2].plan.paid
  {
  }

  lemma CurrentIsLastOrNext(s: State, c: nat)
    requires Inv(s) && c < |s.subs| && Contains(s.subs[c].range, s.now.date)
    ensures c == |s.subs| - 1 || (c == |s.subs| - 2 && Pending(s.subs[|s.subs| - 1], s.now.date))
  {
    var n := |s.subs|;
    if c < n - 1 {
      assert Precedes(s.subs[c].range, s.subs[n - 1].range);
      BeforePendingIsActive(s);
      ChainedIsDisjoint(s.subs);
      OneContains(s.subs, s.now.date, c, n - 2);
    }
  }

  lemma TheActive(s: State)
    requires Inv(s)
    ensures var active := Active(s.subs, s.now.date);
            && |active| <= 1
            && (active == [] ==> forall i :: 0 <= i < |s.subs| ==> !Contains(s.subs[i].range, s.now.date))
            && (active != [] ==> exists c :: 0 <= c < |s.subs| && Contains(s.subs[c].range, s.now.date) && s.subs[c] == active[0])
  {
    var d := s.now.date;
    ChainedIsDisjoint(s.subs);
    AtMostOneActive(s.subs, d);
    ActiveContain(s.subs, d);
    var active := Active(s.subs, d);
    if active == [] {
      forall i | 0 <= i < |s.subs| ensures !Contains(s.subs[i].range, d) {
        if Contains(s.subs[i].range, d) {
          forall j | 0 <= j < |s.subs| && Contains(s.subs[j].range, d) ensures j == i {
            OneContains(s.subs, d, i, j);
          }
          ActiveIs(s.subs, d, i);
        }
      }
    } else {
      assert active[0] in s.subs;
    }
  }

  /** A pending subscription starts either where a new one would, or within the hour of grace. */
  lemma PendingStart(s: State)
    requires Inv(s) && Pending(s.subs[|s.subs| - 1], s.now.date)
    ensures var start := s.subs[|s.subs| - 1].range.start;
            start == NextMonthStart(GraceDate(s.now)) <==> !NotAfter(start, GraceDate(s.now))
  {
    GraceIsNotEarlier(s.now);
  }

  lemma {:induction false} WithoutStartingNone(subs: seq<Sub>, d: Date)
    requires forall i :: 0 <= i < |subs| ==> !StartsOn(subs[i], d)
    ensures WithoutStarting(subs, d) == subs
  {
    if subs != [] { WithoutStartingNone(subs[..|subs| - 1], d); }
  }

  lemma WithoutStartingLast(subs: seq<Sub>, d: Date)
    requires subs != [] && StartsOn(subs[|subs| - 1], d)
    requires forall i :: 0 <= i < |subs| - 1 ==> !StartsOn(subs[i], d)
    ensures WithoutStarting(subs, d) == subs[..|subs| - 1]
  {
    WithoutStartingNone(subs[..|subs| - 1], d);
  }

  lemma WithRangeLast(subs: seq<Sub>, nextId: nat, range: Range)
    requires subs != [] && IdsOk(subs, nextId)
    ensures var n := |subs| - 1;
            WithRange(subs, subs[n].id, range) == subs[..n] + [subs[n].(range := range)]
  {
  }

  // ------------------------------------------------------------------ changing the end of the timeline

  predicate EarlierSubs(subs: seq<Sub>, d: Date) {
    forall i :: 0 <= i < |subs| && subs[i].range.Since? ==> subs[i].range.end.Some? && NotAfter(subs[i].range.end.value, d)
  }

  /** Adding a subscription that begins when all others have ended. */
  lemma AppendChained(subs: seq<Sub>, sub: Sub)
    requires Chained(subs) && Proper(sub.range) && sub.range.Since? && EarlierSubs(subs, sub.range.start)
    ensures Chained(subs + [sub])
  {
    var all := subs + [sub];
    forall i, j | 0 <= i < j < |all| ensures Precedes(all[i].range, all[j].range) {
      if j < |subs| {
        assert Precedes(subs[i].range, subs[j].range);
      }
    }
  }

  lemma ChainedPrefix(subs: seq<Sub>, n: nat)
    requires Chained(subs) && n <= |subs|
    ensures Chained(subs[..n])
  {
    forall i, j | 0 <= i < j < n ensures Precedes(subs[..n][i].range, subs[..n][j].range) {
      assert Precedes(subs[i].range, subs[j].range);
    }
  }

  /** A last range that keeps its start, or becomes empty, still follows the others. */
  lemma ReplaceLastChained(subs: seq<Sub>, range: Range)
    requires Chained(subs) && subs != [] && subs[|subs| - 1].range.Since? && Proper(range)
    requires range.Since? ==> range.start == subs[|subs| - 1].range.start
    ensures var n := |subs| - 1; Chained(subs[..n] + [subs[n].(range := range)])
  {
    var n := |subs| - 1;
    var all := subs[..n] + [subs[n].(range := range)];
    forall i, j | 0 <= i < j < |all| ensures Precedes(all[i].range, all[j].range) {
      assert Precedes(subs[i].range, subs[j].range);
    }
  }

  lemma EndedBefore(subs: seq<Sub>, d: Date)
    requires Chained(subs) && subs != [] && subs[|subs| - 1].range.Since? && NotAfter(subs[|subs| - 1].range.start, d)
    ensures EarlierSubs(subs[..|subs| - 1], d)
  {
    forall i | 0 <= i < |subs| - 1 && subs[i].range.Since?
      ensures subs[i].range.end.Some? && NotAfter(subs[i].range.end.value, d)
    {
      assert Precedes(subs[i].range, subs[|subs| - 1].range);
    }
  }

  /** Closing the last subscription on a date and creating the next on that date. */
  lemma CloseAndCreateChained(subs: seq<Sub>, closed: Range, created: Sub)
    requires Chained(subs) && subs != [] && subs[|subs| - 1].range.Since?
    requires created.range.Since? && created.range.end.None?
    requires NotAfter(subs[|subs| - 1].range.start, created.range.start)
    requires MakeRange(subs[|subs| - 1].range.start, Some(created.range.start)) == Success(closed)
    ensures var n := |subs| - 1; Chained(subs[..n] + [subs[n].(range := closed)] + [created])
  {
    var n := |subs| - 1;
    var replaced := subs[..n] + [subs[n].(range := closed)];
    ReplaceLastChained(subs, closed);
    EndedBefore(subs, created.range.start);
    assert EarlierSubs(replaced, created.range.start) by {
      forall i | 0 <= i < |replaced| && replaced[i].range.Since?
        ensures replaced[i].range.end.Some? && NotAfter(replaced[i].range.end.value, created.range.start)
      {
        if i < n {
          assert replaced[i] == subs[..n][i];
        }
      }
    }
    AppendChained(replaced, created);
  }

  lemma OnlyLastPending(s: State, i: nat)
    requires Inv(s) && i < |s.subs| - 1
    ensures !Pending(s.subs[i], s.now.date)
  {
  }

  lemma NothingPending(subs: seq<Sub>, now: Instant)
    requires NonePending(subs, now.date)
    ensures PendingOk(subs, now)
  {
  }

  predicate NonePending(subs: seq<Sub>, today: Date) {
    forall i :: 0 <= i < |subs| ==> !Pending(subs[i], today)
  }

  /** What is left of a timeline once nothing is pending, ready for a change at its end. */
  predicate Ready(subs: seq<Sub>, now: Instant, nextId: nat) {
    && ValidInstant(now)
    && Chained(subs)
    && IdsOk(subs, nextId)
    && NonePending(subs, now.date)
    && EmptyOk(subs)
  }

  function ReplaceLast(subs: seq<Sub>, range: Range): seq<Sub>
    requires subs != []
  {
    subs[..|subs| - 1] + [subs[|subs| - 1].(range := range)]
  }

  lemma ReplaceLastIds(subs: seq<Sub>, range: Range, nextId: nat, created: Sub)
    requires subs != [] && IdsOk(subs, nextId) && created.id == nextId
    ensures IdsOk(ReplaceLast(subs, range), nextId) && IdsOk(ReplaceLast(subs, range) + [created], nextId + 1)
  {
    var replaced := ReplaceLast(subs, range);
    assert forall i :: 0 <= i < |subs| ==> replaced[i].id == subs[i].id;
  }

  lemma ExtendLast(subs: seq<Sub>, now: Instant, nextId: nat)
    requires Ready(subs, now, nextId)
    ensures Inv(State(now, ReplaceLast(subs, Since(subs[|subs| - 1].range.start, None)), nextId))
  {
    var last := subs[|subs| - 1];
    var range := Since(last.range.start, None);
    ReplaceLastIds(subs, range, nextId, last.(id := nextId));
    ReplaceLastChained(subs, range);
    NothingPending(ReplaceLast(subs, range), now);
  }

  /** The last subscription is closed where the created one starts: today, or next month if the last one is paid. */
  lemma CloseLast(subs: seq<Sub>, now: Instant, nextId: nat, created: Sub, closed: Range)
    requires Ready(subs, now, nextId) && created.id == nextId
    requires created.range.Since? && created.range.end.None?
    requires MakeRange(subs[|subs| - 1].range.start, Some(created.range.start)) == Success(closed)
    requires if subs[|subs| - 1].plan.paid then created.range.start == NextMonthStart(GraceDate(now))
             else created.range.start == now.date
    ensures Inv(State(now, ReplaceLast(subs, closed) + [created], nextId + 1))
  {
    var last := subs[|subs| - 1];
    var all := ReplaceLast(subs, closed) + [created];
    GraceIsNotEarlier(now);
    assert !Pending(last, now.date);
    ReplaceLastIds(subs, closed, nextId, created);
    CloseAndCreateChained(subs, closed, created);
    OnlyCreatedPending(subs, now, created, closed);
    assert forall i :: 0 <= i < |subs| - 1 ==> all[i] == subs[i];
  }

  lemma OnlyCreatedPending(subs: seq<Sub>, now: Instant, created: Sub, closed: Range)
    requires subs != [] && NonePending(subs, now.date) && subs[|subs| - 1].range.Since? && created.range.Since?
    requires ValidInstant(now)
    requires MakeRange(subs[|subs| - 1].range.start, Some(created.range.start)) == Success(closed)
    requires if subs[|subs| - 1].plan.paid then created.range.start == NextMonthStart(GraceDate(now))
             else created.range.start == now.date
    ensures PendingOk(ReplaceLast(subs, closed) + [created], now)
  {
    var n := |subs|;
    var all := ReplaceLast(subs, closed) + [created];
    GraceIsNotEarlier(now);
    forall i | 0 <= i < n ensures !Pending(all[i], now.date) {
      assert !Pending(subs[i], now.date);
      assert i < n - 1 ==> all[i] == subs[i];
    }
    if Pending(all[n], now.date) {
      assert !Pending(subs[n - 1], now.date);
      assert Follows(all, n, now);
    }
  }

  /** Without a current subscription the new one starts today. */
  lemma CreateToday(subs: seq<Sub>, now: Instant, nextId: nat, created: Sub)
    requires Ready(subs, now, nextId) && created.id == nextId && created.range == Since(now.date, None)
    requires !Contains(subs[|subs| - 1].range, now.date)
    ensures Inv(State(now, subs + [created], nextId + 1))
  {
    var n := |subs|;
    assert !Pending(subs[n - 1], now.date);
    EndedBefore(subs, now.date);
    assert EarlierSubs(subs, now.date) by {
      assert forall i :: 0 <= i < n - 1 ==> subs[i] == subs[..n - 1][i];
    }
    AppendChained(subs, created);
    NothingPending(subs + [created], now);
  }

  lemma NoPendingReady(s: State)
    requires Inv(s) && !Pending(s.subs[|s.subs| - 1], s.now.date)
    ensures Ready(s.subs, s.now, s.nextId)
  {
    forall i | 0 <= i < |s.subs| ensures !Pending(s.subs[i], s.now.date) {
      if i < |s.subs| - 1 {
        OnlyLastPending(s, i);
      }
    }
  }

  /** Deleting a pending subscription leaves the paid one before it last. */
  lemma PrefixReady(s: State)
    requires Inv(s) && Pending(s.subs[|s.subs| - 1], s.now.date)
    ensures |s.subs| >= 2 && Ready(s.subs[..|s.subs| - 1], s.now, s.nextId)
  {
    BeforePendingIsActive(s);
    var n := |s.subs| - 1;
    ChainedPrefix(s.subs, n);
    forall i | 0 <= i < n ensures !Pending(s.subs[..n][i], s.now.date) {
      OnlyLastPending(s, i);
    }
  }

  lemma UnpaidCurrentIsLast(s: State)
    requires Inv(s)
    requires var active := Active(s.subs, s.now.date); active == [] || !active[0].plan.paid
    ensures !Pending(s.subs[|s.subs| - 1], s.now.date)
  {
    var n := |s.subs|;
    if Pending(s.subs[n - 1], s.now.date) {
      BeforePendingIsActive(s);
      ChainedIsDisjoint(s.subs);
      forall i | 0 <= i < n && Contains(s.subs[i].range, s.now.date) ensures i == n - 2 {
        OneContains(s.subs, s.now.date, i, n - 2);
      }
      ActiveIs(s.subs, s.now.date, n - 2);
    }
  }

  lemma SubscribeUnpaid(s: State, plan: Plan, commitment: nat)
    requires |Active(s.subs, s.now.date)| <= 1
    requires var active := Active(s.subs, s.now.date); active == [] || !active[0].plan.paid
    ensures var active := Active(s.subs, s.now.date);
            && (active == [] ==>
                  Subscribe(s, plan, commitment, true) == CloseAndCreate(s, s.subs, None, s.now.date, plan, commitment))
            && (active != [] ==>
                  && active[0].range.Since?
                  && Subscribe(s, plan, commitment, true)
                     == CloseAndCreate(s, s.subs, Some(active[0]), s.now.date, plan, commitment))
  {
    ActiveContain(s.subs, s.now.date);
  }

  /** The last subscription, unpaid and current, is closed today. */
  lemma CloseToday(s: State, plan: Plan, commitment: nat)
    requires Ready(s.subs, s.now, s.nextId) && !s.subs[|s.subs| - 1].plan.paid
    ensures var r := CloseAndCreate(s, s.subs, Some(s.subs[|s.subs| - 1]), s.now.date, plan, commitment);
            r.Success? && Inv(r.value)
  {
    var last := s.subs[|s.subs| - 1];
    var created := Sub(s.nextId, plan, commitment, Since(s.now.date, None));
    assert !Pending(last, s.now.date);
    var closed := MakeRange(last.range.start, Some(s.now.date)).value;
    WithRangeLast(s.subs, s.nextId, closed);
    CloseLast(s.subs, s.now, s.nextId, created, closed);
  }

  /** Without a current subscription, or with an unpaid one, the new plan starts today. */
  lemma SubscribeAtOnce(s: State, plan: Plan, commitment: nat)
    requires Inv(s)
    requires var active := Active(s.subs, s.now.date); active == [] || !active[0].plan.paid
    ensures var r := Subscribe(s, plan, commitment, true); r.Success? && Inv(r.value)
  {
    TheActive(s);
    SubscribeUnpaid(s, plan, commitment);
    UnpaidCurrentIsLast(s);
    NoPendingReady(s);
    if Active(s.subs, s.now.date) == [] {
      CreateToday(s.subs, s.now, s.nextId, Sub(s.nextId, plan, commitment, Since(s.now.date, None)));
    } else {
      CurrentIsLast(s);
      CloseToday(s, plan, commitment);
    }
  }

  lemma CurrentIsLast(s: State)
    requires Inv(s) && !Pending(s.subs[|s.subs| - 1], s.now.date) && Active(s.subs, s.now.date) != []
    ensures Active(s.subs, s.now.date)[0] == s.subs[|s.subs| - 1]
  {
    TheActive(s);
    var c :| 0 <= c < |s.subs| && Contains(s.subs[c].range, s.now.date) && s.subs[c] == Active(s.subs, s.now.date)[0];
    CurrentIsLastOrNext(s, c);
  }

  /** A subscription is pending and starts within the hour of grace. */
  predicate NearPending(s: State) {
    s.subs != [] && Pending(s.subs[|s.subs| - 1], s.now.date) && NotAfter(s.subs[|s.subs| - 1].range.start, GraceDate(s.now))
  }

  /** The subscriptions that are left when the one yet to start is deleted. */
  function Base(s: State): seq<Sub>
    requires s.subs != []
  {
    if Pending(s.subs[|s.subs| - 1], s.now.date) then s.subs[..|s.subs| - 1] else s.subs
  }

  lemma NotPendingStarts(s: State, sub: Sub)
    requires ValidInstant(s.now) && !Pending(sub, s.now.date)
    ensures !StartsOn(sub, NextMonthStart(GraceDate(s.now)))
  {
    GraceIsNotEarlier(s.now);
  }

  lemma BaseOf(s: State)
    requires Inv(s) && !NearPending(s)
    requires var active := Active(s.subs, s.now.date); active != [] && active[0].plan.paid
    ensures var base := Base(s);
            && WithoutStarting(s.subs, NextMonthStart(GraceDate(s.now))) == base
            && base != [] && base[|base| - 1] == Active(s.subs, s.now.date)[0]
            && Ready(base, s.now, s.nextId)
  {
    var n := |s.subs|;
    TheActive(s);
    var c :| 0 <= c < n && Contains(s.subs[c].range, s.now.date) && s.subs[c] == Active(s.subs, s.now.date)[0];
    CurrentIsLastOrNext(s, c);
    if Pending(s.subs[n - 1], s.now.date) {
      PrefixReady(s);
      PendingIsDeleted(s);
    } else {
      NoPendingReady(s);
      NothingIsDeleted(s);
    }
  }

  lemma PendingIsDeleted(s: State)
    requires Inv(s) && !NearPending(s) && Pending(s.subs[|s.subs| - 1], s.now.date)
    ensures WithoutStarting(s.subs, NextMonthStart(GraceDate(s.now))) == s.subs[..|s.subs| - 1]
  {
    var d := NextMonthStart(GraceDate(s.now));
    PendingStart(s);
    forall i | 0 <= i < |s.subs| - 1 ensures !StartsOn(s.subs[i], d) {
      OnlyLastPending(s, i);
      NotPendingStarts(s, s.subs[i]);
    }
    WithoutStartingLast(s.subs, d);
  }

  lemma NothingIsDeleted(s: State)
    requires ValidInstant(s.now) && NonePending(s.subs, s.now.date)
    ensures WithoutStarting(s.subs, NextMonthStart(GraceDate(s.now))) == s.subs
  {
    var d := NextMonthStart(GraceDate(s.now));
    forall i | 0 <= i < |s.subs| ensures !StartsOn(s.subs[i], d) {
      NotPendingStarts(s, s.subs[i]);
    }
    WithoutStartingNone(s.subs, d);
  }

  lemma SubscribePaid(s: State, plan: Plan, commitment: nat, charged: bool)
    requires Inv(s)
    requires var active := Active(s.subs, s.now.date); active != [] && active[0].plan.paid
    ensures var start := NextMonthStart(GraceDate(s.now));
            var active := Active(s.subs, s.now.date);
            && active[0].range.Since?
            && Subscribe(s, plan, commitment, charged)
               == FollowUp(s, WithoutStarting(s.subs, start), active[0], start, plan, commitment)
  {
    TheActive(s);
  }

  /** A paid plan is followed from next month on; asking for the same plan only takes its end away. */
  lemma FollowUpKeepsInv(s: State, base: seq<Sub>, plan: Plan, commitment: nat)
    requires Ready(base, s.now, s.nextId) && base[|base| - 1].plan.paid
    ensures var r := FollowUp(s, base, base[|base| - 1], NextMonthStart(GraceDate(s.now)), plan, commitment);
            r.Success? && Inv(r.value)
  {
    var last := base[|base| - 1];
    var start := NextMonthStart(GraceDate(s.now));
    if last.plan == plan && last.commitment == commitment {
      WithRangeLast(base, s.nextId, Since(last.range.start, None));
      ExtendLast(base, s.now, s.nextId);
    } else {
      GraceIsNotEarlier(s.now);
      assert !Pending(last, s.now.date);
      var created := Sub(s.nextId, plan, commitment, Since(start, None));
      var closed := Since(last.range.start, Some(start));
      assert MakeRange(last.range.start, Some(start)) == Success(closed);
      WithRangeLast(base, s.nextId, closed);
      CloseLast(base, s.now, s.nextId, created, closed);
    }
  }

  lemma SubscribeNext(s: State, plan: Plan, commitment: nat, charged: bool)
    requires Inv(s) && !NearPending(s)
    requires var active := Active(s.subs, s.now.date); active != [] && active[0].plan.paid
    ensures var r := Subscribe(s, plan, commitment, charged); r.Success? && Inv(r.value)
  {
    SubscribePaid(s, plan, commitment, charged);
    BaseOf(s);
    FollowUpKeepsInv(s, Base(s), plan, commitment);
  }

  lemma NearPendingParts(s: State)
    requires Inv(s) && NearPending(s)
    ensures |s.subs| >= 2
    ensures Active(s.subs, s.now.date) == [s.subs[|s.subs| - 2]] && s.subs[|s.subs| - 2].plan.paid
    ensures Contains(s.subs[|s.subs| - 2].range, s.now.date)
    ensures WithoutStarting(s.subs, NextMonthStart(GraceDate(s.now))) == s.subs
  {
    var n := |s.subs|;
    var d := NextMonthStart(GraceDate(s.now));
    BeforePendingIsActive(s);
    ChainedIsDisjoint(s.subs);
    forall i | 0 <= i < n && Contains(s.subs[i].range, s.now.date) ensures i == n - 2 {
      OneContains(s.subs, s.now.date, i, n - 2);
    }
    ActiveIs(s.subs, s.now.date, n - 2);
    forall i | 0 <= i < n ensures !StartsOn(s.subs[i], d) {
      if i < n - 1 {
        OnlyLastPending(s, i);
        NotPendingStarts(s, s.subs[i]);
      }
    }
    WithoutStartingNone(s.subs, d);
  }

  /** The end of the last subscription may change freely. */
  lemma ChangeLastEnd(s: State, range: Range)
    requires Inv(s) && range.Since? && range.start == s.subs[|s.subs| - 1].range.start && Proper(range)
    ensures Inv(s.(subs := ReplaceLast(s.subs, range)))
  {
    var n := |s.subs| - 1;
    var last := s.subs[n];
    ReplaceLastChained(s.subs, range);
    ReplaceLastIds(s.subs, range, s.nextId, last.(id := s.nextId));
    var after := ReplaceLast(s.subs, range);
    forall i | 0 <= i < n ensures after[i] == s.subs[i] && !Pending(after[i], s.now.date) {
      OnlyLastPending(s, i);
    }
    assert Pending(after[n], s.now.date) ==> Pending(last, s.now.date);
  }

  lemma FollowUpSame(s: State, current: Sub, start: Date)
    requires Inv(s) && current.range.Since?
    ensures var last := s.subs[|s.subs| - 1];
            FollowUp(s, s.subs, current, start, last.plan, last.commitment)
            == Success(s.(subs := ReplaceLast(s.subs, Since(last.range.start, None))))
  {
    WithRangeLast(s.subs, s.nextId, Since(s.subs[|s.subs| - 1].range.start, None));
  }

  /** In the hour of grace before a pending subscription, asking for its plan keeps it. */
  lemma SubscribeNearSame(s: State, plan: Plan, commitment: nat, charged: bool)
    requires Inv(s) && NearPending(s) && !Conflict(s, plan, commitment)
    ensures var r := Subscribe(s, plan, commitment, charged); r.Success? && Inv(r.value)
  {
    NearPendingParts(s);
    SubscribePaid(s, plan, commitment, charged);
    FollowUpSame(s, s.subs[|s.subs| - 2], NextMonthStart(GraceDate(s.now)));
    ChangeLastEnd(s, Since(s.subs[|s.subs| - 1].range.start, None));
  }

  /** Asking for another plan extends the current subscription over the pending one. */
  lemma SubscribeNearOther(s: State, plan: Plan, commitment: nat, charged: bool)
    requires Inv(s) && Conflict(s, plan, commitment)
    ensures var r := Subscribe(s, plan, commitment, charged); r.Success? && !Disjoint(r.value.subs)
  {
    NearPendingParts(s);
    SubscribePaid(s, plan, commitment, charged);
    GraceIsNotEarlier(s.now);
    var n := |s.subs|;
    var d := NextMonthStart(GraceDate(s.now));
    OtherIsCreated(s, n - 2, d, plan, commitment);
    var after := Subscribe(s, plan, commitment, charged).value.subs;
    assert Overlap(after[n - 2].range, after[n - 1].range);
  }

  /** Another plan extends the current range and leaves the last one, which has yet to start, as it is. */
  lemma OtherIsCreated(s: State, c: nat, d: Date, plan: Plan, commitment: nat)
    requires IdsOk(s.subs, s.nextId) && c < |s.subs| - 1 && s.subs[c].range.Since? && Earlier(s.subs[c].range.start, d)
    requires var last := s.subs[|s.subs| - 1]; !(last.plan == plan && last.commitment == commitment)
    ensures var r := FollowUp(s, s.subs, s.subs[c], d, plan, commitment);
            && r.Success? && |r.value.subs| == |s.subs| + 1
            && r.value.subs[c].range == Since(s.subs[c].range.start, Some(d))
            && r.value.subs[|s.subs| - 1] == s.subs[|s.subs| - 1]
  {
    assert MakeRange(s.subs[c].range.start, Some(d)) == Success(Since(s.subs[c].range.start, Some(d)));
  }

  /**
    Any request to subscribe, in any state with an orderly timeline: the request is refused only when a payment fails,
    and the timeline afterwards is free of overlaps exactly when the request does not change a plan in the hour before
    a subscription to another plan is due to start.
   */
  lemma SubscribeIsDisjointIff(s: State, plan: Plan, commitment: nat, charged: bool)
    requires Inv(s)
    ensures var r := Subscribe(s, plan, commitment, charged);
            && (r.Failure? ==> r.error == PaymentFailed && !charged)
            && (Disjoint(Step(s, Subscribing(plan, commitment, charged)).subs) <==> !Conflict(s, plan, commitment))
            && (!Conflict(s, plan, commitment) ==> Inv(Step(s, Subscribing(plan, commitment, charged))))
  {
    TheActive(s);
    ChainedIsDisjoint(s.subs);
    var active := Active(s.subs, s.now.date);
    if Conflict(s, plan, commitment) {
      SubscribeNearOther(s, plan, commitment, charged);
    } else {
      if NearPending(s) {
        SubscribeNearSame(s, plan, commitment, charged);
      } else if active != [] && active[0].plan.paid {
        SubscribeNext(s, plan, commitment, charged);
      } else if charged {
        SubscribeAtOnce(s, plan, commitment);
      }
      ChainedIsDisjoint(Step(s, Subscribing(plan, commitment, charged)).subs);
    }
  }

  lemma ReadyIsInv(subs: seq<Sub>, now: Instant, nextId: nat)
    requires Ready(subs, now, nextId)
    ensures Inv(State(now, subs, nextId))
  {
    NothingPending(subs, now);
  }

  lemma OpenIsLast(s: State, i: nat)
    requires Inv(s) && i < |s.subs| && s.subs[i].range.Since? && s.subs[i].range.end == None
    ensures i == |s.subs| - 1
  {
  }

  /** The current or almost current subscription ends with the month. */
  lemma CancelLast(s: State)
    requires Inv(s)
    requires var last := s.subs[|s.subs| - 1]; last.plan.paid && last.range.end == None && NotAfter(last.range.start, GraceDate(s.now))
    ensures var n := |s.subs| - 1;
            var range := Since(s.subs[n].range.start, Some(NextMonthStart(GraceDate(s.now))));
            Cancel(s, n) == Success(s.(subs := ReplaceLast(s.subs, range))) && Inv(Cancel(s, n).value)
  {
    var n := |s.subs| - 1;
    var range := Since(s.subs[n].range.start, Some(NextMonthStart(GraceDate(s.now))));
    WithRangeLast(s.subs, s.nextId, range);
    ChangeLastEnd(s, range);
  }

  /** A subscription that is to start after the hour of grace is deleted. */
  lemma CancelPending(s: State)
    requires Inv(s)
    requires var last := s.subs[|s.subs| - 1]; last.plan.paid && last.range.end == None && !NotAfter(last.range.start, GraceDate(s.now))
    ensures var n := |s.subs| - 1;
            Cancel(s, n) == Success(s.(subs := s.subs[..n])) && Inv(Cancel(s, n).value)
  {
    var n := |s.subs| - 1;
    GraceIsNotEarlier(s.now);
    PrefixReady(s);
    ReadyIsInv(s.subs[..n], s.now, s.nextId);
    DeletedLast(s.subs);
  }

  lemma DeletedLast(subs: seq<Sub>)
    requires subs != []
    ensures subs[..|subs| - 1] + subs[|subs| - 1 + 1..] == subs[..|subs| - 1]
  {
    assert subs[|subs| - 1 + 1..] == [];
    NothingAdded(subs[..|subs| - 1]);
  }

  /** Cancelling keeps the timeline orderly, and never fails for the sake of its dates. */
  lemma CancelKeepsInv(s: State, i: nat)
    requires Inv(s)
    ensures var r := Cancel(s, i);
            if r.Success? then Inv(r.value) else r.error == NotFound || r.error == CannotCancelUnpaid
  {
    if i < |s.subs| && s.subs[i].plan.paid && s.subs[i].range.Since? && s.subs[i].range.end.None? {
      OpenIsLast(s, i);
      if NotAfter(s.subs[i].range.start, GraceDate(s.now)) {
        CancelLast(s);
      } else {
        CancelPending(s);
      }
    }
  }

  // ------------------------------------------------------------------ what a request achieves

  /** The end of the last subscription decides about every date to come. */
  lemma LastEndDecides(s: State, d: Date)
    requires Inv(s) && NotAfter(s.now.date, d)
    ensures var end := s.subs[|s.subs| - 1].range.end;
            |Active(s.subs, d)| == if end.None? || Earlier(d, end.value) then 1 else 0
  {
    var n := |s.subs|;
    var last := s.subs[n - 1];
    if last.range.end.Some? && NotAfter(last.range.end.value, d) {
      EndedBefore(s.subs, d);
      forall i | 0 <= i < n ensures !Contains(s.subs[i].range, d) {
        assert i < n - 1 ==> s.subs[i] == s.subs[..n - 1][i];
      }
      NoneActive(s.subs, d);
    } else {
      var k := if NotAfter(last.range.start, d) then n - 1 else n - 2;
      assert Contains(s.subs[k].range, d) by {
        if k < n - 1 {
          assert Pending(last, s.now.date);
        }
      }
      ChainedIsDisjoint(s.subs);
      forall i | 0 <= i < n && Contains(s.subs[i].range, d) ensures i == k {
        OneContains(s.subs, d, i, k);
      }
      ActiveIs(s.subs, d, k);
    }
  }

  /** The last subscription is to this plan and has no end. */
  predicate OpenFor(subs: seq<Sub>, plan: Plan, commitment: nat) {
    && subs != []
    && var last := subs[|subs| - 1];
       last.plan == plan && last.commitment == commitment && last.range.Since? && last.range.end == None
  }

  lemma SubscribeOpensLast(s: State, plan: Plan, commitment: nat, charged: bool)
    requires Subscribe(s, plan, commitment, charged).Success?
    ensures var r := Subscribe(s, plan, commitment, charged).value;
            OpenFor(r.subs, plan, commitment) && r.now == s.now
  {
  }

  lemma OpenIsActive(s: State, plan: Plan, commitment: nat, d: Date)
    requires Inv(s) && OpenFor(s.subs, plan, commitment) && NotAfter(s.now.date, d)
    ensures |Active(s.subs, d)| == 1
  {
    LastEndDecides(s, d);
  }

  /** A granted request leaves no date to come without exactly one subscription, and ends with what was asked for. */
  lemma SubscribeCoversFuture(s: State, plan: Plan, commitment: nat, charged: bool, d: Date)
    requires Inv(s) && !Conflict(s, plan, commitment) && NotAfter(s.now.date, d)
    requires Subscribe(s, plan, commitment, charged).Success?
    ensures var subs := Subscribe(s, plan, commitment, charged).value.subs;
            |Active(subs, d)| == 1 && OpenFor(subs, plan, commitment)
  {
    SubscribeIsDisjointIff(s, plan, commitment, charged);
    SubscribeOpensLast(s, plan, commitment, charged);
    OpenIsActive(Subscribe(s, plan, commitment, charged).value, plan, commitment, d);
  }

  /** The date from which a subscription without an end is out of service when it is cancelled now. */
  function LastDay(s: State, sub: Sub): Date
    requires sub.range.Since?
  {
    if NotAfter(sub.range.start, GraceDate(s.now)) then NextMonthStart(GraceDate(s.now)) else sub.range.start
  }

  lemma CancelEndsLast(s: State, i: nat)
    requires Inv(s) && i < |s.subs| && s.subs[i].plan.paid && s.subs[i].range.Since? && s.subs[i].range.end == None
    ensures var r := Cancel(s, i);
            && r.Success? && r.value.subs != []
            && r.value.subs[|r.value.subs| - 1].range.Since?
            && r.value.subs[|r.value.subs| - 1].range.end == Some(LastDay(s, s.subs[i]))
  {
    OpenIsLast(s, i);
    if NotAfter(s.subs[i].range.start, GraceDate(s.now)) {
      CancelLast(s);
    } else {
      CancelPending(s);
      GraceIsNotEarlier(s.now);
      BeforePendingIsActive(s);
    }
  }

  /** Cancelling ends service with a month, and not a day earlier: until then exactly one subscription is active. */
  lemma CancelEndsService(s: State, i: nat, d: Date)
    requires Inv(s) && i < |s.subs| && s.subs[i].plan.paid && s.subs[i].range.Since? && s.subs[i].range.end == None
    requires NotAfter(s.now.date, d)
    ensures Cancel(s, i).Success?
    ensures var last := LastDay(s, s.subs[i]);
            && last.day == 1 && Earlier(s.now.date, last)
            && |Active(Cancel(s, i).value.subs, d)| == if Earlier(d, last) then 1 else 0
  {
    CancelEndsLast(s, i);
    CancelKeepsInv(s, i);
    GraceIsNotEarlier(s.now);
    OpenIsLast(s, i);
    LastEndDecides(Cancel(s, i).value, d);
  }

  // ------------------------------------------------------------------ every run

  lemma StepKeepsInv(s: State, a: Action)
    requires Inv(s) && Possible(s, a) && Prudent(s, a)
    ensures Inv(Step(s, a))
  {
    match a
    case Wait(until) => WaitKeepsInv(s, until);
    case Subscribing(plan, commitment, charged) => SubscribeIsDisjointIff(s, plan, commitment, charged);
    case Cancelling(i) => CancelKeepsInv(s, i);
  }

  lemma {:induction false} RunKeepsInv(s: State, actions: seq<Action>)
    requires Inv(s) && IsRun(s, actions)
    ensures Inv(Execute(s, actions))
    decreases |actions|
  {
    if actions != [] {
      StepKeepsInv(s, actions[0]);
      RunKeepsInv(Step(s, actions[0]), actions[1..]);
    }
  }

  lemma InitInv(now: Instant, plan: Plan, trialDays: Option<nat>)
    requires ValidInstant(now)
    ensures Inv(Init(now, plan, trialDays))
  {
    if trialDays.Some? { AddDaysIsLater(now.date, trialDays.value); }
  }

  /**
    Over every run of waiting, subscribing and cancelling in which no request conflicts with a subscription about to
    start, the ranges are disjoint and at most one subscription is active on any date.
   */
  lemma TimelineStaysDisjoint(now: Instant, plan: Plan, trialDays: Option<nat>, actions: seq<Action>, d: Date)
    requires ValidInstant(now) && IsRun(Init(now, plan, trialDays), actions)
    ensures var s := Execute(Init(now, plan, trialDays), actions);
            Disjoint(s.subs) && |Active(s.subs, d)| <= 1
  {
    InitInv(now, plan, trialDays);
    RunKeepsInv(Init(now, plan, trialDays), actions);
    var s := Execute(Init(now, plan, trialDays), actions);
    ChainedIsDisjoint(s.subs);
    AtMostOneActive(s.subs, d);
  }

  // ------------------------------------------------------------------ a conflict

  lemma FirstPlan(ten: Instant, free: Plan, a: Plan)
    requires ten == Instant(Date(0, 10), 12) && !free.paid
    ensures Step(Init(ten, free, None), Subscribing(a, 0, true))
            == State(ten, [Sub(0, free, 0, Empty), Sub(1, a, 0, Since(Date(0, 10), None))], 2)
  {
    var first := Sub(0, free, 0, Since(Date(0, 10), None));
    var subs := [first];
    assert Init(ten, free, None).subs == subs && subs[..0] == [];
    assert Active(subs, Date(0, 10)) == [first];
    assert WithRange(subs, 0, Empty) == [first.(range := Empty)];
    assert [first.(range := Empty)] + [Sub(1, a, 0, Since(Date(0, 10), None))]
        == [first.(range := Empty), Sub(1, a, 0, Since(Date(0, 10), None))];
  }

  lemma SecondPlan(ten: Instant, none: Sub, a: Plan, b: Plan)
    requires ten == Instant(Date(0, 10), 12) && none.id == 0 && none.range.Empty? && a.paid && a != b
    ensures Step(State(ten, [none, Sub(1, a, 0, Since(Date(0, 10), None))], 2), Subscribing(b, 0, true))
            == State(ten, [none, Sub(1, a, 0, Since(Date(0, 10), Some(Date(1, 1)))), Sub(2, b, 0, Since(Date(1, 1), None))], 3)
  {
    var current := Sub(1, a, 0, Since(Date(0, 10), None));
    var subs := [none, current];
    assert subs[..1] == [none] && [none][..0] == [];
    ActiveIs(subs, Date(0, 10), 1);
    WithoutStartingNone(subs, Date(1, 1));
    assert NextMonthStart(GraceDate(ten)) == Date(1, 1);
    CurrentIsClosed(ten, none, current, b);
  }

  lemma CurrentIsClosed(ten: Instant, none: Sub, current: Sub, b: Plan)
    requires none.id == 0 && current.id == 1 && current.range == Since(Date(0, 10), None)
    ensures CloseAndCreate(State(ten, [none, current], 2), [none, current], Some(current), Date(1, 1), b, 0)
            == Success(State(ten, [none, current.(range := Since(Date(0, 10), Some(Date(1, 1)))),
                                   Sub(2, b, 0, Since(Date(1, 1), None))], 3))
  {
    var closed := Since(Date(0, 10), Some(Date(1, 1)));
    assert MakeRange(Date(0, 10), Some(Date(1, 1))) == Success(closed);
    var first, second := current.(range := closed), Sub(2, b, 0, Since(Date(1, 1), None));
    assert WithRange([none, current], 1, closed) == [none, first];
    assert [none, first] + [second] == [none, first, second];
  }

  /**
    An admin on a paid plan asks for a second plan in January and for a third in its last hour: the first is extended
    to March over the second, which starts in February.
   */
  lemma ConflictCanOverlap(free: Plan, a: Plan, b: Plan, c: Plan)
    requires !free.paid && a.paid && a != b && b != c
    ensures var run := [Subscribing(a, 0, true), Subscribing(b, 0, true), Wait(Instant(Date(0, 31), 23))];
            var start := Init(Instant(Date(0, 10), 12), free, None);
            && IsRun(start, run)
            && !Disjoint(Step(Execute(start, run), Subscribing(c, 0, true)).subs)
  {
    var ten, late := Instant(Date(0, 10), 12), Instant(Date(0, 31), 23);
    var start := Init(ten, free, None);
    var none := Sub(0, free, 0, Empty);
    var s1 := State(ten, [none, Sub(1, a, 0, Since(Date(0, 10), None))], 2);
    FirstPlan(ten, free, a);
    var first, second := Sub(1, a, 0, Since(Date(0, 10), Some(Date(1, 1)))), Sub(2, b, 0, Since(Date(1, 1), None));
    var s2 := State(ten, [none, first, second], 3);
    SecondPlan(ten, none, a, b);
    var s3 := State(late, [none, first, second], 3);
    var run := [Subscribing(a, 0, true), Subscribing(b, 0, true), Wait(late)];
    var tail, end := run[1..], [Wait(late)];
    assert tail[1..] == end && end[1..] == [] && Step(s2, end[0]) == s3;
    assert Execute(s2, end) == s3 && IsRun(s2, end);
    assert Execute(s1, tail) == s3 && IsRun(s1, tail);
    assert Execute(start, run) == s3 && IsRun(start, run);
    InitInv(ten, free, None);
    RunKeepsInv(start, run);
    assert GraceDate(late) == Date(1, 1) && Conflict(s3, c, 0);
    SubscribeNearOther(s3, c, 0, true);
  }

  // ------------------------------------------------------------------ the handlers

  class Timeline {
    var now: Instant
    var subs: seq<Sub>
    var nextId: nat

    function Value(): State
      reads this
    {
      State(now, subs, nextId)
    }

    constructor (now: Instant, plan: Plan, trialDays: Option<nat>)
      ensures Value() == Init(now, plan, trialDays)
    {
      this.now := now;
      var end := None;
      if trialDays.Some? && trialDays.value > 0 {
        end := Some(AddDays(now.date, trialDays.value));
      }
      subs, nextId := [Sub(0, plan, 0, Since(now.date, end))], 1;
    }

    method SaveRange(sub: Sub, range: Range)
      modifies this`subs
      ensures subs == WithRange(old(subs), sub.id, range)
    {
      subs := WithRange(subs, sub.id, range);
    }

    /** Ends the current subscription, if any, where the new one starts. */
    method OpenNext(current: Option<Sub>, start: Date, plan: Plan, commitment: nat)
      requires current.Some? ==> current.value.range.Since? && NotAfter(current.value.range.start, start)
      modifies this`subs, this`nextId
      ensures var expected := CloseAndCreate(old(Value()), old(subs), current, start, plan, commitment);
              expected.Success? && Value() == expected.value
    {
      if current.Some? {
        var closed := MakeRange(current.value.range.start, Some(start));
        SaveRange(current.value, closed.value);
      }
      subs := subs + [Sub(nextId, plan, commitment, Since(start, None))];
      nextId := nextId + 1;
    }

    /** The handler runs in a transaction: an error leaves no trace. */
    method HandleSubscribe(plan: Plan, commitment: nat, charged: bool) returns (r: Result<(), Error>)
      modifies this
      ensures var expected := Subscribe(old(Value()), plan, commitment, charged);
              if expected.Success? then r == Success(()) && Value() == expected.value
              else r == Failure(expected.error) && Value() == old(Value())
    {
      var before := subs;
      var active := Active(subs, now.date);
      ActiveContain(subs, now.date);
      if |active| > 1 {
        return Failure(Ambiguous);
      }
      var start := now.date;
      if |active| == 1 && active[0].plan.paid {
        start := NextMonthStart(GraceDate(now));
        subs := WithoutStarting(subs, start);
        if subs == [] {
          subs := before;
          return Failure(NotFound);
        }
        var last := subs[|subs| - 1];
        if last.plan == plan && last.commitment == commitment {
          if last.range.Empty? {
            subs := before;
            return Failure(BadRange);
          }
          SaveRange(last, Since(last.range.start, None));
          return Success(());
        }
      } else if !charged {
        return Failure(PaymentFailed);
      }
      OpenNext(if active == [] then None else Some(active[0]), start, plan, commitment);
      r := Success(());
    }

    method HandleCancel(i: nat) returns (r: Result<(), Error>)
      modifies this
      ensures var expected := Cancel(old(Value()), i);
              if expected.Success? then r == Success(()) && Value() == expected.value
              else r == Failure(expected.error) && Value() == old(Value())
    {
      if i >= |subs| {
        return Failure(NotFound);
      }
      var sub := subs[i];
      if sub.range.Since? && sub.range.end.Some? && NotAfter(sub.range.end.value, now.date) {
        return Failure(NotFound);
      }
      if !sub.plan.paid {
        return Failure(CannotCancelUnpaid);
      }
      if sub.range.Empty? {
        return Failure(BadRange);
      }
      if sub.range.end.Some? {
        return Success(());
      }
      var grace := GraceDate(now);
      if NotAfter(sub.range.start, grace) {
        var range := MakeRange(sub.range.start, Some(NextMonthStart(grace)));
        SaveRange(sub, range.value);
      } else {
        subs := subs[..i] + subs[i + 1..];
      }
      r := Success(());
    }
  }
}
