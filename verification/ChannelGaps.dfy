/** The two situations in which a client of a channel can miss a change, as runs, and the proof that there are no others. */
module ChannelGaps {
  import opened Prelude
  import opened ChannelHub
  import opened ChannelDelivery

  /** `t` is reached from `s` without trimming past the cursor; other clients may join only if `others`. */
  ghost predicate Reaches(s: State, t: State, others: bool) {
    exists actions ::
      IsRun(s, actions) && Execute(s, actions) == t && IsUntrimmedRun(s, actions) && (others || Alone(actions))
  }

  lemma {:induction false} RunSnoc(s: State, actions: seq<Action>, a: Action)
    requires IsRun(s, actions) && Possible(Execute(s, actions), a)
    ensures IsRun(s, actions + [a]) && Execute(s, actions + [a]) == Next(Execute(s, actions), a)
    ensures IsUntrimmedRun(s, actions) && Untrimmed(Execute(s, actions), a) ==> IsUntrimmedRun(s, actions + [a])
    decreases |actions|
  {
    if actions == [] {
      assert actions + [a] == [a] && [a][1..] == [];
      var t := Next(s, a);
      assert IsRun(t, []) && IsUntrimmedRun(t, []) && Execute(t, []) == t;
    } else {
      HeadOfConcat(actions, [a]);
      RunSnoc(Next(s, actions[0]), actions[1..], a);
    }
  }

  lemma Start(size: nat, start: Option<int>, others: bool)
    ensures Reaches(Init(size, start), Init(size, start), others)
  {
    var s := Init(size, start);
    assert IsRun(s, []) && Execute(s, []) == s && IsUntrimmedRun(s, []);
  }

  lemma Go(s: State, t: State, others: bool, a: Action, u: State)
    requires Reaches(s, t, others) && Possible(t, a) && Untrimmed(t, a) && Next(t, a) == u
    requires a.OtherJoins? ==> others
    ensures Reaches(s, u, others)
  {
    var actions :| IsRun(s, actions) && Execute(s, actions) == t && IsUntrimmedRun(s, actions) && (others || Alone(actions));
    RunSnoc(s, actions, a);
  }

  /** The ids after a up to b. */
  function Upto(a: nat, b: nat): seq<nat>
    requires a <= b
  {
    seq(b - a, (i: nat) => a + 1 + i)
  }

  /** A room with the changes 1 to n stored and published. */
  function RoomOf(n: nat): Room {
    Room(n, Upto(0, n), 0, Idle)
  }

  function Sent(link: Link, id: nat): Link {
    if link.subscribed then link.(wire := link.wire + [Data(id)]) else link
  }

  /** One publisher takes the lock, stores the next change, publishes it and releases the lock. */
  lemma PublishOne(s: State, n: nat, link: Link, c: Client, others: bool)
    requires Reaches(s, State(RoomOf(n), link, c), others)
    ensures Reaches(s, State(RoomOf(n + 1), Sent(link, n + 1), c), others)
  {
    var log := RoomOf(n).log;
    var t := State(RoomOf(n), link, c);
    var numbered := State(Room(n + 1, log, 0, Numbered(n + 1)), link, c);
    var stored := State(Room(n + 1, log + [n + 1], 0, Stored(n + 1)), link, c);
    Go(s, t, others, Lock, t.(room := t.room.(writer := Locked)));
    Go(s, t.(room := t.room.(writer := Locked)), others, Number, numbered);
    Go(s, numbered, others, Store, stored);
    assert log + [n + 1] == RoomOf(n + 1).log;
    Go(s, stored, others, Publish, State(RoomOf(n + 1), Sent(link, n + 1), c));
  }

  lemma DeliverToOne(event: Option<bool>, client: nat, inbox: Inbox, outbox: seq<Command>, id: nat)
    requires event.Some?
    ensures Deliver(Hub(event, map[client := inbox], outbox), id) ==
      if Full(inbox) then Hub(None, map[], outbox + [Unsub])
      else Hub(event, map[client := inbox.(items := inbox.items + [id])], outbox)
  {
    var h := Hub(event, map[client := inbox], outbox);
    assert client in h.clients;
    if Full(inbox) {
      assert Offered(h, id) == map[];
    } else {
      assert client in Offered(h, id);
      assert Offered(h, id) == map[client := inbox.(items := inbox.items + [id])];
    }
  }

  /** This client as the only one of the channel. */
  function Mine(size: nat, event: bool, items: seq<nat>, outbox: seq<Command>): Hub {
    Hub(Some(event), map[ME := Inbox(size, items)], outbox)
  }

  lemma RedisStep(s: State, room: Room, link: Link, c: Client, others: bool)
    requires Reaches(s, State(room, link, c), others) && link.hub.outbox != []
    ensures Reaches(s, State(room, RedisReadsCommand(link), c), others)
  {
    Go(s, State(room, link, c), others, RedisReads, State(room, RedisReadsCommand(link), c));
  }

  lemma HearStep(s: State, room: Room, link: Link, c: Client, others: bool)
    requires Reaches(s, State(room, link, c), others) && link.wire != []
    ensures Reaches(s, State(room, HearFirst(link), ClientHears(link, c)), others)
  {
    Go(s, State(room, link, c), others, Hear, State(room, HearFirst(link), ClientHears(link, c)));
  }

  /** A message heard while a single client, this one or another, is registered. */
  lemma HearForOne(s: State, room: Room, wire: seq<Message>, event: bool, client: nat, inbox: Inbox,
                   outbox: seq<Command>, c: Client, id: nat, others: bool)
    requires Reaches(s, State(room, Link(true, [Data(id)] + wire, Hub(Some(event), map[client := inbox], outbox)), c),
                     others)
    requires Full(inbox) ==> client != ME && c.poll != Waiting(false)
    ensures Reaches(s, State(room, Link(true, wire, if Full(inbox) then Hub(None, map[], outbox + [Unsub])
      else Hub(Some(event), map[client := inbox.(items := inbox.items + [id])], outbox)), c), others)
  {
    var link := Link(true, [Data(id)] + wire, Hub(Some(event), map[client := inbox], outbox));
    DeliverToOne(Some(event), client, inbox, outbox, id);
    assert link.wire[1..] == wire;
    HearStep(s, room, link, c, others);
  }

  lemma HearConfirmation(s: State, room: Room, wire: seq<Message>, h: Hub, c: Client, others: bool)
    requires Reaches(s, State(room, Link(true, [Confirmation] + wire, h), c), others) && h.event.Some?
    ensures Reaches(s, State(room, Link(true, wire, h.(event := Some(true))),
                             if c.poll == Waiting(false) then c.(poll := Waiting(true)) else c), others)
  {
    assert ([Confirmation] + wire)[1..] == wire;
    HearStep(s, room, Link(true, [Confirmation] + wire, h), c, others);
  }

  lemma BeginStep(s: State, room: Room, link: Link, c: Client, others: bool)
    requires Reaches(s, State(room, link, c), others) && c.poll.Resting? && link.hub.event.None?
    requires link.hub.clients == map[]
    ensures Reaches(s, State(room, link.(hub := Mine(c.size, false, [], link.hub.outbox + [Sub])),
                             c.(orphan := [], poll := Waiting(false))), others)
  {
    assert map[][ME := Inbox(c.size, [])] == map[ME := Inbox(c.size, [])];
    Go(s, State(room, link, c), others, Begin,
       State(room, link.(hub := Mine(c.size, false, [], link.hub.outbox + [Sub])),
             c.(orphan := [], poll := Waiting(false))));
  }

  lemma TakeStep(s: State, room: Room, link: Link, size: nat, x: nat, items: seq<nat>, c: Client, others: bool)
    requires Reaches(s, State(room, link, c), others) && link.hub == Mine(size, true, [x] + items, [])
    requires c.poll.Draining? && c.poll.left > 0
    ensures Reaches(s, State(room, link.(hub := Mine(size, true, items, [])), ClientTakes(c, x)), others)
  {
    assert ([x] + items)[1..] == items;
    assert map[ME := Inbox(size, [x] + items)][ME := Inbox(size, items)] == map[ME := Inbox(size, items)];
    Go(s, State(room, link, c), others, ChannelDelivery.Take,
       State(room, link.(hub := Mine(size, true, items, [])), ClientTakes(c, x)));
  }

  // ------------------------------------------------------------------ a stale message in a live queue

  function Polling(size: nat, start: Option<int>, poll: Poll): Client {
    Client(size, start, [], poll, [])
  }

  /** A first poll subscribes, and Redis is about to read the command. */
  lemma FirstBegin(size: nat, start: Option<int>)
    ensures Reaches(Init(size, start),
                    State(RoomOf(0), Link(false, [], Mine(size, false, [], [Sub])),
                          Polling(size, start, Waiting(false))), false)
  {
    var s, link := Init(size, start), Link(false, [], Hub(None, map[], []));
    Start(size, start, false);
    assert s == State(RoomOf(0), link, Polling(size, start, Resting));
    assert [] + [Sub] == [Sub];
    BeginStep(s, RoomOf(0), link, s.client, false);
  }

  /** Its subscription is confirmed. */
  lemma FirstWait(size: nat, start: Option<int>)
    ensures Reaches(Init(size, start),
                    State(RoomOf(0), Link(true, [], Mine(size, true, [], [])),
                          Polling(size, start, Waiting(true))), false)
  {
    var s, room, c := Init(size, start), RoomOf(0), Polling(size, start, Waiting(false));
    FirstBegin(size, start);
    RedisStep(s, room, Link(false, [], Mine(size, false, [], [Sub])), c, false);
    assert [Sub][1..] == [] && [] + [Confirmation] == [Confirmation] + [];
    HearConfirmation(s, room, [], Mine(size, false, [], []), c, false);
  }

  /** A first poll comes and goes. */
  lemma FirstPoll(size: nat, start: Option<int>)
    ensures Reaches(Init(size, start),
                    State(RoomOf(0), Link(true, [], Hub(None, map[], [Unsub])), Polling(size, start, Resting)), false)
  {
    var s, room := Init(size, start), RoomOf(0);
    FirstWait(size, start);
    var t3 := State(room, Link(true, [], Mine(size, true, [], [])), Polling(size, start, Waiting(true)));
    var t4 := t3.(client := Polling(size, start, Reading));
    Go(s, t3, false, Wake, t4);
    assert t4.link.hub.clients - {ME} == map[];
    Go(s, t4, false, Finish, State(room, Link(true, [], Hub(None, map[], [Unsub])), Polling(size, start, Resting)));
  }

  /** Change 1 is still heard by the second poll, whose own subscription is on its way. */
  lemma StaleMessage(size: nat, start: Option<int>)
    requires size > 0
    ensures Reaches(Init(size, start),
                    State(RoomOf(1), Link(true, [], Mine(size, false, [1], [Unsub, Sub])),
                          Polling(size, start, Waiting(false))), false)
  {
    var s, c := Init(size, start), Polling(size, start, Waiting(false));
    FirstPoll(size, start);
    PublishOne(s, 0, Link(true, [], Hub(None, map[], [Unsub])), Polling(size, start, Resting), false);
    BeginStep(s, RoomOf(1), Link(true, [Data(1)], Hub(None, map[], [Unsub])), Polling(size, start, Resting), false);
    assert [Data(1)] + [] == [Data(1)] && [] + [1] == [1] && [Unsub] + [Sub] == [Unsub, Sub];
    HearForOne(s, RoomOf(1), [], false, ME, Inbox(size, []), [Unsub, Sub], c, 1, false);
  }

  /** Change 2 is published between the two subscriptions, and the second one is confirmed. */
  lemma MissedMessage(size: nat, start: Option<int>)
    requires size > 0
    ensures Reaches(Init(size, start),
                    State(RoomOf(2), Link(true, [], Mine(size, true, [1], [])), Polling(size, start, Waiting(true))),
                    false)
  {
    var s, c := Init(size, start), Polling(size, start, Waiting(false));
    StaleMessage(size, start);
    RedisStep(s, RoomOf(1), Link(true, [], Mine(size, false, [1], [Unsub, Sub])), c, false);
    var link := Link(false, [], Mine(size, false, [1], [Sub]));
    assert [Unsub, Sub][1..] == [Sub];
    PublishOne(s, 1, link, c, false);
    RedisStep(s, RoomOf(2), link, c, false);
    assert [Sub][1..] == [] && [] + [Confirmation] == [Confirmation] + [];
    HearConfirmation(s, RoomOf(2), [], Mine(size, false, [1], []), c, false);
  }

  /** The live poll reads no log and waits with change 1 in its queue. */
  lemma LiveRead(size: nat, start: Option<int>)
    requires !Covered(size, start)
    ensures Reaches(Init(size, start),
                    State(RoomOf(2), Link(true, [], Mine(size, true, [1], [])),
                          Polling(size, start, Draining(CursorOf([], start), size, []))), false)
  {
    var s, link := Init(size, start), Link(true, [], Mine(size, true, [1], []));
    MissedMessage(size, start);
    var reading := State(RoomOf(2), link, Polling(size, start, Reading));
    Go(s, State(RoomOf(2), link, Polling(size, start, Waiting(true))), false, Wake, reading);
    assert reading.client.delivered + [] == [] && reading.room.log[..0] == [];
    Go(s, reading, false, ReadLog,
       State(RoomOf(2), link, Polling(size, start, Draining(CursorOf([], start), size, []))));
  }

  /** Change 3 joins change 1 in the queue. */
  lemma GapInQueue(size: nat, start: Option<int>)
    requires !Covered(size, start)
    ensures Reaches(Init(size, start),
                    State(RoomOf(3), Link(true, [], Mine(size, true, [1, 3], [])),
                          Polling(size, start, Draining(CursorOf([], start), size, []))), false)
  {
    var s, c := Init(size, start), Polling(size, start, Draining(CursorOf([], start), size, []));
    LiveRead(size, start);
    PublishOne(s, 2, Link(true, [], Mine(size, true, [1], [])), c, false);
    assert [] + [Data(3)] == [Data(3)] + [] && [1] + [3] == [1, 3];
    HearForOne(s, RoomOf(3), [], true, ME, Inbox(size, [1]), [], c, 3, false);
  }

  /** Outside the covered configurations a live subscription can skip a change, even with the channel to itself. */
  lemma UncoveredDeliveryCanGap(size: nat, start: Option<int>) returns (end: State)
    requires !Covered(size, start)
    ensures Reaches(Init(size, start), end, false)
    ensures end.room.log == [1, 2, 3] && end.client.delivered == [1, 3]
    ensures !IsSlice(end.client.delivered, end.room.log)
  {
    var s, last := Init(size, start), CursorOf([], start);
    GapInQueue(size, start);
    var c0 := Polling(size, start, Draining(last, size, []));
    assert [1] + [3] == [1, 3] && [3] + [] == [3];
    TakeStep(s, RoomOf(3), Link(true, [], Mine(size, true, [1, 3], [])), size, 1, [3], c0, false);
    var c1 := ClientTakes(c0, 1);
    TakeStep(s, RoomOf(3), Link(true, [], Mine(size, true, [3], [])), size, 3, [], c1, false);
    end := State(RoomOf(3), Link(true, [], Mine(size, true, [], [])), ClientTakes(c1, 3));
    forall p | 0 <= p <= 3 ensures !([1, 3] <= [1, 2, 3][p..]) {
      if p == 0 {
        assert [1, 2, 3][p..][1] != [1, 3][1];
      } else if p == 1 {
        assert [1, 2, 3][p..][0] != [1, 3][0];
      }
    }
  }

  // ------------------------------------------------------------------ a stale confirmation

  const OTHER: nat := 1

  /** A connection with nothing under way. */
  const QUIET: Link := Link(false, [], Hub(None, map[], []))

  /** Nobody is registered, and two subscriptions behind the times Redis is about to read what they left. */
  const STALE: Link := Link(true, [], Hub(None, map[], [Unsub, Sub, Unsub]))

  function Others(event: bool, items: seq<nat>, outbox: seq<Command>): Hub {
    Hub(Some(event), map[OTHER := Inbox(1, items)], outbox)
  }

  lemma OtherJoinsAlone(s: State, room: Room, link: Link, c: Client)
    requires Reaches(s, State(room, link, c), true) && link.hub.event.None? && link.hub.clients == map[]
    ensures Reaches(s, State(room, link.(hub := Others(false, [], link.hub.outbox + [Sub])), c), true)
  {
    assert map[][OTHER := Inbox(1, [])] == map[OTHER := Inbox(1, [])];
    Go(s, State(room, link, c), true, OtherJoins(OTHER, 1),
       State(room, link.(hub := Others(false, [], link.hub.outbox + [Sub])), c));
  }

  /** Another client comes and goes. */
  lemma OtherLeaving(s: State, room: Room, c: Client)
    requires Reaches(s, State(room, QUIET, c), true) && c.poll.Resting?
    ensures Reaches(s, State(room, Link(true, [], Hub(None, map[], [Unsub])), c), true)
  {
    OtherJoinsAlone(s, room, QUIET, c);
    assert [] + [Sub] == [Sub] && [Sub][1..] == [];
    RedisStep(s, room, Link(false, [], Others(false, [], [Sub])), c, true);
    assert [] + [Confirmation] == [Confirmation] + [];
    HearConfirmation(s, room, [], Others(false, [], []), c, true);
    var t3 := State(room, Link(true, [], Others(true, [], [])), c);
    assert t3.link.hub.clients - {OTHER} == map[];
    Go(s, t3, true, OtherLeaves(OTHER), State(room, Link(true, [], Hub(None, map[], [Unsub])), c));
  }

  /** Two changes are published before Redis reads its unsubscription. */
  lemma OtherLeft(s: State, n: nat, c: Client)
    requires Reaches(s, State(RoomOf(n), QUIET, c), true) && c.poll.Resting?
    ensures Reaches(s, State(RoomOf(n + 2), Link(true, [Data(n + 1), Data(n + 2)], Hub(None, map[], [Unsub])), c), true)
  {
    var link := Link(true, [], Hub(None, map[], [Unsub]));
    OtherLeaving(s, RoomOf(n), c);
    PublishOne(s, n, link, c, true);
    assert [] + [Data(n + 1)] == [Data(n + 1)];
    PublishOne(s, n + 1, Link(true, [Data(n + 1)], link.hub), c, true);
    assert [Data(n + 1)] + [Data(n + 2)] == [Data(n + 1), Data(n + 2)];
  }

  /** It returns, and the two stale messages drop it before its new subscription is confirmed. */
  lemma OtherOverrun(s: State, n: nat, c: Client)
    requires Reaches(s, State(RoomOf(n), QUIET, c), true) && c.poll.Resting?
    ensures Reaches(s, State(RoomOf(n + 2), STALE, c), true)
  {
    var room := RoomOf(n + 2);
    OtherLeft(s, n, c);
    OtherJoinsAlone(s, room, Link(true, [Data(n + 1), Data(n + 2)], Hub(None, map[], [Unsub])), c);
    assert [Unsub] + [Sub] == [Unsub, Sub] && [Data(n + 1)] + [Data(n + 2)] == [Data(n + 1), Data(n + 2)];
    HearForOne(s, room, [Data(n + 2)], false, OTHER, Inbox(1, []), [Unsub, Sub], c, n + 1, true);
    assert [Data(n + 2)] + [] == [Data(n + 2)] && [] + [n + 1] == [n + 1];
    assert [Unsub, Sub] + [Unsub] == [Unsub, Sub, Unsub];
    HearForOne(s, room, [], false, OTHER, Inbox(1, [n + 1]), [Unsub, Sub], c, n + 2, true);
  }

  /** The client has received the ids after k up to c; c is what its next poll passes. */
  function Caught(size: nat, start: Option<int>, k: nat, c: nat, poll: Poll): Client
    requires k <= c
  {
    Client(size, start, [], poll, Upto(k, c))
  }

  predicate Known(start: Option<int>, k: nat, c: nat) {
    k <= c && (k == c ==> start == Some(k))
  }

  lemma KnownCursor(start: Option<int>, k: nat, c: nat)
    requires Known(start, k, c)
    ensures CursorOf(Upto(k, c), start) == c
  {
  }

  lemma {:induction false} AfterUpto(c: nat, n: nat)
    requires c <= n
    ensures After(Upto(0, n), c) == Upto(c, n)
    decreases n
  {
    if n == c {
      AfterNone(Upto(0, n), c);
    } else {
      AfterUpto(c, n - 1);
      assert Upto(0, n)[..n - 1] == Upto(0, n - 1);
      assert Upto(c, n) == Upto(c, n - 1) + [n];
    }
  }

  /** How far a read of the log from c gets. */
  function Reach(size: nat, c: nat, n: nat): nat
    requires c <= n
  {
    if c + size < n then c + size else n
  }

  lemma ReadsUpto(size: nat, start: Option<int>, k: nat, c: nat, n: nat, poll: Poll)
    requires Known(start, k, c) && c <= n
    ensures ReadDatabase(RoomOf(n), Caught(size, start, k, c, poll)) == Upto(c, Reach(size, c, n))
    ensures Upto(k, c) + Upto(c, Reach(size, c, n)) == Upto(k, Reach(size, c, n))
  {
    KnownCursor(start, k, c);
    AfterUpto(c, n);
    assert RoomOf(n).log[0..] == Upto(0, n);
  }

  /** The confirmation meant for the other client lets this one go on before Redis has subscribed it. */
  lemma StaleConfirmation(s: State, room: Room, c: Client)
    requires Reaches(s, State(room, STALE, c), true) && c.poll.Resting? && c.orphan == []
    ensures Reaches(s, State(room, Link(true, [], Mine(c.size, true, [], [Unsub, Sub])), c.(poll := Waiting(true))), true)
  {
    var d := c.(poll := Waiting(false));
    BeginStep(s, room, STALE, c, true);
    assert [Unsub, Sub, Unsub] + [Sub] == [Unsub, Sub, Unsub, Sub];
    RedisStep(s, room, Link(true, [], Mine(c.size, false, [], [Unsub, Sub, Unsub, Sub])), d, true);
    assert [Unsub, Sub, Unsub, Sub][1..] == [Sub, Unsub, Sub];
    RedisStep(s, room, Link(false, [], Mine(c.size, false, [], [Sub, Unsub, Sub])), d, true);
    assert [Sub, Unsub, Sub][1..] == [Unsub, Sub] && [] + [Confirmation] == [Confirmation] + [];
    HearConfirmation(s, room, [], Mine(c.size, false, [], [Unsub, Sub]), d, true);
  }

  lemma StaleWake(s: State, room: Room, c: Client)
    requires Reaches(s, State(room, STALE, c), true) && c.poll.Resting? && c.orphan == []
    ensures Reaches(s, State(room, Link(true, [], Mine(c.size, true, [], [Unsub, Sub])), c.(poll := Reading)), true)
  {
    var link := Link(true, [], Mine(c.size, true, [], [Unsub, Sub]));
    StaleConfirmation(s, room, c);
    Go(s, State(room, link, c.(poll := Waiting(true))), true, Wake, State(room, link, c.(poll := Reading)));
  }

  /** A poll on a stale confirmation reads the log as usual. */
  lemma StaleRead(s: State, n: nat, size: nat, start: Option<int>, k: nat, c: nat)
    requires Known(start, k, c) && c <= n && size > 0
    requires Reaches(s, State(RoomOf(n), STALE, Caught(size, start, k, c, Resting)), true)
    ensures var m := Reach(size, c, n);
      Reaches(s, State(RoomOf(n), Link(true, [], Mine(size, true, [], [Unsub, Sub])),
                       Caught(size, start, k, m, Draining(m, size - (m - c), []))), true)
  {
    var m, link := Reach(size, c, n), Link(true, [], Mine(size, true, [], [Unsub, Sub]));
    var rested := Caught(size, start, k, c, Resting);
    var reading := Caught(size, start, k, c, Reading);
    StaleWake(s, RoomOf(n), rested);
    ReadsUpto(size, start, k, c, n, Reading);
    KnownCursor(start, k, m);
    assert RoomOf(n).log[..0] == [];
    Go(s, State(RoomOf(n), link, reading), true, ReadLog,
       State(RoomOf(n), link, Caught(size, start, k, m, Draining(m, size - (m - c), []))));
  }

  lemma StaleFinish(s: State, room: Room, c: Client)
    requires c.poll.Draining? && c.orphan == []
    requires Reaches(s, State(room, Link(true, [], Mine(c.size, true, [], [Unsub, Sub])), c), true)
    ensures Reaches(s, State(room, STALE, c.(poll := Resting)), true)
  {
    var link := Link(true, [], Mine(c.size, true, [], [Unsub, Sub]));
    assert link.hub.clients - {ME} == map[] && [Unsub, Sub] + [Unsub] == [Unsub, Sub, Unsub];
    Go(s, State(room, link, c), true, Finish, State(room, STALE, c.(poll := Resting)));
  }

  /** Poll by poll the client catches up with the log; Redis stays behind. */
  lemma {:induction false} CatchUp(s: State, n: nat, size: nat, start: Option<int>, k: nat, c: nat)
    requires Known(start, k, c) && c <= n && size > 0
    requires Reaches(s, State(RoomOf(n), STALE, Caught(size, start, k, c, Resting)), true)
    ensures Reaches(s, State(RoomOf(n), STALE, Caught(size, start, k, n, Resting)), true)
    decreases n - c
  {
    if c < n {
      var m := Reach(size, c, n);
      StaleRead(s, n, size, start, k, c);
      StaleFinish(s, RoomOf(n), Caught(size, start, k, m, Draining(m, size - (m - c), [])));
      CatchUp(s, n, size, start, k, m);
    }
  }

  /** It finds nothing new in the log, and the next change is published while Redis has it unsubscribed. */
  lemma LostPublish(s: State, n: nat, size: nat, start: Option<int>, k: nat)
    requires Known(start, k, n) && size > 0
    requires Reaches(s, State(RoomOf(n), STALE, Caught(size, start, k, n, Resting)), true)
    ensures Reaches(s, State(RoomOf(n + 1), Link(false, [], Mine(size, true, [], [Sub])),
                             Caught(size, start, k, n, Draining(n, size, []))), true)
  {
    var c := Caught(size, start, k, n, Draining(n, size, []));
    StaleRead(s, n, size, start, k, n);
    RedisStep(s, RoomOf(n), Link(true, [], Mine(size, true, [], [Unsub, Sub])), c, true);
    assert [Unsub, Sub][1..] == [Sub];
    PublishOne(s, n, Link(false, [], Mine(size, true, [], [Sub])), c, true);
  }

  /** Redis subscribes the client at last, and the change after reaches its queue. */
  lemma NextPublish(s: State, n: nat, size: nat, c: Client)
    requires size > 0 && c.poll.Draining?
    requires Reaches(s, State(RoomOf(n), Link(false, [], Mine(size, true, [], [Sub])), c), true)
    ensures Reaches(s, State(RoomOf(n + 1), Link(true, [], Mine(size, true, [n + 1], [])), c), true)
  {
    var h := Mine(size, true, [], []);
    RedisStep(s, RoomOf(n), Link(false, [], Mine(size, true, [], [Sub])), c, true);
    assert [Sub][1..] == [] && [] + [Confirmation] == [Confirmation];
    PublishOne(s, n, Link(true, [Confirmation], h), c, true);
    HearConfirmation(s, RoomOf(n + 1), [Data(n + 1)], h, c, true);
    assert [Data(n + 1)] + [] == [Data(n + 1)] && [] + [n + 1] == [n + 1];
    HearForOne(s, RoomOf(n + 1), [], true, ME, Inbox(size, []), [], c, n + 1, true);
  }

  /** From a quiet state with a known cursor, another client can make this one skip a change. */
  lemma OtherCanCauseGap(s: State, n: nat, size: nat, start: Option<int>, k: nat) returns (end: State)
    requires Known(start, k, n) && size > 0
    requires Reaches(s, State(RoomOf(n), QUIET, Caught(size, start, k, n, Resting)), true)
    ensures Reaches(s, end, true)
    ensures end.room.log == Upto(0, n + 4) && end.client.delivered == Upto(k, n + 2) + [n + 4]
  {
    OtherOverrun(s, n, Caught(size, start, k, n, Resting));
    CatchUp(s, n + 2, size, start, k, n);
    LostPublish(s, n + 2, size, start, k);
    var c := Caught(size, start, k, n + 2, Draining(n + 2, size, []));
    NextPublish(s, n + 3, size, c);
    NothingAdded([n + 4]);
    TakeStep(s, RoomOf(n + 4), Link(true, [], Mine(size, true, [n + 4], [])), size, n + 4, [], c, true);
    end := State(RoomOf(n + 4), Link(true, [], Mine(size, true, [], [])), ClientTakes(c, n + 4));
  }

  lemma SkippedIsNoSlice(k: nat, n: nat)
    requires k < n
    ensures !IsSlice(Upto(k, n) + [n + 2], Upto(0, n + 2))
  {
    var ids, log := Upto(k, n) + [n + 2], Upto(0, n + 2);
    forall p | 0 <= p <= |log| ensures !(ids <= log[p..]) {
      if |ids| <= |log| - p {
        var i := if p == k then n - k else 0;
        assert ids[i] != log[p..][i];
      }
    }
  }

  // ------------------------------------------------------------------ quiet states to start from

  lemma {:induction false} QuietStart(size: nat, start: Option<int>, n: nat)
    ensures Reaches(Init(size, start), State(RoomOf(n), QUIET, Polling(size, start, Resting)), true)
  {
    var s := Init(size, start);
    if n == 0 {
      Start(size, start, true);
      assert s == State(RoomOf(0), QUIET, Polling(size, start, Resting));
    } else {
      QuietStart(size, start, n - 1);
      PublishOne(s, n - 1, QUIET, Polling(size, start, Resting), true);
    }
  }

  lemma LivePoll(start: Option<int>)
    ensures Reaches(Init(1, start), State(RoomOf(0), Link(true, [], Mine(1, true, [], [])),
                                          Polling(1, start, Waiting(true))), true)
  {
    var s, room := Init(1, start), RoomOf(0);
    QuietStart(1, start, 0);
    BeginStep(s, room, QUIET, Polling(1, start, Resting), true);
    assert [] + [Sub] == [Sub] && [Sub][1..] == [];
    RedisStep(s, room, Link(false, [], Mine(1, false, [], [Sub])), Polling(1, start, Waiting(false)), true);
    assert [] + [Confirmation] == [Confirmation] + [];
    HearConfirmation(s, room, [], Mine(1, false, [], []), Polling(1, start, Waiting(false)), true);
  }

  lemma LiveDrain(start: Option<int>)
    requires CursorOf([], start) < 0
    ensures Reaches(Init(1, start), State(RoomOf(0), Link(true, [], Mine(1, true, [], [])),
                                          Polling(1, start, Draining(CursorOf([], start), 1, []))), true)
  {
    var s, room, link := Init(1, start), RoomOf(0), Link(true, [], Mine(1, true, [], []));
    LivePoll(start);
    var reading := State(room, link, Polling(1, start, Reading));
    Go(s, State(room, link, Polling(1, start, Waiting(true))), true, Wake, reading);
    assert reading.client.delivered + [] == [] && room.log[..0] == [];
    Go(s, reading, true, ReadLog, State(room, link, Polling(1, start, Draining(CursorOf([], start), 1, []))));
  }

  /** A live poll of one change receives the first one. */
  lemma LiveTake(start: Option<int>)
    requires CursorOf([], start) < 0
    ensures Reaches(Init(1, start), State(RoomOf(1), Link(true, [], Mine(1, true, [], [])),
                                          Caught(1, start, 0, 1, Draining(CursorOf([], start), 0, [1]))), true)
  {
    var s, link := Init(1, start), Link(true, [], Mine(1, true, [], []));
    LiveDrain(start);
    var c := Polling(1, start, Draining(CursorOf([], start), 1, []));
    PublishOne(s, 0, link, c, true);
    assert [] + [Data(1)] == [Data(1)] + [];
    NothingAdded([1]);
    HearForOne(s, RoomOf(1), [], true, ME, Inbox(1, []), [], c, 1, true);
    TakeStep(s, RoomOf(1), Link(true, [], Mine(1, true, [1], [])), 1, 1, [], c, true);
    assert [] + [1] == Upto(0, 1);
  }

  lemma LiveStart(start: Option<int>)
    requires CursorOf([], start) < 0
    ensures Reaches(Init(1, start), State(RoomOf(1), QUIET, Caught(1, start, 0, 1, Resting)), true)
  {
    var s, link := Init(1, start), Link(true, [], Mine(1, true, [], []));
    LiveTake(start);
    var d := Caught(1, start, 0, 1, Draining(CursorOf([], start), 0, [1]));
    assert link.hub.clients - {ME} == map[] && [] + [Unsub] == [Unsub] && [Unsub][1..] == [];
    var finished := State(RoomOf(1), Link(true, [], Hub(None, map[], [Unsub])), Caught(1, start, 0, 1, Resting));
    Go(s, State(RoomOf(1), link, d), true, Finish, finished);
    RedisStep(s, RoomOf(1), finished.link, finished.client, true);
  }

  /** Whatever the size and the start, a single other client can make a covered client skip a change. */
  lemma OtherClientCanGap(size: nat, start: Option<int>) returns (end: State)
    requires size > 0 && Covered(size, start)
    ensures Reaches(Init(size, start), end, true) && !IsSlice(end.client.delivered, end.room.log)
  {
    var s := Init(size, start);
    if start.Some? && start.value >= 0 {
      var k: nat := start.value;
      QuietStart(size, start, k);
      assert Caught(size, start, k, k, Resting) == Polling(size, start, Resting);
      end := OtherCanCauseGap(s, k, size, start, k);
      SkippedIsNoSlice(k, k + 2);
    } else {
      LiveStart(start);
      end := OtherCanCauseGap(s, 1, 1, start, 0);
      SkippedIsNoSlice(0, 3);
    }
  }

  // ------------------------------------------------------------------ exactly when delivery is free of gaps

  /** A run that never trims past the cursor, with other clients or without, delivers without a gap. */
  ghost predicate GapFree(size: nat, start: Option<int>, others: bool, actions: seq<Action>) {
    IsRun(Init(size, start), actions) && IsUntrimmedRun(Init(size, start), actions) && (others || Alone(actions)) ==>
      (var end := Execute(Init(size, start), actions);
       IsSlice(end.client.delivered, end.room.log))
  }

  lemma Witness(size: nat, start: Option<int>, others: bool, end: State)
    requires Reaches(Init(size, start), end, others) && !IsSlice(end.client.delivered, end.room.log)
    ensures exists actions :: !GapFree(size, start, others, actions)
  {
    var s := Init(size, start);
    var actions :| IsRun(s, actions) && Execute(s, actions) == end && IsUntrimmedRun(s, actions) && (others || Alone(actions));
    assert !GapFree(size, start, others, actions);
  }

  lemma WithOthers(s: State, t: State, others: bool)
    requires Reaches(s, t, false)
    ensures Reaches(s, t, others)
  {
    var actions :| IsRun(s, actions) && Execute(s, actions) == t && IsUntrimmedRun(s, actions) && Alone(actions);
  }

  /** A client that asks for no changes. */
  predicate AsksNothing(c: Client) {
    c.size == 0 && c.delivered == [] && (c.poll.Draining? ==> c.poll.left == 0)
  }

  lemma {:induction false} NothingAskedNothingDelivered(s: State, actions: seq<Action>)
    requires AsksNothing(s.client) && IsRun(s, actions)
    ensures AsksNothing(Execute(s, actions).client)
    decreases |actions|
  {
    if actions != [] {
      NothingAskedNothingDelivered(Next(s, actions[0]), actions[1..]);
    }
  }

  /**
    What a caller knows decides: every run is free of gaps if and only if the client asks for nothing, or it has the
    channel to itself and starts from a known id or takes one change a poll.
   */
  lemma GapFreeIff(size: nat, start: Option<int>, others: bool)
    ensures (size == 0 || (Covered(size, start) && !others)) <==> forall actions :: GapFree(size, start, others, actions)
  {
    if size == 0 {
      forall actions ensures GapFree(size, start, others, actions) {
        if IsRun(Init(size, start), actions) {
          NothingAskedNothingDelivered(Init(size, start), actions);
          assert [] <= Execute(Init(size, start), actions).room.log[0..];
        }
      }
    } else if !Covered(size, start) {
      var end := UncoveredDeliveryCanGap(size, start);
      WithOthers(Init(size, start), end, others);
      Witness(size, start, others, end);
    } else if others {
      var end := OtherClientCanGap(size, start);
      Witness(size, start, others, end);
    } else {
      forall actions ensures GapFree(size, start, others, actions) {
        if IsUntrimmedRun(Init(size, start), actions) && Alone(actions) {
          LoneDeliveryIsGapFree(size, start, actions);
        }
      }
    }
  }

  ghost predicate OrderlyGapFree(size: nat, start: Option<int>, actions: seq<Action>) {
    IsRun(Init(size, start), actions) && IsOrderlyRun(Init(size, start), actions) ==>
      (var end := Execute(Init(size, start), actions);
       IsSlice(end.client.delivered, end.room.log))
  }

  /** With other clients, orderly runs are free of gaps exactly in the covered configurations. */
  lemma GapFreeIffCovered(size: nat, start: Option<int>)
    ensures Covered(size, start) <==> forall actions :: OrderlyGapFree(size, start, actions)
  {
    if Covered(size, start) {
      forall actions ensures OrderlyGapFree(size, start, actions) {
        if IsOrderlyRun(Init(size, start), actions) {
          DeliveryIsGapFree(size, start, actions);
        }
      }
    } else {
      var end := UncoveredDeliveryCanGap(size, start);
      var s := Init(size, start);
      var actions :| IsRun(s, actions) && Execute(s, actions) == end && IsUntrimmedRun(s, actions) && Alone(actions);
      LoneRunsAreOrderly(s, actions);
      assert !OrderlyGapFree(size, start, actions);
    }
  }
}
