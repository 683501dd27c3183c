/**
  Delivery of a room's changes to one long-polling client, over every interleaving of the
  publishers, Redis, the listener, the client's chained polls and any other clients of the channel.

  `log` keeps every change id ever stored in the room; `trimmed` counts the oldest entries already
  removed from the stored list. `cursor` is what the next poll passes as the last id: the last id received,
  or `start` while nothing has been received.
 */
module ChannelDelivery {
  import opened Prelude
  import opened ChannelHub

  datatype Message = Confirmation | Data(id: nat)

  /** Progress of the publisher that holds the room lock. */
  datatype Writer = Idle | Locked | Numbered(id: nat) | Stored(id: nat)

  /** Progress of the client's current poll. `got` are the ids taken from the queue in this poll. */
  datatype Poll =
    | Resting
    | Waiting(ready: bool)
    | Reading
    | Draining(last: int, left: nat, got: seq<nat>)
    | Overrun

  /** The room's stored changes. `sequence` counts the ids handed out, in this room and in others. */
  datatype Room = Room(sequence: nat, log: seq<nat>, trimmed: nat, writer: Writer)

  /** The connection to Redis: `subscribed` is Redis' view of it, `wire` what Redis sent and nobody heard yet. */
  datatype Link = Link(subscribed: bool, wire: seq<Message>, hub: Hub)

  /**
    The client. `size` is its queue size, the limit of its log read and the number of changes a poll may return;
    `orphan` is its queue once the listener has dropped it.
   */
  datatype Client = Client(size: nat, start: Option<int>, orphan: seq<nat>, poll: Poll, delivered: seq<nat>)

  datatype State = State(room: Room, link: Link, client: Client)

  datatype Action =
    | Lock | Number | Store | Publish | Abort | OtherRoom | Trim(n: nat)
    | RedisReads
    | Hear
    | Begin | Wake | ReadLog | Take | Finish
    | OtherJoins(other: nat, capacity: nat) | OtherLeaves(other: nat)

  const ME: nat := 0

  function Init(size: nat, start: Option<int>): State {
    State(Room(0, [], 0, Idle),
          Link(false, [], Hub(None, map[], [])),
          Client(size, start, [], Resting, []))
  }

  /** The ids of `ids` that lie after `last`, in order. */
  function After(ids: seq<nat>, last: int): seq<nat> {
    if ids == [] then []
    else
      var x := ids[|ids| - 1];
      After(ids[..|ids| - 1], last) + if x > last then [x] else []
  }

  function Ids(wire: seq<Message>): seq<nat> {
    if wire == [] then []
    else (if wire[0].Data? then [wire[0].id] else []) + Ids(wire[1..])
  }

  function FirstN(s: seq<nat>, n: nat): (r: seq<nat>)
    ensures |r| <= n && r <= s && (|r| < n ==> r == s)
  {
    if |s| <= n then s else s[..n]
  }

  /** What the next poll passes; -1 stands for no last id, which the code treats like any negative one. */
  function CursorOf(delivered: seq<nat>, start: Option<int>): int {
    if delivered != [] then delivered[|delivered| - 1]
    else if start.Some? then start.value
    else -1
  }

  function Cursor(c: Client): int {
    CursorOf(c.delivered, c.start)
  }

  /** `Change.list(min_pk=last + 1, limit=size)` on what is left of the log; a non-positive bound yields nothing. */
  function ReadDatabase(room: Room, c: Client): (found: seq<nat>)
    requires room.trimmed <= |room.log|
    ensures |found| <= c.size
  {
    if Cursor(c) + 1 <= 0 then [] else FirstN(After(room.log[room.trimmed..], Cursor(c)), c.size)
  }

  function Queue(h: Hub, c: Client): seq<nat> {
    if ME in h.clients then h.clients[ME].items else c.orphan
  }

  /** The part of the log that has been published. */
  function Published(room: Room): seq<nat> {
    if room.writer.Stored? && room.log != [] then room.log[..|room.log| - 1] else room.log
  }

  predicate RoomCan(room: Room, a: Action) {
    match a
    case Lock => room.writer.Idle?
    case Number => room.writer.Locked?
    case Store => room.writer.Numbered?
    case Publish => room.writer.Stored?
    case Abort => room.writer.Locked? || room.writer.Numbered?
    case Trim(n) => room.trimmed <= n <= |room.log|
    case _ => true
  }

  predicate LinkCan(link: Link, a: Action) {
    match a
    case RedisReads => link.hub.outbox != []
    case Hear => link.wire != []
    case OtherJoins(c, capacity) => c != ME && c !in link.hub.clients && capacity > 0
    case OtherLeaves(c) => c != ME && c in link.hub.clients && link.hub.event == Some(true)
    case _ => true
  }

  predicate ClientCan(s: State, a: Action) {
    var poll := s.client.poll;
    match a
    case Begin => poll.Resting?
    case Wake => poll == Waiting(true)
    case ReadLog => poll.Reading? && s.room.trimmed <= |s.room.log|
    case Take => poll.Draining? && poll.left > 0 && Queue(s.link.hub, s.client) != []
    case Finish => poll.Reading? || poll.Draining?
    case _ => true
  }

  predicate Possible(s: State, a: Action) {
    RoomCan(s.room, a) && LinkCan(s.link, a) && ClientCan(s, a)
  }

  /** The listener gives the channel up although its subscription was never confirmed. */
  predicate EmptiesUnconfirmed(link: Link) {
    && link.wire != [] && link.wire[0].Data?
    && link.hub.event == Some(false) && Deliver(link.hub, link.wire[0].id).event.None?
  }

  /** Nothing after the cursor has been trimmed when the log is read. */
  predicate Untrimmed(s: State, a: Action) {
    a.ReadLog? ==> s.room.trimmed <= |s.room.log| && After(s.room.log[..s.room.trimmed], Cursor(s.client)) == []
  }

  /** Nothing after the cursor is trimmed, and no other client is overrun unconfirmed. */
  predicate Orderly(s: State, a: Action) {
    Untrimmed(s, a) && (a.Hear? && EmptiesUnconfirmed(s.link) ==> s.client.poll == Waiting(false))
  }

  function NextRoom(room: Room, a: Action): Room
    requires RoomCan(room, a)
  {
    match a
    case Lock => room.(writer := Locked)
    case Number => room.(sequence := room.sequence + 1, writer := Numbered(room.sequence + 1))
    case Store => room.(log := room.log + [room.writer.id], writer := Stored(room.writer.id))
    case Publish => room.(writer := Idle)
    case Abort => room.(writer := Idle)
    case OtherRoom => room.(sequence := room.sequence + 1)
    case Trim(n) => room.(trimmed := n)
    case _ => room
  }

  function RedisReadsCommand(link: Link): Link
    requires link.hub.outbox != []
  {
    var hub := link.hub.(outbox := link.hub.outbox[1..]);
    if link.hub.outbox[0].Sub? then Link(true, link.wire + [Confirmation], hub) else Link(false, link.wire, hub)
  }

  function HearFirst(link: Link): Link
    requires link.wire != []
  {
    match link.wire[0]
    case Confirmation => link.(wire := link.wire[1..], hub := Confirm(link.hub))
    case Data(id) => link.(wire := link.wire[1..], hub := Deliver(link.hub, id))
  }

  function NextLink(s: State, a: Action): Link
    requires Possible(s, a)
  {
    var link := s.link;
    match a
    case Publish => if link.subscribed then link.(wire := link.wire + [Data(s.room.writer.id)]) else link
    case RedisReads => RedisReadsCommand(link)
    case Hear => HearFirst(link)
    case Begin => link.(hub := Subscribe(link.hub, ME, s.client.size))
    case Take => if ME in link.hub.clients then link.(hub := PopFirst(link.hub)) else link
    case Finish => link.(hub := Unsubscribe(link.hub, ME))
    case OtherJoins(c, capacity) => link.(hub := Subscribe(link.hub, c, capacity))
    case OtherLeaves(c) => link.(hub := Unsubscribe(link.hub, c))
    case _ => link
  }

  function PopFirst(h: Hub): Hub
    requires ME in h.clients && h.clients[ME].items != []
  {
    h.(clients := h.clients[ME := h.clients[ME].(items := h.clients[ME].items[1..])])
  }

  function NextClient(s: State, a: Action): Client
    requires Possible(s, a)
  {
    var c, h := s.client, s.link.hub;
    match a
    case Hear => ClientHears(s.link, c)
    case Begin => c.(orphan := [], poll := Waiting(h.event == Some(true)))
    case Wake => c.(poll := Reading)
    case ReadLog => ClientReads(c, ReadDatabase(s.room, c))
    case Take =>
      var d := ClientTakes(c, Queue(h, c)[0]);
      if ME in h.clients then d else d.(orphan := c.orphan[1..])
    case Finish => c.(orphan := [], poll := Resting)
    case _ => c
  }

  function ClientHears(link: Link, c: Client): Client
    requires link.wire != []
  {
    match link.wire[0]
    case Confirmation =>
      if link.hub.event.Some? && c.poll == Waiting(false) then c.(poll := Waiting(true)) else c
    case Data(id) =>
      var d := if ME in link.hub.clients && Full(link.hub.clients[ME]) then c.(orphan := Queue(link.hub, c)) else c;
      if c.poll == Waiting(false) && Deliver(link.hub, id).event.None? then d.(poll := Overrun) else d
  }

  function ClientReads(c: Client, found: seq<nat>): Client
    requires |found| <= c.size
  {
    var delivered := c.delivered + found;
    c.(delivered := delivered, poll := Draining(CursorOf(delivered, c.start), c.size - |found|, []))
  }

  /** One turn of the loop in `process_queue`; the last id is not moved. */
  function ClientTakes(c: Client, x: nat): Client
    requires c.poll.Draining? && c.poll.left > 0
  {
    if x > c.poll.last
    then c.(delivered := c.delivered + [x], poll := Draining(c.poll.last, c.poll.left - 1, c.poll.got + [x]))
    else c
  }

  function Next(s: State, a: Action): State
    requires Possible(s, a)
  {
    State(NextRoom(s.room, a), NextLink(s, a), NextClient(s, a))
  }

  predicate IsRun(s: State, actions: seq<Action>)
    decreases |actions|
  {
    actions == [] || (Possible(s, actions[0]) && IsRun(Next(s, actions[0]), actions[1..]))
  }

  /** The log is never trimmed past the cursor: all that a client with the channel to itself needs. */
  predicate IsUntrimmedRun(s: State, actions: seq<Action>)
    decreases |actions|
  {
    actions == [] ||
    (Possible(s, actions[0]) && Untrimmed(s, actions[0]) && IsUntrimmedRun(Next(s, actions[0]), actions[1..]))
  }

  predicate IsOrderlyRun(s: State, actions: seq<Action>)
    decreases |actions|
  {
    actions == [] ||
    (Possible(s, actions[0]) && Orderly(s, actions[0]) && IsOrderlyRun(Next(s, actions[0]), actions[1..]))
  }

  function Execute(s: State, actions: seq<Action>): State
    requires IsRun(s, actions)
    decreases |actions|
  {
    if actions == [] then s else Execute(Next(s, actions[0]), actions[1..])
  }

  // ------------------------------------------------------------------ reading ids after a cursor

  lemma AfterSnoc(ids: seq<nat>, x: nat, last: int)
    ensures After(ids + [x], last) == After(ids, last) + if x > last then [x] else []
  {
    assert (ids + [x])[..|ids|] == ids;
  }

  lemma {:induction false} AfterConcat(a: seq<nat>, b: seq<nat>, last: int)
    ensures After(a + b, last) == After(a, last) + After(b, last)
    decreases |b|
  {
    if b == [] {
      assert a + b == a;
    } else {
      var c, x := b[..|b| - 1], b[|b| - 1];
      assert b == c + [x] && a + b == (a + c) + [x];
      AfterSnoc(a + c, x, last);
      AfterConcat(a, c, last);
    }
  }

  lemma {:induction false} AfterNone(ids: seq<nat>, last: int)
    requires forall i :: 0 <= i < |ids| ==> ids[i] <= last
    ensures After(ids, last) == []
    decreases |ids|
  {
    if ids != [] {
      AfterNone(ids[..|ids| - 1], last);
    }
  }

  lemma {:induction false} AfterMembers(ids: seq<nat>, last: int)
    ensures forall x :: x in After(ids, last) <==> x in ids && x > last
    decreases |ids|
  {
    if ids != [] {
      AfterMembers(ids[..|ids| - 1], last);
      assert ids == ids[..|ids| - 1] + [ids[|ids| - 1]];
    }
  }

  /** In an increasing log, what lies after the last id of a delivered prefix is exactly what is still to come. */
  lemma {:induction false} AfterResumes(ids: seq<nat>, from: int, got: seq<nat>)
    requires Increasing(ids)
    requires got <= After(ids, from) && got != []
    ensures After(ids, from) == got + After(ids, got[|got| - 1])
    decreases |ids|
  {
    var init, x, last := ids[..|ids| - 1], ids[|ids| - 1], got[|got| - 1];
    AfterMembers(init, from);
    if got <= After(init, from) {
      AfterResumes(init, from, got);
      assert last in After(init, from);
    } else {
      assert got == After(ids, from) == After(init, from) + [x];
      AfterNone(ids, x);
    }
  }

  lemma {:induction false} IdsConcat(a: seq<Message>, b: seq<Message>)
    ensures Ids(a + b) == Ids(a) + Ids(b)
    decreases |a|
  {
    if a == [] {
      NothingAdded(b);
      NothingAdded(Ids(b));
    } else {
      HeadOfConcat(a, b);
      IdsConcat(a[1..], b);
      Assoc(if a[0].Data? then [a[0].id] else [], Ids(a[1..]), Ids(b));
    }
  }

  /** An id of the log is the first one after its predecessor. */
  lemma {:induction false} AfterStartsAt(ids: seq<nat>, x: nat)
    requires Increasing(ids) && x in ids
    ensures [x] <= After(ids, x - 1)
    decreases |ids|
  {
    var init := ids[..|ids| - 1];
    if ids[|ids| - 1] == x {
      AfterNone(init, x - 1);
    } else {
      AfterStartsAt(init, x);
    }
  }

  // ------------------------------------------------------------------ the log and its writers

  ghost predicate RoomOk(room: Room) {
    && Increasing(room.log)
    && (forall i :: 0 <= i < |room.log| ==> 1 <= room.log[i] <= room.sequence)
    && room.trimmed <= |room.log|
    && (room.writer.Numbered? ==>
          1 <= room.writer.id <= room.sequence && forall i :: 0 <= i < |room.log| ==> room.log[i] < room.writer.id)
    && (room.writer.Stored? ==> room.log != [] && room.log[|room.log| - 1] == room.writer.id)
  }

  lemma StepKeepsRoomOk(room: Room, a: Action)
    requires RoomOk(room) && RoomCan(room, a)
    ensures RoomOk(NextRoom(room, a))
  {
  }

  // ------------------------------------------------------------------ the subscription link

  /** The subscription commands and confirmations under way agree with the event of the channel. */
  ghost predicate LinkOk(link: Link) {
    var h := link.hub;
    && HubOk(h)
    && match h.event
       case None => Sub !in h.outbox && Confirmation !in link.wire
       case Some(confirmed) =>
         if confirmed then h.outbox == [] && link.subscribed && Confirmation !in link.wire
         else if h.outbox == [] then link.subscribed && multiset(link.wire)[Confirmation] == 1
         else multiset(h.outbox)[Sub] == 1 && h.outbox[|h.outbox| - 1] == Sub && Confirmation !in link.wire
  }

  lemma RedisReadsKeepsLinkOk(link: Link)
    requires LinkOk(link) && link.hub.outbox != []
    ensures LinkOk(RedisReadsCommand(link))
  {
    var h := link.hub;
    assert h.outbox == [h.outbox[0]] + h.outbox[1..];
    if h.event == Some(false) && |h.outbox| > 1 {
      assert Sub in h.outbox[1..];
    }
  }

  lemma HearingConfirmationKeepsLinkOk(link: Link)
    requires LinkOk(link) && link.wire != [] && link.wire[0].Confirmation?
    ensures link.hub.event == Some(false) && LinkOk(HearFirst(link))
  {
    assert link.wire == [Confirmation] + link.wire[1..];
    assert multiset(link.wire)[Confirmation] == 1 + multiset(link.wire[1..])[Confirmation];
  }

  lemma HearingDataKeepsLinkOk(link: Link)
    requires LinkOk(link) && link.wire != [] && link.wire[0].Data? && !EmptiesUnconfirmed(link)
    ensures LinkOk(HearFirst(link))
  {
    OperationsKeepHubOk(link.hub, 0, 0, link.wire[0].id);
    assert link.wire == [link.wire[0]] + link.wire[1..];
  }

  lemma SubscribingKeepsLinkOk(link: Link, client: nat, capacity: nat)
    requires LinkOk(link)
    ensures LinkOk(link.(hub := Subscribe(link.hub, client, capacity)))
  {
    OperationsKeepHubOk(link.hub, client, capacity, 0);
  }

  lemma UnsubscribingKeepsLinkOk(link: Link, client: nat)
    requires LinkOk(link) && (client in link.hub.clients ==> link.hub.event == Some(true))
    ensures LinkOk(link.(hub := Unsubscribe(link.hub, client)))
  {
    OperationsKeepHubOk(link.hub, client, 0, 0);
    if client !in link.hub.clients {
      assert link.hub.clients - {client} == link.hub.clients;
    }
  }

  ghost predicate PollOk(h: Hub, poll: Poll) {
    match poll
    case Resting => ME !in h.clients
    case Waiting(ready) => if ready then ME in h.clients ==> h.event == Some(true) else h.event == Some(false)
    case Overrun => true
    case _ => ME in h.clients ==> h.event == Some(true)
  }

  lemma StepKeepsLinkOk(s: State, a: Action)
    requires LinkOk(s.link) && PollOk(s.link.hub, s.client.poll) && Possible(s, a)
    requires a.Hear? ==> !EmptiesUnconfirmed(s.link)
    ensures LinkOk(NextLink(s, a))
  {
    match a
    case RedisReads => RedisReadsKeepsLinkOk(s.link);
    case Hear =>
      if s.link.wire[0].Data? { HearingDataKeepsLinkOk(s.link); } else { HearingConfirmationKeepsLinkOk(s.link); }
    case Begin => SubscribingKeepsLinkOk(s.link, ME, s.client.size);
    case Finish => UnsubscribingKeepsLinkOk(s.link, ME);
    case OtherJoins(c, capacity) => SubscribingKeepsLinkOk(s.link, c, capacity);
    case OtherLeaves(c) => UnsubscribingKeepsLinkOk(s.link, c);
    case Take => PoppingKeepsLinkOk(s.link, NextLink(s, a));
    case _ =>
  }

  lemma PoppingKeepsLinkOk(link: Link, after: Link)
    requires LinkOk(link)
    requires after == link || (ME in link.hub.clients && link.hub.clients[ME].items != []
                               && after == link.(hub := PopFirst(link.hub)))
    ensures LinkOk(after)
  {
  }

  lemma StepKeepsPollOk(s: State, a: Action)
    requires LinkOk(s.link) && PollOk(s.link.hub, s.client.poll) && Possible(s, a) && Orderly(s, a)
    ensures PollOk(NextLink(s, a).hub, NextClient(s, a).poll)
  {
    if a.Hear? && s.link.wire[0].Confirmation? {
      HearingConfirmationKeepsLinkOk(s.link);
    }
  }

  // ------------------------------------------------------------------ what the client has and is owed

  /** Everything on its way to the client has been published. */
  ghost predicate IdsOk(s: State) {
    && (forall x :: x in Ids(s.link.wire) ==> x in Published(s.room))
    && (forall x :: x in Queue(s.link.hub, s.client) ==> x in Published(s.room))
  }

  /** The configurations for which delivery is gap-free: a known start, or at most one change a poll. */
  predicate Covered(size: nat, start: Option<int>) {
    size <= 1 || (start.Some? && start.value >= 0)
  }

  predicate HasOrigin(c: Client) {
    (c.start.Some? && c.start.value >= 0) || c.delivered != []
  }

  /** The id after which delivery began. */
  function Origin(c: Client): int
    requires HasOrigin(c)
  {
    if c.start.Some? && c.start.value >= 0 then c.start.value else (c.delivered[0] as int) - 1
  }

  /** The deliveries are a contiguous run of the log that begins right after the origin. */
  ghost predicate InOrder(log: seq<nat>, c: Client) {
    && Covered(c.size, c.start)
    && (HasOrigin(c) ==> c.delivered <= After(log, Origin(c)))
  }

  /** A registered client is owed exactly what its queue and the wire hold; a dropped one at least no gap. */
  ghost predicate Owed(registered: bool, got: seq<nat>, queue: seq<nat>, wire: seq<nat>, log: seq<nat>, last: int) {
    if registered then got + After(queue, last) + After(wire, last) == After(log, last)
    else got + After(queue, last) <= After(log, last)
  }

  /** What was delivered before the queue was opened in this poll. */
  function Base(c: Client): seq<nat>
    requires c.poll.Draining? && |c.poll.got| <= |c.delivered|
  {
    c.delivered[..|c.delivered| - |c.poll.got|]
  }

  ghost predicate Drains(c: Client, registered: bool, queue: seq<nat>, wire: seq<nat>, log: seq<nat>) {
    c.poll.Draining? && c.poll.left > 0 ==>
      && |c.poll.got| <= |c.delivered|
      && c.delivered == Base(c) + c.poll.got
      && c.poll.last == CursorOf(Base(c), c.start)
      && (if c.poll.last < 0 then c.poll.left == 1 && c.delivered == []
          else Owed(registered, c.poll.got, queue, wire, log, c.poll.last))
  }

  ghost predicate DrainOk(s: State) {
    Drains(s.client, ME in s.link.hub.clients, Queue(s.link.hub, s.client), Ids(s.link.wire), Published(s.room))
  }

  lemma OwedAfterPublish(registered: bool, got: seq<nat>, queue: seq<nat>, wire: seq<nat>, log: seq<nat>, last: int,
                         id: nat, sent: bool)
    requires Owed(registered, got, queue, wire, log, last) && (registered ==> sent)
    ensures Owed(registered, got, queue, if sent then wire + [id] else wire, log + [id], last)
  {
    AfterSnoc(log, id, last);
    AfterSnoc(wire, id, last);
  }

  /** The listener moves the first message of the wire to the queue, or drops the client. */
  lemma OwedAfterHearing(got: seq<nat>, queue: seq<nat>, wire: seq<nat>, log: seq<nat>, last: int, dropped: bool)
    requires Owed(true, got, queue, wire, log, last) && wire != []
    ensures Owed(!dropped, got, if dropped then queue else queue + [wire[0]], wire[1..], log, last)
  {
    assert wire == [wire[0]] + wire[1..];
    AfterConcat([wire[0]], wire[1..], last);
    AfterConcat(queue, [wire[0]], last);
    assert got + After(queue, last) + After(wire, last)
        == got + After(queue + [wire[0]], last) + After(wire[1..], last);
  }

  lemma OwedAfterTaking(registered: bool, got: seq<nat>, queue: seq<nat>, wire: seq<nat>, log: seq<nat>, last: int)
    requires Owed(registered, got, queue, wire, log, last) && queue != []
    ensures var got' := if queue[0] > last then got + [queue[0]] else got;
      Owed(registered, got', queue[1..], wire, log, last) && got' <= After(log, last)
  {
    assert queue == [queue[0]] + queue[1..];
    AfterConcat([queue[0]], queue[1..], last);
    AfterSnoc([], queue[0], last);
    assert [] + [queue[0]] == [queue[0]];
    var got' := if queue[0] > last then got + [queue[0]] else got;
    assert got + After(queue, last) == got' + After(queue[1..], last);
  }

  lemma PublishedGrows(room: Room)
    requires RoomOk(room)
    ensures room.writer.Stored? ==> room.log == Published(room) + [room.writer.id]
    ensures Published(room) <= room.log && Increasing(Published(room))
  {
  }

  lemma HearingMovesHead(link: Link, c: Client)
    requires HubOk(link.hub) && link.wire != [] && link.wire[0].Data?
    ensures var stays := ME in link.hub.clients && !Full(link.hub.clients[ME]);
      && (ME in HearFirst(link).hub.clients <==> stays)
      && Queue(HearFirst(link).hub, ClientHears(link, c)) ==
           (if stays then Queue(link.hub, c) + [link.wire[0].id] else Queue(link.hub, c))
    ensures Ids(link.wire) == [link.wire[0].id] + Ids(link.wire[1..])
  {
    DeliverReachesEveryClient(link.hub, link.wire[0].id);
  }

  /** Actions that neither publish nor touch the client's own queue leave both alone. */
  lemma OthersLeaveQueueAlone(s: State, a: Action)
    requires Possible(s, a) && LinkOk(s.link)
    requires !a.Publish? && !a.Hear? && !a.Begin? && !a.Take? && !a.Finish?
    ensures Ids(NextLink(s, a).wire) == Ids(s.link.wire)
    ensures ME in NextLink(s, a).hub.clients <==> ME in s.link.hub.clients
    ensures Queue(NextLink(s, a).hub, NextClient(s, a)) == Queue(s.link.hub, s.client)
    ensures RoomOk(s.room) ==> Published(NextRoom(s.room, a)) == Published(s.room)
  {
    if a.RedisReads? {
      IdsConcat(s.link.wire, [Confirmation]);
      assert Ids([Confirmation]) == [];
    } else if a.Store? {
      assert (s.room.log + [s.room.writer.id])[..|s.room.log|] == s.room.log;
    }
  }

  lemma PublishSends(s: State)
    requires Possible(s, Publish) && RoomOk(s.room)
    ensures Published(NextRoom(s.room, Publish)) == Published(s.room) + [s.room.writer.id]
    ensures Ids(NextLink(s, Publish).wire) ==
      if s.link.subscribed then Ids(s.link.wire) + [s.room.writer.id] else Ids(s.link.wire)
  {
    PublishedGrows(s.room);
    IdsConcat(s.link.wire, [Data(s.room.writer.id)]);
    assert Ids([Data(s.room.writer.id)]) == [s.room.writer.id];
  }

  lemma StepKeepsIdsOk(s: State, a: Action)
    requires RoomOk(s.room) && LinkOk(s.link) && IdsOk(s) && Possible(s, a)
    requires PollOk(s.link.hub, s.client.poll)
    ensures IdsOk(Next(s, a))
  {
    match a
    case Publish => PublishingKeepsIdsOk(s);
    case Hear => HearingKeepsIdsOk(s);
    case Begin =>
    case Take => TakingKeepsIdsOk(s);
    case Finish =>
    case _ => OthersLeaveQueueAlone(s, a);
  }

  lemma PublishingKeepsIdsOk(s: State)
    requires RoomOk(s.room) && IdsOk(s) && Possible(s, Publish)
    ensures IdsOk(Next(s, Publish))
  {
    PublishSends(s);
    assert s.room.writer.id in Published(s.room) + [s.room.writer.id];
  }

  lemma HearingKeepsIdsOk(s: State)
    requires LinkOk(s.link) && IdsOk(s) && Possible(s, Hear)
    ensures IdsOk(Next(s, Hear))
  {
    if s.link.wire[0].Data? {
      HearingMovesHead(s.link, s.client);
    } else {
      HearingConfirmationKeepsLinkOk(s.link);
    }
  }

  lemma TakingKeepsIdsOk(s: State)
    requires IdsOk(s) && Possible(s, Take)
    ensures IdsOk(Next(s, Take))
  {
    TakingPops(s);
  }

  // ------------------------------------------------------------------ deliveries stay in order

  lemma {:induction false} GrowingLogKeepsOrder(log: seq<nat>, x: nat, c: Client)
    requires InOrder(log, c)
    ensures InOrder(log + [x], c)
  {
    if HasOrigin(c) {
      AfterSnoc(log, x, Origin(c));
    }
  }

  /** With everything delivered so far in order, the cursor leaves exactly the rest of the log to deliver. */
  lemma CursorResumes(log: seq<nat>, c: Client)
    requires Increasing(log) && InOrder(log, c) && Cursor(c) >= 0
    ensures HasOrigin(c) && After(log, Origin(c)) == c.delivered + After(log, Cursor(c))
  {
    if c.delivered != [] {
      AfterResumes(log, Origin(c), c.delivered);
    }
  }

  lemma PrefixConcat(a: seq<nat>, b: seq<nat>, c: seq<nat>)
    requires b <= c
    ensures a + b <= a + c
  {
  }

  lemma DeliveringMoreKeepsOrder(log: seq<nat>, c: Client, more: seq<nat>)
    requires Increasing(log) && InOrder(log, c) && Cursor(c) >= 0
    requires more <= After(log, Cursor(c))
    ensures InOrder(log, c.(delivered := c.delivered + more))
  {
    CursorResumes(log, c);
    PrefixConcat(c.delivered, more, After(log, Cursor(c)));
    assert Origin(c.(delivered := c.delivered + more)) == Origin(c);
  }

  lemma {:induction false} AfterIsMonotone(a: seq<nat>, b: seq<nat>, last: int)
    requires a <= b
    ensures After(a, last) <= After(b, last)
  {
    assert b == a + b[|a|..];
    AfterConcat(a, b[|a|..], last);
  }

  lemma NothingAfter(ids: seq<nat>, last: int)
    requires forall x :: x in ids ==> x <= last
    ensures After(ids, last) == []
  {
    forall i | 0 <= i < |ids| ensures ids[i] <= last {
      assert ids[i] in ids;
    }
    AfterNone(ids, last);
  }

  lemma NothingLeftToOwe(s: State, last: int)
    requires RoomOk(s.room) && IdsOk(s) && After(s.room.log, last) == []
    ensures Owed(ME in s.link.hub.clients, [], Queue(s.link.hub, s.client), Ids(s.link.wire), Published(s.room), last)
  {
    AfterMembers(s.room.log, last);
    PublishedGrows(s.room);
    assert forall x :: x in Published(s.room) ==> x in s.room.log && x <= last;
    NothingAfter(Published(s.room), last);
    NothingAfter(Queue(s.link.hub, s.client), last);
    NothingAfter(Ids(s.link.wire), last);
  }

  /** The log read returns a prefix of what is still to come, and all of it when the limit is not reached. */
  lemma ReadDatabaseIsPrefix(room: Room, c: Client)
    requires room.trimmed <= |room.log| && After(room.log[..room.trimmed], Cursor(c)) == [] && Cursor(c) >= 0
    ensures ReadDatabase(room, c) <= After(room.log, Cursor(c))
    ensures |ReadDatabase(room, c)| < c.size ==> ReadDatabase(room, c) == After(room.log, Cursor(c))
  {
    assert room.log == room.log[..room.trimmed] + room.log[room.trimmed..];
    AfterConcat(room.log[..room.trimmed], room.log[room.trimmed..], Cursor(c));
  }

  lemma CompleteReadLeavesNothing(log: seq<nat>, c: Client)
    requires Increasing(log)
    ensures var found := After(log, Cursor(c)); After(log, CursorOf(c.delivered + found, c.start)) == []
  {
    var found := After(log, Cursor(c));
    if found == [] {
      assert c.delivered + found == c.delivered;
    } else {
      AfterResumes(log, Cursor(c), found);
    }
  }

  lemma ReadingKeepsOrder(room: Room, c: Client)
    requires Increasing(room.log) && InOrder(room.log, c) && Cursor(c) >= 0
    requires room.trimmed <= |room.log| && After(room.log[..room.trimmed], Cursor(c)) == []
    ensures InOrder(room.log, ClientReads(c, ReadDatabase(room, c)))
  {
    ReadDatabaseIsPrefix(room, c);
    DeliveringMoreKeepsOrder(room.log, c, ReadDatabase(room, c));
  }

  lemma BaseOfFreshDrain(c: Client)
    requires c.poll.Draining? && c.poll.got == []
    ensures Base(c) == c.delivered && c.delivered == Base(c) + c.poll.got
  {
    NothingAdded(c.delivered);
  }

  lemma ReadingStartsDrain(s: State)
    requires RoomOk(s.room) && IdsOk(s) && Cursor(s.client) >= 0
    requires After(s.room.log[..s.room.trimmed], Cursor(s.client)) == []
    ensures Drains(ClientReads(s.client, ReadDatabase(s.room, s.client)), ME in s.link.hub.clients,
                   Queue(s.link.hub, s.client), Ids(s.link.wire), Published(s.room))
  {
    var c, found := s.client, ReadDatabase(s.room, s.client);
    if |found| < c.size {
      BaseOfFreshDrain(ClientReads(c, found));
      ReadDatabaseIsPrefix(s.room, c);
      CompleteReadLeavesNothing(s.room.log, c);
      NothingLeftToOwe(s, CursorOf(c.delivered + found, c.start));
    }
  }

  lemma LogReadKeepsOrder(s: State)
    requires RoomOk(s.room) && IdsOk(s) && InOrder(s.room.log, s.client)
    requires Possible(s, ReadLog) && Orderly(s, ReadLog)
    ensures InOrder(s.room.log, NextClient(s, ReadLog))
    ensures DrainOk(Next(s, ReadLog))
  {
    if Cursor(s.client) >= 0 {
      ReadingKeepsOrder(s.room, s.client);
      ReadingStartsDrain(s);
    } else {
      assert s.client.delivered + [] == s.client.delivered;
    }
  }

  lemma BaseAfterTaking(c: Client, x: nat)
    requires c.poll.Draining? && c.poll.left > 0 && x > c.poll.last
    requires |c.poll.got| <= |c.delivered| && c.delivered == Base(c) + c.poll.got
    ensures var d := ClientTakes(c, x);
      |d.poll.got| <= |d.delivered| && d.delivered == Base(c) + d.poll.got && Base(d) == Base(c)
  {
    Assoc(Base(c), c.poll.got, [x]);
    PartsOfConcat(Base(c), c.poll.got + [x]);
  }

  /** What was drained so far, and one id more, keep the deliveries in order if they are next in the log. */
  lemma TakenInOrder(c: Client, x: nat, log: seq<nat>)
    requires c.poll.Draining? && c.poll.left > 0 && x > c.poll.last >= 0
    requires |c.poll.got| <= |c.delivered| && c.delivered == Base(c) + c.poll.got
    requires c.poll.last == CursorOf(Base(c), c.start)
    requires Increasing(log) && InOrder(log, c) && c.poll.got + [x] <= After(log, c.poll.last)
    ensures InOrder(log, ClientTakes(c, x))
  {
    var before := c.(delivered := Base(c));
    AfterPrefixOfDelivered(log, c, Base(c));
    BaseAfterTaking(c, x);
    DeliveringMoreKeepsOrder(log, before, c.poll.got + [x]);
    SameDeliveries(log, before.(delivered := Base(c) + (c.poll.got + [x])), ClientTakes(c, x));
  }

  lemma SameDeliveries(log: seq<nat>, c: Client, d: Client)
    requires InOrder(log, c) && c.size == d.size && c.start == d.start && c.delivered == d.delivered
    ensures InOrder(log, d)
  {
  }

  /** Taking one id from the queue delivers it only if it comes next in the log. */
  lemma TakingOwed(c: Client, registered: bool, queue: seq<nat>, wire: seq<nat>, published: seq<nat>, log: seq<nat>)
    requires Drains(c, registered, queue, wire, published) && c.poll.Draining? && c.poll.left > 0
    requires c.poll.last >= 0 && queue != []
    requires Increasing(log) && published <= log && InOrder(log, c)
    ensures InOrder(log, ClientTakes(c, queue[0]))
    ensures Drains(ClientTakes(c, queue[0]), registered, queue[1..], wire, published)
  {
    OwedAfterTaking(registered, c.poll.got, queue, wire, published, c.poll.last);
    if queue[0] > c.poll.last {
      AfterIsMonotone(published, log, c.poll.last);
      PrefixOfPrefix(c.poll.got + [queue[0]], After(published, c.poll.last), After(log, c.poll.last));
      TakenInOrder(c, queue[0], log);
      TakenStillDrains(c, queue[0], registered, queue[1..], wire, published);
    }
  }

  lemma TakenStillDrains(c: Client, x: nat, registered: bool, queue: seq<nat>, wire: seq<nat>, log: seq<nat>)
    requires c.poll.Draining? && c.poll.left > 0 && x > c.poll.last >= 0
    requires |c.poll.got| <= |c.delivered| && c.delivered == Base(c) + c.poll.got
    requires c.poll.last == CursorOf(Base(c), c.start)
    requires Owed(registered, c.poll.got + [x], queue, wire, log, c.poll.last)
    ensures Drains(ClientTakes(c, x), registered, queue, wire, log)
  {
    BaseAfterTaking(c, x);
  }

  lemma PrefixOfPrefix(a: seq<nat>, b: seq<nat>, c: seq<nat>)
    requires a <= b && b <= c
    ensures a <= c
  {
  }

  /** A live poll returns a single change, so any change of the log will do. */
  lemma TakingLive(c: Client, registered: bool, queue: seq<nat>, wire: seq<nat>, published: seq<nat>, log: seq<nat>)
    requires Drains(c, registered, queue, wire, published) && c.poll.Draining? && c.poll.left > 0
    requires c.poll.last < 0 && queue != []
    requires Increasing(log) && queue[0] in log && InOrder(log, c)
    ensures InOrder(log, ClientTakes(c, queue[0]))
    ensures Drains(ClientTakes(c, queue[0]), registered, queue[1..], wire, published)
  {
    AfterStartsAt(log, queue[0]);
    assert ClientTakes(c, queue[0]).delivered == [queue[0]];
  }

  lemma TakingPops(s: State)
    requires Possible(s, Take)
    ensures Queue(NextLink(s, Take).hub, NextClient(s, Take)) == Queue(s.link.hub, s.client)[1..]
    ensures ME in NextLink(s, Take).hub.clients <==> ME in s.link.hub.clients
    ensures NextLink(s, Take).wire == s.link.wire
    ensures NextClient(s, Take).(orphan := s.client.orphan) == ClientTakes(s.client, Queue(s.link.hub, s.client)[0])
  {
  }

  lemma TakingKeepsOrder(s: State)
    requires RoomOk(s.room) && IdsOk(s) && InOrder(s.room.log, s.client) && DrainOk(s)
    requires Possible(s, Take)
    ensures InOrder(s.room.log, NextClient(s, Take))
    ensures DrainOk(Next(s, Take))
  {
    var c, queue, wire := s.client, Queue(s.link.hub, s.client), Ids(s.link.wire);
    PublishedGrows(s.room);
    TakingPops(s);
    if c.poll.last >= 0 {
      TakingOwed(c, ME in s.link.hub.clients, queue, wire, Published(s.room), s.room.log);
    } else {
      assert queue[0] in queue;
      TakingLive(c, ME in s.link.hub.clients, queue, wire, Published(s.room), s.room.log);
    }
    SameButOrphan(ClientTakes(c, queue[0]), NextClient(s, Take), s.room.log, ME in s.link.hub.clients, queue[1..], wire,
                  Published(s.room));
  }

  /** What is left for a dropped client to take matters to neither. */
  lemma SameButOrphan(c: Client, d: Client, log: seq<nat>, registered: bool, queue: seq<nat>, wire: seq<nat>,
                      published: seq<nat>)
    requires InOrder(log, c) && Drains(c, registered, queue, wire, published) && d.(orphan := c.orphan) == c
    ensures InOrder(log, d) && Drains(d, registered, queue, wire, published)
  {
    SameDeliveries(log, c, d);
  }

  lemma AfterPrefixOfDelivered(log: seq<nat>, c: Client, base: seq<nat>)
    requires InOrder(log, c) && base <= c.delivered && CursorOf(base, c.start) >= 0
    ensures InOrder(log, c.(delivered := base))
  {
  }

  lemma PublishingKeepsDrainOk(s: State)
    requires RoomOk(s.room) && LinkOk(s.link) && PollOk(s.link.hub, s.client.poll) && DrainOk(s)
    requires Possible(s, Publish)
    ensures DrainOk(Next(s, Publish))
  {
    var c := s.client;
    PublishSends(s);
    if c.poll.Draining? && c.poll.left > 0 && c.poll.last >= 0 {
      OwedAfterPublish(ME in s.link.hub.clients, c.poll.got, Queue(s.link.hub, c), Ids(s.link.wire),
                       Published(s.room), c.poll.last, s.room.writer.id, s.link.subscribed);
    }
  }

  lemma HearingKeepsDrainOk(s: State)
    requires LinkOk(s.link) && PollOk(s.link.hub, s.client.poll) && DrainOk(s) && Possible(s, Hear)
    ensures DrainOk(Next(s, Hear))
  {
    var c, link := s.client, s.link;
    if c.poll.Draining? && c.poll.left > 0 {
      if link.wire[0].Data? {
        HearingMovesHead(link, c);
        if c.poll.last >= 0 && ME in link.hub.clients {
          OwedAfterHearing(c.poll.got, Queue(link.hub, c), Ids(link.wire), Published(s.room), c.poll.last,
                           Full(link.hub.clients[ME]));
        }
      } else {
        HearingConfirmationKeepsLinkOk(link);
      }
    }
  }

  ghost predicate Inv(s: State) {
    && RoomOk(s.room)
    && InOrder(s.room.log, s.client)
    && (s.client.poll.Overrun? ||
        (LinkOk(s.link) && PollOk(s.link.hub, s.client.poll) && IdsOk(s) && DrainOk(s)))
  }

  lemma StoringKeepsOrder(s: State)
    requires RoomOk(s.room) && LinkOk(s.link) && InOrder(s.room.log, s.client) && DrainOk(s) && Possible(s, Store)
    ensures InOrder(NextRoom(s.room, Store).log, NextClient(s, Store))
    ensures DrainOk(Next(s, Store))
  {
    GrowingLogKeepsOrder(s.room.log, s.room.writer.id, s.client);
    OthersLeaveQueueAlone(s, Store);
  }

  lemma HearingKeepsDeliveries(s: State)
    requires InOrder(s.room.log, s.client) && Possible(s, Hear)
    ensures InOrder(s.room.log, NextClient(s, Hear))
  {
    SameDeliveries(s.room.log, s.client, NextClient(s, Hear));
  }

  /** Actions that neither store, publish nor deliver anything. */
  lemma OthersKeepOrder(s: State, a: Action)
    requires RoomOk(s.room) && LinkOk(s.link) && InOrder(s.room.log, s.client) && DrainOk(s) && Possible(s, a)
    requires !a.Store? && !a.Publish? && !a.Hear? && !a.Begin? && !a.ReadLog? && !a.Take? && !a.Finish?
    ensures InOrder(NextRoom(s.room, a).log, NextClient(s, a))
    ensures DrainOk(Next(s, a))
  {
    OthersLeaveQueueAlone(s, a);
    SameDeliveries(s.room.log, s.client, NextClient(s, a));
  }

  lemma StepKeepsOrder(s: State, a: Action)
    requires Inv(s) && !s.client.poll.Overrun? && Possible(s, a) && Orderly(s, a)
    ensures InOrder(NextRoom(s.room, a).log, NextClient(s, a))
    ensures DrainOk(Next(s, a))
  {
    match a
    case Store => StoringKeepsOrder(s);
    case Publish => PublishingKeepsDrainOk(s);
    case Hear => HearingKeepsDeliveries(s); HearingKeepsDrainOk(s);
    case ReadLog => LogReadKeepsOrder(s);
    case Take => TakingKeepsOrder(s);
    case Begin => SameDeliveries(s.room.log, s.client, NextClient(s, a));
    case Finish => SameDeliveries(s.room.log, s.client, NextClient(s, a));
    case _ => OthersKeepOrder(s, a);
  }

  lemma StepKeepsInv(s: State, a: Action)
    requires Inv(s) && Possible(s, a) && Orderly(s, a)
    ensures Inv(Next(s, a))
  {
    StepKeepsRoomOk(s.room, a);
    if s.client.poll.Overrun? {
      if a.Store? {
        GrowingLogKeepsOrder(s.room.log, s.room.writer.id, s.client);
      }
    } else {
      StepKeepsOrder(s, a);
      if !(a.Hear? && EmptiesUnconfirmed(s.link)) {
        StepKeepsLinkOk(s, a);
        StepKeepsPollOk(s, a);
        StepKeepsIdsOk(s, a);
      }
    }
  }

  lemma {:induction false} RunKeepsInv(s: State, actions: seq<Action>)
    requires Inv(s) && IsOrderlyRun(s, actions)
    ensures IsRun(s, actions) && Inv(Execute(s, actions))
    decreases |actions|
  {
    if actions != [] {
      StepKeepsInv(s, actions[0]);
      RunKeepsInv(Next(s, actions[0]), actions[1..]);
    }
  }

  /**
    Chained polls deliver exactly a contiguous prefix of the room's log after the starting id: strictly increasing,
    without gap or repeat, in every interleaving. Without a usable starting id, delivery starts anywhere in the log.
   */
  lemma DeliveryIsGapFree(size: nat, start: Option<int>, actions: seq<Action>)
    requires Covered(size, start) && IsOrderlyRun(Init(size, start), actions)
    ensures IsRun(Init(size, start), actions)
    ensures var end := Execute(Init(size, start), actions);
      && Increasing(end.room.log)
      && (start.Some? && start.value >= 0 ==> end.client.delivered <= After(end.room.log, start.value))
      && IsSlice(end.client.delivered, end.room.log)
  {
    InitInv(size, start);
    RunKeepsInv(Init(size, start), actions);
    RunKeepsSetup(Init(size, start), actions);
    InvIsGapFree(Execute(Init(size, start), actions));
  }

  /** The ids follow one another in the log without a gap. */
  ghost predicate IsSlice(ids: seq<nat>, log: seq<nat>) {
    exists p :: 0 <= p <= |log| && ids <= log[p..]
  }

  lemma InitInv(size: nat, start: Option<int>)
    requires Covered(size, start)
    ensures Inv(Init(size, start))
  {
  }

  lemma InvIsGapFree(s: State)
    requires Inv(s)
    ensures Increasing(s.room.log) && IsSlice(s.client.delivered, s.room.log)
    ensures s.client.start.Some? && s.client.start.value >= 0 ==>
              s.client.delivered <= After(s.room.log, s.client.start.value)
  {
    InOrderIsSlice(s.room.log, s.client);
  }

  lemma InOrderIsSlice(log: seq<nat>, c: Client)
    requires Increasing(log) && InOrder(log, c)
    ensures IsSlice(c.delivered, log)
  {
    if HasOrigin(c) {
      var p := AfterIsSuffix(log, Origin(c));
      assert c.delivered <= log[p..];
    } else {
      assert c.delivered <= log[0..];
    }
  }

  // ------------------------------------------------------------------ a client that has the channel to itself

  /** No other client joins the channel in this process. */
  predicate Alone(actions: seq<Action>) {
    forall i :: 0 <= i < |actions| ==> !actions[i].OtherJoins?
  }

  /** Only this client is registered, and while its subscription is unconfirmed it waits for the confirmation. */
  ghost predicate Sole(s: State) {
    && HubOk(s.link.hub)
    && s.link.hub.clients.Keys <= {ME}
    && (s.link.hub.event == Some(false) ==> s.client.poll == Waiting(false))
  }

  lemma StepKeepsSole(s: State, a: Action)
    requires Sole(s) && Possible(s, a) && !a.OtherJoins?
    ensures Sole(Next(s, a))
  {
    var h := s.link.hub;
    match a
    case Begin => OperationsKeepHubOk(h, ME, s.client.size, 0);
    case Finish => OperationsKeepHubOk(h, ME, 0, 0);
    case Hear =>
      if s.link.wire[0].Data? { HearingKeepsSole(s); } else { OperationsKeepHubOk(h, ME, 0, 0); }
    case _ =>
  }

  lemma HearingKeepsSole(s: State)
    requires Sole(s) && s.link.wire != [] && s.link.wire[0].Data?
    ensures Sole(Next(s, Hear))
  {
    OperationsKeepHubOk(s.link.hub, ME, 0, s.link.wire[0].id);
    assert Offered(s.link.hub, s.link.wire[0].id).Keys <= s.link.hub.clients.Keys;
  }

  /** Alone on the channel, a client sees to it by itself that its runs are orderly. */
  lemma {:induction false} LoneRunsAreOrderly(s: State, actions: seq<Action>)
    requires Sole(s) && IsUntrimmedRun(s, actions) && Alone(actions)
    ensures IsOrderlyRun(s, actions)
    decreases |actions|
  {
    if actions != [] {
      assert !actions[0].OtherJoins?;
      StepKeepsSole(s, actions[0]);
      assert forall i :: 0 <= i < |actions[1..]| ==> actions[1..][i] == actions[i + 1];
      LoneRunsAreOrderly(Next(s, actions[0]), actions[1..]);
    }
  }

  /** Delivery to a client that is alone on its channel needs no more than that the log is not trimmed past the cursor. */
  lemma LoneDeliveryIsGapFree(size: nat, start: Option<int>, actions: seq<Action>)
    requires Covered(size, start) && IsUntrimmedRun(Init(size, start), actions) && Alone(actions)
    ensures IsRun(Init(size, start), actions)
    ensures var end := Execute(Init(size, start), actions);
      && Increasing(end.room.log)
      && (start.Some? && start.value >= 0 ==> end.client.delivered <= After(end.room.log, start.value))
      && IsSlice(end.client.delivered, end.room.log)
  {
    LoneRunsAreOrderly(Init(size, start), actions);
    DeliveryIsGapFree(size, start, actions);
  }

  lemma {:induction false} RunKeepsSetup(s: State, actions: seq<Action>)
    requires IsRun(s, actions)
    ensures Execute(s, actions).client.start == s.client.start
    ensures Execute(s, actions).client.size == s.client.size
    decreases |actions|
  {
    if actions != [] {
      RunKeepsSetup(Next(s, actions[0]), actions[1..]);
    }
  }

  lemma SuffixOfLonger(ids: seq<nat>, p: nat)
    requires p < |ids|
    ensures ids[p..] == ids[..|ids| - 1][p..] + [ids[|ids| - 1]]
  {
  }

  lemma {:induction false} AfterIsSuffix(ids: seq<nat>, last: int) returns (p: nat)
    requires Increasing(ids)
    ensures p <= |ids| && After(ids, last) == ids[p..]
    decreases |ids|
  {
    p := |ids|;
    if ids != [] {
      var init, x := ids[..|ids| - 1], ids[|ids| - 1];
      if x > last {
        p := AfterIsSuffix(init, last);
        SuffixOfLonger(ids, p);
      } else {
        AfterNone(ids, last);
      }
    }
  }

  // ------------------------------------------------------------------ the loops of one poll

  /** `process_queue` on the ids that arrive before the poll times out. */
  method ProcessQueue(arrivals: seq<nat>, last: int, left: nat) returns (out: seq<nat>)
    ensures out == FirstN(After(arrivals, last), left)
  {
    out := [];
    var counter, i := left, 0;
    while i < |arrivals| && counter > 0
      invariant 0 <= i <= |arrivals|
      invariant out == After(arrivals[..i], last) && |out| + counter == left
    {
      assert arrivals[..i + 1] == arrivals[..i] + [arrivals[i]];
      AfterSnoc(arrivals[..i], arrivals[i], last);
      if arrivals[i] > last {
        counter := counter - 1;
        out := out + [arrivals[i]];
      }
      i := i + 1;
    }
    assert arrivals == arrivals[..i] + arrivals[i..];
    AfterConcat(arrivals[..i], arrivals[i..], last);
  }

  /** A whole poll, run with nothing else happening: first the log, then the queue. */
  method ProcessChannelSubscribe(room: Room, c: Client, arrivals: seq<nat>) returns (content: seq<nat>)
    requires room.trimmed <= |room.log|
    ensures var found := ReadDatabase(room, c);
      content == found + FirstN(After(arrivals, CursorOf(c.delivered + found, c.start)), c.size - |found|)
    ensures |content| <= c.size
  {
    var counter, last, i := c.size, Cursor(c), 0;
    var changes := ReadDatabase(room, c);
    content := [];
    while i < |changes|
      invariant 0 <= i <= |changes|
      invariant content == changes[..i] && counter == c.size - i
      invariant last == CursorOf(c.delivered + changes[..i], c.start)
    {
      counter := counter - 1;
      last := changes[i];
      content := content + [changes[i]];
      i := i + 1;
    }
    assert content == changes;
    var rest := ProcessQueue(arrivals, last, counter);
    content := content + rest;
  }
}
