/**
  One channel of `RedisPubSubHandler`: the confirmation event kept in `channel_data`,
  the bounded queues kept in `client_data`, and the commands written to the Redis connection.
  Every operation is a function on `Hub`; the class below runs it on mutable fields.
 */
module ChannelHub {
  import opened Prelude

  datatype Command = Sub | Unsub

  /** A client's bounded queue. */
  datatype Inbox = Inbox(capacity: nat, items: seq<nat>)

  /** `event` is `None` when the channel has no entry in `channel_data`, otherwise the flag of its event. */
  datatype Hub = Hub(event: Option<bool>, clients: map<nat, Inbox>, outbox: seq<Command>)

  /** A queue made with size 0 would be unbounded in the code; every caller asks for a positive size. */
  predicate Full(inbox: Inbox) {
    |inbox.items| >= inbox.capacity
  }

  /** An entry exists exactly while some client is registered, and no queue is longer than its capacity. */
  ghost predicate HubOk(h: Hub) {
    && (h.event.None? <==> h.clients == map[])
    && forall c :: c in h.clients ==> |h.clients[c].items| <= h.clients[c].capacity
  }

  function Subscribe(h: Hub, client: nat, capacity: nat): Hub {
    var clients := h.clients[client := Inbox(capacity, [])];
    match h.event
    case Some(_) => h.(clients := clients)
    case None => Hub(Some(false), clients, h.outbox + [Sub])
  }

  function Unsubscribe(h: Hub, client: nat): Hub {
    if h.event.None? then h
    else
      var rest := h.clients - {client};
      if rest == map[] then Hub(None, map[], h.outbox + [Unsub]) else h.(clients := rest)
  }

  function Confirm(h: Hub): Hub {
    if h.event.Some? then h.(event := Some(true)) else h
  }

  /** The clients that a message finds full. */
  function Overflowing(h: Hub): set<nat> {
    set c | c in h.clients && Full(h.clients[c])
  }

  /** The inboxes after one message has been offered to everybody and the full ones dropped. */
  function Offered(h: Hub, id: nat): map<nat, Inbox> {
    map c | c in h.clients && !Full(h.clients[c]) ::
      h.clients[c].(items := h.clients[c].items + [id])
  }

  function Deliver(h: Hub, id: nat): Hub {
    var kept := Offered(h, id);
    if h.event.Some? && h.clients != map[] && kept == map[]
    then Hub(None, map[], h.outbox + [Unsub])
    else h.(clients := kept)
  }

  lemma OperationsKeepHubOk(h: Hub, client: nat, capacity: nat, id: nat)
    requires HubOk(h)
    ensures HubOk(Subscribe(h, client, capacity))
    ensures HubOk(Unsubscribe(h, client))
    ensures HubOk(Confirm(h))
    ensures HubOk(Deliver(h, id))
  {
    assert client in Subscribe(h, client, capacity).clients;
    assert forall c :: c in Offered(h, id) ==> c in h.clients;
  }

  /**
    A message reaches every client with room, at the end of its queue, and removes exactly the full ones;
    the subscription is given up exactly when nobody is left.
   */
  lemma DeliverReachesEveryClient(h: Hub, id: nat)
    requires HubOk(h)
    ensures forall c :: c in Deliver(h, id).clients <==> c in h.clients && !Full(h.clients[c])
    ensures forall c :: c in Deliver(h, id).clients ==>
      Deliver(h, id).clients[c] == Inbox(h.clients[c].capacity, h.clients[c].items + [id])
    ensures Deliver(h, id).outbox ==
      if h.event.Some? && Overflowing(h) == h.clients.Keys then h.outbox + [Unsub] else h.outbox
  {
    var kept := Offered(h, id);
    assert kept.Keys == h.clients.Keys - Overflowing(h);
    if Overflowing(h) == h.clients.Keys {
      assert kept.Keys == {};
      assert kept == map[];
    } else {
      var c :| c in h.clients && c !in Overflowing(h);
      assert c in kept;
    }
  }

  /** A full inbox refuses a message. */
  function AfterOffer(inbox: Inbox, id: nat): Inbox {
    if Full(inbox) then inbox else inbox.(items := inbox.items + [id])
  }

  /** Once a message has been offered to everybody, the inboxes left without the full ones are those of `Offered`. */
  lemma OffersAddUp(h: Hub, now: map<nat, Inbox>, dropped: set<nat>, id: nat)
    requires now.Keys == h.clients.Keys
    requires forall c :: c in h.clients ==> now[c] == AfterOffer(h.clients[c], id)
    requires forall c :: c in dropped <==> c in h.clients && Full(h.clients[c])
    ensures now - dropped == Offered(h, id)
  {
  }

  class RedisPubSubHandler {
    var event: Option<bool>
    var clients: map<nat, Inbox>
    var outbox: seq<Command>

    ghost function Value(): Hub
      reads this
    {
      Hub(event, clients, outbox)
    }

    constructor ()
      ensures Value() == Hub(None, map[], [])
    {
      event, clients, outbox := None, map[], [];
    }

    method SubscribeClient(client: nat, capacity: nat)
      modifies this
      ensures Value() == Subscribe(old(Value()), client, capacity)
    {
      clients := clients[client := Inbox(capacity, [])];
      if event.None? {
        event := Some(false);
        outbox := outbox + [Sub];
      }
    }

    method UnsubscribeClient(client: nat)
      requires HubOk(Value())
      modifies this
      ensures Value() == Unsubscribe(old(Value()), client)
    {
      if event.Some? {
        if client in clients {
          clients := clients - {client};
        }
        assert clients == old(clients) - {client};
        if clients == map[] {
          event := None;
          outbox := outbox + [Unsub];
        }
      }
    }

    method HearConfirmation()
      modifies this
      ensures Value() == Confirm(old(Value()))
    {
      if event.Some? {
        event := Some(true);
      }
    }

    /** The publish branch of `listen`: offer the message to each queue, then unsubscribe the full ones. */
    method HearMessage(id: nat)
      requires HubOk(Value())
      modifies this
      ensures Value() == Deliver(old(Value()), id)
    {
      ghost var start := Value();
      var waiting := clients.Keys;
      var dropped: set<nat> := {};
      while waiting != {}
        invariant waiting <= start.clients.Keys && clients.Keys == start.clients.Keys
        invariant event == start.event && outbox == start.outbox
        invariant forall c :: c in dropped <==> c in start.clients && c !in waiting && Full(start.clients[c])
        invariant forall c :: c in start.clients ==>
          clients[c] == if c in waiting then start.clients[c] else AfterOffer(start.clients[c], id)
        decreases |waiting|
      {
        var c :| c in waiting;
        assert clients[c] == start.clients[c];
        if Full(clients[c]) {
          dropped := dropped + {c};
        } else {
          clients := clients[c := clients[c].(items := clients[c].items + [id])];
        }
        waiting := waiting - {c};
      }
      OffersAddUp(start, clients, dropped, id);
      DropClients(dropped);
    }

    method DropClients(dropped: set<nat>)
      requires HubOk(Value()) && dropped <= clients.Keys
      modifies this
      ensures Value() ==
        if old(clients) != map[] && old(clients) - dropped == map[]
        then Hub(None, map[], old(outbox) + [Unsub])
        else Hub(old(event), old(clients) - dropped, old(outbox))
    {
      ghost var start := Value();
      var left := dropped;
      assert start.clients - (dropped - left) == start.clients;
      while left != {}
        invariant left <= dropped
        invariant HubOk(Value())
        invariant clients == start.clients - (dropped - left)
        invariant clients != map[] || start.clients == map[] ==> event == start.event && outbox == start.outbox
        invariant clients == map[] && start.clients != map[] ==> event == None && outbox == start.outbox + [Unsub]
        decreases |left|
      {
        var c :| c in left;
        ghost var before := clients;
        assert c in before;
        UnsubscribeClient(c);
        assert before - {c} == start.clients - (dropped - (left - {c}));
        left := left - {c};
      }
      assert start.clients - dropped == clients;
    }
  }
}
