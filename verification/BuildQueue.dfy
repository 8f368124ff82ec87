/** The build queue: consumers with prefetch one, manual acknowledgement, and a fresh
    channel after every dropped connection, against an AMQP broker.

    The broker keeps a queue of ready messages and, per channel, the messages delivered
    and not yet settled; it requeues those when the channel dies. A consumer may still
    hold, handle and settle a delivery of a channel that is already gone.
 */
module BuildQueues {
  import opened Common

  type Msg = nat
  type ChannelId = nat

  /** `buffer` is the client side: deliveries the consumer has not taken yet. */
  datatype Channel = Channel(open: bool, qos: bool, consuming: bool, unacked: seq<Msg>, buffer: seq<Msg>)

  /** What a consumer is doing with a delivery of channel `ch`. */
  datatype Work =
    | Waiting
    | Handling(ch: ChannelId, msg: Msg)
    | Settling(ch: ChannelId, msg: Msg, ok: bool)

  datatype Consumer = Consumer(channel: Option<ChannelId>, work: Work)

  datatype System = System(
    published: set<Msg>,
    ready: seq<Msg>,
    channels: map<ChannelId, Channel>,
    acked: set<Msg>,
    discarded: set<Msg>,
    consumers: map<nat, Consumer>,
    returned: set<(Msg, bool)>) // what the handler has returned, and for which message

  const INITIAL := System({}, [], map[], {}, {}, map[], {})

  datatype Event =
    | Publish(m: Msg)
    | NewConsumer(c: nat)
    | OpenChannel(ch: ChannelId)            // Dial and Channel, not yet installed
    | SetQos(ch: ChannelId)
    | Install(c: nat, ch: ChannelId)        // c.channel = ch
    | StartConsuming(c: nat)
    | Deliver(ch: ChannelId)
    | Take(c: nat)                          // processMessages receives a delivery
    | HandlerReturns(c: nat, ok: bool)
    | Settle(c: nat)                        // Ack or Nack(requeue = false)
    | Drop(ch: ChannelId)                   // the connection dies or is closed

  predicate Enabled(s: System, e: Event)
  {
    match e
    case Publish(m) => m !in s.published
    case NewConsumer(c) => c !in s.consumers
    case OpenChannel(ch) => ch !in s.channels
    case SetQos(ch) => ch in s.channels && s.channels[ch].open
    case Install(c, ch) =>
      c in s.consumers && s.consumers[c].work.Waiting? && ch in s.channels && s.channels[ch].qos
    case StartConsuming(c) =>
      && c in s.consumers && s.consumers[c].channel.Some?
      && var ch := s.consumers[c].channel.value;
         ch in s.channels && s.channels[ch].open && !s.channels[ch].consuming
    case Deliver(ch) =>
      && ch in s.channels && s.channels[ch].open && s.channels[ch].consuming && s.ready != []
      && (s.channels[ch].qos ==> |s.channels[ch].unacked| < 1)
    case Take(c) =>
      && c in s.consumers && s.consumers[c].work.Waiting? && s.consumers[c].channel.Some?
      && var ch := s.consumers[c].channel.value;
         ch in s.channels && s.channels[ch].buffer != []
    case HandlerReturns(c, _) => c in s.consumers && s.consumers[c].work.Handling?
    case Settle(c) =>
      c in s.consumers && s.consumers[c].work.Settling? && s.consumers[c].work.ch in s.channels
    case Drop(ch) => ch in s.channels && s.channels[ch].open
  }

  function Without(s: seq<Msg>, m: Msg): (r: seq<Msg>)
    ensures forall x :: x in r <==> x in s && x != m
    ensures |r| <= |s|
  {
    if s == [] then [] else (if s[0] == m then [] else [s[0]]) + Without(s[1..], m)
  }

  function WithChannel(s: System, ch: ChannelId, x: Channel): System
  {
    s.(channels := s.channels[ch := x])
  }

  function WithWork(s: System, c: nat, w: Work): System
    requires c in s.consumers
  {
    s.(consumers := s.consumers[c := s.consumers[c].(work := w)])
  }

  /** The broker receives a settlement: it counts only for a message that is unacked on
      that very channel, and the channel must still be there. */
  function Settled(s: System, ch: ChannelId, m: Msg, ok: bool): System
    requires ch in s.channels
  {
    if s.channels[ch].open && m in s.channels[ch].unacked then
      WithChannel(s, ch, s.channels[ch].(unacked := Without(s.channels[ch].unacked, m)))
      .(acked := if ok then s.acked + {m} else s.acked,
        discarded := if ok then s.discarded else s.discarded + {m})
    else s
  }

  function Apply(s: System, e: Event): System
    requires Enabled(s, e)
  {
    match e
    case Publish(m) => s.(published := s.published + {m}, ready := s.ready + [m])
    case NewConsumer(c) => s.(consumers := s.consumers[c := Consumer(None, Waiting)])
    case OpenChannel(ch) => WithChannel(s, ch, Channel(true, false, false, [], []))
    case SetQos(ch) => WithChannel(s, ch, s.channels[ch].(qos := true))
    case Install(c, ch) => s.(consumers := s.consumers[c := s.consumers[c].(channel := Some(ch))])
    case StartConsuming(c) =>
      var ch := s.consumers[c].channel.value;
      WithChannel(s, ch, s.channels[ch].(consuming := true))
    case Deliver(ch) =>
      var m, x := s.ready[0], s.channels[ch];
      WithChannel(s.(ready := s.ready[1..]), ch, x.(unacked := x.unacked + [m], buffer := x.buffer + [m]))
    case Take(c) =>
      var ch := s.consumers[c].channel.value;
      var x := s.channels[ch];
      WithWork(WithChannel(s, ch, x.(buffer := x.buffer[1..])), c, Handling(ch, x.buffer[0]))
    case HandlerReturns(c, ok) =>
      var w := s.consumers[c].work;
      WithWork(s, c, Settling(w.ch, w.msg, ok)).(returned := s.returned + {(w.msg, ok)})
    case Settle(c) =>
      var w := s.consumers[c].work;
      WithWork(Settled(s, w.ch, w.msg, w.ok), c, Waiting)
    case Drop(ch) =>
      WithChannel(s.(ready := s.channels[ch].unacked + s.ready), ch, s.channels[ch].(open := false, unacked := []))
  }

  predicate Legal(s: System, events: seq<Event>)
    decreases |events|
  {
    events == [] || (Enabled(s, events[0]) && Legal(Apply(s, events[0]), events[1..]))
  }

  function Final(s: System, events: seq<Event>): System
    requires Legal(s, events)
    decreases |events|
  {
    if events == [] then s else Final(Apply(s, events[0]), events[1..])
  }

  // ---------------------------------------------------------------------
  // Where a message is
  // ---------------------------------------------------------------------

  datatype Place = Ready | Unacked(ch: ChannelId) | Acked | Discarded

  predicate At(s: System, m: Msg, p: Place)
  {
    match p
    case Ready => m in s.ready
    case Unacked(ch) => ch in s.channels && m in s.channels[ch].unacked
    case Acked => m in s.acked
    case Discarded => m in s.discarded
  }

  ghost predicate ExactlyOnePlace(s: System, m: Msg)
  {
    && (exists p :: At(s, m, p))
    && (forall p, q :: At(s, m, p) && At(s, m, q) ==> p == q)
  }

  predicate NoDuplicates(q: seq<Msg>)
  {
    forall i, j :: 0 <= i < j < |q| ==> q[i] != q[j]
  }

  ghost predicate Placed(s: System)
  {
    && (forall m :: m in s.published ==> ExactlyOnePlace(s, m))
    && (forall m, p :: At(s, m, p) ==> m in s.published)
    && NoDuplicates(s.ready)
  }

  ghost predicate ChannelOk(x: Channel)
  {
    && (x.consuming ==> x.qos)
    && |x.unacked| <= 1
    && (x.unacked != [] ==> x.open && x.consuming)
  }

  ghost predicate ConsumerOk(s: System, c: Consumer)
  {
    && (c.channel.Some? ==> c.channel.value in s.channels && s.channels[c.channel.value].qos)
    && (!c.work.Waiting? ==> c.work.ch in s.channels)
    && (c.work.Settling? ==> (c.work.msg, c.work.ok) in s.returned)
  }

  ghost predicate Protocol(s: System)
  {
    && (forall ch :: ch in s.channels ==> ChannelOk(s.channels[ch]))
    && (forall c :: c in s.consumers ==> ConsumerOk(s, s.consumers[c]))
    && (forall m :: m in s.acked ==> (m, true) in s.returned)
    && (forall m :: m in s.discarded ==> (m, false) in s.returned)
  }

  // ---------------------------------------------------------------------
  // Every step moves at most one message
  // ---------------------------------------------------------------------

  ghost predicate SamePlaces(s: System, s': System)
  {
    forall x, r :: At(s', x, r) <==> At(s, x, r)
  }

  ghost predicate Moved(s: System, s': System, m: Msg, q: Place)
  {
    forall x, r :: At(s', x, r) <==> if x == m then r == q else At(s, x, r)
  }

  lemma SamePlacesKeep(s: System, s': System)
    requires Placed(s) && SamePlaces(s, s') && s'.published == s.published && NoDuplicates(s'.ready)
    ensures Placed(s')
  {
    hide At;
    forall m | m in s'.published
      ensures ExactlyOnePlace(s', m)
    {
      assert ExactlyOnePlace(s, m);
      var p :| At(s, m, p);
      assert At(s', m, p);
    }
  }

  lemma MoveKeeps(s: System, s': System, m: Msg, q: Place)
    requires Placed(s) && Moved(s, s', m, q) && NoDuplicates(s'.ready)
    requires s'.published == s.published + {m}
    ensures Placed(s')
  {
    hide At;
    forall x | x in s'.published
      ensures ExactlyOnePlace(s', x)
    {
      if x == m {
        assert At(s', m, q);
      } else {
        assert ExactlyOnePlace(s, x);
        var p :| At(s, x, p);
        assert At(s', x, p);
      }
    }
  }

  /** The whole of a channel's unacked messages: one, or none. */
  lemma AtMostOne(x: Channel, m: Msg)
    requires ChannelOk(x) && m in x.unacked
    ensures x.unacked == [m]
  {
  }

  lemma DeliverKeepsPlaced(s: System, ch: ChannelId)
    requires Placed(s) && Protocol(s) && Enabled(s, Deliver(ch))
    ensures Placed(Apply(s, Deliver(ch)))
  {
    var s' := Apply(s, Deliver(ch));
    var m := s.ready[0];
    assert At(s, m, Ready);
    assert ExactlyOnePlace(s, m);
    assert s.ready == [m] + s'.ready && m !in s'.ready;
    forall x, r
      ensures At(s', x, r) <==> if x == m then r == Unacked(ch) else At(s, x, r)
    {
      if x == m {
        assert At(s, m, r) ==> r == Ready;
      }
    }
    MoveKeeps(s, s', m, Unacked(ch));
  }

  lemma DropKeepsPlaced(s: System, ch: ChannelId)
    requires Placed(s) && Protocol(s) && Enabled(s, Drop(ch))
    ensures Placed(Apply(s, Drop(ch)))
  {
    var s' := Apply(s, Drop(ch));
    assert ChannelOk(s.channels[ch]);
    if s.channels[ch].unacked == [] {
      assert s'.ready == s.ready;
      SamePlacesKeep(s, s');
    } else {
      var m := s.channels[ch].unacked[0];
      AtMostOne(s.channels[ch], m);
      assert At(s, m, Unacked(ch));
      assert ExactlyOnePlace(s, m);
      assert !At(s, m, Ready);
      assert s'.ready == [m] + s.ready;
      forall x, r
        ensures At(s', x, r) <==> if x == m then r == Ready else At(s, x, r)
      {
        if x == m {
          assert At(s, m, r) ==> r == Unacked(ch);
        }
      }
      MoveKeeps(s, s', m, Ready);
    }
  }

  lemma SettleKeepsPlaced(s: System, ch: ChannelId, m: Msg, ok: bool)
    requires Placed(s) && Protocol(s) && ch in s.channels
    ensures Placed(Settled(s, ch, m, ok))
  {
    var s' := Settled(s, ch, m, ok);
    if s.channels[ch].open && m in s.channels[ch].unacked {
      assert ChannelOk(s.channels[ch]);
      AtMostOne(s.channels[ch], m);
      assert At(s, m, Unacked(ch));
      assert ExactlyOnePlace(s, m);
      var q := if ok then Acked else Discarded;
      forall x, r
        ensures At(s', x, r) <==> if x == m then r == q else At(s, x, r)
      {
        if x == m {
          assert At(s, m, r) ==> r == Unacked(ch);
        }
      }
      MoveKeeps(s, s', m, q);
    }
  }

  lemma PublishKeepsPlaced(s: System, m: Msg)
    requires Placed(s) && Enabled(s, Publish(m))
    ensures Placed(Apply(s, Publish(m)))
  {
    var s' := Apply(s, Publish(m));
    assert forall r :: !At(s, m, r);
    assert !At(s, m, Ready);
    forall x, r
      ensures At(s', x, r) <==> if x == m then r == Ready else At(s, x, r)
    {
      assert x == m ==> !At(s, m, r);
    }
    MoveKeeps(s, s', m, Ready);
  }

  lemma StepKeepsPlaced(s: System, e: Event)
    requires Placed(s) && Protocol(s) && Enabled(s, e)
    ensures Placed(Apply(s, e))
  {
    var s' := Apply(s, e);
    match e {
      case Publish(m) => PublishKeepsPlaced(s, m);
      case Deliver(ch) => DeliverKeepsPlaced(s, ch);
      case Drop(ch) => DropKeepsPlaced(s, ch);
      case Settle(c) =>
        var w := s.consumers[c].work;
        SettleKeepsPlaced(s, w.ch, w.msg, w.ok);
        SamePlacesKeep(Settled(s, w.ch, w.msg, w.ok), s');
      case NewConsumer(_) => SamePlacesKeep(s, s');
      case OpenChannel(_) => SamePlacesKeep(s, s');
      case SetQos(_) => SamePlacesKeep(s, s');
      case Install(_, _) => SamePlacesKeep(s, s');
      case StartConsuming(_) => SamePlacesKeep(s, s');
      case Take(_) => SamePlacesKeep(s, s');
      case HandlerReturns(_, _) => SamePlacesKeep(s, s');
    }
  }

  /** Steps on one channel: consumers keep what they rely on as long as a channel stays
      and keeps its prefetch limit. */
  lemma ChannelStepKeepsProtocol(s: System, s': System, ch: ChannelId)
    requires Protocol(s) && ch in s'.channels && ChannelOk(s'.channels[ch])
    requires s'.channels == s.channels[ch := s'.channels[ch]]
    requires ch in s.channels && s.channels[ch].qos ==> s'.channels[ch].qos
    requires s'.consumers == s.consumers && s'.returned == s.returned
    requires s'.acked == s.acked && s'.discarded == s.discarded
    ensures Protocol(s')
  {
    forall c | c in s'.consumers
      ensures ConsumerOk(s', s'.consumers[c])
    {
      assert ConsumerOk(s, s.consumers[c]);
    }
  }

  lemma WorkStepKeepsProtocol(s: System, e: Event)
    requires Protocol(s) && Enabled(s, e) && (e.Take? || e.HandlerReturns? || e.Settle?)
    ensures Protocol(Apply(s, e))
  {
    assert ConsumerOk(s, s.consumers[e.c]);
    var s' := Apply(s, e);
    forall c | c in s'.consumers
      ensures ConsumerOk(s', s'.consumers[c])
    {
      assert ConsumerOk(s, s.consumers[c]);
    }
  }

  lemma StepKeepsProtocol(s: System, e: Event)
    requires Protocol(s) && Enabled(s, e)
    ensures Protocol(Apply(s, e))
  {
    var s' := Apply(s, e);
    if e.Take? || e.HandlerReturns? || e.Settle? {
      WorkStepKeepsProtocol(s, e);
    } else if e.OpenChannel? || e.SetQos? || e.Deliver? || e.Drop? {
      assert e.ch in s.channels ==> ChannelOk(s.channels[e.ch]);
      ChannelStepKeepsProtocol(s, s', e.ch);
    } else if e.StartConsuming? {
      assert ConsumerOk(s, s.consumers[e.c]);
      var ch := s.consumers[e.c].channel.value;
      assert ChannelOk(s.channels[ch]);
      ChannelStepKeepsProtocol(s, s', ch);
    }
  }

  lemma {:induction false} RunKeeps(s: System, events: seq<Event>)
    requires Placed(s) && Protocol(s) && Legal(s, events)
    ensures Placed(Final(s, events)) && Protocol(Final(s, events))
    decreases |events|
  {
    hide Placed, Protocol, Enabled, Apply;
    if events != [] {
      StepKeepsPlaced(s, events[0]);
      StepKeepsProtocol(s, events[0]);
      RunKeeps(Apply(s, events[0]), events[1..]);
    }
  }

  /** Main result, no message is lost: after any run of deliveries, handler results,
      dropped connections and stale settlements, a published message is in exactly one
      of: ready, unacked on one channel, acked, discarded. It was acked only after the
      handler returned nil for it and discarded only after the handler returned an error;
      what is unacked is on a live channel, from which a drop would requeue it; and no
      channel, installed or not, has more than one unacked message. */
  lemma NoMessageLost(events: seq<Event>, m: Msg)
    requires Legal(INITIAL, events) && m in Final(INITIAL, events).published
    ensures
      var s := Final(INITIAL, events);
      && ExactlyOnePlace(s, m)
      && (m in s.acked ==> (m, true) in s.returned)
      && (m in s.discarded ==> (m, false) in s.returned)
      && (forall ch :: At(s, m, Unacked(ch)) ==> s.channels[ch].open)
      && (forall ch :: ch in s.channels ==> |s.channels[ch].unacked| <= 1)
  {
    assert forall x, r :: !At(INITIAL, x, r);
    RunKeeps(INITIAL, events);
    var s := Final(INITIAL, events);
    forall ch | ch in s.channels
      ensures |s.channels[ch].unacked| <= 1 && (s.channels[ch].unacked != [] ==> s.channels[ch].open)
    {
      assert ChannelOk(s.channels[ch]);
    }
  }

  /** A settlement that arrives for a dropped channel changes nothing at the broker. */
  lemma StaleSettlementIgnored(s: System, c: nat)
    requires Enabled(s, Settle(c)) && !s.channels[s.consumers[c].work.ch].open
    ensures
      var s' := Apply(s, Settle(c));
      s' == s.(consumers := s'.consumers)
  {
  }

  // ---------------------------------------------------------------------
  // A delivery of a live channel is settled
  // ---------------------------------------------------------------------

  /** Consumer c has taken a delivery of this channel and not settled it. */
  predicate WorksOn(s: System, c: nat, ch: ChannelId)
  {
    c in s.consumers && !s.consumers[c].work.Waiting? && s.consumers[c].work.ch == ch
  }

  /** While a channel lives, whoever works on a delivery of it works on its one unacked message,
      alone, and a delivery not yet taken is that message too. */
  ghost predicate LiveChannelOk(s: System, ch: ChannelId)
    requires ch in s.channels
  {
    var x := s.channels[ch];
    x.open ==>
      && (x.buffer == [] || x.buffer == x.unacked)
      && (forall c :: WorksOn(s, c, ch) ==> x.buffer == [] && x.unacked == [s.consumers[c].work.msg])
      && (forall c, d :: WorksOn(s, c, ch) && WorksOn(s, d, ch) ==> c == d)
  }

  ghost predicate Live(s: System)
  {
    forall ch :: ch in s.channels ==> LiveChannelOk(s, ch)
  }

  lemma DeliveryKeepsLive(s: System, e: Event)
    requires Live(s) && Protocol(s) && Enabled(s, e) && (e.Deliver? || e.Take?)
    ensures Live(Apply(s, e))
  {
    var s' := Apply(s, e);
    var at := if e.Deliver? then e.ch else s.consumers[e.c].channel.value;
    assert ChannelOk(s.channels[at]) && LiveChannelOk(s, at);
    assert forall c, ch :: WorksOn(s', c, ch) && !WorksOn(s, c, ch) ==> e.Take? && c == e.c && ch == at;
    forall ch | ch in s'.channels
      ensures LiveChannelOk(s', ch)
    {
      assert LiveChannelOk(s, ch);
    }
  }

  lemma WorkKeepsLive(s: System, e: Event)
    requires Live(s) && Protocol(s) && Enabled(s, e) && (e.HandlerReturns? || e.Settle?)
    ensures Live(Apply(s, e))
  {
    var s' := Apply(s, e);
    var at := s.consumers[e.c].work.ch;
    assert ConsumerOk(s, s.consumers[e.c]);
    assert LiveChannelOk(s, at) && WorksOn(s, e.c, at);
    assert forall c, ch :: WorksOn(s', c, ch) ==>
        WorksOn(s, c, ch) && s'.consumers[c].work.msg == s.consumers[c].work.msg;
    forall ch | ch in s'.channels
      ensures LiveChannelOk(s', ch)
    {
      assert LiveChannelOk(s, ch);
    }
  }

  lemma NobodyWorksOnNew(s: System, ch: ChannelId)
    requires Protocol(s) && ch !in s.channels
    ensures forall c :: !WorksOn(s, c, ch)
  {
    assert forall c :: c in s.consumers ==> ConsumerOk(s, s.consumers[c]);
  }

  lemma OtherStepKeepsLive(s: System, e: Event)
    requires Live(s) && Protocol(s) && Enabled(s, e)
    requires !e.Deliver? && !e.Take? && !e.HandlerReturns? && !e.Settle?
    ensures Live(Apply(s, e))
  {
    var s' := Apply(s, e);
    assert forall c, ch :: WorksOn(s', c, ch) ==>
        WorksOn(s, c, ch) && s'.consumers[c].work.msg == s.consumers[c].work.msg;
    forall ch | ch in s'.channels
      ensures LiveChannelOk(s', ch)
    {
      if ch in s.channels {
        assert LiveChannelOk(s, ch);
      } else {
        NobodyWorksOnNew(s, ch);
      }
    }
  }

  lemma {:induction false} RunKeepsLive(s: System, events: seq<Event>)
    requires Live(s) && Placed(s) && Protocol(s) && Legal(s, events)
    ensures Live(Final(s, events))
    decreases |events|
  {
    hide Placed, Protocol, Enabled, Apply, Live;
    if events != [] {
      var e := events[0];
      StepKeepsPlaced(s, e);
      StepKeepsProtocol(s, e);
      if e.Deliver? || e.Take? {
        DeliveryKeepsLive(s, e);
      } else if e.HandlerReturns? || e.Settle? {
        WorkKeepsLive(s, e);
      } else {
        OtherStepKeepsLive(s, e);
      }
      RunKeepsLive(Apply(s, e), events[1..]);
    }
  }

  /** Main result: after any run, a settlement on a channel that is still live takes effect: the
      message is acked if the handler returned nil for it and discarded if it returned an error,
      and is neither ready nor unacked any more. On a dead channel nothing happens to any message. */
  lemma SettledAsReturned(events: seq<Event>, c: nat)
    requires Legal(INITIAL, events) && Enabled(Final(INITIAL, events), Settle(c))
    ensures
      var s := Final(INITIAL, events);
      var w := s.consumers[c].work;
      var s' := Apply(s, Settle(c));
      && (w.msg, w.ok) in s.returned && s'.consumers[c].work == Waiting
      && (s.channels[w.ch].open ==>
            && (w.msg in s'.acked <==> w.ok) && (w.msg in s'.discarded <==> !w.ok)
            && w.msg !in s'.ready && (forall ch :: ch in s'.channels ==> w.msg !in s'.channels[ch].unacked)
            && forall m, p :: m != w.msg ==> (At(s', m, p) <==> At(s, m, p)))
      && (!s.channels[w.ch].open ==> forall m, p :: At(s', m, p) <==> At(s, m, p))
  {
    assert forall x, r :: !At(INITIAL, x, r);
    RunKeeps(INITIAL, events);
    RunKeepsLive(INITIAL, events);
    var s := Final(INITIAL, events);
    hide Legal, Final;
    SettleAnswers(s, c);
  }

  lemma SettleAnswers(s: System, c: nat)
    requires Placed(s) && Protocol(s) && Live(s) && Enabled(s, Settle(c))
    ensures
      var w := s.consumers[c].work;
      var s' := Apply(s, Settle(c));
      && (w.msg, w.ok) in s.returned && s'.consumers[c].work == Waiting
      && (s.channels[w.ch].open ==>
            && (w.msg in s'.acked <==> w.ok) && (w.msg in s'.discarded <==> !w.ok)
            && w.msg !in s'.ready && (forall ch :: ch in s'.channels ==> w.msg !in s'.channels[ch].unacked)
            && forall m, p :: m != w.msg ==> (At(s', m, p) <==> At(s, m, p)))
      && (!s.channels[w.ch].open ==> forall m, p :: At(s', m, p) <==> At(s, m, p))
  {
    var w := s.consumers[c].work;
    assert ConsumerOk(s, s.consumers[c]);
    assert LiveChannelOk(s, w.ch) && WorksOn(s, c, w.ch);
    if s.channels[w.ch].open {
      assert At(s, w.msg, Unacked(w.ch)) && ExactlyOnePlace(s, w.msg);
      assert !At(s, w.msg, Acked) && !At(s, w.msg, Discarded) && !At(s, w.msg, Ready);
      forall ch | ch in s.channels && ch != w.ch
        ensures w.msg !in s.channels[ch].unacked
      {
        assert !At(s, w.msg, Unacked(ch));
      }
    }
  }

  /** A dropped channel gives its unacked messages back, ahead of the queue, and a delivery takes
      the head of the queue. */
  lemma RequeuedAndDelivered(s: System, ch: ChannelId)
    ensures Enabled(s, Drop(ch)) ==>
              var s' := Apply(s, Drop(ch));
              && s'.ready == s.channels[ch].unacked + s.ready && s'.channels[ch].unacked == []
              && forall m :: At(s, m, Unacked(ch)) ==> At(s', m, Ready)
    ensures Enabled(s, Deliver(ch)) ==>
              var s' := Apply(s, Deliver(ch));
              && s.ready == [s.ready[0]] + s'.ready && At(s', s.ready[0], Unacked(ch))
              && s'.channels[ch].buffer == s.channels[ch].buffer + [s.ready[0]]
  {
  }

  // ---------------------------------------------------------------------
  // The consumer's loops
  // ---------------------------------------------------------------------

  /** What processMessages selects next. */
  datatype Signal = Cancelled | ConnectionClosed | DeliveriesClosed | Delivery(msg: Msg, failed: bool)

  datatype Reply = Ack(msg: Msg) | Nack(msg: Msg)

  /** One dial of reconnect: the channel it would install, and how far it gets. */
  datatype Attempt = Attempt(cancelled: bool, ch: ChannelId, dialOk: bool, channelOk: bool, qosOk: bool)

  predicate Complete(a: Attempt)
  {
    !a.cancelled && a.dialOk && a.channelOk && a.qosOk
  }

  class QueueConsumer {
    var channel: Option<ChannelId>
    var prefetch: set<ChannelId> // channels on which Qos(1) succeeded

    constructor ()
      ensures channel == None && prefetch == {}
    {
      channel, prefetch := None, {};
    }

    /** Settles each delivery in order, acking exactly those whose handler returned nil,
        until the first signal that is not a delivery. */
    method ProcessMessages(signals: seq<Signal>) returns (replies: seq<Reply>)
      ensures |replies| <= |signals|
      ensures forall i :: 0 <= i < |replies| ==>
                && signals[i].Delivery?
                && replies[i] == if signals[i].failed then Nack(signals[i].msg) else Ack(signals[i].msg)
      ensures |replies| < |signals| ==> !signals[|replies|].Delivery?
    {
      replies := [];
      for n := 0 to |signals|
        invariant |replies| == n
        invariant forall i :: 0 <= i < n ==>
                    && signals[i].Delivery?
                    && replies[i] == if signals[i].failed then Nack(signals[i].msg) else Ack(signals[i].msg)
      {
        match signals[n] {
          case Delivery(msg, failed) =>
            if failed {
              replies := replies + [Nack(msg)];
            } else {
              replies := replies + [Ack(msg)];
            }
          case _ => return;
        }
      }
    }

    /** Redials until an attempt completes or the consumer is closed. The channel that is
        installed always has its prefetch limit set. */
    method Reconnect(attempts: seq<Attempt>) returns (ok: bool)
      modifies this
      ensures ok <==> exists i :: 0 <= i < |attempts| && Complete(attempts[i])
                                  && forall j :: 0 <= j < i ==> !attempts[j].cancelled
      ensures ok ==> exists i :: 0 <= i < |attempts| && Complete(attempts[i]) && channel == Some(attempts[i].ch)
                                  && forall j :: 0 <= j < i ==> !Complete(attempts[j])
      ensures ok ==> prefetch == old(prefetch) + {channel.value}
      ensures !ok ==> channel == old(channel) && prefetch == old(prefetch)
    {
      for n := 0 to |attempts|
        invariant channel == old(channel) && prefetch == old(prefetch)
        invariant forall j :: 0 <= j < n ==> !attempts[j].cancelled && !Complete(attempts[j])
      {
        var a := attempts[n];
        if a.cancelled {
          return false;
        }
        if a.dialOk {
          if a.channelOk {
            if a.qosOk {
              prefetch := prefetch + {a.ch};
              channel := Some(a.ch);
              assert Complete(attempts[n]);
              return true;
            }
          }
        }
      }
      return false;
    }
  }
}
