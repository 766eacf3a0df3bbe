/** The orbital message broker: a registry of services, each with the channel
    it listens on and the topics it subscribed to, and the receive loop that
    updates the registry and forwards events and shared frames. One iteration
    of the loop is `Broker.Step`; sends are appended to an outbox. The
    registry is a hash map, so the order in which the forwarding loops visit
    it is unspecified: it is a parameter (`order`), any listing of the keys. */
module Broker {
  import opened Common
  import opened Service

  datatype ServiceWrapper = ServiceWrapper(sid: SID, name: string, send: ChannelRef, subscriptions: set<string>)

  type Registry = map<SID, ServiceWrapper>

  const DISPLAY_TOPIC: string := "/display"
  const PLACEHOLDER_NAME: string := "no name yet"

  /** Every entry is filed under its own sid. */
  ghost predicate KeysMatch(reg: Registry)
  {
    forall s :: s in reg ==> reg[s].sid == s
  }

  /** `order` lists every key of `reg` exactly once: a possible iteration
      order of the hash map. */
  ghost predicate IsOrder(order: seq<SID>, reg: Registry)
  {
    (forall s :: s in reg <==> s in order) &&
    (forall i, j :: 0 <= i < j < |order| ==> order[i] != order[j])
  }

  predicate Subscribed(reg: Registry, sid: SID, topic: string)
  {
    sid in reg && topic in reg[sid].subscriptions
  }

  /** The entry made for a sid that subscribes before announcing its channel:
      no name yet, a sender whose receiver is already gone, no topics. */
  function Placeholder(sid: SID): (w: ServiceWrapper)
    ensures w.sid == sid && w.subscriptions == {} && w.send == Discard
  {
    ServiceWrapper(sid, PLACEHOLDER_NAME, Discard, {})
  }

  // ---------------------------------------------------------------------
  // Registry updates
  // ---------------------------------------------------------------------

  /** `Subscribe(sid, topic)`: an unknown sid first gets a placeholder entry;
      then `topic` joins the sid's subscriptions. */
  function SubscribeReg(reg: Registry, sid: SID, topic: string): (r: Registry)
    ensures r.Keys == reg.Keys + {sid}
    ensures forall s :: s in reg && s != sid ==> r[s] == reg[s]
    ensures sid in reg ==> r[sid] == reg[sid].(subscriptions := reg[sid].subscriptions + {topic})
    ensures sid !in reg ==> r[sid] == Placeholder(sid).(subscriptions := {topic})
    ensures Subscribed(r, sid, topic)
  {
    var entry := if sid in reg then reg[sid] else Placeholder(sid);
    reg[sid := entry.(subscriptions := entry.subscriptions + {topic})]
  }

  /** `Unsubscribe(sid, topic)`: `topic` leaves the sid's subscriptions (if it
      was there). The sid must be registered. */
  function UnsubscribeReg(reg: Registry, sid: SID, topic: string): (r: Registry)
    requires sid in reg
    ensures r.Keys == reg.Keys
    ensures forall s :: s in reg && s != sid ==> r[s] == reg[s]
    ensures r[sid] == reg[sid].(subscriptions := reg[sid].subscriptions - {topic})
    ensures !Subscribed(r, sid, topic)
  {
    reg[sid := reg[sid].(subscriptions := reg[sid].subscriptions - {topic})]
  }

  /** `Channel(sid, name, channel)`: the sid's entry gets this name and
      sender; a known sid keeps its subscriptions, a new one starts with none. */
  function ChannelReg(reg: Registry, sid: SID, name: string, channel: ChannelRef): (r: Registry)
    ensures r.Keys == reg.Keys + {sid}
    ensures forall s :: s in reg && s != sid ==> r[s] == reg[s]
    ensures r[sid].sid == sid && r[sid].name == name && r[sid].send == channel
    ensures r[sid].subscriptions == if sid in reg then reg[sid].subscriptions else {}
  {
    var subscriptions := if sid in reg then reg[sid].subscriptions else {};
    reg[sid := ServiceWrapper(sid, name, channel, subscriptions)]
  }

  /** What one message does to the registry. */
  function StepRegistry(reg: Registry, m: Message): (r: Registry)
    requires m.Unsubscribe? ==> m.sid in reg
    ensures (m.Share? || m.Event?) ==> r == reg
  {
    match m
    case Subscribe(sid, topic) => SubscribeReg(reg, sid, topic)
    case Unsubscribe(sid, topic) => UnsubscribeReg(reg, sid, topic)
    case Channel(sid, name, channel) => ChannelReg(reg, sid, name, channel)
    case _ => reg
  }

  /** Every registry update files the entry it writes under its own sid. */
  lemma {:induction false} StepKeepsKeysMatch(reg: Registry, m: Message)
    requires KeysMatch(reg)
    requires m.Unsubscribe? ==> m.sid in reg
    ensures KeysMatch(StepRegistry(reg, m))
  {
    match m
    case Subscribe(sid, topic) =>
      var r := SubscribeReg(reg, sid, topic);
      forall s | s in r ensures r[s].sid == s {
        if s != sid { assert r[s] == reg[s]; }
      }
    case Unsubscribe(sid, topic) =>
      var r := UnsubscribeReg(reg, sid, topic);
      forall s | s in r ensures r[s].sid == s {
        if s != sid { assert r[s] == reg[s]; }
      }
    case Channel(sid, name, channel) =>
      var r := ChannelReg(reg, sid, name, channel);
      forall s | s in r ensures r[s].sid == s {
        if s != sid { assert r[s] == reg[s]; }
      }
    case _ =>
  }

  /** Subscribing to a topic and unsubscribing from it again restores a
      registered service whose subscriptions did not hold the topic. */
  lemma {:induction false} SubscribeThenUnsubscribe(reg: Registry, sid: SID, topic: string)
    requires sid in reg && topic !in reg[sid].subscriptions
    ensures UnsubscribeReg(SubscribeReg(reg, sid, topic), sid, topic) == reg
  {
    var r := UnsubscribeReg(SubscribeReg(reg, sid, topic), sid, topic);
    assert r[sid].subscriptions == reg[sid].subscriptions;
    assert r[sid] == reg[sid];
  }

  /** Re-announcing a channel keeps the subscriptions made so far, whether
      they were made before or after the first announcement. */
  lemma {:induction false} ChannelKeepsSubscriptions(reg: Registry, sid: SID, topic: string, name: string, channel: ChannelRef)
    ensures Subscribed(ChannelReg(SubscribeReg(reg, sid, topic), sid, name, channel), sid, topic)
  {
  }

  // ---------------------------------------------------------------------
  // Forwarding
  // ---------------------------------------------------------------------

  /** The registered sids visited in `order` that subscribe to `topic`, in
      visiting order. */
  function EventRecipients(order: seq<SID>, reg: Registry, topic: string): (r: seq<SID>)
    ensures forall s :: s in r <==> s in order && Subscribed(reg, s, topic)
    decreases |order|
  {
    if |order| == 0 then []
    else
      var last := order[|order| - 1];
      EventRecipients(order[..|order| - 1], reg, topic) + (if Subscribed(reg, last, topic) then [last] else [])
  }

  /** A sid occurring once in `order` receives the event at most once. */
  lemma {:induction false} EventRecipientsOnce(order: seq<SID>, reg: Registry, topic: string, s: SID)
    requires forall i, j :: 0 <= i < j < |order| ==> order[i] != order[j]
    ensures multiset(EventRecipients(order, reg, topic))[s] == if s in order && Subscribed(reg, s, topic) then 1 else 0
    decreases |order|
  {
    if |order| > 0 {
      var init := order[..|order| - 1];
      var last := order[|order| - 1];
      EventRecipientsOnce(init, reg, topic, s);
      assert order == init + [last];
      assert forall k :: 0 <= k < |init| ==> init[k] == order[k] != last;
    }
  }

  /** With a full iteration order, an event reaches exactly the subscribers of
      its topic, each exactly once. */
  lemma {:induction false} EventReachesEverySubscriberOnce(order: seq<SID>, reg: Registry, topic: string, s: SID)
    requires IsOrder(order, reg)
    ensures multiset(EventRecipients(order, reg, topic))[s] == if Subscribed(reg, s, topic) then 1 else 0
  {
    EventRecipientsOnce(order, reg, topic, s);
  }

  function EventDeliveries(recipients: seq<SID>, reg: Registry, topic: string, data: string): (d: seq<Delivery>)
    requires forall s :: s in recipients ==> s in reg
    ensures |d| == |recipients|
    ensures forall i :: 0 <= i < |d| ==> d[i] == Delivery(reg[recipients[i]].send, Event(topic, data))
  {
    seq(|recipients|, i requires 0 <= i < |recipients| => Delivery(reg[recipients[i]].send, Event(topic, data)))
  }

  /** The first sid in `order` that subscribes to "/display", if any. */
  function FirstDisplay(order: seq<SID>, reg: Registry): (r: Option<SID>)
    ensures r.Some? ==> r.value in order && Subscribed(reg, r.value, DISPLAY_TOPIC)
    ensures r.None? <==> forall s :: s in order ==> !Subscribed(reg, s, DISPLAY_TOPIC)
    ensures r.Some? && |order| > 0 && Subscribed(reg, order[0], DISPLAY_TOPIC) ==> r.value == order[0]
    decreases |order|
  {
    if |order| == 0 then None
    else if Subscribed(reg, order[0], DISPLAY_TOPIC) then Some(order[0])
    else FirstDisplay(order[1..], reg)
  }

  /** One step of the search for the first display subscriber. */
  lemma {:induction false} FirstDisplayFrom(order: seq<SID>, reg: Registry, i: nat)
    requires i < |order|
    ensures FirstDisplay(order[i..], reg) ==
            if Subscribed(reg, order[i], DISPLAY_TOPIC) then Some(order[i]) else FirstDisplay(order[i + 1..], reg)
  {
    assert order[i..][0] == order[i];
    assert order[i..][1..] == order[i + 1..];
  }

  /** The recipient of a shared frame depends on the iteration order: every
      "/display" subscriber is the recipient under some order. */
  lemma {:induction false} AnyDisplaySubscriberCanReceive(reg: Registry, s: SID)
    requires Subscribed(reg, s, DISPLAY_TOPIC)
    ensures exists order :: IsOrder(order, reg) && FirstDisplay(order, reg) == Some(s)
  {
    var rest := Listing(reg.Keys - {s});
    var order := [s] + rest;
    assert order[0] == s;
    forall i, j | 0 <= i < j < |order| ensures order[i] != order[j] {
      if i == 0 {
        assert order[j] == rest[j - 1];
      } else {
        assert order[i] == rest[i - 1] && order[j] == rest[j - 1];
      }
    }
    assert IsOrder(order, reg);
  }

  /** Some listing of a finite set, each element once. */
  ghost function Listing(keys: set<SID>): (r: seq<SID>)
    ensures forall s :: s in keys <==> s in r
    ensures forall i, j :: 0 <= i < j < |r| ==> r[i] != r[j]
    decreases keys
  {
    if keys == {} then []
    else
      var k :| k in keys;
      var rest := Listing(keys - {k});
      assert forall i :: 0 <= i < |rest| ==> rest[i] != k;
      [k] + rest
  }

  /** What one message sends, for a given iteration order. */
  function StepSends(reg: Registry, order: seq<SID>, m: Message): (d: seq<Delivery>)
    requires forall s :: s in order ==> s in reg
    ensures !(m.Share? || m.Event?) ==> d == []
    ensures m.Share? ==> |d| <= 1
  {
    match m
    case Share(_) =>
      (match FirstDisplay(order, reg)
       case Some(s) => [Delivery(reg[s].send, m)]
       case None => [])
    case Event(topic, data) => EventDeliveries(EventRecipients(order, reg, topic), reg, topic, data)
    case _ => []
  }

  // ---------------------------------------------------------------------
  // The broker's receive loop
  // ---------------------------------------------------------------------

  class Broker {
    var registry: Registry
    /** Every send attempted so far, in order. */
    var outbox: seq<Delivery>

    ghost predicate Valid()
      reads this
    {
      KeysMatch(registry)
    }

    constructor ()
      ensures Valid() && registry == map[] && outbox == []
    {
      registry := map[];
      outbox := [];
    }

    method Subscribe(sid: SID, topic: string)
      requires Valid()
      modifies this
      ensures Valid()
      ensures registry == SubscribeReg(old(registry), sid, topic) && outbox == old(outbox)
    {
      if sid !in registry {
        registry := registry[sid := Placeholder(sid)];
      }
      var entry := registry[sid];
      registry := registry[sid := entry.(subscriptions := entry.subscriptions + {topic})];
      StepKeepsKeysMatch(old(registry), Message.Subscribe(sid, topic));
    }

    method Unsubscribe(sid: SID, topic: string)
      requires Valid() && sid in registry
      modifies this
      ensures Valid()
      ensures registry == UnsubscribeReg(old(registry), sid, topic) && outbox == old(outbox)
    {
      var entry := registry[sid];
      registry := registry[sid := entry.(subscriptions := entry.subscriptions - {topic})];
      StepKeepsKeysMatch(old(registry), Message.Unsubscribe(sid, topic));
    }

    method Channel(sid: SID, name: string, channel: ChannelRef)
      requires Valid()
      modifies this
      ensures Valid()
      ensures registry == ChannelReg(old(registry), sid, name, channel) && outbox == old(outbox)
    {
      if sid !in registry {
        registry := registry[sid := ServiceWrapper(sid, name, channel, {})];
      } else {
        var subscriptions := registry[sid].subscriptions;
        registry := registry - {sid};
        registry := registry[sid := ServiceWrapper(sid, name, channel, subscriptions)];
      }
      StepKeepsKeysMatch(old(registry), Message.Channel(sid, name, channel));
    }

    /** The search of the `Share` arm: the first "/display" subscriber met
        in `order`, if any. */
    method FindDisplay(order: seq<SID>) returns (target: Option<SID>)
      requires forall s :: s in order ==> s in registry
      ensures target == FirstDisplay(order, registry)
    {
      ghost var first := FirstDisplay(order, registry);
      assert order[0..] == order;
      var i := 0;
      while i < |order|
        invariant 0 <= i <= |order|
        invariant FirstDisplay(order[i..], registry) == first
        decreases |order| - i
      {
        FirstDisplayFrom(order, registry, i);
        if DISPLAY_TOPIC in registry[order[i]].subscriptions {
          return Some(order[i]);
        }
        i := i + 1;
      }
      assert order[|order|..] == [];
      return None;
    }

    /** Forwards a shared frame to the first "/display" subscriber met in
        `order`, and stops there whether or not the send succeeds. */
    method Share(frame: SharedFrame, order: seq<SID>)
      requires forall s :: s in order ==> s in registry
      modifies this`outbox
      ensures outbox == old(outbox) + StepSends(registry, order, Message.Share(frame))
    {
      var target := FindDisplay(order);
      if target.Some? {
        outbox := outbox + [Delivery(registry[target.value].send, Message.Share(frame))];
      }
    }

    /** Forwards an event to every subscriber of its topic, in `order`; a
        failed send does not stop the loop. */
    method Event(topic: string, data: string, order: seq<SID>)
      requires IsOrder(order, registry)
      modifies this`outbox
      ensures outbox == old(outbox) + StepSends(registry, order, Message.Event(topic, data))
    {
      for i := 0 to |order|
        invariant outbox == old(outbox) + EventDeliveries(EventRecipients(order[..i], registry, topic), registry, topic, data)
      {
        var target := order[i];
        assert order[..i + 1][..i] == order[..i];
        if topic in registry[target].subscriptions {
          outbox := outbox + [Delivery(registry[target].send, Message.Event(topic, data))];
        }
      }
      assert order[..|order|] == order;
    }

    /** One iteration of the receive loop. An `Unsubscribe` for an unknown sid
        is not handled: the source indexes the registry and panics. */
    method Step(m: Message, order: seq<SID>)
      requires Valid() && IsOrder(order, registry)
      requires m.Unsubscribe? ==> m.sid in registry
      modifies this
      ensures Valid()
      ensures registry == StepRegistry(old(registry), m)
      ensures outbox == old(outbox) + StepSends(old(registry), order, m)
    {
      match m
      case Subscribe(sid, topic) => Subscribe(sid, topic);
      case Unsubscribe(sid, topic) => Unsubscribe(sid, topic);
      case Share(frame) => Share(frame, order);
      case Event(topic, data) => Event(topic, data, order);
      case Channel(sid, name, channel) => Channel(sid, name, channel);
    }
  }

  // ---------------------------------------------------------------------
  // Bootstrap
  // ---------------------------------------------------------------------

  /** What `bootstrap` does, in order: start a service (with its name, sid,
      the channel it sends on and the channel it receives on), or send a
      message to the broker. */
  datatype BootAction =
    | StartService(name: string, sid: SID, send: ChannelRef, recv: ChannelRef)
    | SendToBroker(message: Message)

  /** The broker's own channel. Service `i` (i >= 1) receives on `Port(i)`. */
  const BROKER_CHANNEL: ChannelRef := Port(0)

  /** The announcement the broker receives for each later service. */
  function Announcements(names: seq<string>, sids: seq<SID>): (ms: seq<Message>)
    requires |names| >= 1 && |sids| == |names| - 1
    ensures |ms| == |sids|
    ensures forall i :: 0 <= i < |ms| ==> ms[i] == Channel(sids[i], names[i + 1], Port(i + 1))
  {
    seq(|sids|, i requires 0 <= i < |sids| => Channel(sids[i], names[i + 1], Port(i + 1)))
  }

  /** The messages a list of actions sends to the broker, in order. */
  function SentToBroker(actions: seq<BootAction>): (ms: seq<Message>)
    ensures |ms| <= |actions|
  {
    if |actions| == 0 then []
    else
      var sent := match actions[|actions| - 1]
        case SendToBroker(m) => [m]
        case StartService(_, _, _, _) => [];
      SentToBroker(actions[..|actions| - 1]) + sent
  }

  /** One more action sends its message, if it is a send, after the others. */
  lemma {:induction false} SentToBrokerSnoc(actions: seq<BootAction>, a: BootAction)
    ensures SentToBroker(actions + [a]) ==
            SentToBroker(actions) + (if a.SendToBroker? then [a.message] else [])
  {
    assert (actions + [a])[..|actions|] == actions;
  }

  lemma {:induction false} AnnouncementsPrefix(names: seq<string>, sids: seq<SID>, i: nat)
    requires |names| >= 1 && |sids| == |names| - 1 && 1 <= i < |names|
    ensures Announcements(names, sids)[..i] ==
            Announcements(names, sids)[..i - 1] + [Channel(sids[i - 1], names[i], Port(i))]
  {
    var ms := Announcements(names, sids);
    assert ms[i - 1] == Channel(sids[i - 1], names[i], Port(i));
    assert ms[..i] == ms[..i - 1] + [ms[i - 1]];
  }

  /** The actions of a bootstrap that has handled the first `i` builders:
      the broker's start, then an announcement and a start per service. */
  ghost predicate Booted(actions: seq<BootAction>, names: seq<string>, sids: seq<SID>, i: nat)
    requires |sids| == |names| - 1 && 1 <= i <= |names|
  {
    && |actions| == 2 * i - 1
    && actions[0] == StartService("broker", 0, BROKER_CHANNEL, BROKER_CHANNEL)
    && forall k :: 1 <= k < i ==>
         actions[2 * k - 1] == SendToBroker(Channel(sids[k - 1], names[k], Port(k))) &&
         actions[2 * k] == StartService(names[k], sids[k - 1], BROKER_CHANNEL, Port(k))
  }

  lemma {:induction false} BootedStep(actions: seq<BootAction>, names: seq<string>, sids: seq<SID>, i: nat)
    requires |sids| == |names| - 1 && 1 <= i < |names|
    requires Booted(actions, names, sids, i)
    ensures Booted(actions + [SendToBroker(Channel(sids[i - 1], names[i], Port(i)))]
                           + [StartService(names[i], sids[i - 1], BROKER_CHANNEL, Port(i))], names, sids, i + 1)
  {
    var next := actions + [SendToBroker(Channel(sids[i - 1], names[i], Port(i)))]
                        + [StartService(names[i], sids[i - 1], BROKER_CHANNEL, Port(i))];
    forall k | 1 <= k < i + 1
      ensures next[2 * k - 1] == SendToBroker(Channel(sids[k - 1], names[k], Port(k)))
      ensures next[2 * k] == StartService(names[k], sids[k - 1], BROKER_CHANNEL, Port(k))
    {
      if k < i {
        assert next[2 * k - 1] == actions[2 * k - 1] && next[2 * k] == actions[2 * k];
      }
    }
  }

  /** Starts the broker (the first builder) as "broker" with sid 0 on its own
      channel, then each later service: its `Channel` announcement is sent to
      the broker before the service is started. `names[i]` is the name of the
      service built by the i-th builder and `sids` the random ids drawn, in
      order. */
  method Bootstrap(names: seq<string>, sids: seq<SID>) returns (actions: seq<BootAction>)
    requires |names| >= 1 && |sids| == |names| - 1
    ensures |actions| == 2 * |names| - 1
    ensures actions[0] == StartService("broker", 0, BROKER_CHANNEL, BROKER_CHANNEL)
    ensures forall i :: 1 <= i < |names| ==>
              actions[2 * i - 1] == SendToBroker(Channel(sids[i - 1], names[i], Port(i))) &&
              actions[2 * i] == StartService(names[i], sids[i - 1], BROKER_CHANNEL, Port(i))
    ensures SentToBroker(actions) == Announcements(names, sids)
  {
    actions := [StartService("broker", 0, BROKER_CHANNEL, BROKER_CHANNEL)];
    for i := 1 to |names|
      invariant Booted(actions, names, sids, i)
      invariant SentToBroker(actions) == Announcements(names, sids)[..i - 1]
    {
      var sid := sids[i - 1];
      var announce := SendToBroker(Channel(sid, names[i], Port(i)));
      var start := StartService(names[i], sid, BROKER_CHANNEL, Port(i));
      SentToBrokerSnoc(actions, announce);
      SentToBrokerSnoc(actions + [announce], start);
      AnnouncementsPrefix(names, sids, i);
      BootedStep(actions, names, sids, i);
      actions := actions + [announce] + [start];
    }
    assert Announcements(names, sids)[..|names| - 1] == Announcements(names, sids);
  }

  /** The registry the broker builds from a list of messages, one step each. */
  function ApplyAll(reg: Registry, ms: seq<Message>): Registry
    requires forall i :: 0 <= i < |ms| ==> !ms[i].Unsubscribe?
    decreases |ms|
  {
    if |ms| == 0 then reg
    else ApplyAll(StepRegistry(reg, ms[0]), ms[1..])
  }

  /** Once the broker has received every announcement of a bootstrap with
      distinct sids, each later service is registered under its sid with its
      name, its own channel and no subscriptions. */
  lemma {:induction false} BootstrapRegistersEveryService(names: seq<string>, sids: seq<SID>, i: nat)
    requires |names| >= 1 && |sids| == |names| - 1
    requires forall a, b :: 0 <= a < b < |sids| ==> sids[a] != sids[b]
    requires 1 <= i < |names|
    ensures var ms := Announcements(names, sids);
            var reg := ApplyAll(map[], ms);
            sids[i - 1] in reg && reg[sids[i - 1]] == ServiceWrapper(sids[i - 1], names[i], Port(i), {})
  {
    AnnouncementsRegister(map[], Announcements(names, sids), sids, names, 0, i - 1);
  }

  /** Processing announcements `ms` (the k-th of which announces `sids[off + k]`)
      registers the j-th one's service, provided the sids are distinct and
      none of them is registered yet. */
  lemma {:induction false} AnnouncementsRegister(reg: Registry, ms: seq<Message>, sids: seq<SID>, names: seq<string>, off: nat, j: nat)
    requires |names| >= 1 && |sids| == |names| - 1
    requires forall a, b :: 0 <= a < b < |sids| ==> sids[a] != sids[b]
    requires off + |ms| <= |sids| && off <= j < off + |ms|
    requires forall k :: 0 <= k < |ms| ==> ms[k] == Channel(sids[off + k], names[off + k + 1], Port(off + k + 1))
    requires forall k :: off <= k < |sids| ==> sids[k] !in reg
    ensures forall k :: 0 <= k < |ms| ==> !ms[k].Unsubscribe?
    ensures var r := ApplyAll(reg, ms);
            sids[j] in r && r[sids[j]] == ServiceWrapper(sids[j], names[j + 1], Port(j + 1), {})
    decreases |ms|
  {
    var next := StepRegistry(reg, ms[0]);
    if j == off {
      RegistrationSurvives(next, ms[1..], sids, names, off + 1, sids[j], ServiceWrapper(sids[j], names[j + 1], Port(j + 1), {}));
    } else {
      AnnouncementsRegister(next, ms[1..], sids, names, off + 1, j);
    }
  }

  lemma {:induction false} RegistrationSurvives(reg: Registry, ms: seq<Message>, sids: seq<SID>, names: seq<string>, off: nat, s: SID, w: ServiceWrapper)
    requires |names| >= 1 && |sids| == |names| - 1
    requires off + |ms| <= |sids|
    requires forall k :: 0 <= k < |ms| ==> ms[k] == Channel(sids[off + k], names[off + k + 1], Port(off + k + 1))
    requires forall k :: off <= k < |sids| ==> sids[k] != s
    requires s in reg && reg[s] == w
    ensures forall k :: 0 <= k < |ms| ==> !ms[k].Unsubscribe?
    ensures s in ApplyAll(reg, ms) && ApplyAll(reg, ms)[s] == w
    decreases |ms|
  {
    if |ms| > 0 {
      RegistrationSurvives(StepRegistry(reg, ms[0]), ms[1..], sids, names, off + 1, s, w);
    }
  }
}
