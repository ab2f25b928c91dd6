/** The telemetry link of src/components/MQTT.tsx: a broker client that
    listens on a pairing topic and a device-announcement topic, binds to one
    sensor's data, command and start topics once the registry names a
    sensor, routes each incoming message to the data or start callback, and
    publishes commands and pairing requests while connected. The broker
    stays abstract: subscriptions, unsubscriptions and publications are
    appended to a log. */
module Telemetry {
  import opened Text
  import opened Json
  import DataActions

  /** The five topic settings read from the environment; `None` when unset. */
  datatype Env = Env(data: Option<string>, cmd: Option<string>, pair: Option<string>, dev: Option<string>, start: Option<string>)

  /** `value || "undefined"`: the topic a field starts with. */
  function OrUndefined(v: Option<string>): (r: string)
    ensures Truthy(v) ==> r == v.value
    ensures !Truthy(v) ==> r == "undefined"
  {
    if Truthy(v) then v.value else "undefined"
  }

  /** `${value}` inside a template literal: an unset setting reads "undefined". */
  function Interpolate(v: Option<string>): string {
    if v.Some? then v.value else "undefined"
  }

  /** A per-sensor topic: the prefix, "/", then the sensor's name. */
  function DeviceTopic(prefix: Option<string>, device: string): (t: string)
    ensures |t| == |Interpolate(prefix)| + 1 + |device|
    ensures t[|Interpolate(prefix)|] == '/' && t[|Interpolate(prefix)| + 1..] == device
  {
    Interpolate(prefix) + "/" + device
  }

  /** Two sensors never share a per-sensor topic under one prefix. */
  lemma DeviceTopicInjective(prefix: Option<string>, a: string, b: string)
    requires DeviceTopic(prefix, a) == DeviceTopic(prefix, b)
    ensures a == b
  {
    var n := |Interpolate(prefix)| + 1;
    assert a == DeviceTopic(prefix, a)[n..];
  }

  /** The constructor refuses to build a client without the pairing and
      announcement topics. */
  predicate TopicsMissing(env: Env) {
    OrUndefined(env.pair) == "undefined" || OrUndefined(env.dev) == "undefined"
  }

  datatype Op = Subscribe(topic: string) | Unsubscribe(topic: string) | Publish(topic: string, payload: Json)

  /** The topics a log of operations leaves subscribed. */
  function Active(ops: seq<Op>): (a: set<string>)
    ensures ops != [] && ops[|ops| - 1].Subscribe? ==> ops[|ops| - 1].topic in a
    ensures ops != [] && ops[|ops| - 1].Unsubscribe? ==> ops[|ops| - 1].topic !in a
  {
    if ops == [] then {}
    else
      var before := Active(ops[..|ops| - 1]);
      match ops[|ops| - 1]
      case Subscribe(t) => before + {t}
      case Unsubscribe(t) => before - {t}
      case Publish(_, _) => before
  }

  lemma ActiveAppend(ops: seq<Op>, op: Op)
    ensures op.Subscribe? ==> Active(ops + [op]) == Active(ops) + {op.topic}
    ensures op.Unsubscribe? ==> Active(ops + [op]) == Active(ops) - {op.topic}
    ensures op.Publish? ==> Active(ops + [op]) == Active(ops)
  {
    assert (ops + [op])[..|ops + [op]| - 1] == ops;
  }

  /** A broker message as received: a JSON payload, or text that does not parse. */
  datatype Message = Malformed | Parsed(payload: Json)

  /** Where a message goes: to the data callback with its payload, to the
      start callback, or nowhere. */
  datatype Delivery = ToData(payload: Json) | ToStart | Ignored

  /** `onMessageArrived`'s dispatch: sensor data (with a `pressure` field)
      and announcements (with a `device` field) go to the data callback, a
      start message whose `start` is exactly 1 goes to the start callback;
      anything else, and anything that does not parse, goes nowhere. */
  function Route(dataTopic: string, devTopic: string, startTopic: string, topic: string, m: Message): (d: Delivery)
    ensures m.Malformed? ==> d == Ignored
    ensures d.ToData? <==> (m.Parsed? &&
      ((topic == dataTopic && Has(m.payload, "pressure")) || (topic == devTopic && Has(m.payload, "device"))))
    ensures d.ToData? ==> d.payload == m.payload
    ensures d == ToStart <==> m.Parsed? && !d.ToData? && topic == startTopic && Child(m.payload, "start") == JNum(1)
    ensures topic != dataTopic && topic != devTopic && topic != startTopic ==> d == Ignored
  {
    match m
    case Malformed => Ignored
    case Parsed(p) =>
      if topic == dataTopic && Has(p, "pressure") then ToData(p)
      else if topic == devTopic && Has(p, "device") then ToData(p)
      else if topic == startTopic && Child(p, "start") == JNum(1) then ToStart
      else Ignored
  }

  /** The command `publish` sends: the target pressure and the mode label. */
  function CommandPayload(pressure: int, mode: string): (j: Json)
    ensures j.JObj? && j.fields.Keys == {"message", "pressure", "mode"}
    ensures j.fields["message"] == JStr("ok") && j.fields["pressure"] == JNum(pressure) && j.fields["mode"] == JStr(mode)
  {
    JObj(map["message" := JStr("ok"), "pressure" := JNum(pressure), "mode" := JStr(mode)])
  }

  /** The request `pair` sends. */
  function PairPayload(): (j: Json)
    ensures j.JObj? && j.fields.Keys == {"message"} && j.fields["message"] == JStr("Pair Request")
  {
    JObj(map["message" := JStr("Pair Request")])
  }

  /** The sensor name a registry reply offers: a non-empty string. Other
      values leave the binding alone. */
  function OfferedName(reply: DataActions.DeviceReply): (n: Option<string>)
    ensures n.Some? ==> n.value != "" && reply == DataActions.Device(JStr(n.value))
    ensures n.None? ==> !(reply.Device? && reply.value.JStr? && reply.value.s != "")
  {
    if reply.Device? && reply.value.JStr? && reply.value.s != "" then Some(reply.value.s) else None
  }

  /** `init` rebinds only to a named sensor other than the current one. */
  predicate ShouldRebind(current: string, reply: DataActions.DeviceReply) {
    OfferedName(reply).Some? && OfferedName(reply).value != current
  }

  class Mqtt {
    const env: Env
    const pairTopic: string
    const devTopic: string
    var dataTopic: string
    var cmdTopic: string
    var startTopic: string
    var devName: string
    var isInitialized: bool
    var connected: bool
    var ops: seq<Op>

    /** The per-sensor topics follow the sensor the client is bound to, and
        nothing is bound before the first rebind. */
    predicate Valid()
      reads this
    {
      pairTopic == OrUndefined(env.pair) && devTopic == OrUndefined(env.dev)
      && (isInitialized ==>
            devName != "" && dataTopic == DeviceTopic(env.data, devName)
            && cmdTopic == DeviceTopic(env.cmd, devName) && startTopic == DeviceTopic(env.start, devName))
      && (!isInitialized ==>
            devName == "" && dataTopic == OrUndefined(env.data)
            && cmdTopic == OrUndefined(env.cmd) && startTopic == OrUndefined(env.start))
    }

    /** The constructor, for settings that name both fixed topics. The
        broker connection is only opened here; `OnConnect` models its
        completion. */
    constructor(env: Env)
      requires !TopicsMissing(env)
      ensures Valid() && this.env == env && !isInitialized && !connected && ops == []
    {
      this.env := env;
      pairTopic := OrUndefined(env.pair);
      devTopic := OrUndefined(env.dev);
      dataTopic := OrUndefined(env.data);
      cmdTopic := OrUndefined(env.cmd);
      startTopic := OrUndefined(env.start);
      devName := "";
      isInitialized := false;
      connected := false;
      ops := [];
    }

    /** `new MQTT(...)`: throws (here: no client) when a fixed topic is unset. */
    static method Create(env: Env) returns (m: Option<Mqtt>)
      ensures m.None? <==> TopicsMissing(env)
      ensures m.Some? ==> (fresh(m.value) && m.value.Valid() && m.value.env == env
        && !m.value.isInitialized && !m.value.connected && m.value.ops == [])
    {
      if TopicsMissing(env) {
        return None;
      }
      var c := new Mqtt(env);
      m := Some(c);
    }

    /** The connect handler: subscribe to the pairing and announcement topics. */
    method OnConnect()
      requires Valid()
      modifies this
      ensures Valid() && connected
      ensures ops == old(ops) + [Subscribe(pairTopic), Subscribe(devTopic)]
      ensures pairTopic in Active(ops) && devTopic in Active(ops)
      ensures dataTopic == old(dataTopic) && cmdTopic == old(cmdTopic) && startTopic == old(startTopic)
      ensures devName == old(devName) && isInitialized == old(isInitialized)
    {
      connected := true;
      ops := ops + [Subscribe(pairTopic)];
      ActiveAppend(ops, Subscribe(devTopic));
      ops := ops + [Subscribe(devTopic)];
    }

    /** `disconnect`: the client closes its connection. */
    method Disconnect()
      modifies this
      ensures !connected
      ensures ops == old(ops) && dataTopic == old(dataTopic) && cmdTopic == old(cmdTopic)
      ensures startTopic == old(startTopic) && devName == old(devName) && isInitialized == old(isInitialized)
    {
      connected := false;
    }

    /** `init`, given the registry's reply: a new sensor name moves the three
        per-sensor topics to that sensor, unsubscribing the old ones first
        when already bound; any other reply changes nothing. */
    method Init(reply: DataActions.DeviceReply)
      requires Valid()
      modifies this
      ensures Valid()
      ensures !ShouldRebind(old(devName), reply) ==> unchanged(this)
      ensures ShouldRebind(old(devName), reply) ==>
        var name := OfferedName(reply).value;
        var unsub := if old(isInitialized) && old(dataTopic) != "" && old(cmdTopic) != ""
          then [Unsubscribe(old(dataTopic)), Unsubscribe(old(cmdTopic)), Unsubscribe(old(startTopic))] else [];
        devName == name && isInitialized && connected == old(connected)
        && dataTopic == DeviceTopic(env.data, name) && cmdTopic == DeviceTopic(env.cmd, name)
        && startTopic == DeviceTopic(env.start, name)
        && ops == old(ops) + unsub + [Subscribe(dataTopic), Subscribe(cmdTopic), Subscribe(startTopic)]
    {
      if !ShouldRebind(devName, reply) {
        return;
      }
      var name := OfferedName(reply).value;
      var unsub := if isInitialized && dataTopic != "" && cmdTopic != ""
        then [Unsubscribe(dataTopic), Unsubscribe(cmdTopic), Unsubscribe(startTopic)] else [];
      devName := name;
      ops := ops + unsub;
      dataTopic := DeviceTopic(env.data, name);
      cmdTopic := DeviceTopic(env.cmd, name);
      startTopic := DeviceTopic(env.start, name);
      SubscribeToDynamicTopics();
      isInitialized := true;
    }

    /** Subscribe to the three per-sensor topics. */
    method SubscribeToDynamicTopics()
      modifies this`ops
      ensures ops == old(ops) + [Subscribe(dataTopic), Subscribe(cmdTopic), Subscribe(startTopic)]
      ensures Active(ops) == Active(old(ops)) + {dataTopic, cmdTopic, startTopic}
    {
      ActiveAppend(ops, Subscribe(dataTopic));
      ops := ops + [Subscribe(dataTopic)];
      ActiveAppend(ops, Subscribe(cmdTopic));
      ops := ops + [Subscribe(cmdTopic)];
      ActiveAppend(ops, Subscribe(startTopic));
      ops := ops + [Subscribe(startTopic)];
    }

    /** `onMessageArrived` routes with the client's current topics. */
    function OnMessageArrived(topic: string, m: Message): (d: Delivery)
      reads this
      ensures d.ToData? ==> topic == dataTopic || topic == devTopic
      ensures d == ToStart ==> topic == startTopic
    {
      Route(dataTopic, devTopic, startTopic, topic, m)
    }

    /** `publish(pressure, mode)`: the command goes out on the command topic
        only while connected. */
    method PublishCommand(pressure: int, mode: string)
      modifies this`ops
      ensures ops == old(ops) + (if connected then [Publish(cmdTopic, CommandPayload(pressure, mode))] else [])
    {
      if connected {
        ops := ops + [Publish(cmdTopic, CommandPayload(pressure, mode))];
      }
    }

    /** `pair()`: the pairing request goes out on the pairing topic only while connected. */
    method Pair()
      modifies this`ops
      ensures ops == old(ops) + (if connected then [Publish(pairTopic, PairPayload())] else [])
    {
      if connected {
        ops := ops + [Publish(pairTopic, PairPayload())];
      }
    }
  }

  /** Once bound, the unsubscribe guard reduces to "already bound": the
      per-sensor topics are never empty. */
  lemma BoundTopicsNonEmpty(c: Mqtt)
    requires c.Valid() && c.isInitialized
    ensures c.dataTopic != "" && c.cmdTopic != "" && c.startTopic != ""
  {
  }

  /** Binding twice to the same sensor leaves the client as one binding
      does: the second reply names the sensor already bound and changes
      nothing. */
  method InitTwice(c: Mqtt, reply: DataActions.DeviceReply)
    requires c.Valid()
    modifies c
    ensures c.Valid()
    ensures !ShouldRebind(old(c.devName), reply) ==> unchanged(c)
    ensures ShouldRebind(old(c.devName), reply) ==>
      var name := OfferedName(reply).value;
      var unsub := if old(c.isInitialized)
        then [Unsubscribe(old(c.dataTopic)), Unsubscribe(old(c.cmdTopic)), Unsubscribe(old(c.startTopic))] else [];
      c.devName == name && c.isInitialized && c.connected == old(c.connected)
      && c.dataTopic == DeviceTopic(c.env.data, name) && c.cmdTopic == DeviceTopic(c.env.cmd, name)
      && c.startTopic == DeviceTopic(c.env.start, name)
      && c.ops == old(c.ops) + unsub + [Subscribe(c.dataTopic), Subscribe(c.cmdTopic), Subscribe(c.startTopic)]
  {
    if old(c.isInitialized) {
      BoundTopicsNonEmpty(c);
    }
    c.Init(reply);
    ghost var afterFirst := c.ops;
    c.Init(reply);
    assert c.ops == afterFirst;
  }

  /** Unsubscribing three topics and then subscribing three leaves the
      first three unsubscribed (unless re-subscribed) and the last three subscribed. */
  lemma ActiveRebind(ops: seq<Op>, d0: string, m0: string, s0: string, d1: string, m1: string, s1: string)
    ensures Active(ops + [Unsubscribe(d0), Unsubscribe(m0), Unsubscribe(s0)]
                       + [Subscribe(d1), Subscribe(m1), Subscribe(s1)])
         == Active(ops) - {d0, m0, s0} + {d1, m1, s1}
  {
    var o1 := ops + [Unsubscribe(d0)];
    var o2 := o1 + [Unsubscribe(m0)];
    var o3 := o2 + [Unsubscribe(s0)];
    var o4 := o3 + [Subscribe(d1)];
    var o5 := o4 + [Subscribe(m1)];
    var o6 := o5 + [Subscribe(s1)];
    ActiveAppend(ops, Unsubscribe(d0));
    ActiveAppend(o1, Unsubscribe(m0));
    ActiveAppend(o2, Unsubscribe(s0));
    ActiveAppend(o3, Subscribe(d1));
    ActiveAppend(o4, Subscribe(m1));
    ActiveAppend(o5, Subscribe(s1));
    assert o6 == ops + [Unsubscribe(d0), Unsubscribe(m0), Unsubscribe(s0)]
                     + [Subscribe(d1), Subscribe(m1), Subscribe(s1)];
  }

  /** After a rebind the old per-sensor topics are no longer subscribed
      (unless the new sensor happens to reuse one) and the new ones are. */
  method RebindMovesSubscriptions(c: Mqtt, reply: DataActions.DeviceReply)
    requires c.Valid() && c.isInitialized && ShouldRebind(c.devName, reply)
    modifies c
    ensures {c.dataTopic, c.cmdTopic, c.startTopic} <= Active(c.ops)
    ensures Active(c.ops) == Active(old(c.ops)) - {old(c.dataTopic), old(c.cmdTopic), old(c.startTopic)}
      + {c.dataTopic, c.cmdTopic, c.startTopic}
  {
    c.Init(reply);
    ActiveRebind(old(c.ops), old(c.dataTopic), old(c.cmdTopic), old(c.startTopic), c.dataTopic, c.cmdTopic, c.startTopic);
  }

  /** A registry reply naming the sensor the client is already bound to
      leaves the client exactly as it was: no unsubscription, no
      subscription, the same topics. */
  method RebindIdempotent(c: Mqtt, reply: DataActions.DeviceReply)
    requires c.Valid() && c.isInitialized && OfferedName(reply) == Some(c.devName)
    modifies c
    ensures c.Valid() && unchanged(c)
    ensures c.ops == old(c.ops) && c.dataTopic == old(c.dataTopic)
    ensures c.cmdTopic == old(c.cmdTopic) && c.startTopic == old(c.startTopic)
  {
    c.Init(reply);
  }
}
