/** Command routing and the two processors of engine/process.go.

    `GetProcessor` decodes a datagram and picks a processor by the envelope's
    command tag; the register processor runs on the broker, the event
    processor on a subscribing client, where it fans the event out to the
    client's `EventProcessor` callbacks. */
module Process {
  import opened Wrappers
  import opened Util
  import opened Message
  import opened Subscriber
  import opened Engine

  /** The processor `GetProcessor` selects, carrying the decoded payload. */
  datatype Processor = RegisterCmd(data: Data) | EventCmd(data: Data)

  /** An application callback, abstracted to its outcome: true is a nil error. */
  type EventFunc = (string, string, Data) -> bool

  /** A client-side registration of callbacks: the event names it serves
      (None is a nil slice) and the callback. */
  datatype EventProcessor = EventProcessor(events: Option<seq<string>>, callback: EventFunc)

  /** What the event processor sees of a subscribing client. */
  datatype EventClient = EventClient(topic: string, processors: seq<EventProcessor>)

  /** One callback invocation: which processor, and the arguments passed. */
  datatype Invocation = Invocation(index: nat, topic: string, event: string, data: Data)

  // ---------------------------------------------------------------- routing

  /** Decodes `raw` and routes it by command tag: "[REG]" to the register
      processor, "[EVT]" to the event processor, anything else is undefined. */
  function GetProcessor(raw: seq<byte>, decode: Decoder): (r: Result<Processor, EngineError>)
    ensures decode(raw).None? ==> r == Failure(DecodeFailed)
    ensures r.Success? ==> decode(raw).Some? && r.value.data == decode(raw).value.data
    ensures (r.Success? && r.value.RegisterCmd?) <==> decode(raw).Some? && decode(raw).value.cmd == CmdReg
    ensures (r.Success? && r.value.EventCmd?) <==> decode(raw).Some? && decode(raw).value.cmd == CmdEvent
    ensures decode(raw).Some? && decode(raw).value.cmd != CmdReg && decode(raw).value.cmd != CmdEvent
            ==> r == Failure(UndefinedProcessor)
  {
    match decode(raw)
    case None => Failure(DecodeFailed)
    case Some(message) =>
      if message.cmd == CmdReg then Success(RegisterCmd(message.data))
      else if message.cmd == CmdEvent then Success(EventCmd(message.data))
      else Failure(UndefinedProcessor)
  }

  /** The acknowledgement and retry tags have no processor. */
  lemma InfoAndRetryAreUndefined(raw: seq<byte>, decode: Decoder)
    requires decode(raw).Some? && decode(raw).value.cmd in {CmdInfo, CmdRetry}
    ensures GetProcessor(raw, decode) == Failure(UndefinedProcessor)
  {
  }

  /** The second decoding phase of a registration: the topic, or "" when
      the object has no topic field; a non-object payload fails. */
  function GetSubscribedTopic(data: Data): (r: Result<string, EngineError>)
    ensures r.Failure? <==> data.Other?
    ensures r.Failure? ==> r.error == TopicFailed
    ensures data.Register? ==> r == Success(data.topic)
    ensures !data.Register? && r.Success? ==> r.value == ""
  {
    match data
    case Register(topic) => Success(topic)
    case Event(_, _) => Success("")
    case NoData => Success("")
    case Other => Failure(TopicFailed)
  }

  /** The second decoding phase of an event: the event name, or "" when the
      object has no event field; a non-object payload fails. */
  function GetEvent(data: Data): (r: Result<string, EngineError>)
    ensures r.Failure? <==> data.Other?
    ensures r.Failure? ==> r.error == EventFailed
    ensures data.Event? ==> r == Success(data.event)
    ensures !data.Event? && r.Success? ==> r.value == ""
  {
    match data
    case Register(_) => Success("")
    case Event(event, _) => Success(event)
    case NoData => Success("")
    case Other => Failure(EventFailed)
  }

  /** A registration envelope that decodes intact reaches the register
      processor, whose topic is the one that was sent; likewise an event
      envelope yields its event name. */
  lemma EnvelopeRoundTrip(raw: seq<byte>, decode: Decoder, note: string, topic: string, event: string, uuid: string)
    ensures decode(raw) == Some(Message(CmdReg, note, Register(topic))) ==>
      && GetProcessor(raw, decode) == Success(RegisterCmd(Register(topic)))
      && GetSubscribedTopic(GetProcessor(raw, decode).value.data) == Success(topic)
    ensures decode(raw) == Some(EventEnvelope(event, note, uuid)) ==>
      && GetProcessor(raw, decode) == Success(EventCmd(Event(event, uuid)))
      && GetEvent(GetProcessor(raw, decode).value.data) == Success(event)
  {
  }

  // ------------------------------------------------------ subscriber names

  /** The decimal digit for `d`. */
  function DigitChar(d: nat): (c: char)
    requires d < 10
    ensures '0' <= c <= '9' && c as int - '0' as int == d
  {
    ('0' as int + d) as char
  }

  predicate IsDigits(s: string)
  {
    forall i :: 0 <= i < |s| ==> '0' <= s[i] <= '9'
  }

  /** `n` in decimal, as fmt prints it: no leading zeros. */
  function NatToDecimal(n: nat): (s: string)
    ensures |s| > 0 && IsDigits(s)
    ensures s[0] == '0' ==> n == 0
    decreases n
  {
    if n < 10 then [DigitChar(n)] else NatToDecimal(n / 10) + [DigitChar(n % 10)]
  }

  /** The value of a string of decimal digits. */
  function ParseDecimal(s: string): nat
    requires IsDigits(s)
    decreases |s|
  {
    if s == [] then 0 else ParseDecimal(s[..|s| - 1]) * 10 + (s[|s| - 1] as int - '0' as int)
  }

  /** Reading back the digits of `n` gives `n`. */
  lemma {:induction false} DecimalRoundTrip(n: nat)
    ensures ParseDecimal(NatToDecimal(n)) == n
    decreases n
  {
    if n >= 10 {
      var s := NatToDecimal(n);
      assert s[..|s| - 1] == NatToDecimal(n / 10);
      DecimalRoundTrip(n / 10);
    }
  }

  /** An int in decimal as fmt prints a port: a leading '-' exactly when
      negative, then digits, so never a ':'. */
  function IntToDecimal(n: int): (s: string)
    ensures |s| > 0 && (s[0] == '-' <==> n < 0)
    ensures n >= 0 ==> IsDigits(s)
    ensures ':' !in s
  {
    if n < 0 then "-" + NatToDecimal(-n) else NatToDecimal(n)
  }

  /** Distinct naturals print differently. */
  lemma NatToDecimalInjective(a: nat, b: nat)
    requires NatToDecimal(a) == NatToDecimal(b)
    ensures a == b
  {
    DecimalRoundTrip(a);
    DecimalRoundTrip(b);
  }

  /** Distinct ports print differently. */
  lemma IntToDecimalInjective(a: int, b: int)
    requires IntToDecimal(a) == IntToDecimal(b)
    ensures a == b
  {
    if a < 0 {
      var s := IntToDecimal(a);
      assert s[1..] == NatToDecimal(-a);
      assert s[1..] == NatToDecimal(-b);
      NatToDecimalInjective(-a, -b);
    } else {
      NatToDecimalInjective(a, b);
    }
  }

  /** The registry key of a client: its IP text, then a ':' that is the
      last ':' of the name, then its decimal port. The zone is not part of
      it. */
  function SubscriberName(addr: UDPAddr): (name: string)
    ensures |addr.ip| < |name| && name[..|addr.ip|] == addr.ip && name[|addr.ip|] == ':'
    ensures ':' !in name[|addr.ip| + 1..]
  {
    addr.ip + ":" + IntToDecimal(addr.port)
  }

  /** A string "ip:port" whose port part has no ':' splits back uniquely,
      even when the ip part contains ':' (IPv6). */
  lemma {:induction false} SplitAtLastColon(ip1: string, p1: string, ip2: string, p2: string)
    requires ip1 + ":" + p1 == ip2 + ":" + p2
    requires ':' !in p1 && ':' !in p2
    ensures ip1 == ip2 && p1 == p2
  {
    var s := ip1 + ":" + p1;
    if |ip1| < |ip2| {
      ColonInsideLongerIp(ip1, p1, ip2, p2);
      assert false;
    } else if |ip2| < |ip1| {
      ColonInsideLongerIp(ip2, p2, ip1, p1);
      assert false;
    } else {
      assert ip1 == s[..|ip1|] == ip2;
      assert p1 == s[|ip1| + 1..] == p2;
    }
  }

  /** If the two splits disagree on where the ip ends, the shorter ip's
      port part holds the longer ip's separator. */
  lemma ColonInsideLongerIp(ip1: string, p1: string, ip2: string, p2: string)
    requires ip1 + ":" + p1 == ip2 + ":" + p2
    requires |ip1| < |ip2|
    ensures ':' in p1
  {
    var s := ip1 + ":" + p1;
    assert s[|ip2|] == ':';
    assert p1[|ip2| - |ip1| - 1] == s[|ip2|];
  }

  /** Two endpoints share a registry key exactly when they have the same IP
      text and port: endpoints that differ only in their zone collide. */
  lemma SubscriberNameIdentifiesIpAndPort(a: UDPAddr, b: UDPAddr)
    ensures SubscriberName(a) == SubscriberName(b) <==> a.ip == b.ip && a.port == b.port
  {
    if SubscriberName(a) == SubscriberName(b) {
      SplitAtLastColon(a.ip, IntToDecimal(a.port), b.ip, IntToDecimal(b.port));
      IntToDecimalInjective(a.port, b.port);
    }
  }

  // ------------------------------------------------------------ processors

  /** The acknowledgement the broker sends a newly registered client. A
      datagram that decodes to it is routed to no processor. */
  function RegistrationAck(): (m: Message)
    ensures forall raw: seq<byte>, decode: Decoder | decode(raw) == Some(m) ::
      GetProcessor(raw, decode) == Failure(UndefinedProcessor)
  {
    Message(CmdInfo, RegistrationSuccess, NoData)
  }

  /** The register processor (registerProcessor.exec) for a datagram from
      `addr` carrying `data`. A known name is a silent no-op; otherwise the
      topic is extracted and a fresh subscriber is added under the name.
      `ack` is the envelope handed to the socket (its send outcome is
      ignored by the source). */
  method RegisterExec(s: Server, addr: UDPAddr, data: Data) returns (err: Option<EngineError>, ack: Option<Message>)
    requires s.Valid()
    modifies s
    ensures s.Valid()
    ensures s.isStarted == old(s.isStarted) && s.hasConn == old(s.hasConn)
    ensures SubscriberName(addr) in old(s.subscribers) ==>
      err.None? && ack.None? && s.subscribers == old(s.subscribers)
    ensures SubscriberName(addr) !in old(s.subscribers) && data.Other? ==>
      err == Some(TopicFailed) && ack.None? && s.subscribers == old(s.subscribers)
    ensures SubscriberName(addr) !in old(s.subscribers) && !data.Other? ==>
      var name := SubscriberName(addr);
      && err.None? && ack == Some(RegistrationAck())
      && name in s.subscribers && s.subscribers == old(s.subscribers)[name := s.subscribers[name]]
      && fresh(s.subscribers[name])
      && s.subscribers[name].prop == Property(name, addr, MaxBuffer, GetSubscribedTopic(data).value)
      && s.subscribers[name].evtBuffer == Some([]) && !s.subscribers[name].dispatched
  {
    var name := SubscriberName(addr);
    var sub := s.GetSubscriber(name);
    if sub.Success? {
      return None, None;
    }
    var topic := GetSubscribedTopic(data);
    if topic.Failure? {
      return Some(topic.error), None;
    }
    var client := NewClient<Payload>(Property(name, addr, MaxBuffer, topic.value));
    if client.Failure? {
      assert false;
    }
    s.AddSubscriber(name, client.value);
    return None, Some(RegistrationAck());
  }

  /** Whether processor `p` serves `event`. */
  predicate Serves(p: EventProcessor, event: string)
  {
    p.events.Some? && InArrayStr(event, p.events.value)
  }

  /** The invocations a fan-out of `event` makes among the first `k`
      processors: one per serving processor, in slice order, each passed
      `topic`, `event` and the raw payload. */
  function Fanout(procs: seq<EventProcessor>, topic: string, event: string, data: Data, k: nat): seq<Invocation>
    requires k <= |procs|
  {
    if k == 0 then []
    else
      Fanout(procs, topic, event, data, k - 1)
      + (if Serves(procs[k - 1], event) then [Invocation(k - 1, topic, event, data)] else [])
  }

  /** `Fanout` invokes every serving processor below `k` exactly once, in
      increasing order, with the same arguments, and invokes nothing else. */
  lemma {:induction false} FanoutSpec(procs: seq<EventProcessor>, topic: string, event: string, data: Data, k: nat)
    requires k <= |procs|
    ensures var calls := Fanout(procs, topic, event, data, k);
      && (forall j :: 0 <= j < |calls| ==>
            calls[j] == Invocation(calls[j].index, topic, event, data)
            && calls[j].index < k && Serves(procs[calls[j].index], event))
      && (forall j, j' :: 0 <= j < j' < |calls| ==> calls[j].index < calls[j'].index)
      && (forall i :: 0 <= i < k && Serves(procs[i], event) ==> Invocation(i, topic, event, data) in calls)
  {
    if k > 0 {
      FanoutSpec(procs, topic, event, data, k - 1);
    }
  }

  /** Whether every callback in `calls` succeeded. */
  predicate AllSucceeded(procs: seq<EventProcessor>, calls: seq<Invocation>)
  {
    forall j :: 0 <= j < |calls| ==>
      calls[j].index < |procs| && procs[calls[j].index].callback(calls[j].topic, calls[j].event, calls[j].data)
  }

  /** How a scan of `procs` for `event` ends when it stopped before index
      `stop`: the processors before `stop` all have event lists, the
      invocations are the reference fan-out of exactly those processors, and
      `err` says why the scan stopped. It ran to the end with every callback
      succeeding, or stopped at the nil event list of `procs[stop]` with
      every callback succeeding, or stopped right after the callback of
      `procs[stop - 1]`, the only one that failed. */
  ghost predicate ScanEndedAt(procs: seq<EventProcessor>, topic: string, event: string, data: Data,
                              err: Option<EngineError>, invoked: seq<Invocation>, stop: nat)
  {
    && stop <= |procs|
    && (forall i :: 0 <= i < stop ==> procs[i].events.Some?)
    && invoked == Fanout(procs, topic, event, data, stop)
    && match err
       case None => stop == |procs| && AllSucceeded(procs, invoked)
       case Some(e) =>
         || (e == ProcessorsEmpty && stop < |procs| && procs[stop].events.None? && AllSucceeded(procs, invoked))
         || (&& e == CallbackFailed(event) && 0 < stop && invoked != []
             && invoked[|invoked| - 1].index == stop - 1
             && !procs[stop - 1].callback(topic, event, data)
             && AllSucceeded(procs, invoked[..|invoked| - 1]))
  }

  /** The loop of eventProcessor.exec: invokes, in slice order, the callback
      of every processor that serves `event`, with `topic`, `event` and the
      raw payload; it stops at the first processor with a nil event list or
      at the first failing callback. `stop` is where the scan ended. */
  method FireProcessors(procs: seq<EventProcessor>, topic: string, event: string, data: Data)
    returns (err: Option<EngineError>, invoked: seq<Invocation>, ghost stop: nat)
    ensures ScanEndedAt(procs, topic, event, data, err, invoked, stop)
    ensures (forall i :: 0 <= i < |procs| ==> procs[i].events.Some? && procs[i].callback(topic, event, data))
            ==> err.None? && invoked == Fanout(procs, topic, event, data, |procs|)
  {
    invoked := [];
    var i := 0;
    while i < |procs|
      invariant 0 <= i <= |procs|
      invariant forall k :: 0 <= k < i ==> procs[k].events.Some?
      invariant invoked == Fanout(procs, topic, event, data, i)
      invariant AllSucceeded(procs, invoked)
    {
      var proc := procs[i];
      if proc.events.None? {
        assert ScanEndedAt(procs, topic, event, data, Some(ProcessorsEmpty), invoked, i);
        return Some(ProcessorsEmpty), invoked, i;
      }
      if InArrayStr(event, proc.events.value) {
        var before := invoked;
        invoked := invoked + [Invocation(i, topic, event, data)];
        assert invoked[..|invoked| - 1] == before;
        if !proc.callback(topic, event, data) {
          assert invoked == Fanout(procs, topic, event, data, i + 1);
          assert ScanEndedAt(procs, topic, event, data, Some(CallbackFailed(event)), invoked, i + 1);
          return Some(CallbackFailed(event)), invoked, i + 1;
        }
      }
      i := i + 1;
    }
    return None, invoked, i;
  }

  /** The event processor (eventProcessor.exec) on a client: no client is
      an error, an unreadable payload is an error, otherwise the event name
      is fanned out by `FireProcessors` with the client's topic. `stop` is
      where the scan ended; no processor at or after it was invoked. */
  method EventExec(client: Option<EventClient>, data: Data)
    returns (err: Option<EngineError>, invoked: seq<Invocation>, ghost stop: nat)
    ensures client.None? ==> err == Some(ClientMissing) && invoked == []
    ensures client.Some? && data.Other? ==> err == Some(EventFailed) && invoked == []
    ensures client.Some? && !data.Other? ==>
      ScanEndedAt(client.value.processors, client.value.topic, GetEvent(data).value, data, err, invoked, stop)
    ensures client.Some? && !data.Other? ==>
      forall j :: 0 <= j < |invoked| ==>
        && invoked[j] == Invocation(invoked[j].index, client.value.topic, GetEvent(data).value, data)
        && invoked[j].index < stop
        && Serves(client.value.processors[invoked[j].index], GetEvent(data).value)
    ensures client.Some? && !data.Other? &&
      (forall i :: 0 <= i < |client.value.processors| ==>
         client.value.processors[i].events.Some?
         && client.value.processors[i].callback(client.value.topic, GetEvent(data).value, data))
      ==> err.None?
  {
    if client.None? {
      return Some(ClientMissing), [], 0;
    }
    var eventName := GetEvent(data);
    if eventName.Failure? {
      return Some(eventName.error), [], 0;
    }
    err, invoked, stop := FireProcessors(client.value.processors, client.value.topic, eventName.value, data);
    FanoutSpec(client.value.processors, client.value.topic, eventName.value, data, stop);
    assert invoked == Fanout(client.value.processors, client.value.topic, eventName.value, data, stop);
  }

  // ------------------------------------------------------------- end to end

  /** One event through the whole pipeline: published to the subscribers of
      its topic, popped and written by one subscriber's drain loop, then
      decoded and fanned out on that client. With a codec that round-trips
      the envelope and callbacks that succeed, the datagram sent is the
      encoded envelope and the client invokes exactly the processors that
      serve the event, once each, with its topic and the event payload. */
  method DeliverOne(s: Server, name: string, topic: string, event: string, note: string, uuid: string,
                    encode: Encoder, decode: Decoder, client: EventClient)
    returns (sent: Option<seq<byte>>, err: Option<EngineError>, invoked: seq<Invocation>)
    requires s.Valid() && s.isStarted && s.hasConn
    requires name in s.subscribers && s.subscribers[name].prop.topic == topic
    requires s.subscribers[name].evtBuffer == Some([])
    requires forall n | n in s.subscribers && s.subscribers[n].prop.topic == topic ::
      PushGuard(s.subscribers[n].evtBuffer, s.subscribers[n].prop.maxBuffer).None?
    requires encode(Pending(EventEnvelope(event, note, uuid))).Some?
    requires decode(encode(Pending(EventEnvelope(event, note, uuid))).value) == Some(EventEnvelope(event, note, uuid))
    requires client.topic == topic
    requires forall i :: 0 <= i < |client.processors| ==>
      client.processors[i].events.Some? && client.processors[i].callback(topic, event, Event(event, uuid))
    modifies s.subscribers.Values
    ensures sent == encode(Pending(EventEnvelope(event, note, uuid)))
    ensures err.None?
    ensures invoked == Fanout(client.processors, topic, event, Event(event, uuid), |client.processors|)
  {
    var published := s.PublishEvent(topic, event, note, uuid);
    sent := s.HandleEventBufferStep(s.subscribers[name], encode, true);
    var processor := GetProcessor(sent.value, decode);
    ghost var stop: nat;
    err, invoked, stop := EventExec(Some(client), processor.value.data);
  }

  /** A datagram whose send failed is never delivered. The drain loop
      re-appends the marshalled bytes (or the nil slice, when marshalling
      failed), the next pass marshals that `[]byte` again as a JSON string
      (or `null`), and the client cannot route the result: a string does not
      decode into an envelope, and `null` gives the empty command tag. */
  method RetryIsUndeliverable(s: Server, sb: Client<Payload>, m: Message, encode: Encoder, decode: Decoder)
    returns (first: Option<seq<byte>>, second: Option<seq<byte>>)
    requires sb.Valid() && sb.evtBuffer == Some([Pending(m)])
    requires s.isStarted && s.hasConn
    requires MarshalsBytesAsString(encode, decode)
    modifies sb
    ensures first.None? && second.Some?
    ensures GetProcessor(second.value, decode)
            == (if encode(Pending(m)).Some? then Failure(DecodeFailed) else Failure(UndefinedProcessor))
    ensures sb.evtBuffer == Some([])
  {
    first := s.HandleEventBufferStep(sb, encode, false);
    second := s.HandleEventBufferStep(sb, encode, true);
  }
}
