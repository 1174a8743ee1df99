/** The broker of engine/server.go: the subscriber registry, the
    topic-filtered publish, one pass of the dispatcher scan and one pass of
    a subscriber's drain loop. Goroutines, sleeps and locks are not
    modelled: each loop is one sequential step, and the outcome of the UDP
    write is a parameter. */
module Engine {
  import opened Wrappers
  import opened Message
  import opened Subscriber

  /** Capacity given to every subscriber the broker creates. */
  const MaxBuffer: int := 1024

  /** An item in a subscriber's buffer: an envelope waiting to be encoded,
      or the `[]byte` the drain loop re-appends after a failure (`None` is
      the nil slice a failed marshal leaves). */
  datatype Payload = Pending(message: Message) | Encoded(bytes: Option<seq<byte>>)

  /** A JSON encoder, abstracted: `None` is a marshalling error. */
  type Encoder = Payload -> Option<seq<byte>>

  /** What encoding/json does with a re-appended `[]byte`: a non-nil slice
      is marshalled as a base64 JSON string, which does not unmarshal into a
      `Message`; the nil slice is marshalled as `null`, which unmarshals into
      the zero `Message`. */
  ghost predicate MarshalsBytesAsString(encode: Encoder, decode: Decoder)
  {
    forall b: Option<seq<byte>> ::
      && encode(Encoded(b)).Some?
      && decode(encode(Encoded(b)).value) == (if b.Some? then None else Some(Message("", "", NoData)))
  }

  /** The errors of the engine package. */
  datatype EngineError =
    | SubscriberExists                 // "subscriber exists"
    | SubscriberNotFound(name: string) // "subsriber not found" + name
    | PushFailed                       // "unable to push data to buffer"
    | CreateClientFailed(cause: SubError)
    | DecodeFailed                     // json.Unmarshal error
    | UndefinedProcessor               // "undefined processor"
    | TopicFailed                      // "obtain topic fail..."
    | EventFailed                      // "obtain event fail..."
    | ClientMissing                    // "client does not exist"
    | ProcessorsEmpty                  // "processors empty"
    | CallbackFailed(event: string)    // "processor error for <event> ..."

  /** The envelope `PublishEvent` puts in every matching buffer. */
  function EventEnvelope(event: string, message: string, uuid: string): Message
  {
    Message(CmdEvent, message, Event(event, uuid))
  }

  /** The broker (ServerImpl). `hasConn` says whether the UDP socket is
      present (`ServerConn != nil`). */
  class Server {
    var subscribers: map<string, Client<Payload>>
    var isStarted: bool
    var hasConn: bool

    /** Every registered client is valid and is registered under one name
        only (every client is created fresh for the name it is stored under). */
    ghost predicate Valid()
      reads this, subscribers.Values
    {
      && (forall n | n in subscribers :: subscribers[n].Valid())
      && (forall n, m | n in subscribers && m in subscribers && subscribers[n] == subscribers[m] :: n == m)
    }

    /** A broker with an empty registry that has not started listening. */
    constructor Create(hasConn: bool)
      ensures Valid()
      ensures subscribers == map[] && !isStarted && this.hasConn == hasConn
    {
      subscribers := map[];
      isStarted := false;
      this.hasConn := hasConn;
    }

    /** Inserts a fresh subscriber (capacity `MaxBuffer`, empty buffer, no
        topic) under a name not yet present; a present name is an error and
        leaves the registry alone. */
    method RegisterSubscriber(name: string, addr: UDPAddr) returns (err: Option<EngineError>)
      requires Valid()
      modifies this
      ensures Valid()
      ensures isStarted == old(isStarted) && hasConn == old(hasConn)
      ensures err.Some? <==> name in old(subscribers)
      ensures err.Some? ==> err == Some(SubscriberExists) && subscribers == old(subscribers)
      ensures err.None? ==> name in subscribers && subscribers == old(subscribers)[name := subscribers[name]]
      ensures err.None? ==> fresh(subscribers[name]) && subscribers[name].prop == Property(name, addr, MaxBuffer, "")
      ensures err.None? ==> subscribers[name].evtBuffer == Some([]) && !subscribers[name].dispatched
    {
      if name !in subscribers {
        var created := NewClient<Payload>(Property(name, addr, MaxBuffer, ""));
        if created.Failure? {
          assert false;
        }
        subscribers := subscribers[name := created.value];
        return None;
      }
      return Some(SubscriberExists);
    }

    /** Looks a subscriber up by name. */
    method GetSubscriber(name: string) returns (r: Result<Client<Payload>, EngineError>)
      ensures r.Success? <==> name in subscribers
      ensures r.Success? ==> r.value == subscribers[name]
      ensures r.Failure? ==> r.error == SubscriberNotFound(name)
    {
      if name in subscribers {
        return Success(subscribers[name]);
      }
      return Failure(SubscriberNotFound(name));
    }

    /** Stores `subs` under `name`; every other entry is kept. */
    method AddSubscriber(name: string, subs: Client<Payload>)
      requires Valid() && subs.Valid()
      requires forall n | n in subscribers && n != name :: subscribers[n] != subs
      modifies this
      ensures Valid()
      ensures subscribers == old(subscribers)[name := subs]
      ensures forall n | n in old(subscribers) && n != name :: n in subscribers && subscribers[n] == old(subscribers)[n]
      ensures isStarted == old(isStarted) && hasConn == old(hasConn)
    {
      subscribers := subscribers[name := subs];
    }

    /** Pushes one event envelope at the tail of the buffer of every
        subscriber whose topic is `topic`, visiting the registry in an
        arbitrary order and giving up at the first refused push. The checks
        on a missing connection build errors that are never returned, so
        they do not affect the outcome. */
    method PublishEvent(topic: string, event: string, message: string, uuid: string)
      returns (err: Option<EngineError>)
      requires Valid()
      modifies subscribers.Values
      ensures Valid()
      ensures err.Some? ==> err == Some(PushFailed)
      ensures err.None? <==>
        forall n | n in subscribers && subscribers[n].prop.topic == topic ::
          PushGuard(old(subscribers[n].evtBuffer), subscribers[n].prop.maxBuffer).None?
      ensures forall n | n in subscribers && subscribers[n].prop.topic != topic ::
        subscribers[n].evtBuffer == old(subscribers[n].evtBuffer)
      ensures err.None? ==> forall n | n in subscribers && subscribers[n].prop.topic == topic ::
        subscribers[n].evtBuffer == Some(old(subscribers[n].evtBuffer).value + [Pending(EventEnvelope(event, message, uuid))])
      ensures forall n | n in subscribers ::
        || subscribers[n].evtBuffer == old(subscribers[n].evtBuffer)
        || subscribers[n].evtBuffer
           == Apply(old(subscribers[n].evtBuffer), subscribers[n].prop.maxBuffer, PushBackOp(Pending(EventEnvelope(event, message, uuid))))
      ensures forall n | n in subscribers :: subscribers[n].dispatched == old(subscribers[n].dispatched)
    {
      var data := Pending(EventEnvelope(event, message, uuid));
      var pending := subscribers.Keys;
      while pending != {}
        invariant pending <= subscribers.Keys
        invariant Valid()
        invariant forall n | n in pending :: subscribers[n].evtBuffer == old(subscribers[n].evtBuffer)
        invariant forall n | n in subscribers && subscribers[n].prop.topic != topic ::
          subscribers[n].evtBuffer == old(subscribers[n].evtBuffer)
        invariant forall n | n in subscribers && n !in pending && subscribers[n].prop.topic == topic ::
          && PushGuard(old(subscribers[n].evtBuffer), subscribers[n].prop.maxBuffer).None?
          && subscribers[n].evtBuffer == Some(old(subscribers[n].evtBuffer).value + [data])
        invariant forall n | n in subscribers :: subscribers[n].dispatched == old(subscribers[n].dispatched)
        decreases pending
      {
        var name :| name in pending;
        var sub := subscribers[name];
        if sub.prop.topic == topic {
          var pushErr := sub.PushBack(data);
          if pushErr.Some? {
            return Some(PushFailed);
          }
        }
        pending := pending - {name};
      }
      return None;
    }

    /** One pass of the dispatcher scan (DispatchEventPublisher): every
        subscriber not yet dispatched is marked and gets a drain loop;
        `spawned` names the subscribers a loop was started for. */
    method DispatchScan() returns (spawned: set<string>)
      requires Valid()
      modifies subscribers.Values
      ensures Valid()
      ensures spawned == set n | n in subscribers && !old(subscribers[n].dispatched)
      ensures forall n | n in subscribers :: subscribers[n].dispatched
      ensures forall n | n in subscribers :: subscribers[n].evtBuffer == old(subscribers[n].evtBuffer)
    {
      spawned := {};
      if |subscribers| > 0 {
        var pending := subscribers.Keys;
        while pending != {}
          invariant pending <= subscribers.Keys
          invariant Valid()
          invariant forall n | n in pending :: subscribers[n].dispatched == old(subscribers[n].dispatched)
          invariant forall n | n in subscribers && n !in pending :: subscribers[n].dispatched
          invariant spawned == set n | n in subscribers && n !in pending && !old(subscribers[n].dispatched)
          invariant forall n | n in subscribers :: subscribers[n].evtBuffer == old(subscribers[n].evtBuffer)
          decreases pending
        {
          var name :| name in pending;
          var sb := subscribers[name];
          var dispatched := sb.IsDispatched();
          if !dispatched {
            sb.SetDispatching(true);
            spawned := spawned + {name};
          }
          pending := pending - {name};
        }
      }
    }

    /** One pass of a subscriber's drain loop (handleEventBuffer). When the
        broker is started and the buffer is not empty, the head is popped and
        encoded; a marshalling failure re-appends the nil slice, a failed send
        re-appends the encoded bytes, in both cases at the TAIL. `sent` is the
        datagram handed to the socket successfully. */
    method HandleEventBufferStep(sb: Client<Payload>, encode: Encoder, writeOk: bool)
      returns (sent: Option<seq<byte>>)
      requires sb.Valid() && sb.evtBuffer.Some?
      modifies sb
      ensures sb.Valid()
      ensures sb.dispatched == old(sb.dispatched)
      ensures !isStarted || old(sb.evtBuffer) == Some([]) ==> sent.None? && sb.evtBuffer == old(sb.evtBuffer)
      ensures isStarted && old(sb.evtBuffer) != Some([]) ==>
        var head, rest := old(sb.evtBuffer).value[0], old(sb.evtBuffer).value[1..];
        && (encode(head).Some? && hasConn && writeOk ==> sent == encode(head) && sb.evtBuffer == Some(rest))
        && (encode(head).None? || !(hasConn && writeOk) ==>
              sent.None? && sb.evtBuffer == Some(rest + [Encoded(encode(head))]))
    {
      sent := None;
      if isStarted {
        var len := sb.GetBufferLen();
        if len > 0 {
          var popped := sb.PopFront();
          var head := popped.value;
          var msg := encode(head);
          if msg.None? {
            var _ := sb.PushBack(Encoded(None));
            return;
          }
          var sendOk := hasConn && writeOk;
          if !sendOk {
            var _ := sb.PushBack(Encoded(msg));
            return;
          }
          sent := msg;
        }
      }
    }
  }

  /** Two scans in a row: the second one spawns nothing, so no subscriber
      ever gets a second drain loop. */
  method ScanTwice(s: Server) returns (first: set<string>, second: set<string>)
    requires s.Valid()
    modifies s.subscribers.Values
    ensures first == set n | n in s.subscribers && !old(s.subscribers[n].dispatched)
    ensures second == {}
  {
    first := s.DispatchScan();
    second := s.DispatchScan();
  }
}
