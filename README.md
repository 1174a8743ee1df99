# genggar broker core in Dafny

A model of the bookkeeping inside genggar, a publish/subscribe broker over
UDP. Clients register a topic with the broker. The broker keeps one bounded
outbound buffer per subscriber. Publishing an event appends an event
envelope to the buffer of every subscriber of the topic. A per-subscriber
drain loop pops envelopes and sends them. On the client side, an inbound
event is fanned out to every event processor whose event list names it.

Modules, one per source file:

- `Wrappers` (`wrappers.dfy`): the `Option` and `Result` types used for Go's nil and `(T, error)` returns.
- `Util` (`util.dfy`): `InArrayStr`, the string-membership scan.
- `Subscriber` (`subscriber.dfy`): the class `Client<T>`, one subscriber with its buffer (`evtBuffer`, where `None` is a nil list) and its `dispatched` flag. Beside it is a pure specification of the buffer operations (`Apply`, `Run`, `Drain`) and lemmas about whole sequences of operations.
- `Message` (`message.dfy`): the envelope `Message(cmd, msg, data)` and the command tags.
- `Engine` (`engine.dfy`): the class `Server` with the registry `subscribers: map<string, Client<Payload>>`. It covers registration, lookup, the topic-filtered publish, one pass of the dispatcher scan and one pass of a subscriber's drain loop.
- `Process` (`process.dfy`): routing by command tag, the second decoding phase, the `ip:port` subscriber name, the register processor and the event processor.

How the model represents the source:

- JSON encoding and decoding are function parameters (`Decoder`, `Encoder`); a result of `None` is a marshalling error. Where it matters, the predicate `MarshalsBytesAsString` states how encoding/json treats a re-appended `[]byte`.
- The outcome of the UDP write is a boolean parameter. The event uuid is a parameter too.
- Application callbacks are functions that return `true` for a nil error.
- The payload after the first decoding phase is one of four shapes:
  - `Register(topic)`;
  - `Event(event, uuid)`;
  - `NoData`, for JSON null;
  - `Other`, for a value that is not an object.
- Go's decoder ignores unknown fields. So reading a topic from an event object gives `""`, and so does reading an event name from a registration object.
- The source's subscriber `Property` has no topic field, although `engine/process.go:93` sets one and `engine/server.go:149` reads one. Here `Property` carries `topic`, fixed at creation. `registerSubscriber` leaves it empty.

Behaviour of the code worth noting:

- The capacity guard is `Len() <= MaxBuffer`, so a buffer accepts `MaxBuffer + 1` items (`HoldsOneMoreThanMaxBuffer`). It does not stop at `MaxBuffer`.
- When a send fails, the drain loop re-appends the encoded bytes at the tail with `PushBack`, not at the head. A failed item therefore moves behind newer ones.
- `PublishEvent` returns nil when no subscriber matches. The errors it builds for a missing connection are never returned.
- The two registration paths differ. `registerSubscriber` reports a duplicate name as an error. The register processor treats a duplicate as a silent no-op and sends no acknowledgement.
- The event processor returns at the first failing callback and at the first processor with a nil event list. Later processors are not tried.
- A datagram whose send failed is never delivered. The drain loop re-appends the marshalled `[]byte`. The pass that reaches it marshals that slice again, as a base64 JSON string (or `null` for the nil slice a failed marshal leaves), and the client cannot route it (`RetryIsUndeliverable`).
- The subscriber name is `IP.String()`, ':' and the port. It leaves out an IPv6 zone, so endpoints that differ only in their zone share one registry entry (`SubscriberNameIdentifiesIpAndPort`).

## Model

| member | source | states |
|---|---|---|
| `Util.InArrayStr` | util/util.go:18-26 | true exactly when some element of the slice equals the string |
| `Util.InArrayStrEmpty` | util/util.go:18-26 | the empty slice never matches |
| `Util.InArrayStrFirst` | util/util.go:20-22 | a slice whose first element is the string matches, whatever follows |
| `Util.InArrayStrAppend` | util/util.go:19-23 | a match is kept when more elements are appended |
| `Util.InArrayStrConcat` | util/util.go:18-26 | membership in a concatenation is membership in one of its parts |
| `Subscriber.Apply` | subscriber/init.go:52-95 | a failing operation leaves the buffer as it was; a successful push adds one item and a successful pop removes one |
| `Subscriber.LenCountsOperations` | subscriber/init.go:97-101 | after any sequence of operations, the length is the initial length plus successful pushes minus successful pops, and the buffer stays initialised |
| `Subscriber.RunStaysWithinAdmits` | subscriber/init.go:52-76 | no sequence of operations takes a buffer past `maxBuffer + 1` items |
| `Subscriber.PushBacksAppend` | subscriber/init.go:52-61 | pushes at the back all succeed while the total stays within `maxBuffer + 1`, and they append in order |
| `Subscriber.HoldsOneMoreThanMaxBuffer` | subscriber/init.go:54 | a fresh buffer accepts `maxBuffer + 1` pushes and refuses the next with `ErrBufferFull` |
| `Subscriber.DrainYieldsItems` | subscriber/init.go:78-95 | popping until the buffer is empty yields its items front to back |
| `Subscriber.FirstInFirstOut` | subscriber/init.go:52-95 | items pushed at the back of a fresh buffer are popped in the order they were pushed |
| `Subscriber.PushFrontThenPop` | subscriber/init.go:65-95 | an accepted `PushFront` item is the next one popped, and popping it restores the buffer |
| `Subscriber.Client.Create` | subscriber/init.go:46-49 | a new client has an empty list and is not dispatched |
| `Subscriber.NewClient` | subscriber/init.go:42-50 | fails with `ErrZeroMaxBuffer` exactly when `MaxBuffer == 0`; otherwise returns a fresh client with the given property, an empty buffer and `dispatched == false` |
| `Subscriber.Client.PushBack` | subscriber/init.go:52-63 | succeeds iff the buffer is initialised and holds at most `maxBuffer` items, then appends at the tail; otherwise returns `ErrBufferFull` or `ErrNotInitialized` and changes nothing; keeps the `maxBuffer + 1` bound and the flag |
| `Subscriber.Client.PushFront` | subscriber/init.go:65-76 | same capacity check as `PushBack`, but prepends at the head |
| `Subscriber.Client.PopFront` | subscriber/init.go:78-95 | on a non-empty buffer, returns the head and removes exactly it; an empty buffer gives `ErrBufferEmpty` and a nil one `ErrNotInitialized`, both unchanged |
| `Subscriber.Client.GetBufferLen` | subscriber/init.go:97-101 | the number of buffered items, which is the number of items draining would yield |
| `Subscriber.Client.SetDispatching` | subscriber/init.go:117-121 | the flag is true afterwards whatever the argument; the buffer is unchanged |
| `Subscriber.Client.IsDispatched` | subscriber/init.go:123-127 | returns the flag |
| `Engine.Server.Create` | init.go:23-30 | a server starts with an empty registry and not started |
| `Engine.Server.RegisterSubscriber` | engine/server.go:196-214 | a new name gets a fresh subscriber with capacity 1024, an empty buffer, no topic and not dispatched, and no other entry changes; a present name gives "subscriber exists" and leaves the map unchanged |
| `Engine.Server.GetSubscriber` | engine/server.go:217-222 | returns the stored client iff the name is present, otherwise "subsriber not found" |
| `Engine.Server.AddSubscriber` | engine/server.go:225-227 | the map becomes the old map with `name` set to `subs` |
| `Engine.Server.PublishEvent` | engine/server.go:129-158 | returns nil iff every subscriber of the topic accepts a push, then each gets exactly one `[EVT]` envelope `(message, event, uuid)` at its tail; other subscribers' buffers and all flags are unchanged; an empty or non-matching registry gives nil; each buffer receives at most one append |
| `Engine.Server.DispatchScan` | engine/server.go:111-121 | afterwards every subscriber is dispatched; loops are spawned for exactly the subscribers that were not dispatched before; no buffer changes |
| `Engine.ScanTwice` | engine/server.go:103-126 | a second scan spawns nothing, so each subscriber gets at most one drain loop |
| `Engine.Server.HandleEventBufferStep` | engine/server.go:167-190 | nothing changes when the server is not started or the buffer is empty; otherwise the head is popped and sent when encoding and the write succeed, and on failure the encoder's output as a `[]byte` (the nil slice if encoding failed) is re-appended at the tail |
| `Process.GetProcessor` | engine/process.go:33-52 | a decoding failure is an error; `[REG]` yields the register processor and `[EVT]` the event processor, each with the decoded payload; any other tag is "undefined processor" |
| `Process.InfoAndRetryAreUndefined` | engine/process.go:41-51 | `[INF]` and `[RET]` are routed to no processor |
| `Process.GetSubscribedTopic` | engine/process.go:60-73 | a registration payload yields its topic; other objects and null yield ""; a non-object payload fails |
| `Process.GetEvent` | engine/process.go:117-130 | an event payload yields its event name; other objects and null yield ""; a non-object payload fails |
| `Process.EnvelopeRoundTrip` | engine/process.go:33-73 | an intact registration envelope reaches the register processor with its topic; an intact event envelope, as `PublishEvent` builds it (`EventEnvelope`), reaches the event processor with its event name |
| `Process.NatToDecimal` | engine/process.go:76 | a non-negative port prints as a non-empty string of decimal digits with no leading zero |
| `Process.IntToDecimal` | engine/process.go:76 | a port prints with a leading '-' exactly when it is negative, then digits; it never contains ':' |
| `Process.DecimalRoundTrip` | engine/process.go:76 | the printed decimal port reads back as the port |
| `Process.NatToDecimalInjective` | engine/process.go:76 | distinct non-negative numbers print differently |
| `Process.IntToDecimalInjective` | engine/process.go:76 | distinct ports print differently |
| `Process.SplitAtLastColon` | engine/process.go:76 | `ip:port` splits back into its parts when the port part has no ':', even for IPv6 addresses |
| `Process.ColonInsideLongerIp` | engine/process.go:76 | two splits that disagree on where the ip ends put a ':' in a port part |
| `Process.SubscriberName` | engine/process.go:76 | the name is the IP text, then a ':' that is the last ':' of the name, then the port |
| `Process.SubscriberNameIdentifiesIpAndPort` | engine/process.go:76 | two endpoints get the same name exactly when their IP text and port agree; endpoints that differ only in the IPv6 zone collide |
| `Process.RegistrationAck` | engine/process.go:102-105 | the acknowledgement is an `[INF]` envelope with the success text and no payload, which neither processor handles |
| `Process.RegisterExec` | engine/process.go:75-109 | a known name returns nil, sends no ack and leaves the registry unchanged; a non-object payload returns the topic error and adds nothing; otherwise exactly one fresh subscriber is added under `ip:port`, with the payload's topic, capacity 1024 and an empty buffer, no other entry changes and the `[INF]` ack is sent |
| `Process.FanoutSpec` | engine/process.go:142-157 | the reference fan-out invokes each serving processor exactly once, in slice order, with `(topic, event, data)`, and invokes nothing else |
| `Process.FireProcessors` | engine/process.go:142-157 | the invocations are the reference fan-out of the processors before the stopping point, which all have event lists. A nil result means the scan ran to the end and every callback succeeded. "processors empty" means the scan stopped at the first nil event list with every callback so far successful. A processor error means it stopped right after the one failing callback. When all lists are non-nil and all callbacks succeed, the result is nil |
| `Process.EventExec` | engine/process.go:132-158 | no client, or a non-object payload, is an error with no invocation. Otherwise the scan ends exactly as `FireProcessors` states, with the client's topic, the event name and the raw payload: each invocation goes to a serving processor before the stopping point, and nothing at or after it is invoked. A nil result means the full fan-out was made with every callback succeeding |
| `Process.RetryIsUndeliverable` | engine/server.go:167-188 | from a buffer holding only that item, after a failed send the next drain pass sends the re-marshalled bytes, which the client rejects: a decoding error when the first marshal succeeded, "undefined processor" when it failed |
| `Process.DeliverOne` | engine/server.go:129-190 | end to end: when every subscriber of the topic accepts the push, the event goes into an empty buffer, the codec round-trips and the callbacks succeed, the drain step writes the encoded `[EVT]` envelope, and the client routes it to the event processor and invokes exactly the processors serving the event, once each, in order, with its topic |

## Left out

- Socket I/O: the read loops of the server (`Start`) and of the client (`StartListen`), `sendData`/`WriteToUDP` and the client's registration write. A write is a boolean outcome, and the acknowledgement is returned instead of sent.
- Socket binding in the constructors of `init.go` and `engine/init.go`. `Engine.Server.Create` models the non-socket part of `NewEventServer` in `init.go`: an empty registry, not started. `engine/init.go` is an older revision that contradicts `engine/server.go`, and it is not part of this model.
- Concurrency: goroutines, channels, the 10 ms polling, the stop signals and the mutexes. The dispatcher loop and the drain loop are each modelled as one sequential pass. Locks are no-ops. Because the model is single-threaded, the drain loop's "pop fail" branch cannot be reached after a non-empty length check, and it is not modelled.
- JSON syntax. Encoding and decoding are abstract functions that may fail. The payload is classified into four shapes, as described above. An object with both a topic and an event field is not represented. Nor is an object with a field of the wrong type: `{"topic":5}` makes `getSubscribedTopic` fail while `getEvent` returns "", and `{"event":"e","uuid":5}` does the reverse (`engine/process.go:67-70`, `124-127`). `Other` makes both fail.
- `util.GetV4UUID` (it shells out to `uuidgen`): the uuid is a parameter of `PublishEvent`. The reflection-based `util.InArray` is also left out.
- `LogAllElemFront`, `GetUDPAddr` (it returns the stored address) and all logging.
- The register processor running on a client, and the event processor running on the broker. The first panics on the nil address, because the client builds its `property` without `addr` (`engine/client.go:86-89`) and `exec` reads `r.prop.addr.IP` first (`engine/process.go:76`); the second gets "client does not exist", which `EventExec` models with `client == None`.
- Engine.Server.AddSubscriber: requires that `subs` is not already stored under another name. The only caller passes a freshly created client, and the registry invariant `Valid` excludes one client object stored under two names.
- Engine.Server.PublishEvent: when a push is refused, the contract says only that each buffer received at most one append. Which matching subscribers were served before the refusal depends on Go's map iteration order, which is left unspecified.
- Engine.Server.HandleEventBufferStep: requires an initialised buffer, because `GetBufferLen` dereferences the list and panics on a nil one. It takes the client as a parameter, as the spawned goroutine does.
- Subscriber.Client.GetBufferLen: requires an initialised buffer, for the same reason.
- Engine.Server.RegisterSubscriber and Process.RegisterExec: `NewClient` cannot fail with `MaxBuffer == 1024`, so the "create client fail" branch is proved unreachable rather than modelled.
- Nil elements of the client's `[]*EventProcessor` and nil `Callback` functions: the source panics on them (`engine/process.go:144`, `149`). `EventProcessor` is a value and its callback a total function, so neither can be nil here.
- The `IP` byte slice of `net.UDPAddr`: `UDPAddr` holds only its text, as `IP.String()` prints it, with the zone beside it. The zone takes no part in the subscriber name, as in the source.
- The 32-bit or 64-bit width of Go's `int` is not modelled, because buffer lengths, `MaxBuffer` and ports stay far below it.
