/** The per-subscriber outbound event buffer of subscriber/init.go.

    A `Client` owns a FIFO list of pending items (`evtBuffer`, a nil-able
    `*list.List` in the source) and a one-way `dispatched` flag. The pure
    functions below (`Apply`, `Run`, `Drain`) are the specification the
    methods of `Client` are proved against; the lemmas state what the buffer
    promises over whole sequences of operations. */
module Subscriber {
  import opened Wrappers

  /** The errors the buffer operations return. */
  datatype SubError =
    | ErrBufferFull        // "buffer full"
    | ErrBufferEmpty       // "buffer empty"
    | ErrNotInitialized    // "buffer is not initialized"
    | ErrZeroMaxBuffer     // "buffer length should more than 0"

  /** A UDP endpoint (`net.UDPAddr`): the textual IP (as `IP.String()`
      prints it, without the zone), the port and the IPv6 zone. */
  datatype UDPAddr = UDPAddr(ip: string, port: int, zone: string)

  /** The creation-time settings of a subscriber. The source's `Property` has
      no topic although its callers set and read one; here it carries it. */
  datatype Property = Property(name: string, address: UDPAddr, maxBuffer: int, topic: string)

  /** One buffer operation, for reasoning about sequences of calls. */
  datatype Op<T> = PushBackOp(item: T) | PushFrontOp(item: T) | PopFrontOp

  /** How many items the guard `Len() <= MaxBuffer` lets the buffer reach:
      one more than `maxBuffer` (none at all when `maxBuffer` is negative). */
  function Admits(maxBuffer: int): nat
  {
    if maxBuffer < 0 then 0 else maxBuffer + 1
  }

  /** The error a push returns on `buffer` (None: the push is accepted).
      `None` as a buffer is the nil list. */
  function PushGuard<T>(buffer: Option<seq<T>>, maxBuffer: int): Option<SubError>
  {
    match buffer
    case None => Some(ErrNotInitialized)
    case Some(items) => if |items| <= maxBuffer then None else Some(ErrBufferFull)
  }

  /** What a pop returns on `buffer`. */
  function PopResult<T>(buffer: Option<seq<T>>): Result<T, SubError>
  {
    match buffer
    case None => Failure(ErrNotInitialized)
    case Some(items) => if |items| > 0 then Success(items[0]) else Failure(ErrBufferEmpty)
  }

  /** Whether `op` succeeds on `buffer`. */
  predicate Succeeds<T>(buffer: Option<seq<T>>, maxBuffer: int, op: Op<T>)
  {
    match op
    case PopFrontOp => PopResult(buffer).Success?
    case _ => PushGuard(buffer, maxBuffer).None?
  }

  /** The buffer after `op`; a failing operation leaves it as it was. */
  function Apply<T>(buffer: Option<seq<T>>, maxBuffer: int, op: Op<T>): (r: Option<seq<T>>)
    ensures !Succeeds(buffer, maxBuffer, op) ==> r == buffer
    ensures Succeeds(buffer, maxBuffer, op) ==> buffer.Some? && r.Some?
    ensures Succeeds(buffer, maxBuffer, op) && op.PopFrontOp? ==> |r.value| == |buffer.value| - 1
    ensures Succeeds(buffer, maxBuffer, op) && !op.PopFrontOp? ==> |r.value| == |buffer.value| + 1
  {
    if !Succeeds(buffer, maxBuffer, op) then buffer
    else match op
      case PushBackOp(x) => Some(buffer.value + [x])
      case PushFrontOp(x) => Some([x] + buffer.value)
      case PopFrontOp => Some(buffer.value[1..])
  }

  /** The buffer after running `ops` in order. */
  function Run<T>(buffer: Option<seq<T>>, maxBuffer: int, ops: seq<Op<T>>): Option<seq<T>>
    decreases |ops|
  {
    if ops == [] then buffer else Run(Apply(buffer, maxBuffer, ops[0]), maxBuffer, ops[1..])
  }

  /** How many pushes in `ops` succeed when run from `buffer`. */
  function SuccessfulPushes<T>(buffer: Option<seq<T>>, maxBuffer: int, ops: seq<Op<T>>): nat
    decreases |ops|
  {
    if ops == [] then 0
    else
      (if !ops[0].PopFrontOp? && Succeeds(buffer, maxBuffer, ops[0]) then 1 else 0)
      + SuccessfulPushes(Apply(buffer, maxBuffer, ops[0]), maxBuffer, ops[1..])
  }

  /** How many pops in `ops` succeed when run from `buffer`. */
  function SuccessfulPops<T>(buffer: Option<seq<T>>, maxBuffer: int, ops: seq<Op<T>>): nat
    decreases |ops|
  {
    if ops == [] then 0
    else
      (if ops[0].PopFrontOp? && Succeeds(buffer, maxBuffer, ops[0]) then 1 else 0)
      + SuccessfulPops(Apply(buffer, maxBuffer, ops[0]), maxBuffer, ops[1..])
  }

  /** `PushBack` of every element of `xs`, in order. */
  function PushBacks<T>(xs: seq<T>): (ops: seq<Op<T>>)
    ensures |ops| == |xs|
    ensures forall i :: 0 <= i < |xs| ==> ops[i] == PushBackOp(xs[i])
  {
    if xs == [] then [] else [PushBackOp(xs[0])] + PushBacks(xs[1..])
  }

  /** The items obtained by popping until the buffer reports an error. */
  function Drain<T>(buffer: Option<seq<T>>): seq<T>
    decreases if buffer.Some? then |buffer.value| else 0
  {
    match PopResult(buffer)
    case Success(x) => [x] + Drain(Apply(buffer, 0, PopFrontOp))
    case Failure(_) => []
  }

  /** The length of a live buffer is its initial length plus the pushes that
      succeeded minus the pops that succeeded; from a fresh client, it is
      exactly successful pushes minus successful pops. */
  lemma {:induction false} LenCountsOperations<T>(items: seq<T>, maxBuffer: int, ops: seq<Op<T>>)
    ensures Run(Some(items), maxBuffer, ops).Some?
    ensures |Run(Some(items), maxBuffer, ops).value|
            == |items| + SuccessfulPushes(Some(items), maxBuffer, ops) - SuccessfulPops(Some(items), maxBuffer, ops)
    decreases |ops|
  {
    if ops != [] {
      var next := Apply(Some(items), maxBuffer, ops[0]);
      LenCountsOperations(next.value, maxBuffer, ops[1..]);
    }
  }

  /** No sequence of operations takes a buffer past `maxBuffer + 1` items. */
  lemma {:induction false} RunStaysWithinAdmits<T>(items: seq<T>, maxBuffer: int, ops: seq<Op<T>>)
    requires |items| <= Admits(maxBuffer)
    ensures Run(Some(items), maxBuffer, ops).Some?
    ensures |Run(Some(items), maxBuffer, ops).value| <= Admits(maxBuffer)
    decreases |ops|
  {
    if ops != [] {
      var next := Apply(Some(items), maxBuffer, ops[0]);
      RunStaysWithinAdmits(next.value, maxBuffer, ops[1..]);
    }
  }

  /** Pushing `xs` at the back of `items` succeeds for every element as long
      as the total stays within `maxBuffer + 1`, and appends them in order. */
  lemma {:induction false} PushBacksAppend<T>(items: seq<T>, maxBuffer: int, xs: seq<T>)
    requires |items| + |xs| <= Admits(maxBuffer)
    ensures Run(Some(items), maxBuffer, PushBacks(xs)) == Some(items + xs)
    ensures SuccessfulPushes(Some(items), maxBuffer, PushBacks(xs)) == |xs|
    decreases |xs|
  {
    if xs == [] {
      assert items + xs == items;
    } else {
      var ops := PushBacks(xs);
      assert ops[1..] == PushBacks(xs[1..]);
      assert Apply(Some(items), maxBuffer, ops[0]) == Some(items + [xs[0]]);
      PushBacksAppend(items + [xs[0]], maxBuffer, xs[1..]);
      assert items + [xs[0]] + xs[1..] == items + xs;
    }
  }

  /** The guard admits one item more than `maxBuffer`: a fresh buffer takes
      `maxBuffer + 1` pushes and refuses the next with `ErrBufferFull`. */
  lemma HoldsOneMoreThanMaxBuffer<T>(maxBuffer: nat, xs: seq<T>)
    requires |xs| == maxBuffer + 1
    ensures Run(Some([]), maxBuffer, PushBacks(xs)) == Some(xs)
    ensures PushGuard(Some(xs), maxBuffer) == Some(ErrBufferFull)
  {
    PushBacksAppend([], maxBuffer, xs);
    assert [] + xs == xs;
  }

  /** Popping a buffer until it is empty yields its items front to back. */
  lemma {:induction false} DrainYieldsItems<T>(items: seq<T>)
    ensures Drain(Some(items)) == items
    decreases |items|
  {
    if items != [] {
      DrainYieldsItems(items[1..]);
    }
  }

  /** FIFO: items pushed at the back of a fresh buffer come out of the front
      in the order they were pushed. */
  lemma FirstInFirstOut<T>(maxBuffer: int, xs: seq<T>)
    requires |xs| <= Admits(maxBuffer)
    ensures Drain(Run(Some([]), maxBuffer, PushBacks(xs))) == xs
  {
    PushBacksAppend([], maxBuffer, xs);
    assert [] + xs == xs;
    DrainYieldsItems(xs);
  }

  /** An item pushed at the front is the next one popped, and popping it
      restores the buffer. */
  lemma PushFrontThenPop<T>(buffer: Option<seq<T>>, maxBuffer: int, x: T)
    requires PushGuard(buffer, maxBuffer).None?
    ensures PopResult(Apply(buffer, maxBuffer, PushFrontOp(x))) == Success(x)
    ensures Apply(Apply(buffer, maxBuffer, PushFrontOp(x)), maxBuffer, PopFrontOp) == buffer
  {
  }

  /** One registered client of the broker (clientImpl). */
  class Client<T> {
    const prop: Property
    var evtBuffer: Option<seq<T>>
    var dispatched: bool

    /** The buffer never holds more than the guard admits. */
    ghost predicate Valid()
      reads this
    {
      evtBuffer.Some? ==> |evtBuffer.value| <= Admits(prop.maxBuffer)
    }

    /** The client `NewClient` allocates: an empty list, not dispatched. */
    constructor Create(prop: Property)
      ensures Valid()
      ensures this.prop == prop && evtBuffer == Some([]) && !dispatched
    {
      this.prop := prop;
      evtBuffer := Some([]);
      dispatched := false;
    }

    /** Appends `data` at the tail when the buffer holds at most `maxBuffer`
        items; otherwise reports the error and changes nothing. */
    method PushBack(data: T) returns (err: Option<SubError>)
      requires Valid()
      modifies this
      ensures Valid()
      ensures err == PushGuard(old(evtBuffer), prop.maxBuffer)
      ensures err.None? <==> old(evtBuffer).Some? && |old(evtBuffer).value| <= prop.maxBuffer
      ensures err.None? ==> evtBuffer == Some(old(evtBuffer).value + [data])
      ensures err.Some? ==> evtBuffer == old(evtBuffer)
      ensures evtBuffer == Apply(old(evtBuffer), prop.maxBuffer, PushBackOp(data))
      ensures dispatched == old(dispatched)
    {
      match evtBuffer {
        case Some(items) =>
          if |items| <= prop.maxBuffer {
            evtBuffer := Some(items + [data]);
            return None;
          }
          return Some(ErrBufferFull);
        case None =>
          return Some(ErrNotInitialized);
      }
    }

    /** Prepends `data` under the same capacity check as `PushBack`. */
    method PushFront(data: T) returns (err: Option<SubError>)
      requires Valid()
      modifies this
      ensures Valid()
      ensures err == PushGuard(old(evtBuffer), prop.maxBuffer)
      ensures err.None? <==> old(evtBuffer).Some? && |old(evtBuffer).value| <= prop.maxBuffer
      ensures err.None? ==> evtBuffer == Some([data] + old(evtBuffer).value)
      ensures err.Some? ==> evtBuffer == old(evtBuffer)
      ensures evtBuffer == Apply(old(evtBuffer), prop.maxBuffer, PushFrontOp(data))
      ensures dispatched == old(dispatched)
    {
      match evtBuffer {
        case Some(items) =>
          if |items| <= prop.maxBuffer {
            evtBuffer := Some([data] + items);
            return None;
          }
          return Some(ErrBufferFull);
        case None =>
          return Some(ErrNotInitialized);
      }
    }

    /** Removes and returns the head; an empty or nil buffer is left alone
        and reported. */
    method PopFront() returns (r: Result<T, SubError>)
      requires Valid()
      modifies this
      ensures Valid()
      ensures r == PopResult(old(evtBuffer))
      ensures r.Success? <==> old(evtBuffer).Some? && |old(evtBuffer).value| > 0
      ensures r.Success? ==> r.value == old(evtBuffer).value[0] && evtBuffer == Some(old(evtBuffer).value[1..])
      ensures old(evtBuffer) == Some([]) ==> r == Failure(ErrBufferEmpty) && evtBuffer == old(evtBuffer)
      ensures old(evtBuffer).None? ==> r == Failure(ErrNotInitialized) && evtBuffer == old(evtBuffer)
      ensures evtBuffer == Apply(old(evtBuffer), prop.maxBuffer, PopFrontOp)
      ensures dispatched == old(dispatched)
    {
      match evtBuffer {
        case Some(items) =>
          if |items| > 0 {
            r := Success(items[0]);
            evtBuffer := Some(items[1..]);
            return;
          }
          return Failure(ErrBufferEmpty);
        case None =>
          return Failure(ErrNotInitialized);
      }
    }

    /** The number of buffered items (a nil list is dereferenced, so the
        source panics there). */
    method GetBufferLen() returns (n: int)
      requires evtBuffer.Some?
      ensures n == |evtBuffer.value|
      ensures n == |Drain(evtBuffer)|
    {
      DrainYieldsItems(evtBuffer.value);
      n := |evtBuffer.value|;
    }

    /** Marks the client dispatched, whatever the argument says. */
    method SetDispatching(ignored: bool)
      modifies this
      ensures dispatched
      ensures evtBuffer == old(evtBuffer)
    {
      dispatched := true;
    }

    /** Whether a dispatch loop has been spawned for this client. */
    method IsDispatched() returns (d: bool)
      ensures d == dispatched
    {
      d := dispatched;
    }
  }

  /** Allocates a client with an empty buffer; a zero `maxBuffer` is refused. */
  method NewClient<T>(prop: Property) returns (r: Result<Client<T>, SubError>)
    ensures r.Failure? <==> prop.maxBuffer == 0
    ensures r.Failure? ==> r.error == ErrZeroMaxBuffer
    ensures r.Success? ==> fresh(r.value) && r.value.Valid()
    ensures r.Success? ==> r.value.prop == prop && r.value.evtBuffer == Some([]) && !r.value.dispatched
  {
    if prop.maxBuffer == 0 {
      return Failure(ErrZeroMaxBuffer);
    }
    var c := new Client<T>.Create(prop);
    return Success(c);
  }
}
