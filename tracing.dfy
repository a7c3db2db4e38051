/** The tracing context the interceptor drives, as abstract state: the current-trace
    slot (one execution context's binding) and an append-only log of every trace
    creation, recorded field and block/close event. */
module Tracing {
  import opened Wrappers
  import opened Propagation

  datatype ServiceType = RestEasy | RestEasyMethod

  /** The API descriptors recorded: the interceptor's own synchronous-dispatch
      descriptor, and the descriptor of the intercepted method. */
  datatype MethodDescriptor = RestEasySyncMethod | InterceptedMethod(apiId: int)

  datatype AnnotationKey = HttpParam

  datatype Throwable = Throwable(className: string)

  /** What the tracing context's own policy decides for a trace object it creates:
      whether it can be sampled, and whether its span is the root of the whole trace. */
  datatype SamplerAnswer = SamplerAnswer(sampled: bool, isRoot: bool)

  /** How a trace object came to be: `disableSampling`, `continueTraceObject`, or
      `newTraceObject`. */
  datatype Origin = SamplingDisabled | Continued(traceId: TraceId) | Started

  /** A trace handle: `canSampled()` is `sampled`, the span recorder's `isRoot()` is `isRoot`. */
  datatype Trace = Trace(id: nat, sampled: bool, isRoot: bool, origin: Origin)

  /** One field written through a span recorder or a span-event recorder. */
  datatype Record =
    | ServiceTypeRecord(serviceType: ServiceType)
    | RpcName(rpc: string)
    | EndPoint(endPoint: Option<string>)
    | RemoteAddress(address: Option<string>)
    | AcceptorHost(host: Option<string>)
    | ParentApplication(name: string, typeCode: int)
    | ApiRecord(api: MethodDescriptor)
    | Attribute(key: AnnotationKey, value: string)
    | ExceptionRecord(throwable: Option<Throwable>)

  datatype Event =
    | Bound(trace: Trace)                       // a trace object created and bound to the slot
    | SpanRecorded(owner: nat, record: Record)  // through the trace's span recorder
    | BlockBegun(owner: nat)                    // traceBlockBegin
    | SpanEventRecorded(owner: nat, record: Record)
    | BlockEnded(owner: nat)                    // traceBlockEnd
    | Closed(owner: nat)                        // close
    | Removed(owner: nat)                       // removeTraceObject
  {
    /** The id of the trace the event belongs to. */
    function Owner(): nat {
      if Bound? then trace.id else owner
    }
  }

  /** The events of writing `records` through trace `id`'s span recorder. */
  function SpanRecords(id: nat, records: seq<Record>): (r: seq<Event>)
    ensures |r| == |records|
  {
    seq(|records|, i requires 0 <= i < |records| => SpanRecorded(id, records[i]))
  }

  /** The events of writing `records` through trace `id`'s current span-event recorder. */
  function SpanEventRecords(id: nat, records: seq<Record>): (r: seq<Event>)
    ensures |r| == |records|
  {
    seq(|records|, i requires 0 <= i < |records| => SpanEventRecorded(id, records[i]))
  }

  lemma SpanRecordsSnoc(id: nat, records: seq<Record>, x: Record)
    ensures SpanRecords(id, records + [x]) == SpanRecords(id, records) + [SpanRecorded(id, x)]
  {
  }

  lemma SpanEventRecordsSnoc(id: nat, records: seq<Record>, x: Record)
    ensures SpanEventRecords(id, records + [x]) == SpanEventRecords(id, records) + [SpanEventRecorded(id, x)]
  {
  }

  lemma SpanRecordsConcat(id: nat, a: seq<Record>, b: seq<Record>)
    ensures SpanRecords(id, a + b) == SpanRecords(id, a) + SpanRecords(id, b)
  {
  }

  /** Appending two runs of events one after the other appends their concatenation. */
  lemma AppendEvents(log: seq<Event>, a: seq<Event>, b: seq<Event>)
    ensures log + a + b == log + (a + b)
  {
  }

  /** How often `e` occurs in `log`. */
  function CountOf(log: seq<Event>, e: Event): nat {
    if log == [] then 0 else (if log[0] == e then 1 else 0) + CountOf(log[1..], e)
  }

  lemma {:induction false} CountOfConcat(a: seq<Event>, b: seq<Event>, e: Event)
    ensures CountOf(a + b, e) == CountOf(a, e) + CountOf(b, e)
  {
    if a == [] {
      assert a + b == b;
    } else {
      assert (a + b)[0] == a[0] && (a + b)[1..] == a[1..] + b;
      CountOfConcat(a[1..], b, e);
    }
  }

  lemma CountOfCons(x: Event, s: seq<Event>, e: Event)
    ensures CountOf([x] + s, e) == (if x == e then 1 else 0) + CountOf(s, e)
  {
    assert ([x] + s)[0] == x && ([x] + s)[1..] == s;
  }

  /** Events appended after a log in which every owner is below `id` are the only
      occurrences of an event owned by `id`. */
  lemma CountOfFresh(log: seq<Event>, added: seq<Event>, e: Event, id: nat)
    requires forall i :: 0 <= i < |log| ==> log[i].Owner() < id
    requires e.Owner() == id
    ensures CountOf(log + added, e) == CountOf(added, e)
  {
    forall i | 0 <= i < |log|
      ensures log[i] != e
    {
      assert log[i].Owner() < e.Owner();
    }
    CountOfAbsent(log, e);
    CountOfConcat(log, added, e);
  }

  /** Counting in a run of three events. */
  lemma CountOfThree(x: Event, y: Event, z: Event, e: Event)
    ensures CountOf([x, y, z], e) == (if x == e then 1 else 0) + (if y == e then 1 else 0) + (if z == e then 1 else 0)
  {
    CountOfCons(x, [y, z], e);
    CountOfCons(y, [z], e);
    CountOfCons(z, [], e);
    assert [x, y, z] == [x] + [y, z] && [y, z] == [y] + [z] && [z] == [z] + [];
  }

  /** An event that occurs nowhere in `log` is counted zero times. */
  lemma {:induction false} CountOfAbsent(log: seq<Event>, e: Event)
    requires forall i :: 0 <= i < |log| ==> log[i] != e
    ensures CountOf(log, e) == 0
  {
    if log != [] {
      CountOfAbsent(log[1..], e);
    }
  }

  class TraceContext {
    var current: Option<Trace>
    var log: seq<Event>
    var nextId: nat

    /** Every trace mentioned so far has an id below `nextId`, so new ids are fresh. */
    ghost predicate Valid()
      reads this
    {
      && (forall i :: 0 <= i < |log| ==> log[i].Owner() < nextId)
      && (current.Some? ==> current.value.id < nextId)
    }

    constructor ()
      ensures Valid() && current == None && log == [] && nextId == 0
    {
      current, log, nextId := None, [], 0;
    }

    /** Creates a trace object with a fresh id and binds it to the slot. */
    method Bind(sampled: bool, isRoot: bool, origin: Origin) returns (t: Trace)
      requires Valid()
      modifies this
      ensures Valid()
      ensures t == Trace(old(nextId), sampled, isRoot, origin)
      ensures current == Some(t) && log == old(log) + [Bound(t)] && nextId == old(nextId) + 1
    {
      t := Trace(nextId, sampled, isRoot, origin);
      log := log + [Bound(t)];
      nextId := nextId + 1;
      current := Some(t);
    }

    /** `disableSampling()`: a trace object that only carries "do not sample". */
    method DisableSampling(answer: SamplerAnswer) returns (t: Trace)
      requires Valid()
      modifies this
      ensures Valid()
      ensures t == Trace(old(nextId), false, answer.isRoot, SamplingDisabled)
      ensures current == Some(t) && log == old(log) + [Bound(t)] && nextId == old(nextId) + 1
    {
      t := Bind(false, answer.isRoot, SamplingDisabled);
    }

    /** `continueTraceObject(traceId)`: joins the upstream trace `traceId`. */
    method ContinueTraceObject(traceId: TraceId, answer: SamplerAnswer) returns (t: Trace)
      requires Valid()
      modifies this
      ensures Valid()
      ensures t == Trace(old(nextId), answer.sampled, answer.isRoot, Continued(traceId))
      ensures current == Some(t) && log == old(log) + [Bound(t)] && nextId == old(nextId) + 1
    {
      t := Bind(answer.sampled, answer.isRoot, Continued(traceId));
    }

    /** `newTraceObject()`: starts a new trace. */
    method NewTraceObject(answer: SamplerAnswer) returns (t: Trace)
      requires Valid()
      modifies this
      ensures Valid()
      ensures t == Trace(old(nextId), answer.sampled, answer.isRoot, Started)
      ensures current == Some(t) && log == old(log) + [Bound(t)] && nextId == old(nextId) + 1
    {
      t := Bind(answer.sampled, answer.isRoot, Started);
    }

    /** `currentRawTraceObject()`: whatever trace the slot holds, sampled or not. */
    function CurrentRawTraceObject(): (r: Option<Trace>)
      reads this
      ensures r == current
    {
      current
    }

    /** `removeTraceObject()`: empties the slot. */
    method RemoveTraceObject()
      requires Valid()
      modifies this
      ensures Valid() && current == None && nextId == old(nextId)
      ensures log == old(log) + (if old(current).Some? then [Removed(old(current).value.id)] else [])
    {
      if current.Some? {
        log := log + [Removed(current.value.id)];
      }
      current := None;
    }

    /** Appends one event about an existing trace to the log. */
    method Emit(e: Event)
      requires Valid() && e.Owner() < nextId
      modifies this
      ensures Valid() && current == old(current) && nextId == old(nextId)
      ensures log == old(log) + [e]
    {
      log := log + [e];
    }
  }
}
