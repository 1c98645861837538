// RuntimeCore::EventBus: a 24-slot ring of events and up to 12 handlers. The value
// `Bus` is what the ring represents, together with the history of the bus.
module Events {
  import opened Prelude

  const QUEUE_SIZE: nat := 24
  const MAX_HANDLERS: nat := 12
  const SOURCE_CHARS: nat := 23  // char source[24], one byte for the terminator

  datatype Event = Event(kind: nat, source: string, value: int)

  /** The address of a handler function; 0 is the null pointer. */
  type Handler = nat

  /** What a handler may do to the bus while it handles an event. */
  datatype Call = PostCall(event: Event) | SubscribeCall(handler: Handler)

  /** What the handlers do during one `process`: the n-th handler invocation makes the
      calls script[n], and none once the script has run out. A statement about every
      script covers every behaviour of the handlers. */
  type Script = seq<seq<Call>>

  function CallsOf(script: Script, n: nat): seq<Call> {
    if n < |script| then script[n] else []
  }

  datatype Delivery = Delivery(event: Event, receivers: seq<Handler>)

  /** pending, handlers and dropped are the state; the rest is history: every delivery with
      the handlers invoked for it so far, every event accepted, how many posts were
      attempted, and every event refused. */
  datatype Bus = Bus(
    pending: seq<Event>,
    handlers: seq<Handler>,
    dropped: nat,
    delivered: seq<Delivery>,
    accepted: seq<Event>,
    attempts: nat,
    refused: seq<Event>)

  /** A bus and the number of handler invocations made so far. */
  datatype Turn = Turn(bus: Bus, calls: nat)

  const EMPTY_BUS := Bus([], [], 0, [], [], 0, [])

  /** The source, cut to the size of its field. */
  function Fit(event: Event): Event {
    if |event.source| <= SOURCE_CHARS then event
    else event.(source := event.source[..SOURCE_CHARS])
  }

  function AfterSubscribe(b: Bus, handler: Handler): Bus {
    if handler == 0 || |b.handlers| >= MAX_HANDLERS || handler in b.handlers then b
    else b.(handlers := b.handlers + [handler])
  }

  function AfterPost(b: Bus, event: Event): Bus {
    if |b.pending| >= QUEUE_SIZE then
      b.(dropped := Inc32(b.dropped), attempts := b.attempts + 1, refused := b.refused + [Fit(event)])
    else
      b.(pending := b.pending + [Fit(event)], accepted := b.accepted + [Fit(event)],
         attempts := b.attempts + 1)
  }

  ghost predicate Bounded(b: Bus) {
    |b.pending| <= QUEUE_SIZE && |b.handlers| <= MAX_HANDLERS
  }

  function AfterCall(b: Bus, call: Call): Bus {
    match call
    case PostCall(event) => AfterPost(b, event)
    case SubscribeCall(handler) => AfterSubscribe(b, handler)
  }

  function AfterCalls(b: Bus, calls: seq<Call>): Bus {
    if calls == [] then b
    else AfterCall(AfterCalls(b, calls[..|calls| - 1]), calls[|calls| - 1])
  }

  ghost predicate Distinct<T(!new)>(s: seq<T>) {
    forall i, j :: 0 <= i < j < |s| ==> s[i] != s[j]
  }

  /** The oldest event leaves the queue and its delivery begins, with nobody invoked yet. */
  function Begun(b: Bus): Bus {
    if b.pending == [] then b
    else b.(pending := b.pending[1..], delivered := b.delivered + [Delivery(b.pending[0], [])])
  }

  /** One handler is invoked for the delivery in progress. */
  function Invoked(b: Bus, handler: Handler): Bus {
    if b.delivered == [] then b
    else
      var last := |b.delivered| - 1;
      b.(delivered := b.delivered[..last] + [Delivery(b.delivered[last].event, b.delivered[last].receivers + [handler])])
  }

  /** Handlers i, i + 1, ... are invoked for the delivery in progress; a handler subscribed
      meanwhile is reached too (there are never more than MAX_HANDLERS of them). */
  ghost function AfterDeliver(b: Bus, i: nat, n: nat, script: Script): Turn
    decreases MAX_HANDLERS - i
  {
    if i < |b.handlers| && i < MAX_HANDLERS then
      AfterDeliver(AfterCalls(Invoked(b, b.handlers[i]), CallsOf(script, n)), i + 1, n + 1, script)
    else
      Turn(b, n)
  }

  /** The oldest pending event, if any, taken and delivered. */
  ghost function AfterNext(t: Turn, script: Script): Turn {
    if t.bus.pending == [] then t else AfterDeliver(Begun(t.bus), 0, t.calls, script)
  }

  /** Up to `max` events taken and delivered. */
  ghost function AfterProcess(b: Bus, max: nat, script: Script): Turn
    decreases max
  {
    if max == 0 then Turn(b, 0) else AfterNext(AfterProcess(b, max - 1, script), script)
  }

  lemma {:induction false} NothingLeft(b: Bus, k: nat, max: nat, script: Script)
    requires k <= max && AfterProcess(b, k, script).bus.pending == []
    ensures AfterProcess(b, max, script) == AfterProcess(b, k, script)
    decreases max
  {
    if k < max {
      NothingLeft(b, k, max - 1, script);
    }
  }

  // ---- What the history says -------------------------------------------------

  ghost function EventsOf(ds: seq<Delivery>): seq<Event> {
    seq(|ds|, i requires 0 <= i < |ds| => ds[i].event)
  }

  lemma EventsAppend(ds: seq<Delivery>, d: Delivery)
    ensures EventsOf(ds + [d]) == EventsOf(ds) + [d.event]
  {
  }

  /** The ledger of the bus, also while an event is being handled. */
  ghost predicate Ledger(b: Bus) {
    && Bounded(b)
    && Distinct(b.handlers) && 0 !in b.handlers
    && b.accepted == EventsOf(b.delivered) + b.pending
    && b.attempts == |b.accepted| + |b.refused|
    && b.dropped == |b.refused| % UINT32_LIMIT
    && forall d :: d in b.delivered ==> d.receivers <= b.handlers
  }

  /** The last delivery is in progress: of its event, and to the first i handlers so far. */
  ghost predicate InProgress(b: Bus, done: seq<Delivery>, event: Event, i: nat) {
    i <= |b.handlers| && b.delivered == done + [Delivery(event, b.handlers[..i])]
  }

  /** History only grows, and handlers only join at the end. */
  ghost predicate Grows(b0: Bus, b1: Bus) {
    && b0.handlers <= b1.handlers && b0.accepted <= b1.accepted && b0.refused <= b1.refused
  }

  ghost predicate Extends(b0: Bus, b1: Bus) {
    Grows(b0, b1) && b0.delivered <= b1.delivered
  }

  /** What is queued of an event: its kind, its value and the first 23 characters of its
      source. */
  lemma FitKeeps(event: Event)
    ensures var fit := Fit(event);
      && fit.kind == event.kind && fit.value == event.value
      && |fit.source| == (if |event.source| <= 23 then |event.source| else 23)
      && forall k :: 0 <= k < |fit.source| ==> fit.source[k] == event.source[k]
  {
  }

  lemma EmptyLedger()
    ensures Ledger(EMPTY_BUS)
  {
    assert EventsOf([]) == [];
  }

  lemma SubscribeKeeps(b: Bus, handler: Handler)
    requires Ledger(b)
    ensures Ledger(AfterSubscribe(b, handler)) && Extends(b, AfterSubscribe(b, handler))
    ensures handler != 0 && |b.handlers| < MAX_HANDLERS ==> handler in AfterSubscribe(b, handler).handlers
  {
    var b' := AfterSubscribe(b, handler);
    if b' != b {
      assert b'.handlers[|b.handlers|] == handler;
    }
  }

  lemma PostKeeps(b: Bus, event: Event)
    requires Ledger(b)
    ensures Ledger(AfterPost(b, event)) && Extends(b, AfterPost(b, event))
    ensures |b.pending| < QUEUE_SIZE ==> AfterPost(b, event).accepted == b.accepted + [Fit(event)]
    ensures |b.pending| == QUEUE_SIZE ==> AfterPost(b, event).refused == b.refused + [Fit(event)]
  {
    if |b.pending| < QUEUE_SIZE {
      assert EventsOf(b.delivered) + (b.pending + [Fit(event)]) == (EventsOf(b.delivered) + b.pending) + [Fit(event)];
    }
  }

  lemma {:induction false} CallsKeeps(b: Bus, calls: seq<Call>)
    requires Ledger(b)
    ensures Ledger(AfterCalls(b, calls)) && Extends(b, AfterCalls(b, calls))
    ensures AfterCalls(b, calls).delivered == b.delivered
  {
    if calls != [] {
      CallsKeeps(b, calls[..|calls| - 1]);
      var mid := AfterCalls(b, calls[..|calls| - 1]);
      match calls[|calls| - 1]
      case PostCall(event) => PostKeeps(mid, event);
      case SubscribeCall(handler) => SubscribeKeeps(mid, handler);
    }
  }

  /** The oldest accepted event not yet delivered is the one whose delivery begins. */
  lemma BeginKeeps(b: Bus)
    requires Ledger(b) && b.pending != []
    ensures Ledger(Begun(b)) && Extends(b, Begun(b)) && InProgress(Begun(b), b.delivered, b.pending[0], 0)
    ensures |b.delivered| < |b.accepted| && b.accepted[|b.delivered|] == b.pending[0]
  {
    EventsAppend(b.delivered, Delivery(b.pending[0], []));
    assert EventsOf(b.delivered) + b.pending == EventsOf(b.delivered) + [b.pending[0]] + b.pending[1..];
    assert |EventsOf(b.delivered)| == |b.delivered|;
  }

  /** Invoking the next handler in line keeps the ledger and moves the delivery on by one. */
  lemma InvokeKeeps(b: Bus, done: seq<Delivery>, event: Event, i: nat)
    requires Ledger(b) && InProgress(b, done, event, i) && i < |b.handlers|
    ensures var b' := Invoked(b, b.handlers[i]);
      Ledger(b') && Grows(b, b') && InProgress(b', done, event, i + 1) && b'.handlers == b.handlers
  {
    var b' := Invoked(b, b.handlers[i]);
    assert b.delivered[..|b.delivered| - 1] == done;
    assert b.handlers[..i] + [b.handlers[i]] == b.handlers[..i + 1];
    EventsAppend(done, Delivery(event, b.handlers[..i]));
    EventsAppend(done, Delivery(event, b.handlers[..i + 1]));
  }

  /** Calls made while a delivery is in progress leave it where it is. */
  lemma CallsKeepProgress(b: Bus, done: seq<Delivery>, event: Event, i: nat, calls: seq<Call>)
    requires Ledger(b) && InProgress(b, done, event, i)
    ensures var b' := AfterCalls(b, calls); Ledger(b') && Grows(b, b') && InProgress(b', done, event, i)
  {
    CallsKeeps(b, calls);
    assert AfterCalls(b, calls).handlers[..i] == b.handlers[..i];
  }

  /** Whatever the handlers do, the delivery ends once every handler subscribed by then has
      been invoked for it exactly once, in subscription order. */
  lemma {:induction false} DeliverKeeps(b: Bus, done: seq<Delivery>, event: Event, i: nat, n: nat, script: Script)
    requires Ledger(b) && InProgress(b, done, event, i)
    ensures var b' := AfterDeliver(b, i, n, script).bus;
      Ledger(b') && Grows(b, b') && b'.delivered == done + [Delivery(event, b'.handlers)]
    decreases MAX_HANDLERS - i
  {
    if i < |b.handlers| {
      var invoked := Invoked(b, b.handlers[i]);
      InvokeKeeps(b, done, event, i);
      CallsKeepProgress(invoked, done, event, i + 1, CallsOf(script, n));
      DeliverKeeps(AfterCalls(invoked, CallsOf(script, n)), done, event, i + 1, n + 1, script);
    } else {
      assert b.handlers[..i] == b.handlers;
    }
  }

  /** One event taken and handled: it is the oldest accepted event not yet delivered. */
  lemma NextIsOldest(t: Turn, script: Script)
    requires Ledger(t.bus) && t.bus.pending != []
    ensures var b, b1 := t.bus, AfterNext(t, script).bus;
      && Ledger(b1) && Extends(b, b1)
      && b1.delivered == b.delivered + [Delivery(b.pending[0], b1.handlers)]
      && |b.delivered| < |b1.accepted| && b1.accepted[|b.delivered|] == b.pending[0]
  {
    BeginKeeps(t.bus);
    DeliverKeeps(Begun(t.bus), t.bus.delivered, t.bus.pending[0], 0, t.calls, script);
  }

  /** A delivery of `b'` that happened since `b`. */
  ghost predicate InOrder(b: Bus, b': Bus, k: nat)
    requires k < |b'.delivered| && k < |b'.accepted|
  {
    && b'.delivered[k].event == b'.accepted[k]
    && b.handlers <= b'.delivered[k].receivers <= b'.handlers
    && Distinct(b'.delivered[k].receivers)
  }

  /** From b to b' at most `max` events were taken, and fewer only because the queue ran
      empty; the events delivered are the oldest accepted ones in order, each exactly once;
      every delivery reached all handlers subscribed by its end, in subscription order and
      without repetition; nothing accepted is lost, and attempts are accounted for. */
  ghost predicate Fifo(b: Bus, b': Bus, max: nat) {
    && Ledger(b') && Extends(b, b')
    && |b'.delivered| <= |b'.accepted|
    && |b'.delivered| - |b.delivered| <= max
    && (|b'.delivered| - |b.delivered| < max ==> b'.pending == [])
    && (forall k :: |b.delivered| <= k < |b'.delivered| ==> InOrder(b, b', k))
  }

  lemma FifoStep(b: Bus, b1: Bus, b': Bus, max: nat)
    requires Fifo(b, b1, max) && b1.pending != [] && Ledger(b') && Extends(b1, b')
    requires b'.delivered == b1.delivered + [Delivery(b1.pending[0], b'.handlers)]
    requires |b1.delivered| < |b'.accepted| && b'.accepted[|b1.delivered|] == b1.pending[0]
    ensures Fifo(b, b', max + 1)
  {
    forall k | |b.delivered| <= k < |b'.delivered|
      ensures InOrder(b, b', k)
    {
      if k < |b1.delivered| {
        assert InOrder(b, b1, k);
        assert b'.delivered[k] == b1.delivered[k] && b'.accepted[k] == b1.accepted[k];
      }
    }
  }

  lemma FifoStarts(b: Bus)
    requires Ledger(b)
    ensures Fifo(b, b, 0)
  {
    assert |b.accepted| == |EventsOf(b.delivered)| + |b.pending|;
  }

  lemma FifoExtends(b: Bus, t: Turn, max: nat, script: Script)
    requires max > 0 && Fifo(b, t.bus, max - 1)
    ensures Fifo(b, AfterNext(t, script).bus, max)
  {
    if t.bus.pending != [] {
      NextIsOldest(t, script);
      FifoStep(b, t.bus, AfterNext(t, script).bus, max - 1);
    }
  }

  /** EventBus refines a bounded FIFO, whatever the handlers post or subscribe while they
      run, and `process` terminates within `max` deliveries. */
  lemma {:induction false} ProcessIsFifo(b: Bus, max: nat, script: Script)
    requires Ledger(b)
    ensures Fifo(b, AfterProcess(b, max, script).bus, max)
    decreases max
  {
    if max == 0 {
      FifoStarts(b);
    } else {
      ProcessIsFifo(b, max - 1, script);
      var t := AfterProcess(b, max - 1, script);
      FifoExtends(b, t, max, script);
      assert AfterProcess(b, max, script) == AfterNext(t, script);
    }
  }

  // ---- The class -------------------------------------------------------------

  const NO_EVENT := Event(0, "", 0)

  /** The ring position `i % QUEUE_SIZE` of an index less than two turns in. */
  function Slot(i: nat): (j: nat)
    requires i < 2 * QUEUE_SIZE
    ensures j < QUEUE_SIZE && j == i % QUEUE_SIZE
  {
    if i < QUEUE_SIZE then i else i - QUEUE_SIZE
  }

  class EventBus {
    const queue: array<Event>
    const slots: array<Handler>
    var head: nat
    var tail: nat
    var count: nat
    var handlerCount: nat
    var dropped: nat
    ghost var delivered: seq<Delivery>
    ghost var accepted: seq<Event>
    ghost var attempts: nat
    ghost var refused: seq<Event>

    ghost predicate Valid()
      reads this
    {
      && queue.Length == QUEUE_SIZE && slots.Length == MAX_HANDLERS
      && head < QUEUE_SIZE && count <= QUEUE_SIZE
      && tail == Slot(head + count)
      && handlerCount <= MAX_HANDLERS
    }

    /** The ring as a sequence, oldest event first. */
    ghost function Pending(): (s: seq<Event>)
      requires Valid()
      reads this, queue
      ensures |s| == count
      ensures forall i :: 0 <= i < count ==> s[i] == queue[Slot(head + i)]
    {
      if head + count <= QUEUE_SIZE then queue[head..head + count]
      else queue[head..] + queue[..head + count - QUEUE_SIZE]
    }

    ghost function Snapshot(): (b: Bus)
      requires Valid()
      reads this, queue, slots
      ensures Bounded(b)
    {
      Bus(Pending(), slots[..handlerCount], dropped, delivered, accepted, attempts, refused)
    }

    constructor ()
      ensures Valid() && Snapshot() == EMPTY_BUS
      ensures fresh(queue) && fresh(slots)
    {
      queue := new Event[QUEUE_SIZE](_ => NO_EVENT);
      slots := new Handler[MAX_HANDLERS](_ => 0);
      head, tail, count, handlerCount, dropped := 0, 0, 0, 0, 0;
      delivered, accepted, attempts, refused := [], [], 0, [];
    }

    method Subscribe(handler: Handler) returns (ok: bool)
      requires Valid()
      modifies this`handlerCount, slots
      ensures Valid() && Snapshot() == AfterSubscribe(old(Snapshot()), handler)
      ensures ok <==> handler in Snapshot().handlers && handler != 0 && (old(handlerCount) < MAX_HANDLERS)
    {
      if handler == 0 || handlerCount >= MAX_HANDLERS {
        return false;
      }
      for i := 0 to handlerCount
        invariant forall k :: 0 <= k < i ==> slots[k] != handler
      {
        if slots[i] == handler {
          return true;
        }
      }
      slots[handlerCount] := handler;
      handlerCount := handlerCount + 1;
      assert Snapshot().handlers[handlerCount - 1] == handler;
      return true;
    }

    /** The event goes into the slot at the tail, which moves on by one. */
    method Append(event: Event)
      requires Valid() && count < QUEUE_SIZE
      modifies this`tail, this`count, queue
      ensures Valid() && Pending() == old(Pending()) + [event]
    {
      ghost var before := Pending();
      queue[tail] := event;
      tail := Slot(tail + 1);
      count := count + 1;
      assert forall i :: 0 <= i < |before| ==> Pending()[i] == before[i];
    }

    method Post(event: Event) returns (ok: bool)
      requires Valid()
      modifies this`tail, this`count, this`dropped, this`accepted, this`attempts, this`refused, queue
      ensures Valid() && Snapshot() == AfterPost(old(Snapshot()), event)
      ensures ok <==> old(count) < QUEUE_SIZE
    {
      attempts := attempts + 1;
      if count >= QUEUE_SIZE {
        dropped := Inc32(dropped);
        refused := refused + [Fit(event)];
        return false;
      }
      var fitted := Fit(event);
      accepted := accepted + [fitted];
      Append(fitted);
      return true;
    }

    /** The event in the slot at the head is taken, and its delivery begins. */
    method Take() returns (event: Event)
      requires Valid() && count > 0
      modifies this`head, this`count, this`delivered
      ensures Valid() && event == old(Snapshot()).pending[0]
      ensures Snapshot() == Begun(old(Snapshot()))
    {
      event := queue[head];
      head := Slot(head + 1);
      count := count - 1;
      delivered := delivered + [Delivery(event, [])];
      assert Pending() == old(Pending())[1..];
    }

    /** A handler is invoked for the delivery in progress. */
    ghost method Note(handler: Handler)
      requires Valid()
      modifies this`delivered
      ensures Valid() && Snapshot() == Invoked(old(Snapshot()), handler)
    {
      if delivered != [] {
        var last := |delivered| - 1;
        delivered := delivered[..last] + [Delivery(delivered[last].event, delivered[last].receivers + [handler])];
      }
    }

    /** The call of one handler, which makes some calls of its own. */
    method Invoke(handler: Handler, calls: seq<Call>)
      requires Valid()
      modifies this, queue, slots
      ensures Valid() && Snapshot() == AfterCalls(Invoked(old(Snapshot()), handler), calls)
      ensures |delivered| == |old(delivered)|
    {
      Note(handler);
      React(calls);
    }

    /** The body of a handler, as the bus calls it makes. */
    method React(calls: seq<Call>)
      requires Valid()
      modifies this, queue, slots
      ensures Valid() && Snapshot() == AfterCalls(old(Snapshot()), calls)
      ensures delivered == old(delivered)
    {
      for i := 0 to |calls|
        invariant Valid() && Snapshot() == AfterCalls(old(Snapshot()), calls[..i])
        invariant delivered == old(delivered)
      {
        assert calls[..i + 1][..i] == calls[..i];
        match calls[i]
        case PostCall(event) => var _ := Post(event);
        case SubscribeCall(handler) => var _ := Subscribe(handler);
      }
      assert calls[..|calls|] == calls;
    }

    method Process(max: nat, script: Script) returns (processed: nat)
      requires Valid()
      modifies this, queue, slots
      ensures Valid()
      ensures Snapshot() == AfterProcess(old(Snapshot()), max, script).bus
      ensures processed == |delivered| - |old(delivered)|
    {
      processed := 0;
      var n := 0;
      while count > 0 && processed < max
        invariant Valid() && processed <= max && processed == |delivered| - |old(delivered)|
        invariant Turn(Snapshot(), n) == AfterProcess(old(Snapshot()), processed, script)
        decreases max - processed
      {
        var event := Take();
        n := Dispatch(n, script);
        processed := processed + 1;
      }
      if processed < max {
        NothingLeft(old(Snapshot()), processed, max, script);
      }
    }

    /** Every handler in turn, those subscribed meanwhile included. */
    method Dispatch(first: nat, script: Script) returns (n: nat)
      requires Valid()
      modifies this, queue, slots
      ensures Valid()
      ensures Turn(Snapshot(), n) == AfterDeliver(old(Snapshot()), 0, first, script)
      ensures |delivered| == |old(delivered)|
    {
      n := first;
      var i := 0;
      ghost var whole := AfterDeliver(Snapshot(), 0, first, script);
      while i < handlerCount
        invariant Valid() && i <= handlerCount
        invariant whole == AfterDeliver(Snapshot(), i, n, script)
        invariant |delivered| == |old(delivered)|
        decreases MAX_HANDLERS - i
      {
        NextHandler(Snapshot(), i, n, script);
        CallsKeepHandlers(Invoked(Snapshot(), slots[i]), CallsOf(script, n));
        Invoke(slots[i], CallsOf(script, n));
        i, n := i + 1, n + 1;
      }
      LastHandler(Snapshot(), i, n, script);
    }
  }

  lemma NextHandler(b: Bus, i: nat, n: nat, script: Script)
    requires i < |b.handlers| <= MAX_HANDLERS
    ensures AfterDeliver(b, i, n, script)
         == AfterDeliver(AfterCalls(Invoked(b, b.handlers[i]), CallsOf(script, n)), i + 1, n + 1, script)
  {
  }

  lemma LastHandler(b: Bus, i: nat, n: nat, script: Script)
    requires |b.handlers| <= i
    ensures AfterDeliver(b, i, n, script) == Turn(b, n)
  {
  }

  lemma {:induction false} CallsKeepHandlers(b: Bus, calls: seq<Call>)
    ensures b.handlers <= AfterCalls(b, calls).handlers
  {
    if calls != [] {
      CallsKeepHandlers(b, calls[..|calls| - 1]);
    }
  }
}
