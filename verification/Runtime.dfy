/**
 The runtime as one transition system: fibers (fiber.cpp), asynchronous contexts
 (primitives.h), the wait fields of network handles (handles.h, primitives_tcp.cpp,
 primitives_udp.cpp), the completion queue (main.cpp) and shared handle ownership.

 Fibers, contexts and handles are named by numbers that are never reused, and the maps
 below hold the ones that exist; `delete` removes an entry.  Following a pointer to an
 entry that is gone, or a null one, is `Crash`.
 */
module Runtime {
  import opened Prelude
  import opened Results
  import Own = Ownership
  import CQ = CompletionQueue

  type FiberId = nat
  type CtxId = nat
  type OpId = nat
  type Ref = Own.Ref

  /** The fiber made by Fiber::init; it runs the event loop. */
  const MAIN: FiberId := 0

  datatype FiberState = NEW | RUNNING | SUSPENDED | DONE

  /** `awaiting` is the operation whose primitive is on top of the fiber's stack. */
  datatype Fiber = Fiber(state: FiberState, resumeValue: Value, awaiting: Option<OpId>)

  /** AsyncContext; `server` is AcceptContext::server_handle, a raw pointer. */
  datatype Ctx = Ctx(fiber: FiberId, op: OpId, kind: OpKind, raw: Raw, server: Option<Ref>)

  datatype Op = Op(fiber: FiberId, kind: OpKind, id: Own.Id, handle: Option<Ref>)

  /** What happened so far; never read by a step, only by the theorems. */
  datatype History = History(
    ops: seq<Op>,                            // every operation ever started
    serving: map<OpId, CtxId>,               // the context allocated for it
    outcome: map<OpId, Raw>,                 // what libuv answered
    minted: map<OpId, Own.Id>,               // the store id its result created
    issued: map<FiberId, seq<OpId>>,         // per fiber, operations in start order
    received: map<FiberId, seq<Value>>,      // per fiber, values its yields returned
    life: map<FiberId, seq<FiberState>>,     // per fiber, the states it went through
    joined: map<Ref, seq<FiberId>>,          // per server, fibers ever pushed on accept_queue
    served: map<Ref, seq<FiberId>>,          // per server, fibers popped by connections
    wire: map<Ref, seq<Byte>>,               // per socket, bytes libuv delivered
    completed: seq<OpId>,                    // operations in completion order
    resumed: seq<OpId>,                      // operations in resume order
    freedFibers: seq<FiberId>,
    freedCtxs: seq<CtxId>,
    abandoned: set<Ref>)                     // listeners freed by id while still open

  datatype State = State(
    fibers: map<FiberId, Fiber>,             // existing fibers other than main
    current: FiberId,                        // Fiber::current_fiber_
    ctxs: map<CtxId, Ctx>,
    nextCtx: CtxId,
    inflight: set<CtxId>,                    // contexts a libuv request points to
    pending: map<Ref, CtxId>,                // pending_read, where it is not null
    accept: map<Ref, seq<FiberId>>,          // accept_queue
    reading: set<Ref>,                       // handles libuv is reading for
    closing: set<Ref>,                       // handles given to uv_close
    listening: set<Ref>,                     // handles given to uv_listen
    active: Option<CtxId>,                   // the drain's async_context, between pop and delete
    q: CQ.Queue,
    heap: Own.Heap,
    hist: History)

  const INIT := State(
    map[], MAIN, map[], 0, {}, map[], map[], {}, {}, {}, None, CQ.EMPTY, Own.EMPTY,
    History([], map[], map[], map[], map[], map[], map[], map[], map[], map[], [], [], [], [], {}))

  datatype Outcome = Next(s: State) | Crash

  datatype Label =
    // the running script
    | FiberRun(f: FiberId)
    | Start(kind: OpKind, id: Own.Id, ready: bool)
    | Return
    | Finish
    | Create(handle: Own.Kind)
    | Listen
    | CreateTls(net: Own.Id)
    | Hold(held: Own.Id, want: Own.Kind, slot: nat)
    | LetGo(slot: nat)
    | Close(closed: Own.Id, of: Own.Kind)
    | Free(freed: Own.Id)
    // libuv callbacks and the threads they run on
    | OnComplete(t: CQ.Thread, c: CtxId, raw: Raw)
    | OnRead(t: CQ.Thread, h: Ref, raw: Raw)
    | OnConnection(t: CQ.Thread, h: Ref, status: int)
    | Send(t: CQ.Thread)
    // OnFibersToResume
    | Enter
    | Swap
    | ResumeNext(accepted: bool)
    | Delete
    | Leave

  // ---------------------------------------------------------------- helpers

  function Waiters(s: State, h: Ref): seq<FiberId> {
    if h in s.accept then s.accept[h] else []
  }

  function Log<T>(m: map<nat, seq<T>>, k: nat): seq<T> {
    if k in m then m[k] else []
  }

  function Append<T>(m: map<nat, seq<T>>, k: nat, x: T): map<nat, seq<T>> {
    m[k := Log(m, k) + [x]]
  }

  /** JavaScript is running: on a fiber outside any primitive, or on main outside the loop. */
  predicate ScriptRunning(s: State) {
    if s.current == MAIN then s.q.phase == CQ.Idle
    else s.current in s.fibers ==> s.fibers[s.current].awaiting == None
  }

  predicate OnFiber(s: State) {
    s.current != MAIN
  }

  /** libuv reports a count of bytes it stored, or an error and no bytes. */
  predicate RawFits(raw: Raw) {
    if raw.code >= 0 then |raw.bytes| == raw.code else raw.bytes == []
  }

  // ---------------------------------------------------------------- scripts

  /** Fiber_Run (fiber.cpp:182-187): a new fiber is resumed at once. */
  function FiberRunStep(s: State, f: FiberId): Outcome {
    Next(s.(fibers := s.fibers[f := Fiber(RUNNING, Undefined, None)],
            current := f,
            hist := s.hist.(issued := s.hist.issued[f := []],
                            received := s.hist.received[f := []],
                            life := s.hist.life[f := [NEW, RUNNING]])))
  }

  /** Fiber::yield (fiber.cpp:118-123) under an operation just recorded. */
  function Yield(s: State, op: Op): State
    requires s.current in s.fibers
  {
    var f, o := s.current, |s.hist.ops|;
    s.(fibers := s.fibers[f := s.fibers[f].(state := SUSPENDED, awaiting := Some(o))],
       current := MAIN,
       hist := s.hist.(ops := s.hist.ops + [op],
                       issued := Append(s.hist.issued, f, o),
                       life := Append(s.hist.life, f, SUSPENDED)))
  }

  /** new XContext(Fiber::get_current(), ...) */
  function Allocate(s: State, kind: OpKind): State {
    var c, o := s.nextCtx, |s.hist.ops|;
    s.(ctxs := s.ctxs[c := Ctx(s.current, o, kind, NO_RESULT, None)],
       nextCtx := c + 1,
       hist := s.hist.(serving := s.hist.serving[o := c]))
  }

  /** The primitive's local shared_ptr, alive on the stack across the yield. */
  function Pin(s: State, handle: Option<Ref>): Own.Heap {
    if handle.Some? then Own.Copy(s.heap, Own.FramePtr(s.current, 0), handle.value) else s.heap
  }

  /** A primitive whose request libuv carries: write, poll, fs, connect, sleep, dns. */
  function BeginRequest(s: State, op: Op): State
    requires s.current in s.fibers
  {
    var s1 := Allocate(s.(heap := Pin(s, op.handle)), op.kind);
    Yield(s1.(inflight := s1.inflight + {s.nextCtx}), op)
  }

  /** TCP_Read and UDP_Read past their checks. */
  function BeginRead(s: State, op: Op, h: Ref): State
    requires s.current in s.fibers
  {
    var s1 := Allocate(s.(heap := Pin(s, Some(h))), op.kind);
    Yield(s1.(pending := s1.pending[h := s.nextCtx],
              reading := if h in s1.closing then s1.reading else s1.reading + {h}), op)
  }

  /** TCP_Accept past its check: the queue holds the fiber, no context exists yet. */
  function BeginAccept(s: State, op: Op, h: Ref): State
    requires s.current in s.fibers
  {
    var s1 := s.(heap := Pin(s, Some(h)));
    Yield(s1.(accept := s1.accept[h := Waiters(s1, h) + [s.current]],
              hist := s1.hist.(joined := Append(s1.hist.joined, h, s.current))), op)
  }

  /** An asynchronous primitive; a failed check throws and leaves no trace. */
  function StartStep(s: State, kind: OpKind, id: Own.Id): Outcome {
    if s.current !in s.fibers then Crash
    else match Target(kind)
      case None => Next(BeginRequest(s, Op(s.current, kind, id, None)))
      case Some(want) =>
        match Own.Get(s.heap, id, want)
        case None => Next(s)
        case Some(h) =>
          var op := Op(s.current, kind, id, Some(h));
          if IsRead(kind) then
            if h in s.pending then Next(s) else Next(BeginRead(s, op, h))
          else if kind == TcpAccept then Next(BeginAccept(s, op, h))
          else Next(BeginRequest(s, op))
  }

  /** The primitive's locals go; FS_Close removes its id from the store first. */
  function Unwind(h: Own.Heap, f: FiberId, op: Op): Own.Heap {
    var h1 := if op.kind == FsClose then Own.Remove(h, op.id) else h;
    if op.handle.Some? then Own.Drop(h1, Own.FramePtr(f, 0)) else h1
  }

  /** The part of a primitive after its yield: read resume_value, unwind the locals. */
  function ReturnStep(s: State): Outcome {
    var f := s.current;
    if f !in s.fibers || s.fibers[f].awaiting == None
       || s.fibers[f].awaiting.value >= |s.hist.ops| then Crash
    else
      var op := s.hist.ops[s.fibers[f].awaiting.value];
      Next(s.(fibers := s.fibers[f := s.fibers[f].(awaiting := None)],
              heap := Unwind(s.heap, f, op),
              hist := s.hist.(received := Append(s.hist.received, f, s.fibers[f].resumeValue))))
  }

  /** Fiber::run sets DONE; Fiber::resume then deletes the fiber (fiber.cpp:128-132). */
  function FinishStep(s: State): Outcome {
    var f := s.current;
    if f !in s.fibers then Crash
    else Next(s.(fibers := s.fibers - {f},
                 current := MAIN,
                 hist := s.hist.(life := Append(s.hist.life, f, DONE),
                                 freedFibers := s.hist.freedFibers + [f])))
  }

  function CreateTlsStep(s: State, net: Own.Id): Outcome {
    match Own.Get(s.heap, net, Own.NetK)
    case None => Next(s)
    case Some(r) => Next(s.(heap := Own.AddTls(s.heap, r)))
  }

  /** Outer primitive locals, such as `sock` in TLS_Read, kept across nested polls. */
  function HoldStep(s: State, id: Own.Id, want: Own.Kind, slot: nat): Outcome {
    match Own.Get(s.heap, id, want)
    case None => Next(s)
    case Some(r) => Next(s.(heap := Own.Copy(s.heap, Own.FramePtr(s.current, slot), r)))
  }

  /**
   TCP_Poll throws when it gets no descriptor, DNS_Resolve for an unknown record type or a
   request that cannot start; neither leaves a trace.
   */
  predicate MayDecline(kind: OpKind) {
    kind == TcpPoll || kind == DnsResolve
  }

  /** `ready` is what those two primitives find out before they yield. */
  function TryStart(s: State, kind: OpKind, id: Own.Id, ready: bool): Outcome {
    match StartStep(s, kind, id)
    case Crash => Crash
    case Next(s') => Next(if MayDecline(kind) && !ready then s else s')
  }

  /** TCP_Listen (primitives_tcp.cpp:167-182): libuv keeps the new handle's address. */
  function ListenStep(s: State): Outcome {
    Next(s.(heap := Own.Add(s.heap, Own.NetK), listening := s.listening + {s.heap.nextRef}))
  }

  /** libuv will report connections to `h`. */
  predicate Open(s: State, h: Ref) {
    h in s.listening && h !in s.closing
  }

  /** The open listener that a store id names, if it names one; a script can tell. */
  function OpenListener(s: State, id: Own.Id): Option<Ref> {
    var p := Own.StorePtr(id);
    if p in s.heap.ptrs && Open(s, s.heap.ptrs[p]) then Some(s.heap.ptrs[p]) else None
  }

  /** HANDLES_Free (handles.cpp:35-38) removes the id and closes nothing. */
  function FreeStep(s: State, id: Own.Id): Outcome {
    var named := OpenListener(s, id);
    Next(s.(heap := Own.Remove(s.heap, id),
            hist := s.hist.(abandoned := s.hist.abandoned + if named == None then {} else {named.value})))
  }

  /** TCP_Close, UDP_Close and FS_DirClose. */
  function CloseStep(s: State, id: Own.Id, kind: Own.Kind): Outcome {
    match Own.Get(s.heap, id, kind)
    case None => Next(s)
    case Some(r) =>
      var s1 := if kind == Own.DirectoryK then s
                else s.(closing := s.closing + {r}, reading := s.reading - {r});
      Next(s1.(heap := Own.Remove(s1.heap, id)))
  }

  // ---------------------------------------------------------------- callbacks

  /** context->result = ...; QueueFiberToResume(context), up to the mutex release. */
  function Complete(s: State, t: CQ.Thread, c: CtxId, raw: Raw): State
    requires c in s.ctxs && t !in s.q.sending
  {
    var x := s.ctxs[c];
    s.(ctxs := s.ctxs[c := x.(raw := raw)],
       q := CQ.Apply(s.q, CQ.Push(t, c)),
       hist := s.hist.(outcome := s.hist.outcome[x.op := raw],
                       completed := s.hist.completed + [x.op]))
  }

  /** OnWrite, OnPoll, OnConnect, OnSend, OnFSCallback, OnSleepTimer, OnDNSCallback. */
  function OnCompleteStep(s: State, t: CQ.Thread, c: CtxId, raw: Raw): Outcome
    requires t !in s.q.sending
  {
    if c !in s.ctxs then Crash
    else Next(Complete(s.(inflight := s.inflight - {c}), t, c, raw))
  }

  /** OnAlloc then OnRead, or OnRecvAlloc then OnRecv. */
  function OnReadStep(s: State, t: CQ.Thread, h: Ref, raw: Raw): Outcome
    requires t !in s.q.sending
  {
    if h !in s.heap.objs || h !in s.pending || s.pending[h] !in s.ctxs then Crash
    else
      var s1 := s.(reading := s.reading - {h}, pending := s.pending - {h},
                   hist := s.hist.(wire := s.hist.wire[h := Log(s.hist.wire, h) + raw.bytes]));
      Next(Complete(s1, t, s.pending[h], raw))
  }

  /** accept_queue.pop, then new AcceptContext(fiber, server_handle). */
  function Admit(s: State, h: Ref, f: FiberId, o: OpId): State
    requires Waiters(s, h) != []
  {
    var c := s.nextCtx;
    s.(accept := s.accept[h := Waiters(s, h)[1..]],
       ctxs := s.ctxs[c := Ctx(f, o, TcpAccept, NO_RESULT, Some(h))],
       nextCtx := c + 1,
       hist := s.hist.(serving := s.hist.serving[o := c],
                       served := Append(s.hist.served, h, f)))
  }

  /** OnUvConnection: nobody waiting means nothing happens. */
  function OnConnectionStep(s: State, t: CQ.Thread, h: Ref, status: int): Outcome
    requires t !in s.q.sending
  {
    if h !in s.heap.objs then Crash
    else if Waiters(s, h) == [] then Next(s)
    else
      var f := Waiters(s, h)[0];
      if f !in s.fibers || s.fibers[f].awaiting == None then Crash
      else Next(Complete(Admit(s, h, f, s.fibers[f].awaiting.value), t, s.nextCtx, Raw(status, [], "")))
  }

  // ---------------------------------------------------------------- the drain

  /** The value for a context, after any HandleStore::Add its construction performs. */
  function Build(s: State, x: Ctx, accepted: bool): (State, Value) {
    match CreateResultValue(x.kind, x.raw, accepted)
    case Ready(v) => (s, v)
    case NewHandle(k) =>
      (s.(heap := Own.Add(s.heap, k), hist := s.hist.(minted := s.hist.minted[x.op := s.heap.nextId])),
       BigInt(s.heap.nextId))
  }

  /** Pop, CreateResultValue, resume_value.Reset, Fiber::resume (main.cpp:56-67). */
  function ResumeNextStep(s: State, accepted: bool): Outcome
    requires s.q.phase == CQ.Draining && s.q.local != []
  {
    var c := s.q.local[0];
    if c !in s.ctxs then Crash
    else
      var x := s.ctxs[c];
      if x.fiber !in s.fibers || s.fibers[x.fiber].state != SUSPENDED then Crash
      else if x.kind == TcpAccept && x.raw.code >= 0
              && (x.server == None || x.server.value !in s.heap.objs) then Crash
      else
        var (s1, v) := Build(s, x, accepted);
        Next(s1.(fibers := s1.fibers[x.fiber := s1.fibers[x.fiber].(state := RUNNING, resumeValue := v)],
                 current := x.fiber,
                 active := Some(c),
                 q := CQ.Apply(s.q, CQ.Pop),
                 hist := s1.hist.(life := Append(s1.hist.life, x.fiber, RUNNING),
                                  resumed := s1.hist.resumed + [x.op])))
  }

  /** delete async_context, once Fiber::resume has returned. */
  function DeleteStep(s: State): Outcome {
    if s.active == None || s.active.value !in s.ctxs then Crash
    else Next(s.(ctxs := s.ctxs - {s.active.value}, active := None,
                 hist := s.hist.(freedCtxs := s.hist.freedCtxs + [s.active.value])))
  }

  // ---------------------------------------------------------------- the system

  /** When a step can be taken: program order, plus what libuv promises. */
  predicate Enabled(s: State, l: Label) {
    match l
    case FiberRun(f) => s.current == MAIN && s.q.phase == CQ.Idle && f != MAIN && f !in s.hist.life
    case Start(_, _, _) => OnFiber(s) && ScriptRunning(s)
    case Return => OnFiber(s) && (s.current in s.fibers ==> s.fibers[s.current].awaiting != None)
    case Finish =>
      OnFiber(s) && ScriptRunning(s) && forall p :: p in s.heap.ptrs && p.FramePtr? ==> p.fiber != s.current
    case Create(k) => ScriptRunning(s) && k != Own.TlsK
    case Listen => ScriptRunning(s)
    case CreateTls(_) => ScriptRunning(s)
    case Hold(_, _, slot) => OnFiber(s) && ScriptRunning(s) && slot > 0 && Own.FramePtr(s.current, slot) !in s.heap.ptrs
    case LetGo(slot) => OnFiber(s) && ScriptRunning(s) && slot > 0 && Own.FramePtr(s.current, slot) in s.heap.ptrs
    case Close(_, k) => ScriptRunning(s) && k in {Own.NetK, Own.UdpK, Own.DirectoryK}
    case Free(_) => ScriptRunning(s)
    case OnComplete(t, c, _) => t !in s.q.sending && c in s.inflight
    case OnRead(t, h, raw) => t !in s.q.sending && h in s.reading && RawFits(raw)
    case OnConnection(t, h, _) => t !in s.q.sending && Open(s, h)
    case Send(t) => CQ.Enabled(s.q, CQ.Send(t))
    case Enter => s.current == MAIN && CQ.Enabled(s.q, CQ.Enter)
    case Swap => s.current == MAIN && CQ.Enabled(s.q, CQ.Swap)
    case ResumeNext(_) => s.current == MAIN && s.active == None && CQ.Enabled(s.q, CQ.Pop)
    case Delete => s.current == MAIN && s.active != None
    case Leave => s.current == MAIN && s.active == None && CQ.Enabled(s.q, CQ.Leave)
  }

  function Apply(s: State, l: Label): Outcome
    requires Enabled(s, l)
  {
    match l
    case FiberRun(f) => FiberRunStep(s, f)
    case Start(k, id, ready) => TryStart(s, k, id, ready)
    case Return => ReturnStep(s)
    case Finish => FinishStep(s)
    case Create(k) => Next(s.(heap := Own.Add(s.heap, k)))
    case Listen => ListenStep(s)
    case CreateTls(net) => CreateTlsStep(s, net)
    case Hold(id, want, slot) => HoldStep(s, id, want, slot)
    case LetGo(slot) => Next(s.(heap := Own.Drop(s.heap, Own.FramePtr(s.current, slot))))
    case Close(id, k) => CloseStep(s, id, k)
    case Free(id) => FreeStep(s, id)
    case OnComplete(t, c, raw) => OnCompleteStep(s, t, c, raw)
    case OnRead(t, h, raw) => OnReadStep(s, t, h, raw)
    case OnConnection(t, h, status) => OnConnectionStep(s, t, h, status)
    case Send(t) => Next(s.(q := CQ.Apply(s.q, CQ.Send(t))))
    case Enter => Next(s.(q := CQ.Apply(s.q, CQ.Enter)))
    case Swap => Next(s.(q := CQ.Apply(s.q, CQ.Swap)))
    case ResumeNext(accepted) => ResumeNextStep(s, accepted)
    case Delete => DeleteStep(s)
    case Leave => Next(s.(q := CQ.Apply(s.q, CQ.Leave)))
  }

  /** Taking the labels one by one; None when one of them was not enabled. */
  function Exec(s: State, ls: seq<Label>): Option<Outcome>
    decreases ls
  {
    if ls == [] then Some(Next(s))
    else if !Enabled(s, ls[0]) then None
    else match Apply(s, ls[0])
      case Crash => Some(Crash)
      case Next(s') => Exec(s', ls[1..])
  }
}
