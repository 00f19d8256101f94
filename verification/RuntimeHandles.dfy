/**
 What primitives do to handles and fibers: which type of handle each one takes, where its
 caller then waits, and who owns what after a handle is made, wrapped, closed or freed.
 */
module RuntimeHandles {
  import opened Prelude
  import opened Results
  import opened Runtime
  import opened RuntimeInvariant
  import opened RuntimeSafety
  import opened RuntimeHistory
  import opened RuntimeOrder
  import opened RuntimeAnswers
  import opened RuntimeListeners
  import opened RuntimeTheorems
  import Own = Ownership
  import CQ = CompletionQueue

  // ---------------------------------------------------------------- starting an operation

  /** The handle a script means by `id`. */
  function Named(h: Own.Heap, id: Own.Id): Option<Ref> {
    var p := Own.StorePtr(id);
    if p in h.ptrs && h.ptrs[p] in h.objs then Some(h.ptrs[p]) else None
  }

  predicate NamesA(h: Own.Heap, id: Own.Id, kind: Own.Kind) {
    Named(h, id) != None && h.objs[Named(h, id).value].kind == kind
  }

  /** Whether a primitive gets past its checks. */
  predicate Starts(s: State, kind: OpKind, id: Own.Id, ready: bool) {
    match kind
    case Sleep | FsOpen | FsScandir | FsUnlink | FsMkdir | FsRmdir | TcpConnect => true
    case DnsResolve => ready
    case FsRead | FsWrite | FsStat | FsSync | FsDataSync | FsClose => NamesA(s.heap, id, Own.FileK)
    case TcpAccept | TcpWrite(_) => NamesA(s.heap, id, Own.NetK)
    case TcpPoll => ready && NamesA(s.heap, id, Own.NetK)
    case TcpRead => NamesA(s.heap, id, Own.NetK) && Named(s.heap, id).value !in s.pending
    case UdpSend => NamesA(s.heap, id, Own.UdpK)
    case UdpRecv => NamesA(s.heap, id, Own.UdpK) && Named(s.heap, id).value !in s.pending
  }

  /** The primitives whose first argument is a handle. */
  predicate TakesHandle(kind: OpKind) {
    !(kind in {Sleep, FsOpen, FsScandir, FsUnlink, FsMkdir, FsRmdir, TcpConnect, DnsResolve})
  }

  /**
   The current fiber is suspended in exactly this operation, keeps its handle alive, and waits
   in libuv, on the handle, or in the accept queue; nothing else has changed.
   */
  ghost predicate Begun(s: State, op: Op, s': State)
    requires s.current in s.fibers
  {
    var f, o, c := s.current, |s.hist.ops|, s.nextCtx;
    && s'.hist.ops == s.hist.ops + [op] && s'.hist.issued == Append(s.hist.issued, f, o)
    && s'.current == MAIN
    && s'.fibers == s.fibers[f := Fiber(SUSPENDED, s.fibers[f].resumeValue, Some(o))]
    && s'.heap.ptrs == (if op.handle == None then s.heap.ptrs else s.heap.ptrs[Own.FramePtr(f, 0) := op.handle.value])
    && s'.heap.nextId == s.heap.nextId && s'.heap.nextRef == s.heap.nextRef
    && s'.q == s.q && s'.active == s.active && s'.closing == s.closing && s'.listening == s.listening
    && s'.hist.outcome == s.hist.outcome && s'.hist.minted == s.hist.minted && s'.hist.received == s.hist.received
    && s'.hist.resumed == s.hist.resumed && s'.hist.completed == s.hist.completed && s'.hist.wire == s.hist.wire
    && (if op.kind == TcpAccept && op.handle != None then
          && s'.accept == s.accept[op.handle.value := Waiters(s, op.handle.value) + [f]]
          && s'.ctxs == s.ctxs && s'.nextCtx == c && s'.inflight == s.inflight && s'.pending == s.pending
        else
          && s'.accept == s.accept
          && s'.ctxs == s.ctxs[c := Ctx(f, o, op.kind, NO_RESULT, None)] && s'.nextCtx == c + 1
          && if (op.kind == TcpRead || op.kind == UdpRecv) && op.handle != None then
               s'.pending == s.pending[op.handle.value := c] && s'.inflight == s.inflight
             else s'.pending == s.pending && s'.inflight == s.inflight + {c})
  }

  lemma RequestBegins(s: State, op: Op)
    requires s.current in s.fibers && op.kind != TcpAccept && op.kind != TcpRead && op.kind != UdpRecv
    requires op.handle != None ==> op.handle.value in s.heap.objs
    ensures Begun(s, op, BeginRequest(s, op))
  {
    hide Append;
  }

  lemma ReadBegins(s: State, op: Op, h: Ref)
    requires s.current in s.fibers && h in s.heap.objs
    requires (op.kind == TcpRead || op.kind == UdpRecv) && op.handle == Some(h)
    ensures Begun(s, op, BeginRead(s, op, h))
  {
    hide Append;
  }

  lemma AcceptBegins(s: State, op: Op, h: Ref)
    requires s.current in s.fibers && op.kind == TcpAccept && op.handle == Some(h) && h in s.heap.objs
    ensures Begun(s, op, BeginAccept(s, op, h))
  {
    hide Append;
  }

  lemma GetIsNamed(h: Own.Heap, id: Own.Id, kind: Own.Kind)
    ensures Own.Get(h, id, kind) == if NamesA(h, id, kind) then Named(h, id) else None
  {
  }

  /**
   A primitive starts exactly when its id names a handle of the type it takes and its other
   checks pass; then the operation on record names that very handle, and its fiber waits for it.
   Otherwise nothing at all has changed.
   */
  lemma StartsIff(s: State, kind: OpKind, id: Own.Id, ready: bool)
    requires Reachable(s) && Enabled(s, Start(kind, id, ready))
    ensures s.current in s.fibers && Apply(s, Start(kind, id, ready)).Next?
    ensures var s' := Apply(s, Start(kind, id, ready)).s;
            if Starts(s, kind, id, ready) then
              Begun(s, Op(s.current, kind, id, if TakesHandle(kind) then Named(s.heap, id) else None), s')
            else s' == s
  {
    hide Reachable, Inv, Core, StartStep, Begun;
    ReachableHasInv(s);
    InvCore(s);
    ControlIsSound(s);
    StepKeeps(s, Start(kind, id, ready));
    StartBegins(s, kind, id, ready);
  }

  lemma StartBegins(s: State, kind: OpKind, id: Own.Id, ready: bool)
    requires s.current in s.fibers && TryStart(s, kind, id, ready).Next?
    ensures var s' := TryStart(s, kind, id, ready).s;
            if Starts(s, kind, id, ready) then
              Begun(s, Op(s.current, kind, id, if TakesHandle(kind) then Named(s.heap, id) else None), s')
            else s' == s
  {
    hide Begun, BeginRequest, BeginRead, BeginAccept, Own.Get, Named;
    GetIsNamed(s.heap, id, Own.FileK);
    GetIsNamed(s.heap, id, Own.NetK);
    GetIsNamed(s.heap, id, Own.UdpK);
    NamedExists(s.heap, id);
    var op := Op(s.current, kind, id, if TakesHandle(kind) then Named(s.heap, id) else None);
    if Starts(s, kind, id, ready) {
      if kind == TcpAccept {
        AcceptBegins(s, op, op.handle.value);
      } else if kind == TcpRead || kind == UdpRecv {
        ReadBegins(s, op, op.handle.value);
      } else {
        RequestBegins(s, op);
      }
    }
  }

  lemma NamedExists(h: Own.Heap, id: Own.Id)
    ensures Named(h, id) != None ==> Named(h, id).value in h.objs
  {
  }

  // ---------------------------------------------------------------- making handles

  /** A new handle of this kind, alone under a new id; every other handle, id and owner is as before. */
  ghost predicate Made(h: Own.Heap, kind: Own.Kind, h': Own.Heap) {
    var id, r := h.nextId, h.nextRef;
    && r !in h.objs && Own.StorePtr(id) !in h.ptrs
    && Own.StorePtr(id) in h'.ptrs && h'.ptrs[Own.StorePtr(id)] == r
    && r in h'.objs && h'.objs[r].kind == kind && h'.objs[r].id == id
    && Own.StorePtr(id) in Own.Owners(h', r)
    && h'.nextId == id + 1 && h'.nextRef == r + 1 && h'.objs.Keys == h.objs.Keys + {r}
    && (forall x :: x in h.objs ==> h'.objs[x].kind == h.objs[x].kind && h'.objs[x].id == h.objs[x].id)
    && (forall i: Own.Id :: i != id ==>
         (Own.StorePtr(i) in h'.ptrs <==> Own.StorePtr(i) in h.ptrs)
         && (Own.StorePtr(i) in h.ptrs ==> h'.ptrs[Own.StorePtr(i)] == h.ptrs[Own.StorePtr(i)]))
  }

  lemma AddMakes(h: Own.Heap, kind: Own.Kind)
    requires Own.Inv(h)
    ensures Made(h, kind, Own.Add(h, kind)) && Own.Owners(Own.Add(h, kind), h.nextRef) == {Own.StorePtr(h.nextId)}
    ensures forall x :: x in h.objs ==> Own.Owners(Own.Add(h, kind), x) == Own.Owners(h, x)
  {
    assert h.nextRef !in h.objs && Own.StorePtr(h.nextId) !in h.ptrs;
    var h' := Own.Add(h, kind);
    assert forall p :: p in Own.Owners(h', h.nextRef) <==> p == Own.StorePtr(h.nextId);
    forall x | x in h.objs
      ensures Own.Owners(h', x) == Own.Owners(h, x)
    {
      assert x != h.nextRef;
    }
  }

  /** UDP_Create, TLS and key primitives: a new handle, owned by the store alone. */
  lemma CreateMakes(s: State, kind: Own.Kind)
    requires Reachable(s) && Enabled(s, Create(kind))
    ensures Apply(s, Create(kind)).Next?
    ensures var s', r := Apply(s, Create(kind)).s, s.heap.nextRef;
            && Made(s.heap, kind, s'.heap) && Own.Owners(s'.heap, r) == {Own.StorePtr(s.heap.nextId)}
            && s' == s.(heap := s'.heap)
            && forall x :: x in s.heap.objs ==> Own.Owners(s'.heap, x) == Own.Owners(s.heap, x)
  {
    hide Reachable, Inv, Core, Own.Inv, Made, Own.Add;
    ReachableHasInv(s);
    InvCore(s);
    HeapIsSound(s);
    AddMakes(s.heap, kind);
  }

  /** TCP_Listen: a new socket, owned by the store alone, that libuv reports connections to. */
  lemma ListenMakes(s: State)
    requires Reachable(s) && Enabled(s, Listen)
    ensures Apply(s, Listen).Next?
    ensures var s', r := Apply(s, Listen).s, s.heap.nextRef;
            && Made(s.heap, Own.NetK, s'.heap) && Own.Owners(s'.heap, r) == {Own.StorePtr(s.heap.nextId)}
            && r !in s.listening && s'.listening == s.listening + {r} && r !in s'.closing
            && OpenListener(s', s.heap.nextId) == Some(r)
            && s' == s.(heap := s'.heap, listening := s'.listening)
            && forall x :: x in s.heap.objs ==> Own.Owners(s'.heap, x) == Own.Owners(s.heap, x)
  {
    hide Reachable, Inv, Core, Own.Inv, ListenersOk;
    ReachableHasInv(s);
    InvCore(s);
    InvListeners(s);
    NewListener(s);
    NewIsNoListener(s);
    hide Own.Add;
    AddMakes(s.heap, Own.NetK);
  }

  lemma NewIsNoListener(s: State)
    requires ListenersOk(s)
    ensures s.heap.nextRef !in s.listening
  {
    assert ListenerOk(s, s.heap.nextRef);
  }

  /**
   A TLSHandle: its new id resolves to it, the store is its only owner, and it is one more
   owner of the socket it was built on.  Nothing else has changed owners.
   */
  lemma CreateTlsMakes(s: State, net: Own.Id)
    requires Reachable(s) && Enabled(s, CreateTls(net))
    ensures Apply(s, CreateTls(net)).Next?
    ensures var s', t := Apply(s, CreateTls(net)).s, s.heap.nextRef;
            if NamesA(s.heap, net, Own.NetK) then
              var r := Named(s.heap, net).value;
              && Made(s.heap, Own.TlsK, s'.heap) && s' == s.(heap := s'.heap)
              && Own.TlsPtr(t) !in Own.Owners(s.heap, r)
              && Own.Owners(s'.heap, r) == Own.Owners(s.heap, r) + {Own.TlsPtr(t)}
              && Own.Owners(s'.heap, t) == {Own.StorePtr(s.heap.nextId)}
              && forall x :: x in s.heap.objs && x != r ==> Own.Owners(s'.heap, x) == Own.Owners(s.heap, x)
            else s' == s
  {
    hide Reachable, Inv, Core, Own.Inv, Own.Get, Made, Own.AddTls;
    ReachableHasInv(s);
    InvCore(s);
    HeapIsSound(s);
    GetIsNamed(s.heap, net, Own.NetK);
    if NamesA(s.heap, net, Own.NetK) {
      AddTlsMakes(s.heap, Named(s.heap, net).value);
    }
  }

  lemma AddTlsMakes(h: Own.Heap, r: Ref)
    requires Own.Inv(h) && r in h.objs
    ensures var h', t := Own.AddTls(h, r), h.nextRef;
            && Made(h, Own.TlsK, h') && Own.TlsPtr(t) !in Own.Owners(h, r)
            && Own.Owners(h', r) == Own.Owners(h, r) + {Own.TlsPtr(t)}
            && Own.Owners(h', t) == {Own.StorePtr(h.nextId)}
            && forall x :: x in h.objs && x != r ==> Own.Owners(h', x) == Own.Owners(h, x)
  {
    var h1, p := Own.Add(h, Own.TlsK), Own.TlsPtr(h.nextRef);
    AddMakes(h, Own.TlsK);
    NewIsUnowned(h);
    hide Own.Add, Own.Inv;
    CopyOwns(h1, p, r);
    hide Own.Copy;
    assert Made(h, Own.TlsK, Own.Copy(h1, p, r));
  }

  lemma NewIsUnowned(h: Own.Heap)
    requires Own.Inv(h)
    ensures h.nextRef !in h.objs
    ensures Own.TlsPtr(h.nextRef) !in h.ptrs && Own.TlsPtr(h.nextRef) !in Own.Add(h, Own.TlsK).ptrs
  {
  }

  lemma CopyOwns(h: Own.Heap, p: Own.Pointer, r: Ref)
    requires r in h.objs && p !in h.ptrs
    ensures var h' := Own.Copy(h, p, r);
            && h'.ptrs == h.ptrs[p := r] && h'.objs.Keys == h.objs.Keys
            && h'.nextId == h.nextId && h'.nextRef == h.nextRef
            && (forall x :: x in h.objs ==> h'.objs[x].kind == h.objs[x].kind && h'.objs[x].id == h.objs[x].id)
            && Own.Owners(h', r) == Own.Owners(h, r) + {p}
            && forall x :: x != r ==> Own.Owners(h', x) == Own.Owners(h, x)
  {
  }

  /** As long as a TLSHandle exists, so does its socket, whatever ids are closed or freed meanwhile. */
  lemma TlsKeepsItsSocket(s: State, net: Own.Id, ls: seq<Label>)
    requires Reachable(s) && Enabled(s, CreateTls(net)) && NamesA(s.heap, net, Own.NetK)
    requires Exec(s, [CreateTls(net)] + ls) != None && Exec(s, [CreateTls(net)] + ls).value.Next?
    ensures var s', t, r := Exec(s, [CreateTls(net)] + ls).value.s, s.heap.nextRef, Named(s.heap, net).value;
            t in s'.heap.objs ==>
              && r in s'.heap.objs && s'.heap.objs[r].kind == Own.NetK
              && Own.TlsPtr(t) in s'.heap.ptrs && s'.heap.ptrs[Own.TlsPtr(t)] == r
  {
    var l, t, r := CreateTls(net), s.heap.nextRef, Named(s.heap, net).value;
    var s1 := Apply(s, l).s;
    CreateTlsMakes(s, net);
    assert Own.TlsPtr(t) in Own.Owners(s1.heap, r) && t < s1.heap.nextRef;
    assert t in s1.heap.objs && s1.heap.objs[t].kind == Own.TlsK;
    hide Reachable, Inv, Core, Apply, Enabled, Exec, Own.Inv, Made, Named;
    ReachableExtends(s, l);
    ReachableHasInv(s1);
    InvCore(s1);
    ExecCons(s, l, ls);
    IdsAreNeverReused(s1, ls);
    RunsKeepInv(s1, ls);
    var s' := Exec(s1, ls).value.s;
    InvCore(s');
    HeapIsSound(s');
    TlsOwnsSocket(s1.heap, s'.heap, t, r);
  }

  lemma TlsOwnsSocket(h: Own.Heap, h': Own.Heap, t: Ref, r: Ref)
    requires Own.Inv(h') && Own.Later(h, h') && t < h.nextRef
    requires Own.TlsPtr(t) in h.ptrs && h.ptrs[Own.TlsPtr(t)] == r && t in h.objs && h.objs[t].kind == Own.TlsK
    ensures t in h'.objs ==>
              && r in h'.objs && h'.objs[r].kind == Own.NetK
              && Own.TlsPtr(t) in h'.ptrs && h'.ptrs[Own.TlsPtr(t)] == r
  {
  }

  // ---------------------------------------------------------------- letting go of handles

  /** One pointer is gone, and with it, if it was the last one, what a TLSHandle owned. */
  ghost predicate Lost(h: Own.Heap, p: Own.Pointer, h': Own.Heap)
    requires p in h.ptrs
  {
    var r := h.ptrs[p];
    && h'.ptrs == h.ptrs - (if Own.Owners(h, r) == {p} then {p, Own.TlsPtr(r)} else {p})
    && h'.nextId == h.nextId && h'.nextRef == h.nextRef
    && (forall x :: x in h.objs ==> (x in h'.objs <==> !Own.Dies(h, p, x)))
    && (forall x :: x in h'.objs ==>
         x in h.objs && h'.objs[x].kind == h.objs[x].kind && h'.objs[x].id == h.objs[x].id)
  }

  lemma DropLosesIt(h: Own.Heap, p: Own.Pointer)
    requires Own.Inv(h) && p in h.ptrs && !p.TlsPtr?
    ensures Lost(h, p, Own.Drop(h, p))
  {
    Own.DropEffect(h, p);
    hide Own.Drop, Own.Inv, Own.Dies;
    forall x | x in h.objs
      ensures x in Own.Drop(h, p).objs <==> !Own.Dies(h, p, x)
    {
      Own.DestroyedExactlyWithLastOwner(h, p, x);
    }
  }

  /** HANDLES_Free drops the store's pointer, if the id is there, and closes nothing. */
  lemma FreeLoses(s: State, id: Own.Id)
    requires Reachable(s) && Enabled(s, Free(id))
    ensures Apply(s, Free(id)).Next?
    ensures var s' := Apply(s, Free(id)).s;
            && s' == s.(heap := s'.heap, hist := s.hist.(abandoned := s'.hist.abandoned))
            && if Own.StorePtr(id) in s.heap.ptrs then Lost(s.heap, Own.StorePtr(id), s'.heap)
               else s'.heap == s.heap
  {
    hide Reachable, Inv, Core, Own.Inv, Lost, Own.Drop, OpenListener;
    ReachableHasInv(s);
    InvCore(s);
    HeapIsSound(s);
    if Own.StorePtr(id) in s.heap.ptrs {
      DropLosesIt(s.heap, Own.StorePtr(id));
    }
  }

  /** TCP_Close, UDP_Close, FS_DirClose: a handle of that type is closed and unstored, or nothing happens. */
  lemma CloseLoses(s: State, id: Own.Id, kind: Own.Kind)
    requires Reachable(s) && Enabled(s, Close(id, kind))
    ensures Apply(s, Close(id, kind)).Next?
    ensures var s' := Apply(s, Close(id, kind)).s;
            if NamesA(s.heap, id, kind) then
              var r := Named(s.heap, id).value;
              var closes := kind != Own.DirectoryK;
              && Own.StorePtr(id) in s.heap.ptrs && Lost(s.heap, Own.StorePtr(id), s'.heap)
              && s'.closing == s.closing + (if closes then {r} else {})
              && s'.reading == s.reading - (if closes then {r} else {})
              && s' == s.(heap := s'.heap, closing := s'.closing, reading := s'.reading)
            else s' == s
  {
    hide Reachable, Inv, Core, Own.Inv, Lost, Own.Drop, Own.Get;
    ReachableHasInv(s);
    InvCore(s);
    HeapIsSound(s);
    GetIsNamed(s.heap, id, kind);
    if NamesA(s.heap, id, kind) {
      DropLosesIt(s.heap, Own.StorePtr(id));
    }
  }

  /** A primitive's local copy goes. */
  lemma LetGoLoses(s: State, slot: nat)
    requires Reachable(s) && Enabled(s, LetGo(slot))
    ensures Apply(s, LetGo(slot)).Next? && Own.FramePtr(s.current, slot) in s.heap.ptrs
    ensures var s' := Apply(s, LetGo(slot)).s;
            s' == s.(heap := s'.heap) && Lost(s.heap, Own.FramePtr(s.current, slot), s'.heap)
  {
    hide Reachable, Inv, Core, Own.Inv, Lost, Own.Drop;
    ReachableHasInv(s);
    InvCore(s);
    HeapIsSound(s);
    DropLosesIt(s.heap, Own.FramePtr(s.current, slot));
  }

  /**
   A primitive returns: its fiber receives the value it was resumed with and runs on, its own
   pointer to the handle is gone, FS_Close has taken its id out of the store, and no other id
   and no other pointer on any stack is touched.
   */
  lemma ReturnUnwinds(s: State)
    requires Reachable(s) && Enabled(s, Return)
    ensures Apply(s, Return).Next? && s.current in s.fibers && s.fibers[s.current].awaiting != None
    ensures s.fibers[s.current].awaiting.value < |s.hist.ops|
    ensures var s', f, op := Apply(s, Return).s, s.current, s.hist.ops[s.fibers[s.current].awaiting.value];
            && s'.fibers == s.fibers[f := s.fibers[f].(awaiting := None)]
            && s'.hist == s.hist.(received := Append(s.hist.received, f, s.fibers[f].resumeValue))
            && s' == s.(fibers := s'.fibers, heap := s'.heap, hist := s'.hist)
            && (forall g: FiberId, i: nat :: var p := Own.FramePtr(g, i);
                 (p in s'.heap.ptrs <==> p in s.heap.ptrs && (g, i) != (f, 0))
                 && (p in s'.heap.ptrs ==> s'.heap.ptrs[p] == s.heap.ptrs[p]))
            && (forall i: Own.Id :: var p := Own.StorePtr(i);
                 (p in s'.heap.ptrs <==> p in s.heap.ptrs && !(op.kind == FsClose && i == op.id))
                 && (p in s'.heap.ptrs ==> s'.heap.ptrs[p] == s.heap.ptrs[p]))
  {
    hide Reachable, Inv, Core, FibersOk, CtxsOk, FramesOk, Own.Inv, Unwind;
    ReachableHasInv(s);
    InvCore(s);
    HeapIsSound(s);
    ControlIsSound(s);
    CoreFrames(s);
    AwaitedIsOwn(s, s.current);
    ReturnHeap(s);
    UnwindsStore(s);
    ReturnStepMoves(s);
    ReturnMoves(s);
  }

  lemma CoreFrames(s: State)
    requires Core(s)
    ensures FibersOk(s) && FramesOk(s)
  {
    hide FibersOk, FramesOk, CtxsOk, WaitsOk, AcceptOk, PlacesOk, OnceQueued, ReadingOk, Own.Inv, CQ.Inv;
  }

  lemma UnwindsStore(s: State)
    requires FibersOk(s) && FramesOk(s) && Own.Inv(s.heap) && ReturnStep(s).Next?
    ensures var h', op := ReturnStep(s).s.heap, s.hist.ops[s.fibers[s.current].awaiting.value];
            forall i: Own.Id :: var p := Own.StorePtr(i);
              (p in h'.ptrs <==> p in s.heap.ptrs && !(op.kind == FsClose && i == op.id))
              && (p in h'.ptrs ==> h'.ptrs[p] == s.heap.ptrs[p])
  {
    var op := s.hist.ops[s.fibers[s.current].awaiting.value];
    assert Own.FramePtr(s.current, 0) in s.heap.ptrs <==> op.handle != None;
    hide FibersOk, FramesOk, Own.Inv, Unwind;
    UnwindKeepsStore(s.heap, s.current, op);
  }

  lemma UnwindKeepsStore(h: Own.Heap, f: FiberId, op: Op)
    requires Own.Inv(h) && (op.handle != None <==> Own.FramePtr(f, 0) in h.ptrs)
    ensures var h' := Unwind(h, f, op);
            forall i: Own.Id :: var p := Own.StorePtr(i);
              (p in h'.ptrs <==> p in h.ptrs && !(op.kind == FsClose && i == op.id))
              && (p in h'.ptrs ==> h'.ptrs[p] == h.ptrs[p])
  {
    var h1 := if op.kind == FsClose then Own.Remove(h, op.id) else h;
    Own.RemoveShrinks(h, op.id);
    hide Own.Inv, Own.Remove, Own.Drop;
    if op.handle != None {
      Own.DropEffect(h1, Own.FramePtr(f, 0));
    }
  }

  /** An outer primitive's own copy of a handle's pointer is one more owner, while it is there. */
  lemma HoldOwns(s: State, id: Own.Id, want: Own.Kind, slot: nat)
    requires Reachable(s) && Enabled(s, Hold(id, want, slot))
    ensures Apply(s, Hold(id, want, slot)).Next?
    ensures var s', p := Apply(s, Hold(id, want, slot)).s, Own.FramePtr(s.current, slot);
            if NamesA(s.heap, id, want) then
              var r := Named(s.heap, id).value;
              && s' == s.(heap := s'.heap) && s'.heap.ptrs == s.heap.ptrs[p := r]
              && s'.heap.nextId == s.heap.nextId && s'.heap.nextRef == s.heap.nextRef
              && p !in Own.Owners(s.heap, r) && Own.Owners(s'.heap, r) == Own.Owners(s.heap, r) + {p}
              && forall x :: x != r ==> Own.Owners(s'.heap, x) == Own.Owners(s.heap, x)
            else s' == s
  {
    hide Reachable, Own.Get, Own.Copy;
    GetIsNamed(s.heap, id, want);
    if NamesA(s.heap, id, want) {
      CopyOwns(s.heap, Own.FramePtr(s.current, slot), Named(s.heap, id).value);
    }
  }
}
