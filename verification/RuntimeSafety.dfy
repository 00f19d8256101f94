/** The invariant holds in every run, so no run ever follows a dangling or null pointer. */
module RuntimeSafety {
  import opened Prelude
  import opened Results
  import opened Runtime
  import opened RuntimeInvariant
  import Own = Ownership
  import CQ = CompletionQueue

  /** A connection to a listener that libuv knows and nobody owns any more. */
  predicate MeetsOrphan(s: State, l: Label) {
    l.OnConnection? && l.h !in s.heap.objs
  }

  /** The step crashes exactly when it meets an orphaned listener, and otherwise keeps the invariant. */
  ghost predicate Kept(s: State, l: Label)
    requires Enabled(s, l)
  {
    && (Apply(s, l) == Crash <==> MeetsOrphan(s, l))
    && (Apply(s, l).Next? ==> Core(Apply(s, l).s))
  }

  /** The handle of every fiber inside a primitive exists: its own stack owns it. */
  lemma PinnedHandleExists(s: State, f: FiberId)
    requires FramesOk(s) && Own.Inv(s.heap)
    requires f in s.fibers && s.fibers[f].awaiting != None
    requires s.fibers[f].awaiting.value < |s.hist.ops|
    requires s.hist.ops[s.fibers[f].awaiting.value].handle != None
    ensures s.hist.ops[s.fibers[f].awaiting.value].handle.value in s.heap.objs
  {
  }

  lemma PendingHandleExists(s: State, h: Ref)
    requires CtxsOk(s) && PlacesOk(s) && FramesOk(s) && Own.Inv(s.heap) && h in s.pending
    ensures h in s.heap.objs
  {
    var c := s.pending[h];
    assert Waiting(s, s.ctxs[c].fiber, s.ctxs[c].op);
    PinnedHandleExists(s, s.ctxs[c].fiber);
  }

  lemma HeapStepKeeps(s: State, h: Own.Heap)
    requires Core(s)
    requires Own.SameFrames(s.heap, h) && Own.StoreMoved(s.heap, h) && Own.Inv(h)
    ensures Core(s.(heap := h))
  {
    hide FibersOk, CtxsOk, WaitsOk, AcceptOk, PlacesOk, OnceQueued, ReadingOk, FramesOk, Own.Inv;
    HeapFrame(s, h);
    ReadingHeapFrame(s, h);
    FramesHeapFrame(s, h);
  }

  // ---------------------------------------------------------------- scripts

  lemma FiberRunKeeps(s: State, f: FiberId)
    requires Core(s) && s.current == MAIN && s.q.phase == CQ.Idle && f != MAIN && f !in s.hist.life
    ensures FiberRunStep(s, f).Next? && Core(FiberRunStep(s, f).s)
  {
    hide FibersOk, CtxsOk, WaitsOk, AcceptOk, PlacesOk, FramesOk, Own.Inv, Distinct;
    FiberRunKeepsFibers(s, f);
    FiberRunKeepsContexts(s, f);
    FiberRunKeepsPlaces(s, f);
  }

  /** The pin taken by a primitive. */
  lemma PinKeeps(s: State, handle: Option<Ref>)
    requires ReadingOk(s) && FramesOk(s) && Own.Inv(s.heap)
    requires s.current in s.fibers && s.fibers[s.current].awaiting == None
    requires handle != None ==> handle.value in s.heap.objs
    ensures Own.Inv(Pin(s, handle)) && ReadingOk(s.(heap := Pin(s, handle)))
  {
    if handle != None {
      Own.CopyKeepsInv(s.heap, Own.FramePtr(s.current, 0), handle.value);
    }
  }

  lemma BeginRequestKeeps(s: State, op: Op)
    requires Core(s) && CanBegin(s, op) && !IsRead(op.kind) && op.kind != TcpAccept
    ensures Core(BeginRequest(s, op))
  {
    hide FibersOk, CtxsOk, WaitsOk, AcceptOk, PlacesOk, FramesOk, Own.Inv, Distinct, Pin;
    if s.active != None {
      ActiveExists(s);
    }
    BeginRequestKeepsFibers(s, op);
    BeginRequestKeepsFrames(s, op);
    BeginRequestKeepsContexts(s, op);
    BeginRequestKeepsWaits(s, op);
    BeginRequestKeepsPlaces(s, op);
    PinKeeps(s, op.handle);
  }

  lemma BeginReadKeeps(s: State, op: Op, h: Ref)
    requires Core(s) && CanBegin(s, op) && IsRead(op.kind) && op.handle == Some(h) && h !in s.pending
    ensures Core(BeginRead(s, op, h))
  {
    hide FibersOk, CtxsOk, WaitsOk, AcceptOk, PlacesOk, FramesOk, Own.Inv, Distinct, Pin;
    if s.active != None {
      ActiveExists(s);
    }
    BeginReadKeepsFibers(s, op, h);
    BeginReadKeepsFrames(s, op, h);
    BeginReadKeepsContexts(s, op, h);
    BeginReadKeepsWaits(s, op, h);
    BeginReadKeepsPlaces(s, op, h);
    PinKeeps(s, op.handle);
  }

  lemma BeginAcceptKeeps(s: State, op: Op, h: Ref)
    requires Core(s) && CanBegin(s, op) && op.kind == TcpAccept && op.handle == Some(h)
    ensures Core(BeginAccept(s, op, h))
  {
    hide FibersOk, CtxsOk, WaitsOk, AcceptOk, PlacesOk, FramesOk, Own.Inv, Distinct, Pin;
    BeginAcceptKeepsFibers(s, op, h);
    BeginAcceptKeepsAccept(s, op, h);
    BeginAcceptKeepsContexts(s, op, h);
    BeginAcceptKeepsWaits(s, op, h);
    BeginAcceptKeepsPlaces(s, op, h);
    PinKeeps(s, op.handle);
  }

  lemma GetFinds(h: Own.Heap, id: Own.Id, kind: Own.Kind)
    requires Own.Get(h, id, kind) != None
    ensures var r := Own.Get(h, id, kind).value; r in h.objs && h.objs[r].kind == kind
  {
  }

  lemma StartKeeps(s: State, kind: OpKind, id: Own.Id)
    requires Core(s) && s.current != MAIN && ScriptRunning(s)
    ensures StartStep(s, kind, id).Next? && Core(StartStep(s, kind, id).s)
  {
    hide Core, FibersOk, CtxsOk, WaitsOk, AcceptOk, PlacesOk, FramesOk, Own.Inv, Own.Get, BeginRequest;
    hide BeginRead, BeginAccept;
    assert FibersOk(s) by {
      CoreFibers(s);
    }
    OnFiberExists(s);
    match Target(kind)
    case None => BeginRequestKeeps(s, Op(s.current, kind, id, None));
    case Some(want) =>
      var g := Own.Get(s.heap, id, want);
      if g != None {
        GetFinds(s.heap, id, want);
        var op := Op(s.current, kind, id, g);
        if IsRead(kind) {
          if g.value !in s.pending {
            BeginReadKeeps(s, op, g.value);
          }
        } else if kind == TcpAccept {
          BeginAcceptKeeps(s, op, g.value);
        } else {
          BeginRequestKeeps(s, op);
        }
      }
  }

  lemma CoreFibers(s: State)
    requires Core(s)
    ensures FibersOk(s)
  {
  }

  /** The heap after a primitive's locals are gone: one stack pointer less, fewer store entries. */
  lemma UnwindEffect(h: Own.Heap, f: FiberId, op: Op)
    requires Own.Inv(h) && (op.handle != None <==> Own.FramePtr(f, 0) in h.ptrs)
    ensures var h' := Unwind(h, f, op);
            && Own.Inv(h') && Own.StoreMoved(h, h')
            && (forall g: nat, i: nat :: Own.FramePtr(g, i) in h'.ptrs <==>
                 Own.FramePtr(g, i) in h.ptrs && (g, i) != (f, 0))
            && (forall g: nat, i: nat :: Own.FramePtr(g, i) in h'.ptrs ==>
                 h'.ptrs[Own.FramePtr(g, i)] == h.ptrs[Own.FramePtr(g, i)])
  {
    var h1 := if op.kind == FsClose then Own.Remove(h, op.id) else h;
    var p := Own.FramePtr(f, 0);
    hide Own.Inv, Own.Remove, Own.Drop, Own.StoreMoved;
    Own.RemoveKeepsInv(h, op.id);
    Own.RemoveMoves(h, op.id);
    StoreStands(h);
    if op.handle != None {
      Own.DropKeepsInv(h1, p);
      Own.DropEffect(h1, p);
      StoreShrinks(h, h1, Own.Drop(h1, p));
    }
  }

  lemma StoreStands(h: Own.Heap)
    ensures Own.StoreMoved(h, h)
  {
  }

  lemma StoreShrinks(h: Own.Heap, h1: Own.Heap, h2: Own.Heap)
    requires Own.StoreMoved(h, h1) && h2.nextRef == h1.nextRef
    requires forall p :: p in h2.ptrs ==> p in h1.ptrs && h2.ptrs[p] == h1.ptrs[p]
    ensures Own.StoreMoved(h, h2)
  {
  }

  lemma ReturnHeap(s: State)
    requires s.current in s.fibers && s.fibers[s.current].awaiting != None
    requires FibersOk(s) && FramesOk(s) && Own.Inv(s.heap)
    ensures ReturnStep(s).Next?
    ensures var s' := ReturnStep(s).s;
            && Own.Inv(s'.heap) && Own.StoreMoved(s.heap, s'.heap)
            && (forall f: nat, i: nat :: Own.FramePtr(f, i) in s'.heap.ptrs <==>
                 Own.FramePtr(f, i) in s.heap.ptrs && (f, i) != (s.current, 0))
            && (forall f: nat, i: nat :: Own.FramePtr(f, i) in s'.heap.ptrs ==>
                 s'.heap.ptrs[Own.FramePtr(f, i)] == s.heap.ptrs[Own.FramePtr(f, i)])
  {
    var op := s.hist.ops[s.fibers[s.current].awaiting.value];
    assert Own.FramePtr(s.current, 0) in s.heap.ptrs <==> op.handle != None;
    hide FramesOk, Own.Inv, Unwind;
    UnwindEffect(s.heap, s.current, op);
  }

  lemma ReturnKeepsFrames(s: State)
    requires s.current in s.fibers && s.fibers[s.current].awaiting != None
    requires FibersOk(s) && FramesOk(s) && Own.Inv(s.heap)
    ensures ReturnStep(s).Next? && FramesOk(ReturnStep(s).s)
  {
    ReturnHeap(s);
    hide Own.Inv, Unwind;
  }

  lemma ReturnKeeps(s: State)
    requires Core(s) && s.current in s.fibers && s.fibers[s.current].awaiting != None
    ensures ReturnStep(s).Next? && Core(ReturnStep(s).s)
  {
    hide FibersOk, CtxsOk, WaitsOk, AcceptOk, PlacesOk, FramesOk, Own.Inv, Distinct, Unwind;
    ReturnKeepsFibers(s);
    ReturnKeepsContexts(s);
    ReturnKeepsWaits(s);
    ReturnHeap(s);
    ReturnKeepsFrames(s);
    PlacesFrame(s, ReturnStep(s).s);
    ReadingHeapFrame(s, ReturnStep(s).s.heap);
  }

  lemma FinishKeeps(s: State)
    requires Core(s) && s.current in s.fibers
    requires forall p :: p in s.heap.ptrs && p.FramePtr? ==> p.fiber != s.current
    ensures FinishStep(s).Next? && Core(FinishStep(s).s)
  {
    hide FibersOk, CtxsOk, WaitsOk, AcceptOk, PlacesOk, FramesOk, Own.Inv, Distinct;
    FinishKeepsFibers(s);
    FinishKeepsContexts(s);
    FinishKeepsPlaces(s);
  }

  /** A change to the stack pointers of outer frames only. */
  lemma OuterFrameKeeps(s: State, h: Own.Heap)
    requires Core(s) && s.current in s.fibers && Own.Inv(h) && Own.StoreMoved(s.heap, h)
    requires forall f: nat, i: nat :: i == 0 || f != s.current ==>
               (Own.FramePtr(f, i) in h.ptrs <==> Own.FramePtr(f, i) in s.heap.ptrs)
               && (Own.FramePtr(f, i) in h.ptrs ==> h.ptrs[Own.FramePtr(f, i)] == s.heap.ptrs[Own.FramePtr(f, i)])
    ensures Core(s.(heap := h))
  {
    hide FibersOk, CtxsOk, WaitsOk, AcceptOk, PlacesOk, ReadingOk, Own.Inv, Own.StoreMoved, Distinct;
    assert FramesOk(s.(heap := h));
    hide FramesOk;
    HeapFrame(s, h);
    ReadingHeapFrame(s, h);
  }

  lemma HoldKeeps(s: State, id: Own.Id, want: Own.Kind, slot: nat)
    requires Core(s) && s.current in s.fibers && slot > 0 && Own.FramePtr(s.current, slot) !in s.heap.ptrs
    ensures HoldStep(s, id, want, slot).Next? && Core(HoldStep(s, id, want, slot).s)
  {
    hide FibersOk, CtxsOk, WaitsOk, AcceptOk, PlacesOk, FramesOk, ReadingOk, Own.Inv, Distinct, Own.Get;
    var g := Own.Get(s.heap, id, want);
    if g != None {
      GetFinds(s.heap, id, want);
      Own.CopyKeepsInv(s.heap, Own.FramePtr(s.current, slot), g.value);
      OuterFrameKeeps(s, Own.Copy(s.heap, Own.FramePtr(s.current, slot), g.value));
    }
  }

  lemma LetGoKeeps(s: State, slot: nat)
    requires Core(s) && s.current in s.fibers && slot > 0 && Own.FramePtr(s.current, slot) in s.heap.ptrs
    ensures Core(s.(heap := Own.Drop(s.heap, Own.FramePtr(s.current, slot))))
  {
    hide FibersOk, CtxsOk, WaitsOk, AcceptOk, PlacesOk, FramesOk, ReadingOk, Own.Inv, Distinct, Own.Drop;
    var p := Own.FramePtr(s.current, slot);
    Own.DropKeepsInv(s.heap, p);
    Own.DropEffect(s.heap, p);
    OuterFrameKeeps(s, Own.Drop(s.heap, p));
  }

  lemma CreateTlsKeeps(s: State, net: Own.Id)
    requires Core(s)
    ensures CreateTlsStep(s, net).Next? && Core(CreateTlsStep(s, net).s)
  {
    hide FibersOk, CtxsOk, WaitsOk, AcceptOk, PlacesOk, FramesOk, ReadingOk, OnceQueued, Own.Inv, Own.Get;
    var g := Own.Get(s.heap, net, Own.NetK);
    if g != None {
      GetFinds(s.heap, net, Own.NetK);
      Own.AddTlsKeepsInv(s.heap, g.value);
      AddTlsMoves(s.heap, g.value);
      hide Own.AddTls;
      HeapStepKeeps(s, Own.AddTls(s.heap, g.value));
    }
  }

  lemma AddTlsMoves(h: Own.Heap, net: Ref)
    requires Own.Inv(h) && net in h.objs
    ensures Own.SameFrames(h, Own.AddTls(h, net)) && Own.StoreMoved(h, Own.AddTls(h, net))
  {
  }

  lemma CreateKeeps(s: State, k: Own.Kind)
    requires Core(s) && k != Own.TlsK
    ensures Core(s.(heap := Own.Add(s.heap, k)))
  {
    Own.AddKeepsInv(s.heap, k);
    HeapStepKeeps(s, Own.Add(s.heap, k));
  }

  lemma RemoveKeeps(s: State, id: Own.Id)
    requires Core(s)
    ensures Core(s.(heap := Own.Remove(s.heap, id)))
  {
    hide FibersOk, CtxsOk, WaitsOk, AcceptOk, PlacesOk, FramesOk, ReadingOk, Own.Inv, Distinct, Own.Remove;
    Own.RemoveKeepsInv(s.heap, id);
    Own.RemoveMoves(s.heap, id);
    HeapStepKeeps(s, Own.Remove(s.heap, id));
  }

  /** The listeners and the record of abandoned ones matter to no part of the invariant. */
  lemma ListenersAreIdle(s: State, listening: set<Ref>, abandoned: set<Ref>)
    requires Core(s)
    ensures Core(s.(listening := listening, hist := s.hist.(abandoned := abandoned)))
  {
    var s' := s.(listening := listening, hist := s.hist.(abandoned := abandoned));
    assert CtxsOk(s') && WaitsOk(s') by {
      hide FibersOk, AcceptOk, PlacesOk, OnceQueued, FramesOk, ReadingOk, Own.Inv, CQ.Inv, Distinct;
    }
    hide CtxsOk, WaitsOk, PlacesOk, FramesOk, Own.Inv, Distinct, FibersOk, AcceptOk, CQ.Inv;
    FibersFrame(s, s');
    AcceptFrame(s, s');
    PlacesFrame(s, s');
    FramesFrame(s, s');
  }

  lemma ListenKeeps(s: State)
    requires Core(s)
    ensures ListenStep(s).Next? && Core(ListenStep(s).s)
  {
    CreateKeeps(s, Own.NetK);
    hide Core, Own.Add;
    ListenersAreIdle(s.(heap := Own.Add(s.heap, Own.NetK)), s.listening + {s.heap.nextRef}, s.hist.abandoned);
  }

  lemma FreeKeeps(s: State, id: Own.Id)
    requires Core(s)
    ensures FreeStep(s, id).Next? && Core(FreeStep(s, id).s)
  {
    RemoveKeeps(s, id);
    hide Core, Own.Remove;
    ListenersAreIdle(s.(heap := Own.Remove(s.heap, id)), s.listening, FreeStep(s, id).s.hist.abandoned);
  }

  /** A stored handle has one key, so removing that key removes it from the store. */
  lemma StoredOnce(h: Own.Heap, id: Own.Id)
    requires Own.Inv(h) && Own.StorePtr(id) in h.ptrs
    ensures forall id': Own.Id :: Own.StorePtr(id') in Own.Remove(h, id).ptrs ==>
              Own.Remove(h, id).ptrs[Own.StorePtr(id')] != h.ptrs[Own.StorePtr(id)]
  {
    Own.DropEffect(h, Own.StorePtr(id));
  }

  /** uv_close on a handle that has just left the store. */
  lemma ClosingKeeps(s: State, r: Ref)
    requires Core(s) && r < s.heap.nextRef
    requires forall id: Own.Id :: Own.StorePtr(id) in s.heap.ptrs ==> s.heap.ptrs[Own.StorePtr(id)] != r
    ensures Core(s.(closing := s.closing + {r}, reading := s.reading - {r}))
  {
    var s' := s.(closing := s.closing + {r}, reading := s.reading - {r});
    assert ReadingOk(s') by {
      hide FibersOk, CtxsOk, WaitsOk, AcceptOk, PlacesOk, FramesOk, Own.Inv, Distinct;
    }
    assert CtxsOk(s') && WaitsOk(s') by {
      hide AcceptOk, PlacesOk, FramesOk, ReadingOk, Own.Inv, Distinct;
    }
    hide CtxsOk, WaitsOk, PlacesOk, FramesOk, ReadingOk, Own.Inv, Distinct, FibersOk, AcceptOk;
    FibersFrame(s, s');
    AcceptFrame(s, s');
    PlacesFrame(s, s');
    FramesFrame(s, s');
  }

  lemma CloseKeeps(s: State, id: Own.Id, k: Own.Kind)
    requires Core(s)
    ensures CloseStep(s, id, k).Next? && Core(CloseStep(s, id, k).s)
  {
    var g := Own.Get(s.heap, id, k);
    if g != None {
      RemoveKeeps(s, id);
      if k != Own.DirectoryK {
        StoredOnce(s.heap, id);
        var h := Own.Remove(s.heap, id);
        assert g.value < s.heap.nextRef;
        hide Core, Own.Remove;
        RemoveBounds(s.heap, id);
        ClosingKeeps(s.(heap := h), g.value);
      }
    }
  }

  lemma RemoveBounds(h: Own.Heap, id: Own.Id)
    ensures Own.Remove(h, id).nextRef == h.nextRef
  {
  }

  // ---------------------------------------------------------------- callbacks

  lemma PushKeepsQueue(s: State, t: CQ.Thread, c: CtxId)
    requires CQ.Inv(s.q) && t !in s.q.sending
    ensures CQ.Inv(CQ.Apply(s.q, CQ.Push(t, c)))
  {
    CQ.StepKeepsInv(s.q, CQ.Push(t, c));
  }

  lemma OnCompleteKeeps(s: State, t: CQ.Thread, c: CtxId, raw: Raw)
    requires Core(s) && t !in s.q.sending && c in s.inflight
    ensures OnCompleteStep(s, t, c, raw).Next? && Core(OnCompleteStep(s, t, c, raw).s)
  {
    hide FibersOk, CtxsOk, WaitsOk, AcceptOk, PlacesOk, FramesOk, Own.Inv, Distinct, CQ.Inv;
    OnCompleteKeepsContexts(s, t, c, raw);
    OnCompleteKeepsPlaces(s, t, c, raw);
    PushKeepsQueue(s, t, c);
    var s' := OnCompleteStep(s, t, c, raw).s;
    FibersFrame(s, s');
    AcceptFrame(s, s');
    FramesFrame(s, s');
  }

  lemma OnReadKeeps(s: State, t: CQ.Thread, h: Ref, raw: Raw)
    requires Core(s) && t !in s.q.sending && h in s.reading
    ensures OnReadStep(s, t, h, raw).Next? && Core(OnReadStep(s, t, h, raw).s)
  {
    hide FibersOk, CtxsOk, WaitsOk, AcceptOk, PlacesOk, FramesOk, Own.Inv, Distinct, CQ.Inv;
    PendingHandleExists(s, h);
    OnReadKeepsPlaces(s, t, h, raw);
    OnReadKeepsContexts(s, t, h, raw);
    OnReadKeepsWaits(s, t, h, raw);
    PushKeepsQueue(s, t, s.pending[h]);
    var s' := OnReadStep(s, t, h, raw).s;
    FibersFrame(s, s');
    AcceptFrame(s, s');
    FramesFrame(s, s');
  }

  lemma OnConnectionKeeps(s: State, t: CQ.Thread, h: Ref, status: int)
    requires Core(s) && t !in s.q.sending && h in s.heap.objs
    ensures OnConnectionStep(s, t, h, status).Next? && Core(OnConnectionStep(s, t, h, status).s)
  {
    hide FibersOk, CtxsOk, WaitsOk, AcceptOk, PlacesOk, FramesOk, Own.Inv, Distinct, CQ.Inv;
    if Waiters(s, h) != [] {
      if s.active != None {
        ActiveExists(s);
      }
      OnConnectionKeepsFibers(s, t, h, status);
      OnConnectionKeepsContexts(s, t, h, status);
      OnConnectionKeepsWaits(s, t, h, status);
      OnConnectionKeepsPlaces(s, t, h, status);
      PushKeepsQueue(s, t, s.nextCtx);
      FramesFrame(s, OnConnectionStep(s, t, h, status).s);
    }
  }

  lemma ConnectionCrashes(s: State, t: CQ.Thread, h: Ref, status: int)
    requires t !in s.q.sending && h !in s.heap.objs
    ensures OnConnectionStep(s, t, h, status) == Crash
  {
  }

  // ---------------------------------------------------------------- the drain

  lemma PhaseKeepsFibers(s: State, q: CQ.Queue)
    requires FibersOk(s)
    requires q.phase == s.q.phase || (s.current == MAIN && s.active == None)
    ensures FibersOk(s.(q := q))
  {
  }

  lemma QueueStepKeeps(s: State, e: CQ.Event)
    requires Core(s) && CQ.Enabled(s.q, e) && !e.Push? && !e.Pop?
    requires e.Send? || (s.current == MAIN && s.active == None)
    ensures Core(s.(q := CQ.Apply(s.q, e)))
  {
    hide FibersOk, CtxsOk, WaitsOk, AcceptOk, PlacesOk, FramesOk, Own.Inv, Distinct;
    var q := CQ.Apply(s.q, e);
    assert CQ.Contents(q) == CQ.Contents(s.q);
    CQ.StepKeepsInv(s.q, e);
    PhaseKeepsFibers(s, q);
    QueueFrame(s, q);
  }

  lemma BuildKeepsHeap(s: State, x: Ctx, accepted: bool)
    requires Own.Inv(s.heap)
    ensures var h := Build(s, x, accepted).0.heap;
            Own.Inv(h) && Own.SameFrames(s.heap, h) && Own.StoreMoved(s.heap, h)
  {
    var b := CreateResultValue(x.kind, x.raw, accepted);
    hide CreateResultValue;
    BuiltKindIsNotTls(x.kind, x.raw, accepted);
    if b.NewHandle? {
      Own.AddKeepsInv(s.heap, b.kind);
    }
  }

  lemma BuiltKindIsNotTls(k: OpKind, raw: Raw, accepted: bool)
    ensures var b := CreateResultValue(k, raw, accepted); b.NewHandle? ==> b.kind != Own.TlsK
  {
  }

  lemma ResumeNextKeepsHandles(s: State, accepted: bool)
    requires s.q.phase == CQ.Draining && s.q.local != [] && ResumeNextStep(s, accepted).Next?
    requires FibersOk(s) && ReadingOk(s) && FramesOk(s) && Own.Inv(s.heap) && CQ.Inv(s.q)
    ensures var s' := ResumeNextStep(s, accepted).s; Own.Inv(s'.heap) && ReadingOk(s') && FramesOk(s') && CQ.Inv(s'.q)
  {
    CQ.StepKeepsInv(s.q, CQ.Pop);
    var x := s.ctxs[s.q.local[0]];
    BuildEffect(s, x, accepted);
    BuildKeepsHeap(s, x, accepted);
    hide Build, Own.Inv, CQ.Inv, FibersOk, FramesOk;
    var h, s' := Build(s, x, accepted).0.heap, ResumeNextStep(s, accepted).s;
    ReadingHeapFrame(s, h);
    FramesHeapFrame(s, h);
    FramesFrame(s.(heap := h), s');
  }

  lemma ResumeNextKeeps(s: State, accepted: bool)
    requires Core(s) && CQ.Enabled(s.q, CQ.Pop) && s.active == None && s.current == MAIN
    ensures ResumeNextStep(s, accepted).Next? && Core(ResumeNextStep(s, accepted).s)
  {
    hide FibersOk, CtxsOk, WaitsOk, AcceptOk, PlacesOk, FramesOk, ReadingOk, OnceQueued, Own.Inv, CQ.Inv;
    hide ResumeNextStep;
    HeadIsResumable(s, accepted);
    ResumeNextKeepsHandles(s, accepted);
    ResumeNextKeepsFibers(s, accepted);
    ResumeNextKeepsAccept(s, accepted);
    ResumeNextKeepsContexts(s, accepted);
    ResumeNextKeepsWaits(s, accepted);
    ResumeNextKeepsPlaces(s, accepted);
  }

  lemma DeleteKeepsFibers(s: State)
    requires FibersOk(s) && s.current == MAIN && DeleteStep(s).Next?
    ensures FibersOk(DeleteStep(s).s)
  {
  }

  lemma DeleteKeeps(s: State)
    requires Core(s) && s.active != None && s.current == MAIN
    ensures DeleteStep(s).Next? && Core(DeleteStep(s).s)
  {
    hide FibersOk, CtxsOk, WaitsOk, AcceptOk, PlacesOk, FramesOk, Own.Inv, Distinct;
    DeleteKeepsContexts(s);
    DeleteKeepsPlaces(s);
    DeleteKeepsFibers(s);
    AcceptFrame(s, DeleteStep(s).s);
    FramesFrame(s, DeleteStep(s).s);
  }

  // ---------------------------------------------------------------- every step, every run

  /** Whoever has control exists, and only a looping drain holds a context. */
  lemma ControlIsSound(s: State)
    requires Core(s)
    ensures s.current != MAIN ==> s.current in s.fibers
    ensures s.q.phase != CQ.Draining ==> s.active == None
  {
  }

  lemma TryStartKeeps(s: State, kind: OpKind, id: Own.Id, ready: bool)
    requires Core(s) && s.current != MAIN && ScriptRunning(s)
    ensures TryStart(s, kind, id, ready).Next? && Core(TryStart(s, kind, id, ready).s)
  {
    hide Core, StartStep, ScriptRunning;
    StartKeeps(s, kind, id);
  }

  /** Every step of every kind keeps the invariant; only an orphaned listener makes one crash. */
  lemma StepKeeps(s: State, l: Label)
    requires Core(s) && Enabled(s, l)
    ensures Kept(s, l)
  {
    hide Core, FiberRunStep, TryStart, ListenStep, FreeStep, ReturnStep, FinishStep, CreateTlsStep, HoldStep, CloseStep,
      OnCompleteStep, OnReadStep, OnConnectionStep, ResumeNextStep, DeleteStep, Own.Add, Own.Remove, Own.Drop, CQ.Apply;
    ControlIsSound(s);
    match l {
      case FiberRun(f) => FiberRunKeeps(s, f);
      case Start(k, id, ready) => TryStartKeeps(s, k, id, ready);
      case Return => ReturnKeeps(s);
      case Finish => FinishKeeps(s);
      case Create(k) => CreateKeeps(s, k);
      case Listen => ListenKeeps(s);
      case CreateTls(net) => CreateTlsKeeps(s, net);
      case Hold(id, want, slot) => HoldKeeps(s, id, want, slot);
      case LetGo(slot) => LetGoKeeps(s, slot);
      case Close(id, k) => CloseKeeps(s, id, k);
      case Free(id) => FreeKeeps(s, id);
      case OnComplete(t, c, raw) => OnCompleteKeeps(s, t, c, raw);
      case OnRead(t, h, raw) => OnReadKeeps(s, t, h, raw);
      case OnConnection(t, h, status) =>
        if h in s.heap.objs {
          OnConnectionKeeps(s, t, h, status);
        } else {
          ConnectionCrashes(s, t, h, status);
        }
      case Send(t) => QueueStepKeeps(s, CQ.Send(t));
      case Enter => QueueStepKeeps(s, CQ.Enter);
      case Swap => QueueStepKeeps(s, CQ.Swap);
      case ResumeNext(accepted) => ResumeNextKeeps(s, accepted);
      case Delete => DeleteKeeps(s);
      case Leave => QueueStepKeeps(s, CQ.Leave);
    }
  }

  lemma InitIsCore()
    ensures Core(INIT)
  {
  }
}
