/** The invariant of the runtime, and its preservation by every step. */
module RuntimeInvariant {
  import opened Prelude
  import opened Results
  import opened Runtime
  import Own = Ownership
  import CQ = CompletionQueue

  /** `f` is suspended in the primitive that started operation `o`. */
  predicate Waiting(s: State, f: FiberId, o: OpId) {
    f in s.fibers && f != s.current && s.fibers[f].awaiting == Some(o)
  }

  /** Control is with exactly one fiber, and every other fiber waits for an operation. */
  ghost predicate FibersOk(s: State) {
    && MAIN !in s.fibers
    && (s.current == MAIN || s.current in s.fibers)
    && (forall f :: f in s.fibers ==>
         && f in s.hist.life
         && s.fibers[f].state == (if f == s.current then RUNNING else SUSPENDED)
         && (f != s.current ==> s.fibers[f].awaiting != None)
         && (s.fibers[f].awaiting != None ==>
              s.fibers[f].awaiting.value < |s.hist.ops| && s.hist.ops[s.fibers[f].awaiting.value].fiber == f))
    && (s.active != None ==> s.q.phase == CQ.Draining)
    && (s.current != MAIN && s.q.phase != CQ.Idle ==> s.active != None)
  }

  /** A context serves one operation, for the fiber that started it and waits for it. */
  ghost predicate CtxOk(s: State, c: CtxId)
    requires c in s.ctxs
  {
    var x := s.ctxs[c];
    && c < s.nextCtx && x.op < |s.hist.ops|
    && x.fiber == s.hist.ops[x.op].fiber && x.kind == s.hist.ops[x.op].kind
    && x.op in s.hist.serving && s.hist.serving[x.op] == c
    && (x.kind == TcpAccept ==> x.server != None && x.server == s.hist.ops[x.op].handle)
    && (s.active != Some(c) ==> Waiting(s, x.fiber, x.op))
  }

  ghost predicate CtxsOk(s: State) {
    && (forall o :: o in s.hist.serving ==> o < |s.hist.ops| && s.hist.serving[o] < s.nextCtx)
    && (forall c :: c in s.ctxs ==> CtxOk(s, c))
  }

  /** Every suspended fiber has a live context, or a place in the accept queue it joined. */
  ghost predicate WaitsOk(s: State) {
    forall f :: f in s.fibers && f != s.current && s.fibers[f].awaiting != None
                && s.fibers[f].awaiting.value < |s.hist.ops| ==>
      var o := s.fibers[f].awaiting.value;
      if o in s.hist.serving then
        && s.hist.serving[o] in s.ctxs && s.active != Some(s.hist.serving[o])
        && s.ctxs[s.hist.serving[o]].op == o
      else
        && s.hist.ops[o].kind == TcpAccept && s.hist.ops[o].handle != None
        && f in Waiters(s, s.hist.ops[o].handle.value)
  }

  ghost predicate AcceptOk(s: State) {
    forall h :: h in s.accept ==>
      && Distinct(s.accept[h])
      && forall f :: f in s.accept[h] ==>
           && f in s.fibers && f != s.current && s.fibers[f].awaiting != None
           && var o := s.fibers[f].awaiting.value;
              && o < |s.hist.ops| && o !in s.hist.serving
              && s.hist.ops[o].kind == TcpAccept && s.hist.ops[o].handle == Some(h)
  }

  /** `c` is the read context parked on the handle its operation named. */
  predicate Parked(s: State, c: CtxId) {
    && c in s.ctxs && s.ctxs[c].op < |s.hist.ops|
    && s.hist.ops[s.ctxs[c].op].handle != None
    && var h := s.hist.ops[s.ctxs[c].op].handle.value;
       h in s.pending && s.pending[h] == c
  }

  /** `c` waits in one of the two completion queues. */
  predicate Queued(s: State, c: CtxId) {
    c in s.q.local || c in s.q.shared
  }

  predicate Placed(s: State, c: CtxId) {
    c in s.inflight || Queued(s, c) || s.active == Some(c) || Parked(s, c)
  }

  /** Every context is in exactly one place. */
  ghost predicate PlacesOk(s: State) {
    && (s.active != None ==> s.active.value in s.ctxs)
    && (forall c :: Queued(s, c) ==> c in s.ctxs && c !in s.inflight && s.active != Some(c))
    && (forall c :: c in s.inflight ==> c in s.ctxs && s.active != Some(c) && !IsRead(s.ctxs[c].kind))
    && (forall h :: h in s.pending ==>
         var c := s.pending[h];
         && c in s.ctxs && IsRead(s.ctxs[c].kind) && !Queued(s, c) && s.active != Some(c)
         && s.ctxs[c].op < |s.hist.ops| && s.hist.ops[s.ctxs[c].op].handle == Some(h))
    && (forall c :: c in s.ctxs ==> Placed(s, c))
  }

  /** No context waits twice. */
  ghost predicate OnceQueued(s: State) {
    Distinct(CQ.Contents(s.q))
  }

  /** libuv reads for a handle exactly while a read is pending on it and it is not closing. */
  ghost predicate ReadingOk(s: State) {
    && (forall h :: h in s.reading <==> h in s.pending && h !in s.closing)
    && (forall h :: h in s.closing ==> h < s.heap.nextRef)
    && (forall id: Own.Id :: Own.StorePtr(id) in s.heap.ptrs ==> s.heap.ptrs[Own.StorePtr(id)] !in s.closing)
  }

  /** A fiber inside a primitive keeps the primitive's handle alive; nobody else has stack pointers. */
  ghost predicate FramesOk(s: State) {
    && (forall f :: f in s.fibers && s.fibers[f].awaiting != None
                    && s.fibers[f].awaiting.value < |s.hist.ops|
                    && s.hist.ops[s.fibers[f].awaiting.value].handle != None ==>
         && Own.FramePtr(f, 0) in s.heap.ptrs
         && s.heap.ptrs[Own.FramePtr(f, 0)] == s.hist.ops[s.fibers[f].awaiting.value].handle.value)
    && (forall f: FiberId, i: nat :: Own.FramePtr(f, i) in s.heap.ptrs ==>
         f in s.fibers
         && (i == 0 ==> s.fibers[f].awaiting != None)
         && (i == 0 && s.fibers[f].awaiting.value < |s.hist.ops| ==>
              s.hist.ops[s.fibers[f].awaiting.value].handle != None))
  }

  ghost predicate Core(s: State) {
    && FibersOk(s) && CtxsOk(s) && WaitsOk(s) && AcceptOk(s) && PlacesOk(s)
    && OnceQueued(s) && ReadingOk(s) && FramesOk(s) && Own.Inv(s.heap) && CQ.Inv(s.q)
  }

  // ---------------------------------------------------------------- frames

  /** PlacesOk looks at contexts and at where they are, nowhere else. */
  lemma PlacesFrame(s: State, s': State)
    requires PlacesOk(s)
    requires s'.ctxs == s.ctxs && s'.inflight == s.inflight && s'.pending == s.pending
    requires s'.active == s.active && s'.q.local == s.q.local && s'.q.shared == s.q.shared
    requires s.hist.ops <= s'.hist.ops
    ensures PlacesOk(s')
  {
    forall c | c in s'.ctxs
      ensures Placed(s', c)
    {
      assert Placed(s, c);
      assert Parked(s, c) ==> Parked(s', c);
    }
  }

  /** Only two predicates look at the heap. */
  lemma CtxsFrame(s: State, s': State)
    requires CtxsOk(s)
    requires s'.ctxs == s.ctxs && s'.nextCtx == s.nextCtx && s'.active == s.active
    requires s'.fibers == s.fibers && s'.current == s.current
    requires s'.hist.ops == s.hist.ops && s'.hist.serving == s.hist.serving
    ensures CtxsOk(s')
  {
    forall c | c in s'.ctxs
      ensures CtxOk(s', c)
    {
      assert CtxOk(s, c);
    }
  }

  lemma WaitsFrame(s: State, s': State)
    requires WaitsOk(s)
    requires s'.ctxs == s.ctxs && s'.active == s.active && s'.accept == s.accept
    requires s'.fibers == s.fibers && s'.current == s.current
    requires s'.hist.ops == s.hist.ops && s'.hist.serving == s.hist.serving
    ensures WaitsOk(s')
  {
  }

  lemma HeapFrame(s: State, h: Own.Heap)
    requires FibersOk(s) && CtxsOk(s) && WaitsOk(s) && AcceptOk(s) && PlacesOk(s) && OnceQueued(s)
    ensures var s' := s.(heap := h);
            FibersOk(s') && CtxsOk(s') && WaitsOk(s') && AcceptOk(s') && PlacesOk(s') && OnceQueued(s')
  {
    hide FibersOk, CtxsOk, WaitsOk, AcceptOk, PlacesOk, Distinct;
    var s' := s.(heap := h);
    FibersFrame(s, s');
    CtxsFrame(s, s');
    WaitsFrame(s, s');
    AcceptFrame(s, s');
    PlacesFrame(s, s');
  }

  lemma ReadingHeapFrame(s: State, h: Own.Heap)
    requires ReadingOk(s) && Own.StoreMoved(s.heap, h)
    ensures ReadingOk(s.(heap := h))
  {
  }

  lemma FibersFrame(s: State, s': State)
    requires FibersOk(s)
    requires s'.fibers == s.fibers && s'.current == s.current && s'.active == s.active
    requires s'.q.phase == s.q.phase && s'.hist.ops == s.hist.ops && s'.hist.life == s.hist.life
    ensures FibersOk(s')
  {
  }

  lemma AcceptFrame(s: State, s': State)
    requires AcceptOk(s)
    requires s'.accept == s.accept && s'.fibers == s.fibers && s'.current == s.current
    requires s'.hist.ops == s.hist.ops && s'.hist.serving == s.hist.serving
    ensures AcceptOk(s')
  {
  }

  lemma FramesFrame(s: State, s': State)
    requires FramesOk(s)
    requires s'.heap == s.heap && s'.hist.ops == s.hist.ops && s'.fibers.Keys == s.fibers.Keys
    requires forall f :: f in s.fibers ==> s'.fibers[f].awaiting == s.fibers[f].awaiting
    ensures FramesOk(s')
  {
  }

  lemma FramesHeapFrame(s: State, h: Own.Heap)
    requires FramesOk(s) && Own.SameFrames(s.heap, h)
    ensures FramesOk(s.(heap := h))
  {
  }

  lemma SameContentsPlaces(s: State, q: CQ.Queue)
    requires PlacesOk(s) && CQ.Contents(q) == CQ.Contents(s.q)
    ensures PlacesOk(s.(q := q))
  {
    var s' := s.(q := q);
    assert forall c :: Queued(s, c) <==> c in CQ.Contents(s.q);
    assert forall c :: Queued(s', c) <==> c in CQ.Contents(q);
    assert forall c :: Queued(s', c) <==> Queued(s, c);
    hide Queued;
    assert forall c :: Parked(s', c) <==> Parked(s, c);
    hide Parked;
  }

  lemma QueueFrame(s: State, q: CQ.Queue)
    requires CtxsOk(s) && WaitsOk(s) && AcceptOk(s) && PlacesOk(s) && FramesOk(s)
    requires CQ.Contents(q) == CQ.Contents(s.q)
    ensures var s' := s.(q := q); CtxsOk(s') && WaitsOk(s') && AcceptOk(s') && PlacesOk(s') && FramesOk(s')
  {
    hide CtxsOk, WaitsOk, AcceptOk, PlacesOk, FramesOk;
    var s' := s.(q := q);
    CtxsFrame(s, s');
    WaitsFrame(s, s');
    AcceptFrame(s, s');
    SameContentsPlaces(s, q);
    FramesFrame(s, s');
  }

  lemma OnFiberExists(s: State)
    requires FibersOk(s) && s.current != MAIN
    ensures s.current in s.fibers
  {
  }

  lemma ActiveExists(s: State)
    requires PlacesOk(s) && s.active != None
    ensures s.active.value in s.ctxs
  {
  }

  // ---------------------------------------------------------------- a new fiber

  lemma FiberRunKeepsFibers(s: State, f: FiberId)
    requires s.current == MAIN && s.q.phase == CQ.Idle && f != MAIN && f !in s.hist.life
    requires FibersOk(s) && AcceptOk(s) && FramesOk(s)
    ensures var s' := FiberRunStep(s, f).s; FibersOk(s') && AcceptOk(s') && FramesOk(s')
  {
  }

  lemma FiberRunKeepsContexts(s: State, f: FiberId)
    requires s.current == MAIN && f != MAIN && f !in s.hist.life
    requires FibersOk(s) && CtxsOk(s) && WaitsOk(s)
    ensures var s' := FiberRunStep(s, f).s; CtxsOk(s') && WaitsOk(s')
  {
  }

  lemma FiberRunKeepsPlaces(s: State, f: FiberId)
    requires PlacesOk(s)
    ensures PlacesOk(FiberRunStep(s, f).s)
  {
    PlacesFrame(s, FiberRunStep(s, f).s);
  }

  // ---------------------------------------------------------------- starting an operation

  /** A running fiber outside any primitive, about to start `op`. */
  predicate CanBegin(s: State, op: Op) {
    && s.current in s.fibers && s.current != MAIN && op.fiber == s.current
    && s.fibers[s.current].awaiting == None
    && (op.handle != None ==> op.handle.value in s.heap.objs)
  }

  lemma BeginRequestKeepsFibers(s: State, op: Op)
    requires CanBegin(s, op)
    requires FibersOk(s) && AcceptOk(s)
    ensures var s' := BeginRequest(s, op); FibersOk(s') && AcceptOk(s')
  {
    hide Pin;
  }

  lemma BeginRequestKeepsFrames(s: State, op: Op)
    requires CanBegin(s, op)
    requires FibersOk(s) && FramesOk(s)
    ensures FramesOk(BeginRequest(s, op))
  {
  }

  lemma BeginRequestKeepsContexts(s: State, op: Op)
    requires CanBegin(s, op) && op.kind != TcpAccept
    requires FibersOk(s) && CtxsOk(s)
    ensures CtxsOk(BeginRequest(s, op))
  {
    hide Pin, Append;
    var s' := BeginRequest(s, op);
    forall c | c in s'.ctxs
      ensures CtxOk(s', c)
    {
      if c != s.nextCtx {
        assert CtxOk(s, c);
      }
    }
  }

  lemma BeginRequestKeepsWaits(s: State, op: Op)
    requires CanBegin(s, op)
    requires FibersOk(s) && CtxsOk(s) && WaitsOk(s)
    requires s.active != None ==> s.active.value in s.ctxs
    ensures WaitsOk(BeginRequest(s, op))
  {
    hide Pin;
  }

  /** A context allocated in `s'` and given to libuv, to a handle, or to the queue. */
  ghost predicate Allocated(s: State, s': State, c: CtxId) {
    && c !in s.ctxs && s'.ctxs.Keys == s.ctxs.Keys + {c}
    && (forall d :: d in s.ctxs ==> s'.ctxs[d] == s.ctxs[d])
    && s.hist.ops <= s'.hist.ops && s'.active == s.active && s'.q.local == s.q.local
  }

  lemma AllocatedInFlight(s: State, s': State, c: CtxId)
    requires PlacesOk(s) && Allocated(s, s', c) && !IsRead(s'.ctxs[c].kind)
    requires s'.inflight == s.inflight + {c} && s'.pending == s.pending && s'.q.shared == s.q.shared
    ensures PlacesOk(s')
  {
    forall d | d in s'.ctxs
      ensures Placed(s', d)
    {
      if d != c {
        assert Placed(s, d);
        assert Parked(s, d) ==> Parked(s', d);
      }
    }
  }

  lemma AllocatedPending(s: State, s': State, c: CtxId, h: Ref)
    requires PlacesOk(s) && Allocated(s, s', c) && IsRead(s'.ctxs[c].kind) && h !in s.pending
    requires s'.ctxs[c].op < |s'.hist.ops| && s'.hist.ops[s'.ctxs[c].op].handle == Some(h)
    requires s'.inflight == s.inflight && s'.pending == s.pending[h := c] && s'.q.shared == s.q.shared
    ensures PlacesOk(s')
  {
    assert forall d :: Queued(s, d) <==> Queued(s', d);
    hide Queued;
    forall d | d in s'.ctxs
      ensures Placed(s', d)
    {
      AllocatedIsPlaced(s, s', c, h, d);
    }
    hide Parked, Placed;
  }

  lemma AllocatedIsPlaced(s: State, s': State, c: CtxId, h: Ref, d: CtxId)
    requires PlacesOk(s) && Allocated(s, s', c) && h !in s.pending && d in s'.ctxs
    requires s'.ctxs[c].op < |s'.hist.ops| && s'.hist.ops[s'.ctxs[c].op].handle == Some(h)
    requires s'.inflight == s.inflight && s'.pending == s.pending[h := c] && s'.q.shared == s.q.shared
    ensures Placed(s', d)
  {
    if d != c {
      assert Placed(s, d);
      hide PlacesOk;
      assert Parked(s, d) ==> Parked(s', d);
    } else {
      assert Parked(s', c);
    }
  }

  lemma AllocatedQueued(s: State, s': State, c: CtxId)
    requires PlacesOk(s) && Allocated(s, s', c)
    requires s'.inflight == s.inflight && s'.pending == s.pending && s'.q.shared == s.q.shared + [c]
    ensures PlacesOk(s')
  {
    assert forall d :: Queued(s', d) <==> d == c || Queued(s, d);
    forall d | d in s'.ctxs
      ensures Placed(s', d)
    {
      if d != c {
        assert Placed(s, d);
        assert Parked(s, d) ==> Parked(s', d);
      }
    }
  }

  lemma BeginRequestKeepsPlaces(s: State, op: Op)
    requires CanBegin(s, op) && !IsRead(op.kind)
    requires CtxsOk(s) && PlacesOk(s)
    ensures PlacesOk(BeginRequest(s, op))
  {
    assert s.nextCtx !in s.ctxs;
    hide CtxsOk, PlacesOk, Pin;
    AllocatedInFlight(s, BeginRequest(s, op), s.nextCtx);
  }

  lemma BeginReadKeepsFibers(s: State, op: Op, h: Ref)
    requires CanBegin(s, op) && op.handle == Some(h)
    requires FibersOk(s) && AcceptOk(s)
    ensures var s' := BeginRead(s, op, h); FibersOk(s') && AcceptOk(s')
  {
    hide Pin;
  }

  lemma BeginReadKeepsFrames(s: State, op: Op, h: Ref)
    requires CanBegin(s, op) && op.handle == Some(h)
    requires FibersOk(s) && FramesOk(s)
    ensures FramesOk(BeginRead(s, op, h))
  {
  }

  lemma BeginReadKeepsContexts(s: State, op: Op, h: Ref)
    requires CanBegin(s, op) && op.kind != TcpAccept
    requires FibersOk(s) && CtxsOk(s)
    ensures CtxsOk(BeginRead(s, op, h))
  {
    hide Pin;
  }

  lemma BeginReadKeepsWaits(s: State, op: Op, h: Ref)
    requires CanBegin(s, op)
    requires FibersOk(s) && CtxsOk(s) && WaitsOk(s)
    requires s.active != None ==> s.active.value in s.ctxs
    ensures WaitsOk(BeginRead(s, op, h))
  {
    hide Pin;
  }

  lemma BeginReadKeepsPlaces(s: State, op: Op, h: Ref)
    requires CanBegin(s, op) && op.handle == Some(h) && IsRead(op.kind) && h !in s.pending
    requires CtxsOk(s) && PlacesOk(s)
    ensures PlacesOk(BeginRead(s, op, h))
  {
    assert s.nextCtx !in s.ctxs;
    hide CtxsOk, PlacesOk, Pin;
    AllocatedPending(s, BeginRead(s, op, h), s.nextCtx, h);
  }

  lemma BeginAcceptKeepsFibers(s: State, op: Op, h: Ref)
    requires CanBegin(s, op) && op.handle == Some(h)
    requires FibersOk(s) && FramesOk(s)
    ensures var s' := BeginAccept(s, op, h); FibersOk(s') && FramesOk(s')
  {
  }

  lemma BeginAcceptKeepsAccept(s: State, op: Op, h: Ref)
    requires CanBegin(s, op) && op.handle == Some(h) && op.kind == TcpAccept
    requires FibersOk(s) && CtxsOk(s) && AcceptOk(s)
    ensures AcceptOk(BeginAccept(s, op, h))
  {
    var s', f := BeginAccept(s, op, h), s.current;
    assert f !in Waiters(s, h) && |s.hist.ops| !in s.hist.serving && f != MAIN;
    hide FibersOk, CtxsOk, Pin, Append;
    assert s'.accept == s.accept[h := Waiters(s, h) + [f]] && s'.current == MAIN
           && s'.hist.ops == s.hist.ops + [op] && s'.hist.serving == s.hist.serving
           && s'.fibers == s.fibers[f := s.fibers[f].(state := SUSPENDED, awaiting := Some(|s.hist.ops|))];
    hide BeginAccept;
    if h in s.accept {
      DistinctSnoc(s.accept[h], f);
    } else {
      assert Distinct([] + [f]);
    }
    hide Distinct;
  }

  lemma BeginAcceptKeepsContexts(s: State, op: Op, h: Ref)
    requires CanBegin(s, op)
    requires FibersOk(s) && CtxsOk(s)
    ensures CtxsOk(BeginAccept(s, op, h))
  {
    hide Pin;
    var s' := BeginAccept(s, op, h);
    forall c | c in s'.ctxs
      ensures CtxOk(s', c)
    {
      assert CtxOk(s, c);
    }
  }

  lemma BeginAcceptKeepsWaits(s: State, op: Op, h: Ref)
    requires CanBegin(s, op) && op.handle == Some(h) && op.kind == TcpAccept
    requires FibersOk(s) && CtxsOk(s) && WaitsOk(s)
    ensures WaitsOk(BeginAccept(s, op, h))
  {
    hide Pin;
  }

  lemma BeginAcceptKeepsPlaces(s: State, op: Op, h: Ref)
    requires CanBegin(s, op)
    requires CtxsOk(s) && PlacesOk(s)
    ensures PlacesOk(BeginAccept(s, op, h))
  {
    hide Pin;
    PlacesFrame(s, BeginAccept(s, op, h));
  }

  // ---------------------------------------------------------------- leaving a primitive

  lemma ReturnKeepsFibers(s: State)
    requires s.current in s.fibers && s.fibers[s.current].awaiting != None
    requires FibersOk(s) && AcceptOk(s)
    ensures ReturnStep(s).Next?
    ensures var s' := ReturnStep(s).s; FibersOk(s') && AcceptOk(s')
  {
    hide Unwind;
  }

  lemma ReturnStepMoves(s: State)
    requires s.current in s.fibers && s.fibers[s.current].awaiting != None
    requires s.fibers[s.current].awaiting.value < |s.hist.ops|
    ensures ReturnStep(s).Next?
    ensures var s', f := ReturnStep(s).s, s.current;
            && s'.fibers == s.fibers[f := s.fibers[f].(awaiting := None)] && s'.current == f
            && s'.ctxs == s.ctxs && s'.nextCtx == s.nextCtx && s'.active == s.active && s'.accept == s.accept
            && s'.hist.ops == s.hist.ops && s'.hist.serving == s.hist.serving
  {
    hide Unwind, Append;
  }

  lemma ReturnKeepsContexts(s: State)
    requires s.current in s.fibers && s.fibers[s.current].awaiting != None
    requires FibersOk(s) && CtxsOk(s)
    ensures ReturnStep(s).Next? && CtxsOk(ReturnStep(s).s)
  {
    AwaitedIsOwn(s, s.current);
    hide FibersOk;
    ReturnStepMoves(s);
    var s' := ReturnStep(s).s;
    hide ReturnStep;
    forall c | c in s'.ctxs
      ensures CtxOk(s', c)
    {
      assert CtxOk(s, c);
    }
    hide CtxOk;
  }

  lemma ReturnKeepsWaits(s: State)
    requires s.current in s.fibers && s.fibers[s.current].awaiting != None
    requires FibersOk(s) && WaitsOk(s)
    ensures ReturnStep(s).Next? && WaitsOk(ReturnStep(s).s)
  {
    AwaitedIsOwn(s, s.current);
    hide FibersOk;
    ReturnStepMoves(s);
    hide ReturnStep;
  }

  lemma FinishKeepsFibers(s: State)
    requires s.current in s.fibers
    requires forall p :: p in s.heap.ptrs && p.FramePtr? ==> p.fiber != s.current
    requires FibersOk(s) && AcceptOk(s) && FramesOk(s)
    ensures var s' := FinishStep(s).s; FibersOk(s') && AcceptOk(s') && FramesOk(s')
  {
  }

  lemma FinishKeepsContexts(s: State)
    requires s.current in s.fibers
    requires FibersOk(s) && CtxsOk(s) && WaitsOk(s)
    ensures var s' := FinishStep(s).s; CtxsOk(s') && WaitsOk(s')
  {
  }

  lemma FinishKeepsPlaces(s: State)
    requires s.current in s.fibers && PlacesOk(s)
    ensures PlacesOk(FinishStep(s).s)
  {
    PlacesFrame(s, FinishStep(s).s);
  }

  // ---------------------------------------------------------------- callbacks

  lemma OnCompleteKeepsContexts(s: State, t: CQ.Thread, c: CtxId, raw: Raw)
    requires t !in s.q.sending && c in s.inflight
    requires CtxsOk(s) && WaitsOk(s) && PlacesOk(s)
    ensures OnCompleteStep(s, t, c, raw).Next?
    ensures var s' := OnCompleteStep(s, t, c, raw).s; CtxsOk(s') && WaitsOk(s')
  {
  }

  lemma OnCompleteKeepsPlaces(s: State, t: CQ.Thread, c: CtxId, raw: Raw)
    requires t !in s.q.sending && c in s.inflight
    requires PlacesOk(s) && OnceQueued(s)
    ensures OnCompleteStep(s, t, c, raw).Next?
    ensures var s' := OnCompleteStep(s, t, c, raw).s; PlacesOk(s') && OnceQueued(s')
  {
    var s' := OnCompleteStep(s, t, c, raw).s;
    DistinctSnoc(CQ.Contents(s.q), c);
    assert CQ.Contents(s'.q) == CQ.Contents(s.q) + [c];
    forall d | d in s'.ctxs
      ensures Placed(s', d)
    {
      assert Placed(s, d);
      assert Parked(s, d) ==> Parked(s', d);
    }
  }

  lemma OnReadKeepsContexts(s: State, t: CQ.Thread, h: Ref, raw: Raw)
    requires t !in s.q.sending && OnReadStep(s, t, h, raw).Next?
    requires CtxsOk(s)
    ensures CtxsOk(OnReadStep(s, t, h, raw).s)
  {
  }

  lemma OnReadKeepsWaits(s: State, t: CQ.Thread, h: Ref, raw: Raw)
    requires t !in s.q.sending && OnReadStep(s, t, h, raw).Next?
    requires WaitsOk(s)
    ensures WaitsOk(OnReadStep(s, t, h, raw).s)
  {
  }

  lemma ReadMoves(s: State, t: CQ.Thread, h: Ref, raw: Raw)
    requires t !in s.q.sending && h in s.heap.objs && h in s.pending && s.pending[h] in s.ctxs
    ensures OnReadStep(s, t, h, raw).Next?
    ensures var s', c := OnReadStep(s, t, h, raw).s, s.pending[h];
            && s'.ctxs == s.ctxs[c := s.ctxs[c].(raw := raw)] && s'.pending == s.pending - {h}
            && s'.inflight == s.inflight && s'.active == s.active && s'.hist.ops == s.hist.ops
            && s'.q.local == s.q.local && s'.q.shared == s.q.shared + [c]
  {
    hide Log;
  }

  lemma OnReadKeepsPlaces(s: State, t: CQ.Thread, h: Ref, raw: Raw)
    requires t !in s.q.sending && h in s.heap.objs && h in s.pending
    requires PlacesOk(s) && OnceQueued(s)
    ensures OnReadStep(s, t, h, raw).Next?
    ensures var s' := OnReadStep(s, t, h, raw).s; PlacesOk(s') && OnceQueued(s')
  {
    ReadMoves(s, t, h, raw);
    var s' := OnReadStep(s, t, h, raw).s;
    ReadKeepsOnce(s, s', s.pending[h]);
    hide OnReadStep, OnceQueued;
    assert forall d :: Queued(s', d) <==> d == s.pending[h] || Queued(s, d);
    hide Queued;
    forall d | d in s'.ctxs
      ensures Placed(s', d)
    {
      if d != s.pending[h] {
        assert Placed(s, d);
        assert Parked(s, d) ==> Parked(s', d);
      }
    }
    hide Parked, Placed;
  }

  lemma ReadKeepsOnce(s: State, s': State, c: CtxId)
    requires OnceQueued(s) && !Queued(s, c) && s'.q.local == s.q.local && s'.q.shared == s.q.shared + [c]
    ensures OnceQueued(s')
  {
    assert CQ.Contents(s'.q) == CQ.Contents(s.q) + [c];
    DistinctSnoc(CQ.Contents(s.q), c);
  }

  lemma OnConnectionKeepsFibers(s: State, t: CQ.Thread, h: Ref, status: int)
    requires t !in s.q.sending && h in s.heap.objs && Waiters(s, h) != []
    requires FibersOk(s) && AcceptOk(s)
    ensures OnConnectionStep(s, t, h, status).Next?
    ensures var s' := OnConnectionStep(s, t, h, status).s; FibersOk(s') && AcceptOk(s')
  {
    assert s.accept[h][0] in s.accept[h];
  }

  /** The fiber at the head of an accept queue is suspended in TCP_Accept on that server. */
  lemma HeadIsWaiting(s: State, h: Ref)
    requires Waiters(s, h) != [] && AcceptOk(s)
    ensures var f := Waiters(s, h)[0];
            && f in s.fibers && s.fibers[f].awaiting != None && Waiting(s, f, s.fibers[f].awaiting.value)
            && var o := s.fibers[f].awaiting.value;
               && o < |s.hist.ops| && o !in s.hist.serving
               && s.hist.ops[o].kind == TcpAccept && s.hist.ops[o].handle == Some(h)
  {
    assert s.accept[h][0] in s.accept[h];
  }

  /** A connection with a waiter gives that waiter's operation its context, already answered. */
  lemma ConnectionMoves(s: State, t: CQ.Thread, h: Ref, status: int)
    requires t !in s.q.sending && h in s.heap.objs && Waiters(s, h) != []
    requires OnConnectionStep(s, t, h, status).Next?
    ensures var s', f := OnConnectionStep(s, t, h, status).s, Waiters(s, h)[0];
            && f in s.fibers && s.fibers[f].awaiting != None
            && s'.fibers == s.fibers && s'.current == s.current && s'.active == s.active
            && s'.nextCtx == s.nextCtx + 1
            && s'.ctxs == s.ctxs[s.nextCtx :=
                 Ctx(f, s.fibers[f].awaiting.value, TcpAccept, Raw(status, [], ""), Some(h))]
            && s'.accept == s.accept[h := Waiters(s, h)[1..]]
            && s'.hist.ops == s.hist.ops && s'.hist.serving == s.hist.serving[s.fibers[f].awaiting.value := s.nextCtx]
  {
    hide Append, CQ.Apply;
  }

  lemma ConnectionKeepsContext(s: State, s': State, h: Ref, status: int, c: CtxId)
    requires Waiters(s, h) != [] && Waiters(s, h)[0] in s.fibers && s.fibers[Waiters(s, h)[0]].awaiting != None
    requires CtxsOk(s) && c in s.ctxs && s.fibers[Waiters(s, h)[0]].awaiting.value !in s.hist.serving
    requires s'.fibers == s.fibers && s'.current == s.current && s'.active == s.active && s'.nextCtx == s.nextCtx + 1
    requires c in s'.ctxs && s'.ctxs[c] == s.ctxs[c] && s'.hist.ops == s.hist.ops
    requires s'.hist.serving == s.hist.serving[s.fibers[Waiters(s, h)[0]].awaiting.value := s.nextCtx]
    ensures CtxOk(s', c)
  {
    assert CtxOk(s, c);
    hide CtxsOk;
  }

  lemma AwaitedIsOwn(s: State, f: FiberId)
    requires FibersOk(s) && f in s.fibers && s.fibers[f].awaiting != None
    ensures s.fibers[f].awaiting.value < |s.hist.ops| && s.hist.ops[s.fibers[f].awaiting.value].fiber == f
  {
  }

  lemma NextIsFresh(s: State)
    requires CtxsOk(s)
    ensures s.nextCtx !in s.ctxs
  {
    hide Waiting;
  }

  lemma OnConnectionKeepsContexts(s: State, t: CQ.Thread, h: Ref, status: int)
    requires t !in s.q.sending && h in s.heap.objs && Waiters(s, h) != []
    requires AcceptOk(s) && CtxsOk(s) && FibersOk(s)
    ensures OnConnectionStep(s, t, h, status).Next?
    ensures CtxsOk(OnConnectionStep(s, t, h, status).s)
  {
    HeadIsWaiting(s, h);
    AwaitedIsOwn(s, Waiters(s, h)[0]);
    hide AcceptOk, FibersOk;
    ConnectionMoves(s, t, h, status);
    var s' := OnConnectionStep(s, t, h, status).s;
    hide OnConnectionStep;
    forall c | c in s'.ctxs
      ensures CtxOk(s', c)
    {
      if c != s.nextCtx {
        ConnectionKeepsContext(s, s', h, status, c);
      }
    }
    hide CtxOk;
  }

  lemma OnConnectionKeepsWaits(s: State, t: CQ.Thread, h: Ref, status: int)
    requires t !in s.q.sending && h in s.heap.objs && Waiters(s, h) != []
    requires FibersOk(s) && AcceptOk(s) && CtxsOk(s) && WaitsOk(s)
    requires s.active != None ==> s.active.value in s.ctxs
    ensures OnConnectionStep(s, t, h, status).Next?
    ensures WaitsOk(OnConnectionStep(s, t, h, status).s)
  {
    hide FibersOk, CtxsOk, WaitsOk;
    HeadIsWaiting(s, h);
    OnConnectionKeepsFibers(s, t, h, status);
    hide AcceptOk;
    ConnectionMoves(s, t, h, status);
    NextIsFresh(s);
    hide OnConnectionStep;
    ConnectionKeepsWaits(s, OnConnectionStep(s, t, h, status).s, h, status);
  }

  lemma ConnectionKeepsWaits(s: State, s': State, h: Ref, status: int)
    requires WaitsOk(s) && Waiters(s, h) != []
    requires s.active != None ==> s.active.value != s.nextCtx
    requires s'.fibers == s.fibers && s'.current == s.current && s'.active == s.active && s'.hist.ops == s.hist.ops
    requires var f := Waiters(s, h)[0];
             && f in s.fibers && s.fibers[f].awaiting != None
             && s.nextCtx !in s.ctxs
             && s'.ctxs == s.ctxs[s.nextCtx :=
                  Ctx(f, s.fibers[f].awaiting.value, TcpAccept, Raw(status, [], ""), Some(h))]
             && s'.accept == s.accept[h := Waiters(s, h)[1..]]
             && s'.hist.serving == s.hist.serving[s.fibers[f].awaiting.value := s.nextCtx]
    ensures WaitsOk(s')
  {
  }

  lemma OnConnectionKeepsPlaces(s: State, t: CQ.Thread, h: Ref, status: int)
    requires t !in s.q.sending && h in s.heap.objs && Waiters(s, h) != []
    requires CtxsOk(s) && PlacesOk(s) && OnceQueued(s)
    requires OnConnectionStep(s, t, h, status).Next?
    ensures var s' := OnConnectionStep(s, t, h, status).s; PlacesOk(s') && OnceQueued(s')
  {
    assert s.nextCtx !in s.ctxs;
    assert !Queued(s, s.nextCtx);
    hide CtxsOk, PlacesOk;
    var s' := OnConnectionStep(s, t, h, status).s;
    assert CQ.Contents(s'.q) == CQ.Contents(s.q) + [s.nextCtx];
    DistinctSnoc(CQ.Contents(s.q), s.nextCtx);
    AllocatedQueued(s, s', s.nextCtx);
  }

  // ---------------------------------------------------------------- the drain

  /** The context at the head of the local queue finds its fiber suspended, and its server alive. */
  lemma HeadIsResumable(s: State, accepted: bool)
    requires s.q.phase == CQ.Draining && s.q.local != [] && s.active == None
    requires FibersOk(s) && CtxsOk(s) && PlacesOk(s) && FramesOk(s) && Own.Inv(s.heap)
    ensures ResumeNextStep(s, accepted).Next?
  {
    assert Queued(s, s.q.local[0]);
  }

  /** Building a value touches the heap and the record of minted ids, nothing else. */
  lemma BuildEffect(s: State, x: Ctx, accepted: bool)
    ensures var s1 := Build(s, x, accepted).0;
            s1 == s.(heap := s1.heap, hist := s.hist.(minted := s1.hist.minted))
  {
  }

  lemma ResumeNextKeepsFibers(s: State, accepted: bool)
    requires s.q.phase == CQ.Draining && s.q.local != [] && s.current == MAIN
    requires ResumeNextStep(s, accepted).Next?
    requires FibersOk(s)
    ensures FibersOk(ResumeNextStep(s, accepted).s)
  {
    BuildEffect(s, s.ctxs[s.q.local[0]], accepted);
    hide Build, CreateResultValue;
    ResumeSwitches(s, accepted);
    hide ResumeNextStep;
  }

  lemma ResumeSwitches(s: State, accepted: bool)
    requires s.q.phase == CQ.Draining && s.q.local != [] && ResumeNextStep(s, accepted).Next?
    ensures s.q.local[0] in s.ctxs
    ensures var s', f := ResumeNextStep(s, accepted).s, s.ctxs[s.q.local[0]].fiber;
            && f in s.fibers && s.fibers[f].state == SUSPENDED && f in s'.fibers
            && s'.current == f && s'.active != None && s'.q.phase == CQ.Draining && s'.hist.ops == s.hist.ops
            && s'.fibers == s.fibers[f := s.fibers[f].(state := RUNNING, resumeValue := s'.fibers[f].resumeValue)]
            && s'.hist.life.Keys == s.hist.life.Keys + {f}
  {
    BuildEffect(s, s.ctxs[s.q.local[0]], accepted);
    hide Build, CreateResultValue;
  }

  lemma ResumeNextKeepsAccept(s: State, accepted: bool)
    requires s.q.phase == CQ.Draining && s.q.local != [] && s.active == None && s.current == MAIN
    requires ResumeNextStep(s, accepted).Next?
    requires CtxsOk(s) && AcceptOk(s)
    ensures AcceptOk(ResumeNextStep(s, accepted).s)
  {
    assert s.q.local[0] in s.ctxs;
    BuildEffect(s, s.ctxs[s.q.local[0]], accepted);
    hide Build;
  }

  lemma ResumeNextKeepsContexts(s: State, accepted: bool)
    requires s.q.phase == CQ.Draining && s.q.local != [] && s.active == None && s.current == MAIN
    requires ResumeNextStep(s, accepted).Next?
    requires FibersOk(s) && CtxsOk(s)
    ensures CtxsOk(ResumeNextStep(s, accepted).s)
  {
    BuildEffect(s, s.ctxs[s.q.local[0]], accepted);
    hide Build;
    assert s.q.local[0] in s.ctxs;
  }

  lemma ResumeNextKeepsWaits(s: State, accepted: bool)
    requires s.q.phase == CQ.Draining && s.q.local != [] && s.active == None && s.current == MAIN
    requires ResumeNextStep(s, accepted).Next?
    requires FibersOk(s) && CtxsOk(s) && WaitsOk(s)
    ensures WaitsOk(ResumeNextStep(s, accepted).s)
  {
    BuildEffect(s, s.ctxs[s.q.local[0]], accepted);
    hide Build;
    assert s.q.local[0] in s.ctxs;
  }

  lemma ResumeMoves(s: State, accepted: bool)
    requires s.q.phase == CQ.Draining && s.q.local != [] && ResumeNextStep(s, accepted).Next?
    ensures s.q.local[0] in s.ctxs
    ensures var s', c := ResumeNextStep(s, accepted).s, s.q.local[0];
            && s'.ctxs == s.ctxs && s'.inflight == s.inflight && s'.pending == s.pending && s'.active == Some(c)
            && s'.q.local == s.q.local[1..] && s'.q.shared == s.q.shared
            && s'.hist.ops == s.hist.ops && s'.hist.serving == s.hist.serving && s'.hist.outcome == s.hist.outcome
            && s'.hist.completed == s.hist.completed && s'.hist.resumed == s.hist.resumed + [s.ctxs[c].op]
  {
    BuildEffect(s, s.ctxs[s.q.local[0]], accepted);
    hide Build;
  }

  lemma ResumeNextKeepsOnce(s: State, accepted: bool)
    requires s.q.phase == CQ.Draining && s.q.local != [] && ResumeNextStep(s, accepted).Next? && OnceQueued(s)
    ensures var s' := ResumeNextStep(s, accepted).s;
            OnceQueued(s') && forall d :: Queued(s', d) <==> Queued(s, d) && d != s.q.local[0]
  {
    ResumeMoves(s, accepted);
    hide ResumeNextStep;
    var s', c := ResumeNextStep(s, accepted).s, s.q.local[0];
    assert CQ.Contents(s.q) == [c] + CQ.Contents(s'.q);
    DistinctHead(c, CQ.Contents(s'.q));
    assert forall d :: Queued(s', d) <==> d in CQ.Contents(s'.q);
    assert forall d :: Queued(s, d) <==> d == c || Queued(s', d);
  }

  lemma ResumeNextKeepsPlaces(s: State, accepted: bool)
    requires s.q.phase == CQ.Draining && s.q.local != [] && s.active == None
    requires ResumeNextStep(s, accepted).Next?
    requires PlacesOk(s) && OnceQueued(s)
    ensures var s' := ResumeNextStep(s, accepted).s; PlacesOk(s') && OnceQueued(s')
  {
    ResumeMoves(s, accepted);
    ResumeNextKeepsOnce(s, accepted);
    var s', c := ResumeNextStep(s, accepted).s, s.q.local[0];
    assert Queued(s, c);
    hide ResumeNextStep, Queued, OnceQueued;
    forall d | d in s'.ctxs
      ensures Placed(s', d)
    {
      assert Placed(s, d);
      assert Parked(s, d) ==> Parked(s', d);
    }
  }

  lemma DeleteKeepsContexts(s: State)
    requires s.active != None && CtxsOk(s) && WaitsOk(s) && PlacesOk(s)
    ensures DeleteStep(s).Next?
    ensures var s' := DeleteStep(s).s; CtxsOk(s') && WaitsOk(s')
  {
  }

  lemma DeleteKeepsPlaces(s: State)
    requires s.active != None && PlacesOk(s)
    ensures DeleteStep(s).Next?
    ensures PlacesOk(DeleteStep(s).s)
  {
    var s' := DeleteStep(s).s;
    forall d | d in s'.ctxs
      ensures Placed(s', d)
    {
      assert Placed(s, d);
      assert Parked(s, d) ==> Parked(s', d);
    }
  }
}
