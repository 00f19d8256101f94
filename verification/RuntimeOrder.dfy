/**
 The order of things: operations resume in the order they complete, each completes
 once, and the bytes of a socket are handed out in the order they arrived.
 */
module RuntimeOrder {
  import opened Prelude
  import opened Results
  import opened Runtime
  import opened RuntimeInvariant
  import opened RuntimeHistory
  import Own = Ownership
  import CQ = CompletionQueue

  function OpOf(ctxs: map<CtxId, Ctx>, c: CtxId): OpId {
    if c in ctxs then ctxs[c].op else 0
  }

  function OpsOf(ctxs: map<CtxId, Ctx>, cs: seq<CtxId>): seq<OpId> {
    seq(|cs|, i requires 0 <= i < |cs| => OpOf(ctxs, cs[i]))
  }

  /** Completed operations: those already resumed, then those queued, in queue order. */
  ghost predicate OrderOk(s: State) {
    s.hist.completed == s.hist.resumed + OpsOf(s.ctxs, CQ.Contents(s.q))
  }

  /** A context has an outcome exactly when it has left libuv, and then it is the one it carries. */
  ghost predicate OutcomesOk(s: State) {
    && (forall o :: o in s.hist.outcome ==> o in s.hist.serving)
    && (forall c :: c in s.ctxs && (Queued(s, c) || s.active == Some(c)) ==>
         s.ctxs[c].op in s.hist.outcome && s.hist.outcome[s.ctxs[c].op] == s.ctxs[c].raw)
    && (forall c :: c in s.ctxs && (c in s.inflight || Parked(s, c)) ==> s.ctxs[c].op !in s.hist.outcome)
    && (forall o :: o in s.hist.completed <==> o in s.hist.outcome)
    && Distinct(s.hist.completed)
  }

  /** Nothing the order of operations depends on has changed. */
  ghost predicate SameOrder(s: State, s': State) {
    && s'.ctxs == s.ctxs && s'.inflight == s.inflight && s'.pending == s.pending && s'.active == s.active
    && CQ.Contents(s'.q) == CQ.Contents(s.q)
    && s'.hist.ops == s.hist.ops && s'.hist.serving == s.hist.serving && s'.hist.outcome == s.hist.outcome
    && s'.hist.completed == s.hist.completed && s'.hist.resumed == s.hist.resumed && s'.hist.wire == s.hist.wire
    && s'.hist.minted == s.hist.minted
  }

  predicate MovesOrder(l: Label) {
    l.Start? || l.OnComplete? || l.OnRead? || l.OnConnection? || l.ResumeNext? || l.Delete?
  }

  lemma OrderUntouchedByQueue(q: CQ.Queue, e: CQ.Event)
    requires CQ.Inv(q) && CQ.Enabled(q, e) && !e.Push? && !e.Pop?
    ensures CQ.Contents(CQ.Apply(q, e)) == CQ.Contents(q)
  {
  }

  predicate MovesQueue(l: Label) {
    l.Send? || l.Enter? || l.Swap? || l.Leave?
  }

  lemma OrderUntouchedByScript(s: State, l: Label)
    requires Enabled(s, l) && Apply(s, l).Next? && !MovesOrder(l) && !MovesQueue(l)
    ensures SameOrder(s, Apply(s, l).s)
  {
    hide CQ.Apply, CQ.Enabled, CQ.Contents, ScriptRunning, SameOrder;
    hide Own.Add, Own.Remove, Own.Drop, Own.Copy, Own.AddTls, Own.Get, Unwind, Append;
    SameFieldsSameOrder(s, Apply(s, l).s);
  }

  lemma SameFieldsSameOrder(s: State, s': State)
    requires s'.ctxs == s.ctxs && s'.inflight == s.inflight && s'.pending == s.pending && s'.active == s.active
    requires s'.q == s.q && s'.hist == s.hist.(issued := s'.hist.issued, received := s'.hist.received,
                                               life := s'.hist.life, freedFibers := s'.hist.freedFibers,
                                               abandoned := s'.hist.abandoned)
    ensures SameOrder(s, s')
  {
  }

  lemma OrderUntouched(s: State, l: Label)
    requires CQ.Inv(s.q) && Enabled(s, l) && Apply(s, l).Next? && !MovesOrder(l)
    ensures SameOrder(s, Apply(s, l).s)
  {
    if MovesQueue(l) {
      var e := if l.Send? then CQ.Send(l.t) else if l.Enter? then CQ.Enter else if l.Swap? then CQ.Swap else CQ.Leave;
      OrderUntouchedByQueue(s.q, e);
    } else {
      OrderUntouchedByScript(s, l);
      hide Apply;
    }
  }

  lemma QueuedIsContents(s: State)
    ensures forall c :: Queued(s, c) <==> c in CQ.Contents(s.q)
  {
  }

  lemma OrderFrame(s: State, s': State)
    requires OrderOk(s) && OutcomesOk(s) && SameOrder(s, s')
    ensures OrderOk(s') && OutcomesOk(s')
  {
    QueuedIsContents(s);
    QueuedIsContents(s');
    assert forall c :: Queued(s', c) <==> Queued(s, c);
    hide Queued;
    assert forall c :: Parked(s', c) <==> Parked(s, c);
    hide Parked, Distinct;
  }

  // ---------------------------------------------------------------- allocation

  /** A new context that serves the newest operation is not in the queue and has no outcome. */
  ghost predicate OrderAllocated(s: State, s': State, c: CtxId) {
    && c !in s.ctxs && s'.ctxs.Keys == s.ctxs.Keys + {c} && (forall d :: d in s.ctxs ==> s'.ctxs[d] == s.ctxs[d])
    && s'.ctxs[c].op !in s.hist.outcome
    && s'.q == s.q && s'.active == s.active && s.inflight <= s'.inflight <= s.inflight + {c}
    && (forall h :: h in s'.pending ==> s'.pending[h] == c || (h in s.pending && s'.pending[h] == s.pending[h]))
    && s.hist.ops <= s'.hist.ops && s'.hist.outcome == s.hist.outcome
    && s.hist.serving.Keys <= s'.hist.serving.Keys
    && s'.hist.completed == s.hist.completed && s'.hist.resumed == s.hist.resumed
  }

  /** What OutcomesOk says of one context. */
  lemma AllocationKeepsOutcome(s: State, s': State, c: CtxId, d: CtxId)
    requires OutcomesOk(s) && CtxsOk(s) && PlacesOk(s) && OrderAllocated(s, s', c) && d in s'.ctxs
    ensures Queued(s', d) || s'.active == Some(d) ==>
              s'.ctxs[d].op in s'.hist.outcome && s'.hist.outcome[s'.ctxs[d].op] == s'.ctxs[d].raw
    ensures d in s'.inflight || Parked(s', d) ==> s'.ctxs[d].op !in s'.hist.outcome
  {
    NewIsNowhere(s, c);
    assert Queued(s', d) <==> Queued(s, d);
    hide PlacesOk, Queued;
    if d != c {
      assert d in s.ctxs && s'.ctxs[d] == s.ctxs[d];
      ParkedOnlyNew(s, s', c);
    }
    hide CtxsOk, Parked, Distinct;
  }

  lemma AllocationKeepsOutcomes(s: State, s': State, c: CtxId)
    requires OutcomesOk(s) && CtxsOk(s) && PlacesOk(s) && OrderAllocated(s, s', c)
    ensures OutcomesOk(s')
  {
    LogsCarryOver(s, s', c);
    hide OrderAllocated, CtxsOk, PlacesOk, Queued, Parked, Distinct;
    forall d | d in s'.ctxs
      ensures Queued(s', d) || s'.active == Some(d) ==>
                s'.ctxs[d].op in s'.hist.outcome && s'.hist.outcome[s'.ctxs[d].op] == s'.ctxs[d].raw
      ensures d in s'.inflight || Parked(s', d) ==> s'.ctxs[d].op !in s'.hist.outcome
    {
      AllocationKeepsOutcome(s, s', c, d);
    }
  }

  lemma LogsCarryOver(s: State, s': State, c: CtxId)
    requires OutcomesOk(s) && OrderAllocated(s, s', c)
    ensures forall o :: o in s'.hist.outcome ==> o in s'.hist.serving
    ensures forall o :: o in s'.hist.completed <==> o in s'.hist.outcome
    ensures Distinct(s'.hist.completed)
  {
    hide Queued, Parked, Distinct;
    assert forall o :: o in s.hist.serving ==> o in s.hist.serving.Keys;
  }

  lemma NewIsNowhere(s: State, c: CtxId)
    requires PlacesOk(s) && c !in s.ctxs
    ensures !Queued(s, c) && s.active != Some(c)
  {
  }

  lemma AllocationKeepsOrder(s: State, s': State, c: CtxId)
    requires OrderOk(s) && OutcomesOk(s) && CtxsOk(s) && PlacesOk(s) && OrderAllocated(s, s', c)
    ensures OrderOk(s') && OutcomesOk(s')
  {
    AllocationKeepsOutcomes(s, s', c);
    hide OutcomesOk, CtxsOk;
    assert !Queued(s, c);
    QueuedIsContents(s);
    assert OpsOf(s'.ctxs, CQ.Contents(s'.q)) == OpsOf(s.ctxs, CQ.Contents(s.q));
  }

  lemma ParkedOnlyNew(s: State, s': State, c: CtxId)
    requires CtxsOk(s) && s.hist.ops <= s'.hist.ops
    requires forall d :: d in s.ctxs ==> d in s'.ctxs && s'.ctxs[d] == s.ctxs[d]
    requires forall h :: h in s'.pending ==> s'.pending[h] == c || (h in s.pending && s'.pending[h] == s.pending[h])
    ensures forall d :: d in s.ctxs && d != c && Parked(s', d) ==> Parked(s, d)
  {
    forall d | d in s.ctxs && d != c && Parked(s', d)
      ensures Parked(s, d)
    {
      assert CtxOk(s, d);
    }
  }

  lemma NewOpHasNoOutcome(s: State)
    requires OutcomesOk(s) && CtxsOk(s)
    ensures |s.hist.ops| !in s.hist.outcome && s.nextCtx !in s.ctxs
  {
  }

  lemma OrderBeginRequest(s: State, op: Op)
    requires OrderOk(s) && OutcomesOk(s) && CtxsOk(s) && PlacesOk(s) && s.current in s.fibers
    ensures OrderOk(BeginRequest(s, op)) && OutcomesOk(BeginRequest(s, op))
  {
    hide OrderOk, CtxsOk, PlacesOk, OutcomesOk, Pin, Append;
    NewOpHasNoOutcome(s);
    AllocationKeepsOrder(s, BeginRequest(s, op), s.nextCtx);
  }

  lemma OrderBeginRead(s: State, op: Op, h: Ref)
    requires OrderOk(s) && OutcomesOk(s) && CtxsOk(s) && PlacesOk(s) && s.current in s.fibers
    ensures OrderOk(BeginRead(s, op, h)) && OutcomesOk(BeginRead(s, op, h))
  {
    hide OrderOk, CtxsOk, PlacesOk, OutcomesOk, Pin, Append;
    NewOpHasNoOutcome(s);
    AllocationKeepsOrder(s, BeginRead(s, op, h), s.nextCtx);
  }

  lemma OrderStart(s: State, kind: OpKind, id: Own.Id)
    requires OrderOk(s) && OutcomesOk(s) && CtxsOk(s) && PlacesOk(s) && StartStep(s, kind, id).Next?
    ensures OrderOk(StartStep(s, kind, id).s) && OutcomesOk(StartStep(s, kind, id).s)
  {
    hide OrderOk, CtxsOk, PlacesOk, OutcomesOk, BeginRequest, BeginRead;
    StartCases(s, kind, id);
    var s', op := StartStep(s, kind, id).s, Started(s, kind, id);
    hide StartStep, Started, Target, IsRead;
    if s' == s {
    } else if kind == TcpAccept {
      hide Pin, Append;
      AcceptKeepsOrder(s, s');
    } else if IsRead(kind) {
      OrderBeginRead(s, op, op.handle.value);
    } else {
      OrderBeginRequest(s, op);
    }
  }

  lemma AcceptKeepsOrder(s: State, s': State)
    requires OrderOk(s) && OutcomesOk(s) && CtxsOk(s)
    requires s'.ctxs == s.ctxs && s'.inflight == s.inflight && s'.pending == s.pending && s'.active == s.active
    requires s'.q == s.q && s.hist.ops <= s'.hist.ops && s'.hist.serving == s.hist.serving
    requires s'.hist.outcome == s.hist.outcome
    requires s'.hist.completed == s.hist.completed && s'.hist.resumed == s.hist.resumed
    ensures OrderOk(s') && OutcomesOk(s')
  {
    assert forall d :: d in s.ctxs && Parked(s', d) ==> Parked(s, d) by {
      forall d | d in s.ctxs && Parked(s', d)
        ensures Parked(s, d)
      {
        assert CtxOk(s, d);
      }
    }
    hide CtxsOk, Parked, Distinct;
  }

  // ---------------------------------------------------------------- completion

  /** Contexts may leave libuv and the handles; the rest is as before. */
  lemma ReleaseKeepsOutcomes(s: State, s1: State)
    requires OutcomesOk(s) && s1.ctxs == s.ctxs && s1.inflight <= s.inflight && s1.hist.ops == s.hist.ops
    requires forall h :: h in s1.pending ==> h in s.pending && s1.pending[h] == s.pending[h]
    requires s1.q == s.q && s1.active == s.active
    requires s1.hist.outcome == s.hist.outcome && s1.hist.serving == s.hist.serving
    requires s1.hist.completed == s.hist.completed
    ensures OutcomesOk(s1)
  {
    assert forall d :: Parked(s1, d) ==> Parked(s, d);
    hide Parked, Distinct;
  }

  /** A context that libuv has let go of, about to be queued. */
  ghost predicate Loose(s: State, c: CtxId) {
    && c in s.ctxs && c !in s.inflight && !Parked(s, c) && !Queued(s, c) && s.active != Some(c)
    && s.ctxs[c].op !in s.hist.outcome && s.ctxs[c].op in s.hist.serving
    && forall d :: d in s.ctxs && d != c ==> s.ctxs[d].op != s.ctxs[c].op
  }

  lemma CompleteKeepsOrder(s: State, t: CQ.Thread, c: CtxId, raw: Raw)
    requires OrderOk(s) && t !in s.q.sending && Loose(s, c)
    ensures OrderOk(Complete(s, t, c, raw))
  {
    var s' := Complete(s, t, c, raw);
    assert CQ.Contents(s'.q) == CQ.Contents(s.q) + [c];
    assert OpsOf(s'.ctxs, CQ.Contents(s'.q)) == OpsOf(s.ctxs, CQ.Contents(s.q)) + [s.ctxs[c].op];
  }

  lemma CompleteKeepsOutcomes(s: State, t: CQ.Thread, c: CtxId, raw: Raw)
    requires OutcomesOk(s) && t !in s.q.sending && Loose(s, c)
    ensures OutcomesOk(Complete(s, t, c, raw))
  {
    var s' := Complete(s, t, c, raw);
    DistinctSnoc(s.hist.completed, s.ctxs[c].op);
    assert forall d :: Queued(s', d) <==> d == c || Queued(s, d);
    hide Queued;
    assert forall d :: Parked(s', d) <==> Parked(s, d);
    hide Parked, Distinct;
  }

  lemma UniqueOp(s: State, c: CtxId)
    requires CtxsOk(s) && c in s.ctxs
    ensures forall d :: d in s.ctxs && d != c ==> s.ctxs[d].op != s.ctxs[c].op
    ensures s.ctxs[c].op in s.hist.serving
  {
    assert CtxOk(s, c);
    forall d | d in s.ctxs && d != c
      ensures s.ctxs[d].op != s.ctxs[c].op
    {
      assert CtxOk(s, d);
    }
  }

  lemma OrderComplete(s: State, t: CQ.Thread, c: CtxId, raw: Raw)
    requires OrderOk(s) && OutcomesOk(s) && CtxsOk(s) && PlacesOk(s)
    requires t !in s.q.sending && c in s.inflight
    ensures OnCompleteStep(s, t, c, raw).Next?
    ensures var s' := OnCompleteStep(s, t, c, raw).s; OrderOk(s') && OutcomesOk(s')
  {
    var s1 := s.(inflight := s.inflight - {c});
    UniqueOp(s, c);
    assert Loose(s1, c) by {
      hide CtxsOk, OrderOk, Distinct;
    }
    hide CtxsOk, PlacesOk, OrderOk, OutcomesOk, Complete, Loose;
    ReleaseKeepsOutcomes(s, s1);
    OrderLooks(s, s1);
    CompleteKeepsOrder(s1, t, c, raw);
    CompleteKeepsOutcomes(s1, t, c, raw);
  }

  lemma OrderLooks(s: State, s1: State)
    requires OrderOk(s) && s1.ctxs == s.ctxs && s1.q == s.q
    requires s1.hist.completed == s.hist.completed && s1.hist.resumed == s.hist.resumed
    ensures OrderOk(s1)
  {
  }

  lemma ReadIsLoose(s: State, s1: State, h: Ref)
    requires OutcomesOk(s) && CtxsOk(s) && PlacesOk(s) && h in s.pending
    requires s1.ctxs == s.ctxs && s1.inflight == s.inflight && s1.pending == s.pending - {h}
    requires s1.q == s.q && s1.active == s.active && s1.hist.ops == s.hist.ops
    requires s1.hist.outcome == s.hist.outcome && s1.hist.serving == s.hist.serving
    ensures Loose(s1, s.pending[h])
  {
    var c := s.pending[h];
    UniqueOp(s, c);
    hide CtxsOk, Distinct;
    assert Parked(s, c) && !Parked(s1, c);
    assert c !in s.inflight;
  }

  lemma OrderRead(s: State, t: CQ.Thread, h: Ref, raw: Raw)
    requires OrderOk(s) && OutcomesOk(s) && CtxsOk(s) && PlacesOk(s)
    requires t !in s.q.sending && OnReadStep(s, t, h, raw).Next?
    ensures var s' := OnReadStep(s, t, h, raw).s; OrderOk(s') && OutcomesOk(s')
  {
    hide CtxsOk, PlacesOk, OrderOk, OutcomesOk, Complete, Loose;
    var c := s.pending[h];
    var s1 := s.(reading := s.reading - {h}, pending := s.pending - {h},
                 hist := s.hist.(wire := s.hist.wire[h := Log(s.hist.wire, h) + raw.bytes]));
    ReadIsLoose(s, s1, h);
    ReleaseKeepsOutcomes(s, s1);
    OrderLooks(s, s1);
    CompleteKeepsOrder(s1, t, c, raw);
    CompleteKeepsOutcomes(s1, t, c, raw);
  }

  lemma OrderConnection(s: State, t: CQ.Thread, h: Ref, status: int)
    requires OrderOk(s) && OutcomesOk(s) && CtxsOk(s) && PlacesOk(s) && AcceptOk(s)
    requires t !in s.q.sending && OnConnectionStep(s, t, h, status).Next?
    ensures var s' := OnConnectionStep(s, t, h, status).s; OrderOk(s') && OutcomesOk(s')
  {
    hide CtxsOk, PlacesOk, OrderOk, Complete, Loose;
    if Waiters(s, h) != [] {
      HeadIsWaiting(s, h);
      NewOpHasNoOutcome(s);
      var o := s.fibers[Waiters(s, h)[0]].awaiting.value;
      assert o !in s.hist.outcome;
      hide OutcomesOk, AcceptOk;
      var s1 := Admit(s, h, Waiters(s, h)[0], o);
      FreshIsLoose(s, s1, s.nextCtx);
      AllocationKeepsOrder(s, s1, s.nextCtx);
      CompleteKeepsOrder(s1, t, s.nextCtx, Raw(status, [], ""));
      CompleteKeepsOutcomes(s1, t, s.nextCtx, Raw(status, [], ""));
    }
  }

  lemma FreshIsLoose(s: State, s1: State, c: CtxId)
    requires CtxsOk(s) && PlacesOk(s) && c !in s.ctxs
    requires s1.ctxs.Keys == s.ctxs.Keys + {c} && forall d :: d in s.ctxs ==> s1.ctxs[d] == s.ctxs[d]
    requires s1.inflight == s.inflight && s1.pending == s.pending && s1.q == s.q && s1.active == s.active
    requires s1.ctxs[c].op !in s1.hist.outcome && s1.ctxs[c].op in s1.hist.serving && s1.ctxs[c].op !in s.hist.serving
    ensures Loose(s1, c)
  {
    assert !Queued(s, c);
    forall d | d in s1.ctxs && d != c
      ensures s1.ctxs[d].op != s1.ctxs[c].op
    {
      assert CtxOk(s, d);
    }
  }

  // ---------------------------------------------------------------- the drain

  lemma OrderResume(s: State, accepted: bool)
    requires OrderOk(s)
    requires s.q.phase == CQ.Draining && s.q.local != [] && ResumeNextStep(s, accepted).Next?
    ensures OrderOk(ResumeNextStep(s, accepted).s)
  {
    ResumeMoves(s, accepted);
    hide ResumeNextStep;
    var c, s' := s.q.local[0], ResumeNextStep(s, accepted).s;
    assert CQ.Contents(s.q) == [c] + CQ.Contents(s'.q);
    assert OpsOf(s.ctxs, CQ.Contents(s.q)) == [s.ctxs[c].op] + OpsOf(s.ctxs, CQ.Contents(s'.q));
  }

  lemma OutcomesResume(s: State, accepted: bool)
    requires OutcomesOk(s)
    requires s.q.phase == CQ.Draining && s.q.local != [] && ResumeNextStep(s, accepted).Next?
    ensures OutcomesOk(ResumeNextStep(s, accepted).s)
  {
    ResumeMoves(s, accepted);
    hide ResumeNextStep;
    var s' := ResumeNextStep(s, accepted).s;
    assert forall d :: Queued(s', d) ==> Queued(s, d);
    assert Queued(s, s.q.local[0]);
    assert forall d :: Parked(s', d) <==> Parked(s, d);
    hide Parked, Distinct, Queued;
  }

  lemma OrderDelete(s: State)
    requires OrderOk(s) && PlacesOk(s) && s.active != None && DeleteStep(s).Next?
    ensures OrderOk(DeleteStep(s).s)
  {
    var s' := DeleteStep(s).s;
    assert !Queued(s, s.active.value);
    hide PlacesOk;
    QueuedIsContents(s);
    assert OpsOf(s'.ctxs, CQ.Contents(s.q)) == OpsOf(s.ctxs, CQ.Contents(s.q));
  }

  lemma OutcomesDelete(s: State)
    requires OutcomesOk(s) && s.active != None && DeleteStep(s).Next?
    ensures OutcomesOk(DeleteStep(s).s)
  {
    var s' := DeleteStep(s).s;
    assert forall d :: Queued(s', d) <==> Queued(s, d);
    hide Queued;
    assert forall d :: Parked(s', d) ==> Parked(s, d);
    hide Parked, Distinct;
  }

  lemma OrderKept(s: State, l: Label)
    requires Core(s) && OrderOk(s) && OutcomesOk(s) && Enabled(s, l) && Apply(s, l).Next?
    ensures OrderOk(Apply(s, l).s) && OutcomesOk(Apply(s, l).s)
  {
    hide FibersOk, CtxsOk, WaitsOk, AcceptOk, PlacesOk, OnceQueued, FramesOk, ReadingOk, Own.Inv, CQ.Inv;
    hide OrderOk, OutcomesOk;
    hide StartStep, OnCompleteStep, OnReadStep, OnConnectionStep, ResumeNextStep, DeleteStep;
    if l.Start? {
      OrderStart(s, l.kind, l.id);
    } else if l.OnComplete? {
      OrderComplete(s, l.t, l.c, l.raw);
    } else if l.OnRead? {
      OrderRead(s, l.t, l.h, l.raw);
    } else if l.OnConnection? {
      OrderConnection(s, l.t, l.h, l.status);
    } else if l.ResumeNext? {
      OrderResume(s, l.accepted);
      OutcomesResume(s, l.accepted);
    } else if l.Delete? {
      OrderDelete(s);
      OutcomesDelete(s);
    } else {
      OrderUntouched(s, l);
      hide Apply;
      OrderFrame(s, Apply(s, l).s);
    }
  }

  // ---------------------------------------------------------------- byte streams

  /** What operation `o` delivered from socket `h`. */
  function BytesOn(hist: History, h: Ref, o: OpId): seq<Byte> {
    if o < |hist.ops| && IsRead(hist.ops[o].kind) && hist.ops[o].handle == Some(h) && o in hist.outcome
    then hist.outcome[o].bytes else []
  }

  /** What a sequence of operations delivered from socket `h`, end to end. */
  function StreamOf(hist: History, h: Ref, os: seq<OpId>): seq<Byte> {
    if os == [] then [] else StreamOf(hist, h, os[..|os| - 1]) + BytesOn(hist, h, os[|os| - 1])
  }

  /** The bytes libuv delivered for a socket are those of the reads completed on it, in that order. */
  ghost predicate WireOk(s: State) {
    && (forall h: Ref :: Log(s.hist.wire, h) == StreamOf(s.hist, h, s.hist.completed))
    && (forall o :: o in s.hist.outcome && o < |s.hist.ops| && IsRead(s.hist.ops[o].kind) ==>
         RawFits(s.hist.outcome[o]))
  }

  lemma {:induction false} StreamConcat(hist: History, h: Ref, a: seq<OpId>, b: seq<OpId>)
    ensures StreamOf(hist, h, a + b) == StreamOf(hist, h, a) + StreamOf(hist, h, b)
    decreases b
  {
    hide BytesOn;
    if b == [] {
      assert a + b == a;
    } else {
      var b', o := b[..|b| - 1], b[|b| - 1];
      StreamConcat(hist, h, a, b');
      assert (a + b)[..|a + b| - 1] == a + b' && (a + b)[|a + b| - 1] == o;
      assert StreamOf(hist, h, a) + StreamOf(hist, h, b') + BytesOn(hist, h, o)
          == StreamOf(hist, h, a) + (StreamOf(hist, h, b') + BytesOn(hist, h, o));
    }
  }

  lemma {:induction false} StreamFrame(hist: History, hist': History, h: Ref, os: seq<OpId>)
    requires forall o :: o in os ==> BytesOn(hist, h, o) == BytesOn(hist', h, o)
    ensures StreamOf(hist, h, os) == StreamOf(hist', h, os)
    decreases os
  {
    if os != [] {
      StreamFrame(hist, hist', h, os[..|os| - 1]);
    }
  }

  /** Old deliveries stay what they are when operations and outcomes are only added. */
  lemma WireStable(s: State, hist': History, h: Ref)
    requires OutcomesOk(s) && CtxsOk(s)
    requires s.hist.ops <= hist'.ops
    requires forall o :: o in s.hist.outcome ==> o in hist'.outcome && hist'.outcome[o] == s.hist.outcome[o]
    ensures StreamOf(hist', h, s.hist.completed) == StreamOf(s.hist, h, s.hist.completed)
  {
    forall o | o in s.hist.completed
      ensures BytesOn(s.hist, h, o) == BytesOn(hist', h, o)
    {
      assert o in s.hist.outcome;
    }
    StreamFrame(s.hist, hist', h, s.hist.completed);
  }

  /** Completions of anything but a read deliver no bytes. */
  lemma WireComplete(s: State, s': State, o: OpId, raw: Raw)
    requires OutcomesOk(s) && CtxsOk(s) && WireOk(s)
    requires o < |s.hist.ops| && o !in s.hist.outcome && s.hist.ops == s'.hist.ops
    requires IsRead(s.hist.ops[o].kind) ==> RawFits(raw)
    requires s'.hist.outcome == s.hist.outcome[o := raw] && s'.hist.completed == s.hist.completed + [o]
    requires forall h: Ref :: Log(s'.hist.wire, h) ==
               Log(s.hist.wire, h)
               + (if IsRead(s.hist.ops[o].kind) && s.hist.ops[o].handle == Some(h) then raw.bytes else [])
    ensures WireOk(s')
  {
    hide CtxsOk;
    assert forall o :: o in s.hist.outcome ==> o in s.hist.completed;
    hide OutcomesOk;
    forall h: Ref
      ensures Log(s'.hist.wire, h) == StreamOf(s'.hist, h, s'.hist.completed)
    {
      WireStable(s, s'.hist, h);
      assert s'.hist.completed[..|s'.hist.completed| - 1] == s.hist.completed;
      assert StreamOf(s'.hist, h, s'.hist.completed) == StreamOf(s'.hist, h, s.hist.completed) + BytesOn(s'.hist, h, o);
    }
  }

  lemma WireFrame(s: State, s': State)
    requires WireOk(s) && OutcomesOk(s) && CtxsOk(s)
    requires s.hist.ops <= s'.hist.ops && s'.hist.outcome == s.hist.outcome
    requires s'.hist.completed == s.hist.completed && s'.hist.wire == s.hist.wire
    ensures WireOk(s')
  {
    assert forall o :: o in s.hist.outcome ==> o < |s.hist.ops| && s'.hist.ops[o] == s.hist.ops[o];
    hide CtxsOk, OutcomesOk;
    forall h: Ref
      ensures Log(s'.hist.wire, h) == StreamOf(s'.hist, h, s'.hist.completed)
    {
      WireStable(s, s'.hist, h);
    }
  }

  lemma WireStart(s: State, kind: OpKind, id: Own.Id)
    requires WireOk(s) && OutcomesOk(s) && CtxsOk(s) && StartStep(s, kind, id).Next?
    ensures WireOk(StartStep(s, kind, id).s)
  {
    StartCases(s, kind, id);
    hide StartStep, Started, Pin, WireOk, OutcomesOk, CtxsOk, Target, IsRead;
    WireFrame(s, StartStep(s, kind, id).s);
  }

  lemma WireOnComplete(s: State, t: CQ.Thread, c: CtxId, raw: Raw)
    requires WireOk(s) && OutcomesOk(s) && CtxsOk(s) && PlacesOk(s)
    requires t !in s.q.sending && c in s.inflight && OnCompleteStep(s, t, c, raw).Next?
    ensures WireOk(OnCompleteStep(s, t, c, raw).s)
  {
    assert CtxOk(s, c) && s.ctxs[c].op !in s.hist.outcome;
    hide WireOk, OutcomesOk, CtxsOk;
    WireComplete(s, OnCompleteStep(s, t, c, raw).s, s.ctxs[c].op, raw);
  }

  lemma WireOnRead(s: State, t: CQ.Thread, h: Ref, raw: Raw)
    requires WireOk(s) && OutcomesOk(s) && CtxsOk(s) && PlacesOk(s)
    requires t !in s.q.sending && OnReadStep(s, t, h, raw).Next? && RawFits(raw)
    ensures WireOk(OnReadStep(s, t, h, raw).s)
  {
    var c := s.pending[h];
    assert CtxOk(s, c) && Parked(s, c) && s.ctxs[c].op !in s.hist.outcome;
    hide WireOk, OutcomesOk, CtxsOk;
    WireComplete(s, OnReadStep(s, t, h, raw).s, s.ctxs[c].op, raw);
  }

  lemma WireOnConnection(s: State, t: CQ.Thread, h: Ref, status: int)
    requires WireOk(s) && OutcomesOk(s) && CtxsOk(s) && AcceptOk(s)
    requires t !in s.q.sending && OnConnectionStep(s, t, h, status).Next?
    ensures WireOk(OnConnectionStep(s, t, h, status).s)
  {
    if Waiters(s, h) != [] {
      HeadIsWaiting(s, h);
      var o := s.fibers[Waiters(s, h)[0]].awaiting.value;
      assert o !in s.hist.outcome;
      hide WireOk, OutcomesOk, CtxsOk, AcceptOk;
      WireComplete(s, OnConnectionStep(s, t, h, status).s, o, Raw(status, [], ""));
    }
  }

  lemma WireResume(s: State, accepted: bool)
    requires WireOk(s) && OutcomesOk(s) && CtxsOk(s)
    requires s.q.phase == CQ.Draining && s.q.local != [] && ResumeNextStep(s, accepted).Next?
    ensures WireOk(ResumeNextStep(s, accepted).s)
  {
    BuildEffect(s, s.ctxs[s.q.local[0]], accepted);
    hide Build, WireOk, OutcomesOk, CtxsOk;
    WireFrame(s, ResumeNextStep(s, accepted).s);
  }

  lemma WireDelete(s: State)
    requires WireOk(s) && OutcomesOk(s) && CtxsOk(s) && DeleteStep(s).Next?
    ensures WireOk(DeleteStep(s).s)
  {
    hide WireOk, OutcomesOk, CtxsOk;
    WireFrame(s, DeleteStep(s).s);
  }

  lemma WireKept(s: State, l: Label)
    requires Core(s) && OutcomesOk(s) && WireOk(s) && Enabled(s, l) && Apply(s, l).Next?
    ensures WireOk(Apply(s, l).s)
  {
    hide FibersOk, WaitsOk, OnceQueued, FramesOk, ReadingOk, Own.Inv, CQ.Inv, OutcomesOk, CtxsOk, PlacesOk;
    hide AcceptOk, WireOk;
    hide StartStep, OnCompleteStep, OnReadStep, OnConnectionStep, ResumeNextStep, DeleteStep;
    if l.Start? {
      WireStart(s, l.kind, l.id);
    } else if l.OnComplete? {
      WireOnComplete(s, l.t, l.c, l.raw);
    } else if l.OnRead? {
      WireOnRead(s, l.t, l.h, l.raw);
    } else if l.OnConnection? {
      WireOnConnection(s, l.t, l.h, l.status);
    } else if l.ResumeNext? {
      WireResume(s, l.accepted);
    } else if l.Delete? {
      WireDelete(s);
    } else {
      OrderUntouched(s, l);
      hide Apply;
      WireFrame(s, Apply(s, l).s);
    }
  }
}
