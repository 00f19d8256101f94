/** What every run has done so far: the logs of `History`, and what they always satisfy. */
module RuntimeHistory {
  import opened Prelude
  import opened Results
  import opened Runtime
  import opened RuntimeInvariant
  import opened RuntimeSafety
  import Own = Ownership
  import CQ = CompletionQueue

  // ---------------------------------------------------------------- effects of a start

  /** The operation that Start(kind, id) would record. */
  function Started(s: State, kind: OpKind, id: Own.Id): Op {
    Op(s.current, kind, id, if Target(kind) == None then None else Own.Get(s.heap, id, Target(kind).value))
  }

  /** A start is refused without a trace, or is one of the three beginnings. */
  lemma StartCases(s: State, kind: OpKind, id: Own.Id)
    requires StartStep(s, kind, id).Next?
    ensures s.current in s.fibers
    ensures var s', op := StartStep(s, kind, id).s, Started(s, kind, id);
            || s' == s
            || (kind != TcpAccept && !IsRead(kind) && s' == BeginRequest(s, op))
            || (IsRead(kind) && op.handle != None && op.handle.value !in s.pending
                && s' == BeginRead(s, op, op.handle.value))
            || (kind == TcpAccept && op.handle != None && s' == BeginAccept(s, op, op.handle.value))
  {
    hide BeginRequest, BeginRead, BeginAccept, Own.Get;
  }

  /** However an operation begins, its fiber is suspended in it and the logs grow by it. */
  ghost predicate Suspends(s: State, s': State, op: Op)
    requires s.current in s.fibers
  {
    var f, o := s.current, |s.hist.ops|;
    && s'.fibers == s.fibers[f := s.fibers[f].(state := SUSPENDED, awaiting := Some(o))]
    && s'.current == MAIN && s'.active == s.active && s'.q == s.q
    && s'.hist == s.hist.(ops := s.hist.ops + [op],
                          issued := Append(s.hist.issued, f, o),
                          life := Append(s.hist.life, f, SUSPENDED),
                          serving := s'.hist.serving,
                          joined := s'.hist.joined)
  }

  lemma StartSuspends(s: State, kind: OpKind, id: Own.Id)
    requires StartStep(s, kind, id).Next?
    ensures s.current in s.fibers
    ensures StartStep(s, kind, id).s == s || Suspends(s, StartStep(s, kind, id).s, Started(s, kind, id))
  {
    StartCases(s, kind, id);
    hide StartStep, Started, Pin;
  }

  // ---------------------------------------------------------------- accept queues

  /** Fibers ever pushed on a server's accept queue: those popped by connections, then those still there. */
  ghost predicate AcceptLogOk(s: State) {
    forall h: Ref :: Log(s.hist.joined, h) == Log(s.hist.served, h) + Waiters(s, h)
  }

  ghost predicate SameAcceptLog(s: State, s': State) {
    s'.accept == s.accept && s'.hist.joined == s.hist.joined && s'.hist.served == s.hist.served
  }

  lemma AcceptLogUntouchedByLoop(s: State, l: Label)
    requires Enabled(s, l) && Apply(s, l).Next? && (l.OnComplete? || l.OnRead? || l.ResumeNext?)
    ensures SameAcceptLog(s, Apply(s, l).s)
  {
    hide CQ.Apply, CreateResultValue, Append, Log, RawFits, Own.Add;
  }

  lemma AcceptLogUntouched(s: State, l: Label)
    requires Enabled(s, l) && Apply(s, l).Next? && !l.Start? && !l.OnConnection?
    ensures SameAcceptLog(s, Apply(s, l).s)
  {
    if l.OnComplete? || l.OnRead? || l.ResumeNext? {
      AcceptLogUntouchedByLoop(s, l);
      hide Apply, Enabled, SameAcceptLog;
    } else {
      AcceptLogUntouchedByScript(s, l);
      hide Apply, Enabled, SameAcceptLog;
    }
  }

  lemma AcceptLogUntouchedByScript(s: State, l: Label)
    requires Enabled(s, l) && Apply(s, l).Next?
    requires !l.Start? && !l.OnComplete? && !l.OnRead? && !l.OnConnection? && !l.ResumeNext?
    ensures SameAcceptLog(s, Apply(s, l).s)
  {
    hide Enabled, Apply, SameAcceptLog;
    if l.FiberRun? || l.Return? || l.Finish? || l.Delete? {
      AcceptLogUntouchedByFibers(s, l);
    } else {
      AcceptLogUntouchedByHandles(s, l);
    }
  }

  lemma AcceptLogUntouchedByFibers(s: State, l: Label)
    requires Enabled(s, l) && Apply(s, l).Next? && (l.FiberRun? || l.Return? || l.Finish? || l.Delete?)
    ensures SameAcceptLog(s, Apply(s, l).s)
  {
    hide Enabled, TryStart, ListenStep, FreeStep, CreateTlsStep, HoldStep, CloseStep, Unwind, Append;
    hide OnCompleteStep, OnReadStep, OnConnectionStep, ResumeNextStep;
  }

  lemma AcceptLogUntouchedByHandles(s: State, l: Label)
    requires Enabled(s, l) && Apply(s, l).Next? && !l.FiberRun? && !l.Return? && !l.Finish? && !l.Delete?
    requires !l.Start? && !l.OnComplete? && !l.OnRead? && !l.OnConnection? && !l.ResumeNext?
    ensures SameAcceptLog(s, Apply(s, l).s)
  {
    hide Enabled, TryStart, FiberRunStep, ReturnStep, FinishStep, DeleteStep, OpenListener, CQ.Apply;
    hide OnCompleteStep, OnReadStep, OnConnectionStep, ResumeNextStep;
    hide Own.Add, Own.Remove, Own.Drop, Own.Copy, Own.AddTls, Own.Get;
  }

  lemma AcceptLogBegin(s: State, op: Op, h: Ref)
    requires AcceptLogOk(s) && s.current in s.fibers
    ensures AcceptLogOk(BeginAccept(s, op, h))
  {
    var s' := BeginAccept(s, op, h);
    assert s'.hist.joined == Append(s.hist.joined, h, s.current) && s'.hist.served == s.hist.served;
    assert s'.accept == s.accept[h := Waiters(s, h) + [s.current]];
    hide BeginAccept;
    assert Log(s.hist.joined, h) + [s.current] == Log(s.hist.served, h) + (Waiters(s, h) + [s.current]);
  }

  lemma AcceptLogStart(s: State, kind: OpKind, id: Own.Id)
    requires AcceptLogOk(s) && StartStep(s, kind, id).Next?
    ensures AcceptLogOk(StartStep(s, kind, id).s)
  {
    StartCases(s, kind, id);
    var s', op := StartStep(s, kind, id).s, Started(s, kind, id);
    hide StartStep, Started, Pin;
    if s' != s && kind == TcpAccept {
      hide AcceptLogOk, BeginAccept;
      AcceptLogBegin(s, op, op.handle.value);
    } else {
      hide Append;
      assert s'.accept == s.accept && s'.hist.joined == s.hist.joined && s'.hist.served == s.hist.served;
      hide BeginRequest, BeginRead, BeginAccept;
    }
  }

  lemma AcceptLogConnection(s: State, t: CQ.Thread, h: Ref, status: int)
    requires AcceptLogOk(s) && t !in s.q.sending && OnConnectionStep(s, t, h, status).Next?
    ensures AcceptLogOk(OnConnectionStep(s, t, h, status).s)
  {
    var s' := OnConnectionStep(s, t, h, status).s;
    if Waiters(s, h) != [] {
      assert Waiters(s, h) == [Waiters(s, h)[0]] + Waiters(s', h);
    }
  }

  lemma AcceptLogKept(s: State, l: Label)
    requires AcceptLogOk(s) && Enabled(s, l) && Apply(s, l).Next?
    ensures AcceptLogOk(Apply(s, l).s)
  {
    hide StartStep, OnConnectionStep;
    match l {
      case Start(k, id, _) => AcceptLogStart(s, k, id);
      case OnConnection(t, h, status) => AcceptLogConnection(s, t, h, status);
      case _ => AcceptLogUntouched(s, l); hide Apply;
    }
  }

  // ---------------------------------------------------------------- lives of fibers

  predicate Follows(a: FiberState, b: FiberState) {
    match a
    case NEW => b == RUNNING
    case RUNNING => b == SUSPENDED || b == DONE
    case SUSPENDED => b == RUNNING
    case DONE => false
  }

  /** NEW, RUNNING, then SUSPENDED and RUNNING in turn, then possibly DONE. */
  ghost predicate ProperLife(states: seq<FiberState>) {
    && |states| >= 2 && states[0] == NEW
    && forall i :: 0 <= i < |states| - 1 ==> Follows(states[i], states[i + 1])
  }

  /** The life of `f` ends in its present state, or in DONE once it is deleted. */
  ghost predicate LifeOk(s: State, f: FiberId)
    requires f in s.hist.life
  {
    && ProperLife(s.hist.life[f])
    && s.hist.life[f][|s.hist.life[f]| - 1] == (if f in s.fibers then s.fibers[f].state else DONE)
  }

  ghost predicate LivesOk(s: State) {
    && (forall f :: f in s.fibers ==> f in s.hist.life)
    && (forall f :: f in s.hist.life ==> LifeOk(s, f))
    && (forall f: FiberId :: f in s.hist.freedFibers <==> f in s.hist.life && f !in s.fibers)
    && Distinct(s.hist.freedFibers)
  }

  lemma ProperLifeGrows(states: seq<FiberState>, st: FiberState)
    requires ProperLife(states) && Follows(states[|states| - 1], st)
    ensures ProperLife(states + [st])
  {
  }

  lemma LivesFrame(s: State, s': State)
    requires LivesOk(s) && SameLives(s, s')
    ensures LivesOk(s')
  {
    hide ProperLife, Distinct;
    assert forall f :: f in s'.fibers <==> f in s'.fibers.Keys;
    forall f | f in s'.hist.life
      ensures LifeOk(s', f)
    {
      assert LifeOk(s, f);
    }
  }

  /** The fibers, their states and the record of their lives. */
  ghost predicate SameLives(s: State, s': State) {
    && s'.fibers.Keys == s.fibers.Keys
    && (forall f :: f in s.fibers ==> s'.fibers[f].state == s.fibers[f].state)
    && s'.hist.life == s.hist.life && s'.hist.freedFibers == s.hist.freedFibers
  }

  lemma LivesUntouchedByCallback(s: State, l: Label)
    requires Enabled(s, l) && Apply(s, l).Next? && (l.OnComplete? || l.OnRead? || l.OnConnection?)
    ensures SameLives(s, Apply(s, l).s)
  {
    hide CQ.Apply, CQ.Enabled, Append, Log, RawFits;
  }

  lemma LivesUntouchedByScript(s: State, l: Label)
    requires Enabled(s, l) && Apply(s, l).Next?
    requires l.Create? || l.Listen? || l.CreateTls? || l.Hold? || l.LetGo? || l.Close? || l.Free?
    ensures Apply(s, l).s.fibers == s.fibers && SameLives(s, Apply(s, l).s)
  {
    hide ScriptRunning, OpenListener, Own.Add, Own.Remove, Own.Drop, Own.Copy, Own.AddTls, Own.Get;
  }

  lemma LivesUntouched(s: State, l: Label)
    requires Enabled(s, l) && Apply(s, l).Next?
    requires !l.FiberRun? && !l.Start? && !l.Finish? && !l.ResumeNext?
    ensures SameLives(s, Apply(s, l).s)
  {
    if l.OnComplete? || l.OnRead? || l.OnConnection? {
      LivesUntouchedByCallback(s, l);
      hide Apply, Enabled, SameLives;
    } else if l.Return? || l.Send? || l.Enter? || l.Swap? || l.Delete? || l.Leave? {
      hide CQ.Apply, CQ.Enabled, Unwind, Append, ScriptRunning;
    } else {
      LivesUntouchedByScript(s, l);
      hide Apply, Enabled, SameLives;
    }
  }

  /** One more state at the end of one life. */
  lemma LivesMove(s: State, s': State, f: FiberId, st: FiberState)
    requires LivesOk(s) && f in s.fibers && Follows(s.fibers[f].state, st) && st != DONE
    requires s'.fibers.Keys == s.fibers.Keys && s'.fibers[f].state == st
    requires forall g :: g in s.fibers && g != f ==> s'.fibers[g].state == s.fibers[g].state
    requires s'.hist.life == Append(s.hist.life, f, st) && s'.hist.freedFibers == s.hist.freedFibers
    ensures LivesOk(s')
  {
    hide Distinct;
    assert LifeOk(s, f);
    ProperLifeGrows(s.hist.life[f], st);
    hide ProperLife, Follows;
    assert s'.hist.life == s.hist.life[f := s.hist.life[f] + [st]];
    assert forall g :: g in s'.fibers <==> g in s'.fibers.Keys;
    forall g | g in s'.hist.life
      ensures LifeOk(s', g)
    {
      if g != f {
        assert LifeOk(s, g);
      }
    }
  }

  lemma LivesEnd(s: State)
    requires LivesOk(s) && s.current in s.fibers && s.fibers[s.current].state == RUNNING
    ensures LivesOk(FinishStep(s).s)
  {
    var f, s' := s.current, FinishStep(s).s;
    assert LifeOk(s, f);
    ProperLifeGrows(s.hist.life[f], DONE);
    DistinctSnoc(s.hist.freedFibers, f);
    hide ProperLife, Distinct;
    forall g | g in s'.hist.life
      ensures LifeOk(s', g)
    {
      assert LifeOk(s, g);
    }
  }

  lemma LivesBegin(s: State, f: FiberId)
    requires LivesOk(s) && f !in s.hist.life
    ensures LivesOk(FiberRunStep(s, f).s)
  {
    assert ProperLife([NEW, RUNNING]);
    hide ProperLife, Distinct;
    var s' := FiberRunStep(s, f).s;
    forall g | g in s'.hist.life
      ensures LifeOk(s', g)
    {
      if g != f {
        assert LifeOk(s, g);
      }
    }
  }

  lemma LivesStart(s: State, kind: OpKind, id: Own.Id)
    requires FibersOk(s) && LivesOk(s) && StartStep(s, kind, id).Next?
    ensures LivesOk(StartStep(s, kind, id).s)
  {
    StartSuspends(s, kind, id);
    var s' := StartStep(s, kind, id).s;
    assert s.fibers[s.current].state == RUNNING;
    hide StartStep, Started, FibersOk, LivesOk;
    if s' != s {
      LivesMove(s, s', s.current, SUSPENDED);
    }
  }

  lemma LivesResume(s: State, accepted: bool)
    requires LivesOk(s) && s.q.phase == CQ.Draining && s.q.local != [] && ResumeNextStep(s, accepted).Next?
    ensures LivesOk(ResumeNextStep(s, accepted).s)
  {
    var x := s.ctxs[s.q.local[0]];
    BuildEffect(s, x, accepted);
    hide Build, LivesOk;
    LivesMove(s, ResumeNextStep(s, accepted).s, x.fiber, RUNNING);
  }

  lemma LivesKept(s: State, l: Label)
    requires FibersOk(s) && LivesOk(s) && Enabled(s, l) && Apply(s, l).Next?
    ensures LivesOk(Apply(s, l).s)
  {
    hide LivesOk, StartStep, FinishStep, ResumeNextStep, FiberRunStep, SameLives;
    if l.FiberRun? {
      LivesBegin(s, l.f);
    } else if l.Start? {
      LivesStart(s, l.kind, l.id);
    } else if l.Finish? {
      LivesEnd(s);
    } else if l.ResumeNext? {
      LivesResume(s, l.accepted);
    } else {
      LivesUntouched(s, l);
      hide Apply, FibersOk;
      LivesFrame(s, Apply(s, l).s);
    }
  }

  // ---------------------------------------------------------------- contexts are deleted once

  /** Every context ever allocated exists or has been deleted, never both, and deleted once. */
  ghost predicate FreedOk(s: State) {
    && (forall c :: c in s.ctxs ==> c < s.nextCtx)
    && (forall c: CtxId :: c in s.hist.freedCtxs <==> c < s.nextCtx && c !in s.ctxs)
    && Distinct(s.hist.freedCtxs)
  }

  lemma FreedFrame(s: State, s': State)
    requires FreedOk(s) && s'.hist.freedCtxs == s.hist.freedCtxs
    requires (s'.ctxs.Keys == s.ctxs.Keys && s'.nextCtx == s.nextCtx)
          || (s'.ctxs.Keys == s.ctxs.Keys + {s.nextCtx} && s'.nextCtx == s.nextCtx + 1)
    ensures FreedOk(s')
  {
    hide Distinct;
    assert forall c :: c in s'.ctxs <==> c in s'.ctxs.Keys;
  }

  lemma FreedUntouched(s: State, l: Label)
    requires Enabled(s, l) && Apply(s, l).Next?
    requires !l.Start? && !l.OnConnection? && !l.Delete?
    ensures var s' := Apply(s, l).s;
            s'.ctxs.Keys == s.ctxs.Keys && s'.nextCtx == s.nextCtx && s'.hist.freedCtxs == s.hist.freedCtxs
  {
    hide CQ.Apply, CQ.Enabled, ScriptRunning;
    hide Own.Add, Own.Remove, Own.Drop, Own.Copy, Own.AddTls, Own.Get, CreateResultValue, Unwind;
  }

  lemma FreedStart(s: State, kind: OpKind, id: Own.Id)
    requires FreedOk(s) && StartStep(s, kind, id).Next?
    ensures FreedOk(StartStep(s, kind, id).s)
  {
    StartCases(s, kind, id);
    hide StartStep, Started, FreedOk, Target, IsRead, BeginRequest, BeginRead, BeginAccept;
    var s', op := StartStep(s, kind, id).s, Started(s, kind, id);
    BeginningsFreeNothing(s, op, if op.handle == None then 0 else op.handle.value);
    FreedFrame(s, s');
  }

  lemma BeginningsFreeNothing(s: State, op: Op, h: Ref)
    requires s.current in s.fibers
    ensures var s' := BeginRequest(s, op);
            s'.hist.freedCtxs == s.hist.freedCtxs && s'.ctxs.Keys == s.ctxs.Keys + {s.nextCtx}
            && s'.nextCtx == s.nextCtx + 1
    ensures var s' := BeginRead(s, op, h);
            s'.hist.freedCtxs == s.hist.freedCtxs && s'.ctxs.Keys == s.ctxs.Keys + {s.nextCtx}
            && s'.nextCtx == s.nextCtx + 1
    ensures var s' := BeginAccept(s, op, h);
            s'.hist.freedCtxs == s.hist.freedCtxs && s'.ctxs == s.ctxs && s'.nextCtx == s.nextCtx
  {
    hide Pin, Append;
  }

  lemma FreedConnection(s: State, t: CQ.Thread, h: Ref, status: int)
    requires FreedOk(s) && t !in s.q.sending && OnConnectionStep(s, t, h, status).Next?
    ensures FreedOk(OnConnectionStep(s, t, h, status).s)
  {
    hide FreedOk, CQ.Apply;
    FreedFrame(s, OnConnectionStep(s, t, h, status).s);
  }

  lemma FreedDelete(s: State)
    requires FreedOk(s) && DeleteStep(s).Next?
    ensures FreedOk(DeleteStep(s).s)
  {
    DistinctSnoc(s.hist.freedCtxs, s.active.value);
    hide Distinct;
  }

  lemma FreedKept(s: State, l: Label)
    requires FreedOk(s) && Enabled(s, l) && Apply(s, l).Next?
    ensures FreedOk(Apply(s, l).s)
  {
    hide FreedOk, StartStep, OnConnectionStep, DeleteStep;
    match l {
      case Start(k, id, _) => FreedStart(s, k, id);
      case OnConnection(t, h, status) => FreedConnection(s, t, h, status);
      case Delete => FreedDelete(s);
      case _ =>
        FreedUntouched(s, l);
        hide Apply, Enabled;
        FreedFrame(s, Apply(s, l).s);
    }
  }
}
