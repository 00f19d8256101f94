/**
 The runtime's globals as one object, and its operations as methods that assign them
 the way the C++ does.  `Abs` is the state of the transition system the object is in,
 and `Valid` says that some run leads there; each method takes exactly one step of it,
 which fixes the whole new state and brings every theorem about reachable states along.
 */
module EventLoop {
  import opened Prelude
  import opened Results
  import opened Runtime
  import opened RuntimeInvariant
  import opened RuntimeSafety
  import opened RuntimeHistory
  import opened RuntimeOrder
  import opened RuntimeAnswers
  import opened RuntimeTheorems
  import Own = Ownership
  import CQ = CompletionQueue

  /** Reachability goes one step further, unless the step meets an orphaned listener. */
  lemma StepStaysReachable(s: State, l: Label)
    requires Reachable(s) && Enabled(s, l)
    ensures Apply(s, l) == Crash <==> MeetsOrphan(s, l)
    ensures Apply(s, l).Next? ==> Reachable(Apply(s, l).s)
  {
    hide Reachable, Enabled, Apply, Inv;
    ReachableHasInv(s);
    StepKeepsInv(s, l);
    if Apply(s, l).Next? {
      ReachableExtends(s, l);
    }
  }

  /** What a crash meets is a listener that was freed while open and that nobody owns. */
  lemma CrashMeansOrphan(s: State, l: Label)
    requires Reachable(s) && Enabled(s, l) && MeetsOrphan(s, l)
    ensures Orphan(s, l.h)
  {
    assert Open(s, l.h);
    hide Reachable, Enabled, Inv, Orphan;
    ReachableHasInv(s);
    OrphanIffGone(s, l.h);
  }

  lemma ConnectionCrashesIff(s: State, t: CQ.Thread, h: Ref, status: int)
    requires Reachable(s) && Enabled(s, Label.OnConnection(t, h, status))
    ensures h !in s.heap.objs <==> Orphan(s, h)
    ensures h !in s.heap.objs <==> Apply(s, Label.OnConnection(t, h, status)) == Crash
  {
    assert Open(s, h);
    hide Reachable, Enabled, Apply, Inv, Orphan;
    ReachableHasInv(s);
    OrphanIffGone(s, h);
    StepKeepsInv(s, Label.OnConnection(t, h, status));
  }

  lemma FiberRunUnfolds(s: State, f: FiberId)
    requires Enabled(s, FiberRun(f))
    ensures Apply(s, FiberRun(f)) == FiberRunStep(s, f)
  {
  }

  lemma ReadUnfolds(s: State, kind: OpKind, id: Own.Id, ready: bool)
    requires IsRead(kind) && Enabled(s, Start(kind, id, ready)) && Apply(s, Start(kind, id, ready)).Next?
    ensures var got := Own.Get(s.heap, id, Target(kind).value);
            s.current in s.fibers &&
            Apply(s, Start(kind, id, ready)).s ==
              if got == None || got.value in s.pending then s else BeginRead(s, Op(s.current, kind, id, got), got.value)
  {
    hide BeginRead, Own.Get;
  }

  lemma AcceptUnfolds(s: State, id: Own.Id)
    requires Enabled(s, Start(TcpAccept, id, true)) && Apply(s, Start(TcpAccept, id, true)).Next?
    ensures var got := Own.Get(s.heap, id, Own.NetK);
            s.current in s.fibers &&
            Apply(s, Start(TcpAccept, id, true)).s ==
              if got == None then s else BeginAccept(s, Op(s.current, TcpAccept, id, got), got.value)
  {
    hide BeginAccept, Own.Get;
  }

  lemma OnReadUnfolds(s: State, t: CQ.Thread, h: Ref, raw: Raw)
    requires Enabled(s, Label.OnRead(t, h, raw))
    ensures t !in s.q.sending && Apply(s, Label.OnRead(t, h, raw)) == OnReadStep(s, t, h, raw)
  {
    hide OnReadStep;
  }

  lemma OnConnectionUnfolds(s: State, t: CQ.Thread, h: Ref, status: int)
    requires Enabled(s, Label.OnConnection(t, h, status)) && Apply(s, Label.OnConnection(t, h, status)).Next?
    ensures t !in s.q.sending
    ensures var w, s' := Waiters(s, h), Apply(s, Label.OnConnection(t, h, status)).s;
            if w == [] then s' == s
            else w[0] in s.fibers && s.fibers[w[0]].awaiting != None
                 && s' == Complete(Admit(s, h, w[0], s.fibers[w[0]].awaiting.value), t, s.nextCtx, Raw(status, [], ""))
  {
    hide Complete, Admit;
  }

  lemma ResumeUnfolds(s: State, accepted: bool)
    requires Enabled(s, ResumeNext(accepted)) && Apply(s, ResumeNext(accepted)).Next?
    ensures s.q.local != [] && s.q.local[0] in s.ctxs
    ensures var x, s' := s.ctxs[s.q.local[0]], Apply(s, ResumeNext(accepted)).s;
            x.fiber in s.fibers && s' == Resumed(s, s.q.local[0], Build(s, x, accepted).0, Build(s, x, accepted).1)
  {
    hide CQ.Apply, Build;
  }

  /** The state once the value `v`, built with the effects in `s1`, is handed to the fiber of `c`. */
  ghost function Resumed(s: State, c: CtxId, s1: State, v: Value): State
    requires c in s.ctxs && s.ctxs[c].fiber in s1.fibers && CQ.Enabled(s.q, CQ.Pop)
  {
    var x := s.ctxs[c];
    s1.(fibers := s1.fibers[x.fiber := s1.fibers[x.fiber].(state := RUNNING, resumeValue := v)],
        current := x.fiber, active := Some(c), q := CQ.Apply(s.q, CQ.Pop),
        hist := s1.hist.(life := Append(s1.hist.life, x.fiber, RUNNING), resumed := s1.hist.resumed + [x.op]))
  }

  /** The steps of OnFibersToResume itself; all others belong to scripts, libuv or other threads. */
  predicate IsLoopStep(l: Label) {
    l.Enter? || l.Swap? || l.ResumeNext? || l.Delete? || l.Leave?
  }

  /** What others do to the state: the steps that are possible, one after another, up to a crash. */
  function Driven(s: State, ls: seq<Label>): Outcome
    decreases ls
  {
    if ls == [] then Next(s)
    else if !Enabled(s, ls[0]) || IsLoopStep(ls[0]) then Driven(s, ls[1..])
    else match Apply(s, ls[0])
      case Crash => Crash
      case Next(s') => Driven(s', ls[1..])
  }

  lemma DrivenOnce(s: State, ls: seq<Label>, i: nat)
    requires i < |ls|
    ensures Driven(s, ls[i..]) ==
              if !Enabled(s, ls[i]) || IsLoopStep(ls[i]) then Driven(s, ls[i + 1..])
              else if Apply(s, ls[i]) == Crash then Crash else Driven(Apply(s, ls[i]).s, ls[i + 1..])
  {
    hide Enabled, Apply, IsLoopStep;
    assert ls[i..][0] == ls[i] && ls[i..][1..] == ls[i + 1..];
  }

  /** What the body of the drain relies on while others act. */
  ghost predicate SameDrain(s: State, s': State) {
    && s'.q.local == s.q.local && s'.q.phase == s.q.phase && s'.active == s.active
    && s'.hist.resumed == s.hist.resumed && s'.hist.freedCtxs == s.hist.freedCtxs
    && s.hist.completed <= s'.hist.completed && s.q.shared <= s'.q.shared
  }

  /** The steps of a run that are the loop's own. */
  function LoopSteps(run: seq<Label>): seq<Label> {
    if run == [] then []
    else LoopSteps(run[..|run| - 1]) + if IsLoopStep(run[|run| - 1]) then [run[|run| - 1]] else []
  }

  /** A resume and a delete for each of the first `n` contexts; uv_accept answers as `accepts` says, else no. */
  function Turns(accepts: seq<bool>, n: nat): seq<Label> {
    if n == 0 then [] else Turns(accepts, n - 1) + [ResumeNext(n <= |accepts| && accepts[n - 1]), Delete]
  }

  /** The run leads from `s` to `o`, and these are the loop's steps in it. */
  ghost predicate Drives(s: State, run: seq<Label>, steps: seq<Label>, o: Outcome) {
    Exec(s, run) == Some(o) && LoopSteps(run) == steps
  }

  lemma DrivesNothing(s: State)
    ensures Drives(s, [], [], Next(s))
  {
  }

  lemma DrivesOn(s: State, run: seq<Label>, steps: seq<Label>, m: State, l: Label, steps': seq<Label>)
    requires Drives(s, run, steps, Next(m)) && Enabled(m, l)
    requires steps' == if IsLoopStep(l) then steps + [l] else steps
    ensures Drives(s, run + [l], steps', Apply(m, l))
  {
    hide Enabled, Apply, Exec, IsLoopStep;
    ExecSnoc(s, run, m, l);
    assert (run + [l])[..|run + [l]| - 1] == run;
  }

  /** A run, and one in which the loop itself does nothing. */
  lemma DrivesThrough(s: State, run: seq<Label>, steps: seq<Label>, m: State, more: seq<Label>, o: Outcome)
    requires Drives(s, run, steps, Next(m)) && Drives(m, more, [], o)
    ensures Drives(s, run + more, steps, o)
  {
    ExecAppend(s, run, m, more);
    LoopStepsAppend(run, more);
    assert steps + [] == steps;
  }

  lemma DrivesMeans(s: State, run: seq<Label>, steps: seq<Label>, o: Outcome)
    requires Drives(s, run, steps, o)
    ensures Exec(s, run) == Some(o)
  {
  }

  lemma NoTurnYet(accepts: seq<bool>)
    ensures [Enter, Swap] + Turns(accepts, 0) == [Enter, Swap]
  {
  }

  /** One more turn of the drain. */
  lemma TurnDrives(s: State, run: seq<Label>, accepts: seq<bool>, i: nat, m: State, turn: seq<Label>, o: Outcome)
    requires Drives(s, run, [Enter, Swap] + Turns(accepts, i), Next(m))
    requires if o == Crash then Exec(m, turn) == Some(Crash)
             else Drives(m, turn, [ResumeNext(i < |accepts| && accepts[i]), Delete], o)
    ensures if o == Crash then Exec(s, run + turn) == Some(Crash)
            else Drives(s, run + turn, [Enter, Swap] + Turns(accepts, i + 1), o)
  {
    ExecAppend(s, run, m, turn);
    hide Exec;
    LoopStepsAppend(run, turn);
  }

  lemma {:induction false} ExecAppend(s: State, run: seq<Label>, m: State, more: seq<Label>)
    requires Exec(s, run) == Some(Next(m))
    ensures Exec(s, run + more) == Exec(m, more)
    decreases run
  {
    hide Enabled, Apply;
    if run == [] {
      assert [] + more == more;
    } else {
      assert (run + more)[1..] == run[1..] + more;
      ExecAppend(Apply(s, run[0]).s, run[1..], m, more);
    }
  }

  lemma {:induction false} LoopStepsAppend(run: seq<Label>, more: seq<Label>)
    ensures LoopSteps(run + more) == LoopSteps(run) + LoopSteps(more)
    decreases more
  {
    hide IsLoopStep;
    if more == [] {
      assert run + [] == run;
    } else {
      var more', l := more[..|more| - 1], more[|more| - 1];
      assert (run + more)[..|run + more| - 1] == run + more' && (run + more)[|run + more| - 1] == l;
      LoopStepsAppend(run, more');
    }
  }

  lemma SameDrainItself(s: State)
    ensures SameDrain(s, s)
  {
  }

  lemma SameDrainTrans(a: State, b: State, c: State)
    requires SameDrain(a, b) && SameDrain(b, c)
    ensures SameDrain(a, c)
  {
  }

  lemma DrivenNothing(s: State)
    ensures Driven(s, []) == Next(s)
  {
  }

  lemma CallbacksKeepDrain(s: State, l: Label)
    requires Enabled(s, l) && Apply(s, l).Next? && (l.OnComplete? || l.OnRead? || l.OnConnection?)
    ensures SameDrain(s, Apply(s, l).s)
  {
    hide Append, Log, RawFits;
  }

  lemma OthersKeepDrain(s: State, l: Label)
    requires Enabled(s, l) && Apply(s, l).Next? && !IsLoopStep(l)
    ensures SameDrain(s, Apply(s, l).s)
  {
    if l.Start? {
      StartSuspends(s, l.kind, l.id);
      hide StartStep, Started;
    } else if l.OnComplete? || l.OnRead? || l.OnConnection? {
      CallbacksKeepDrain(s, l);
      hide Apply, Enabled, SameDrain;
    } else {
      hide ScriptRunning, Append, OpenListener, CQ.Enabled, Unwind;
      hide Own.Get, Own.Add, Own.AddTls, Own.Copy, Own.Drop, Own.Remove;
    }
  }

  lemma LoopStepUnfolds(s: State, l: Label)
    requires Enabled(s, l) && IsLoopStep(l) && !l.ResumeNext? && Apply(s, l).Next?
    ensures Apply(s, l).s ==
              match l
              case Enter => s.(q := s.q.(signalled := false, local := [], phase := CQ.Entered))
              case Swap => s.(q := s.q.(shared := s.q.local, local := s.q.shared, phase := CQ.Draining))
              case Delete => s.(ctxs := s.ctxs - {s.active.value}, active := None,
                                hist := s.hist.(freedCtxs := s.hist.freedCtxs + [s.active.value]))
              case _ => s.(q := s.q.(phase := CQ.Idle))
  {
  }

  lemma ReturnUnfolds(s: State)
    requires Enabled(s, Return) && Apply(s, Return).Next?
    ensures var s' := Apply(s, Return).s;
            s'.current == s.current && s.current in s'.fibers && s'.fibers[s.current].awaiting == None
  {
  }

  lemma SleepUnfolds(s: State)
    requires Enabled(s, Start(Sleep, 0, true)) && Apply(s, Start(Sleep, 0, true)).Next?
    ensures Apply(s, Start(Sleep, 0, true)).s.current == MAIN
  {
  }

  lemma DrainFacts(s: State)
    requires Reachable(s)
    ensures s.hist.resumed <= s.hist.completed
    ensures s.current == MAIN || s.current in s.fibers
    ensures s.active != None ==> s.active.value in s.ctxs
    ensures s.q.phase != CQ.Draining ==> s.q.local == [] && s.active == None
    ensures s.q.phase != CQ.Idle && s.active == None ==> s.current == MAIN
    ensures s.q.phase != CQ.Draining ==> s.hist.completed == s.hist.resumed + OpsOf(s.ctxs, s.q.shared)
  {
    hide Reachable, Inv, Core, OrderOk;
    ReachableHasInv(s);
    InvCore(s);
    InvOrder(s);
    CoreControl(s);
    ResumedIsPrefix(s);
  }

  lemma ResumedIsPrefix(s: State)
    requires OrderOk(s)
    ensures s.hist.resumed <= s.hist.completed
    ensures s.q.local == [] ==> s.hist.completed == s.hist.resumed + OpsOf(s.ctxs, s.q.shared)
  {
    assert s.q.local == [] ==> CQ.Contents(s.q) == s.q.shared;
  }

  lemma CoreControl(s: State)
    requires Core(s)
    ensures s.current == MAIN || s.current in s.fibers
    ensures s.active != None ==> s.active.value in s.ctxs
    ensures s.q.phase != CQ.Draining ==> s.q.local == [] && s.active == None
    ensures s.q.phase != CQ.Idle && s.active == None ==> s.current == MAIN
  {
    hide CtxsOk, WaitsOk, AcceptOk, OnceQueued, ReadingOk, FramesOk, Own.Inv;
  }

  /** Entering, swapping and leaving only touch the queue. */
  lemma DrainFrame(s: State, l: Label)
    requires s.current == MAIN && s.active == None
    requires match l
             case Enter => s.q.phase == CQ.Idle && s.q.signalled
             case Swap => s.q.phase == CQ.Entered
             case Leave => s.q.phase == CQ.Draining && s.q.local == []
             case _ => false
    ensures Enabled(s, l) && IsLoopStep(l) && Apply(s, l).Next?
    ensures var s' := Apply(s, l).s;
            && s'.current == MAIN && s'.active == None && s'.hist == s.hist
            && match l
               case Enter => s'.q.phase == CQ.Entered && s'.q.shared == s.q.shared && s'.q.local == []
               case Swap => s'.q.phase == CQ.Draining && s'.q.shared == s.q.local && s'.q.local == s.q.shared
               case _ => s'.q.phase == CQ.Idle && s'.q.shared == s.q.shared && s'.q.local == []
  {
  }

  lemma ResumeEffect(s: State, accepted: bool)
    requires Reachable(s) && s.current == MAIN && s.active == None && s.q.phase == CQ.Draining && s.q.local != []
    ensures Enabled(s, ResumeNext(accepted)) && Apply(s, ResumeNext(accepted)).Next?
    ensures var s' := Apply(s, ResumeNext(accepted)).s;
            && s'.q.local == s.q.local[1..] && s'.q.phase == s.q.phase && s'.active == Some(s.q.local[0])
            && |s'.hist.resumed| == |s.hist.resumed| + 1
            && s'.hist.freedCtxs == s.hist.freedCtxs && s'.hist.completed == s.hist.completed
  {
    hide Reachable, Apply;
    StepStaysReachable(s, ResumeNext(accepted));
    ResumeUnfolds(s, accepted);
    hide Enabled, CreateResultValue, Own.Add;
  }

  lemma DeleteEffect(s: State)
    requires s.current == MAIN && s.active != None && s.active.value in s.ctxs
    ensures Enabled(s, Delete) && IsLoopStep(Delete) && Apply(s, Delete).Next?
    ensures var s' := Apply(s, Delete).s;
            && s'.q == s.q && s'.active == None && s'.hist.resumed == s.hist.resumed
            && s'.hist.freedCtxs == s.hist.freedCtxs + [s.active.value] && s'.hist.completed == s.hist.completed
  {
  }

  function At(world: seq<seq<Label>>, i: nat): seq<Label> {
    if i < |world| then world[i] else []
  }

  /** Between two turns of the drain: what it has resumed and freed, and what it still has to. */
  ghost predicate DrainGoes(s: State, swapped: seq<OpId>, batch: seq<CtxId>, freed: seq<CtxId>) {
    && s.q.phase == CQ.Draining && s.active == None
    && |s.hist.resumed| + |s.q.local| == |swapped| && swapped <= s.hist.completed
    && s.hist.freedCtxs + s.q.local == freed + batch
  }

  /** With nothing left of the local queue, exactly the batch is resumed and freed. */
  lemma DrainEnds(s: State, swapped: seq<OpId>, batch: seq<CtxId>, freed: seq<CtxId>)
    requires Reachable(s) && DrainGoes(s, swapped, batch, freed) && s.q.local == []
    ensures s.current == MAIN && s.active == None && s.q.phase == CQ.Draining
    ensures s.hist.resumed == swapped && swapped <= s.hist.completed && s.hist.freedCtxs == freed + batch
  {
    hide Reachable;
    DrainFacts(s);
  }

  /** What libuv itself remembers: requests under way, and what was started, closed and listened on. */
  datatype Libuv = Libuv(inflight: set<CtxId>, reading: set<Ref>, closing: set<Ref>, listening: set<Ref>)

  class Loop {
    var fibers: map<FiberId, Fiber>
    var current: FiberId
    var ctxs: map<CtxId, Ctx>
    var nextCtx: CtxId
    var pending: map<Ref, CtxId>
    var accept: map<Ref, seq<FiberId>>
    var uv: Libuv
    var active: Option<CtxId>
    var q: CQ.Queue
    var heap: Own.Heap
    var hist: History

    function Abs(): State
      reads this
    {
      State(fibers, current, ctxs, nextCtx, uv.inflight, pending, accept,
            uv.reading, uv.closing, uv.listening, active, q, heap, hist)
    }

    ghost predicate Valid()
      reads this
    {
      Reachable(Abs())
    }

    constructor ()
      ensures Valid() && Abs() == INIT
    {
      fibers, current, ctxs, nextCtx := map[], MAIN, map[], 0;
      pending, accept, uv, active := map[], map[], Libuv({}, {}, {}, {}), None;
      q, heap, hist := CQ.EMPTY, Own.EMPTY, INIT.hist;
      assert Exec(INIT, []) == Some(Next(INIT));
    }

    // ---------------------------------------------------------------- shared pieces

    /** A shared_ptr local of the running primitive. */
    method Pin(h: Ref)
      modifies `heap
      ensures heap == Own.Copy(old(heap), Own.FramePtr(current, 0), h)
    {
      heap := Own.Copy(heap, Own.FramePtr(current, 0), h);
    }

    /** new XContext(fiber, ...) */
    method NewContext(fiber: FiberId, o: OpId, kind: OpKind, server: Option<Ref>) returns (context: CtxId)
      modifies `ctxs, `nextCtx, `hist
      ensures context == old(nextCtx) && nextCtx == context + 1
      ensures ctxs == old(ctxs)[context := Ctx(fiber, o, kind, NO_RESULT, server)]
      ensures hist == old(hist).(serving := old(hist).serving[o := context])
    {
      context, nextCtx := nextCtx, nextCtx + 1;
      ctxs := ctxs[context := Ctx(fiber, o, kind, NO_RESULT, server)];
      hist := hist.(serving := hist.serving[o := context]);
    }

    /** Fiber::yield (fiber.cpp:118-123), for the operation being started. */
    method YieldFiber(op: Op)
      requires current in fibers
      modifies `fibers, `current, `hist
      ensures var f, o := old(current), |old(hist).ops|;
              && current == MAIN
              && fibers == old(fibers)[f := old(fibers)[f].(state := SUSPENDED, awaiting := Some(o))]
              && hist == old(hist).(ops := old(hist).ops + [op], issued := Append(old(hist).issued, f, o),
                                    life := Append(old(hist).life, f, SUSPENDED))
    {
      var f, o := current, |hist.ops|;
      fibers := fibers[f := fibers[f].(state := SUSPENDED, awaiting := Some(o))];
      current := MAIN;
      hist := hist.(ops := hist.ops + [op], issued := Append(hist.issued, f, o),
                    life := Append(hist.life, f, SUSPENDED));
    }

    /**
     new ReadContext, pending_read = context, uv_read_start; the last fails on a handle
     being closed, and the caller ignores that.
     */
    method ParkRead(h: Ref, kind: OpKind)
      modifies `ctxs, `nextCtx, `hist, `pending, `uv
      ensures var c, o := old(nextCtx), |old(hist).ops|;
              && nextCtx == c + 1 && pending == old(pending)[h := c]
              && ctxs == old(ctxs)[c := Ctx(current, o, kind, NO_RESULT, None)]
              && hist == old(hist).(serving := old(hist).serving[o := c])
      ensures uv == old(uv).(reading := if h in old(uv).closing then old(uv).reading else old(uv).reading + {h})
    {
      var context := NewContext(current, |hist.ops|, kind, None);
      pending := pending[h := context];
      if h !in uv.closing {
        uv := uv.(reading := uv.reading + {h});
      }
    }

    /** accept_queue.front, then pop. */
    method PopWaiter(h: Ref) returns (fiber: FiberId)
      requires h in accept && accept[h] != []
      modifies `accept, `hist
      ensures fiber == old(accept)[h][0] && accept == old(accept)[h := old(accept)[h][1..]]
      ensures hist == old(hist).(served := Append(old(hist).served, h, fiber))
    {
      fiber := accept[h][0];
      accept := accept[h := accept[h][1..]];
      hist := hist.(served := Append(hist.served, h, fiber));
    }

    /** context->result = ... */
    method SetResult(context: CtxId, raw: Raw)
      requires context in ctxs
      modifies `ctxs, `hist
      ensures ctxs == old(ctxs)[context := old(ctxs)[context].(raw := raw)]
      ensures var o := old(ctxs)[context].op;
              hist == old(hist).(outcome := old(hist).outcome[o := raw], completed := old(hist).completed + [o])
    {
      var x := ctxs[context];
      ctxs := ctxs[context := x.(raw := raw)];
      hist := hist.(outcome := hist.outcome[x.op := raw], completed := hist.completed + [x.op]);
    }

    /** QueueFiberToResume (main.cpp:74-81) up to the release of the mutex. */
    method QueueFiberToResume(t: CQ.Thread, context: CtxId)
      requires t !in q.sending
      modifies `q
      ensures q == CQ.Apply(old(q), CQ.Push(t, context))
      ensures q.shared == old(q).shared + [context]
    {
      q := q.(shared := q.shared + [context], sending := q.sending + {t});
    }

    // ---------------------------------------------------------------- scripts

    /** Fiber_Run (fiber.cpp:182-187): construct the fiber, then resume it. */
    method RunFiber(f: FiberId)
      requires Valid() && Enabled(Abs(), FiberRun(f))
      modifies this
      ensures Valid() && Apply(old(Abs()), FiberRun(f)) == Next(Abs()) && current == f
    {
      ghost var b := Abs();
      hide Reachable, Enabled, Apply;
      StepStaysReachable(b, FiberRun(f));
      FiberRunUnfolds(b, f);
      fibers := fibers[f := Fiber(NEW, Undefined, None)];
      hist := hist.(issued := hist.issued[f := []], received := hist.received[f := []], life := hist.life[f := [NEW]]);
      current := f;
      fibers := fibers[f := fibers[f].(state := RUNNING)];
      assert Log(hist.life, f) == [NEW];
      hist := hist.(life := Append(hist.life, f, RUNNING));
      assert [NEW] + [RUNNING] == [NEW, RUNNING];
      assert fibers == b.fibers[f := Fiber(RUNNING, Undefined, None)];
      assert hist.life == b.hist.life[f := [NEW, RUNNING]];
    }

    /** TCP_Read (primitives_tcp.cpp:218-236) and UDP_Read, up to the yield; true means it threw. */
    method Read(kind: OpKind, id: Own.Id, ready: bool) returns (refused: bool)
      requires Valid() && IsRead(kind) && Enabled(Abs(), Start(kind, id, ready))
      modifies this
      ensures Valid() && Apply(old(Abs()), Start(kind, id, ready)) == Next(Abs())
      ensures var got := Own.Get(old(heap), id, Target(kind).value);
              && (refused <==> got == None || got.value in old(pending))
              && if refused then Abs() == old(Abs()) else current == MAIN && got.value in pending
    {
      hide Reachable, Enabled, Apply, Own.Get, Own.Copy, Append;
      ghost var b := Abs();
      StepStaysReachable(b, Start(kind, id, ready));
      ReadUnfolds(b, kind, id, ready);
      var wrap := Own.Get(heap, id, Target(kind).value);
      refused := wrap == None || wrap.value in pending;
      if !refused {
        BeginReading(Op(current, kind, id, wrap), wrap.value);
      }
    }

    /** The part of TCP_Read and UDP_Read past their checks, up to the yield. */
    method BeginReading(op: Op, h: Ref)
      requires current in fibers
      modifies this
      ensures Abs() == BeginRead(old(Abs()), op, h)
    {
      hide Own.Copy, Append;
      Pin(h);
      ParkRead(h, op.kind);
      YieldFiber(op);
    }

    /** TCP_Accept (primitives_tcp.cpp:184-195) up to its yield; true means it threw. */
    method AcceptConnection(id: Own.Id) returns (refused: bool)
      requires Valid() && Enabled(Abs(), Start(TcpAccept, id, true))
      modifies this
      ensures Valid() && Apply(old(Abs()), Start(TcpAccept, id, true)) == Next(Abs())
      ensures refused <==> Own.Get(old(heap), id, Own.NetK) == None
      ensures if refused then Abs() == old(Abs())
              else var h := Own.Get(old(heap), id, Own.NetK).value;
                   current == MAIN && Waiters(Abs(), h) == Waiters(old(Abs()), h) + [old(current)]
    {
      hide Reachable, Enabled, Apply, Own.Get, Own.Copy, Append;
      StepStaysReachable(Abs(), Start(TcpAccept, id, true));
      AcceptUnfolds(Abs(), id);
      var wrap := Own.Get(heap, id, Own.NetK);
      refused := wrap == None;
      if !refused {
        var h := wrap.value;
        Pin(h);
        accept := accept[h := (if h in accept then accept[h] else []) + [current]];
        hist := hist.(joined := Append(hist.joined, h, current));
        YieldFiber(Op(current, TcpAccept, id, wrap));
      }
    }

    // ---------------------------------------------------------------- callbacks

    /** OnRead (primitives_tcp.cpp:143-153), up to the release of the mutex. */
    method HandleRead(t: CQ.Thread, h: Ref, raw: Raw)
      requires Valid() && Enabled(Abs(), Label.OnRead(t, h, raw))
      modifies this
      ensures Valid() && Apply(old(Abs()), Label.OnRead(t, h, raw)) == Next(Abs())
      ensures h in old(pending) && h !in pending && h !in uv.reading
      ensures q.shared == old(q.shared) + [old(pending)[h]]
    {
      hide Reachable, Enabled, Apply, CQ.Apply;
      StepStaysReachable(Abs(), Label.OnRead(t, h, raw));
      OnReadUnfolds(Abs(), t, h, raw);
      var context := pending[h];
      uv := uv.(reading := uv.reading - {h});
      pending := pending - {h};
      hist := hist.(wire := hist.wire[h := Log(hist.wire, h) + raw.bytes]);
      SetResult(context, raw);
      QueueFiberToResume(t, context);
    }

    /**
     OnUvConnection (primitives_tcp.cpp:113-123), up to the release of the mutex.  It follows
     the listener's address first; `crashed` says that nothing is there any more.
     */
    method HandleConnection(t: CQ.Thread, h: Ref, status: int) returns (crashed: bool)
      requires Valid() && Enabled(Abs(), Label.OnConnection(t, h, status))
      modifies this
      ensures Valid() && (crashed <==> Orphan(old(Abs()), h))
      ensures if crashed then Apply(old(Abs()), Label.OnConnection(t, h, status)) == Crash && Abs() == old(Abs())
              else Apply(old(Abs()), Label.OnConnection(t, h, status)) == Next(Abs())
      ensures !crashed ==>
                if Waiters(old(Abs()), h) == [] then Abs() == old(Abs())
                else Waiters(Abs(), h) == Waiters(old(Abs()), h)[1..] && |q.shared| == |old(q.shared)| + 1
    {
      hide Reachable, Enabled, Apply, CQ.Apply, Append, Orphan;
      ConnectionCrashesIff(Abs(), t, h, status);
      if h !in heap.objs {
        return true;
      }
      WakeWaiter(t, h, status);
      crashed := false;
    }

    /** The part of OnUvConnection past the listener's address. */
    method WakeWaiter(t: CQ.Thread, h: Ref, status: int)
      requires Valid() && Enabled(Abs(), Label.OnConnection(t, h, status)) && h in heap.objs
      modifies this
      ensures Valid() && Apply(old(Abs()), Label.OnConnection(t, h, status)) == Next(Abs())
      ensures if Waiters(old(Abs()), h) == [] then Abs() == old(Abs())
              else Waiters(Abs(), h) == Waiters(old(Abs()), h)[1..] && |q.shared| == |old(q.shared)| + 1
    {
      hide Reachable, Enabled, Apply, CQ.Apply, Append;
      StepStaysReachable(Abs(), Label.OnConnection(t, h, status));
      OnConnectionUnfolds(Abs(), t, h, status);
      if h in accept && accept[h] != [] {
        var fiber := PopWaiter(h);
        var o := fibers[fiber].awaiting.value;
        var context := NewContext(fiber, o, TcpAccept, Some(h));
        SetResult(context, Raw(status, [], ""));
        QueueFiberToResume(t, context);
      }
    }

    /** Any step of a script, of libuv, or of another thread. */
    method Take(l: Label)
      requires Valid() && Enabled(Abs(), l) && !IsLoopStep(l) && !MeetsOrphan(Abs(), l)
      modifies this
      ensures Valid() && Apply(old(Abs()), l) == Next(Abs())
      ensures SameDrain(old(Abs()), Abs())
    {
      hide Reachable, Enabled, Apply, SameDrain, IsLoopStep, MeetsOrphan;
      StepStaysReachable(Abs(), l);
      OthersKeepDrain(Abs(), l);
      var s := Apply(Abs(), l).s;
      fibers, current, ctxs, nextCtx := s.fibers, s.current, s.ctxs, s.nextCtx;
      pending, accept, uv := s.pending, s.accept, Libuv(s.inflight, s.reading, s.closing, s.listening);
      active, q, heap, hist := s.active, s.q, s.heap, s.hist;
    }

    // ---------------------------------------------------------------- the drain

    /** Pop, CreateResultValue, resume_value.Reset, Fiber::resume (main.cpp:56-67). */
    method ResumeFront(accepted: bool)
      requires Valid() && Enabled(Abs(), ResumeNext(accepted))
      modifies this
      ensures Valid() && Apply(old(Abs()), ResumeNext(accepted)) == Next(Abs())
    {
      ghost var b := Abs();
      hide Reachable, Enabled, Apply, Own.Add, CreateResultValue;
      StepStaysReachable(b, ResumeNext(accepted));
      ResumeUnfolds(b, accepted);
      var asyncContext := q.local[0];
      var x := ctxs[asyncContext];
      q := q.(local := q.local[1..]);
      var value := BuildValue(x, accepted);
      fibers := fibers[x.fiber := fibers[x.fiber].(state := RUNNING, resumeValue := value)];
      current, active := x.fiber, Some(asyncContext);
      hist := hist.(life := Append(hist.life, x.fiber, RUNNING), resumed := hist.resumed + [x.op]);
    }

    /** CreateResultValue; a new handle goes into the store and its id becomes the value. */
    method BuildValue(x: Ctx, accepted: bool) returns (value: Value)
      modifies `heap, `hist
      ensures (Abs(), value) == Build(old(Abs()), x, accepted)
    {
      match CreateResultValue(x.kind, x.raw, accepted)
      case Ready(v) => value := v;
      case NewHandle(k) =>
        value := BigInt(heap.nextId);
        hist := hist.(minted := hist.minted[x.op := heap.nextId]);
        heap := Own.Add(heap, k);
    }

    /** One step of the loop's own: entering, swapping, deleting a context, leaving. */
    method LoopStep(l: Label)
      requires Valid() && Enabled(Abs(), l) && IsLoopStep(l) && !l.ResumeNext?
      modifies this
      ensures Valid() && Apply(old(Abs()), l) == Next(Abs())
    {
      hide Reachable, Apply;
      StepStaysReachable(Abs(), l);
      LoopStepUnfolds(Abs(), l);
      match l
      case Enter => q := q.(signalled := false, local := [], phase := CQ.Entered);
      case Swap => q := q.(shared := q.local, local := q.shared, phase := CQ.Draining);
      case Delete =>
        ctxs := ctxs - {active.value};
        hist := hist.(freedCtxs := hist.freedCtxs + [active.value]);
        active := None;
      case Leave => q := q.(phase := CQ.Idle);
    }

    /**
     Everybody but the loop acts for a while; a step that is not possible is skipped.  True
     means that the process died on a connection to an orphan.
     */
    method Others(ls: seq<Label>) returns (crashed: bool, ghost run: seq<Label>)
      requires Valid()
      modifies this
      ensures Valid() && SameDrain(old(Abs()), Abs()) && (crashed ==> Orphaned(Abs()))
      ensures Driven(old(Abs()), ls) == if crashed then Crash else Next(Abs())
      ensures Drives(old(Abs()), run, [], if crashed then Crash else Next(Abs()))
    {
      hide Reachable, Enabled, Apply, IsLoopStep, Orphan, Driven, SameDrain, Drives;
      var i := 0;
      run := [];
      SameDrainItself(Abs());
      DrivesNothing(Abs());
      assert ls[0..] == ls;
      while i < |ls|
        invariant i <= |ls| && Valid() && SameDrain(old(Abs()), Abs())
        invariant Driven(old(Abs()), ls) == Driven(Abs(), ls[i..]) && Drives(old(Abs()), run, [], Next(Abs()))
      {
        DrivenOnce(Abs(), ls, i);
        ghost var b := Abs();
        if Enabled(Abs(), ls[i]) && !IsLoopStep(ls[i]) {
          DrivesOn(old(Abs()), run, [], b, ls[i], []);
          run := run + [ls[i]];
          if MeetsOrphan(Abs(), ls[i]) {
            CrashMeansOrphan(Abs(), ls[i]);
            StepStaysReachable(Abs(), ls[i]);
            return true, run;
          }
          Take(ls[i]);
          SameDrainTrans(old(Abs()), b, Abs());
        }
        i := i + 1;
      }
      assert ls[i..] == [];
      DrivenNothing(Abs());
      crashed := false;
    }

    /** A resumed fiber runs, does anything at all, and sooner or later is suspended or done. */
    method RunScript(ls: seq<Label>) returns (crashed: bool, ghost run: seq<Label>)
      requires Valid()
      modifies this
      ensures Valid() && SameDrain(old(Abs()), Abs())
      ensures if crashed then Orphaned(Abs()) else current == MAIN
      ensures Drives(old(Abs()), run, [], if crashed then Crash else Next(Abs()))
    {
      hide Reachable, Apply, Orphan, Drives;
      crashed, run := Others(ls);
      if !crashed && current != MAIN {
        DrainFacts(Abs());
        ghost var b := Abs();
        if fibers[current].awaiting != None {
          Take(Return);
          ReturnUnfolds(b);
          DrivesOn(old(Abs()), run, [], b, Return, []);
          run := run + [Return];
        }
        ghost var m := Abs();
        Take(Start(Sleep, 0, true));
        SleepUnfolds(m);
        DrivesOn(old(Abs()), run, [], m, Start(Sleep, 0, true), []);
        run := run + [Start(Sleep, 0, true)];
      }
    }

    /**
     OnFibersToResume (main.cpp:48-70): swap the queues, then resume and delete one context
     after another.  `world` is what scripts, libuv and other threads do at each point.
     It terminates, and it resumes and deletes exactly the contexts present at the swap:
     everything completed before the callback, and nothing completed after the swap.  All that
     happens is one run, in which the loop's own steps are the swap, then a resume and a delete
     for each context, with uv_accept's answers in order.  Only a connection to an orphan can
     end it before.
     */
    method OnFibersToResume(world: seq<seq<Label>>, accepts: seq<bool>)
      returns (crashed: bool, ghost swapped: seq<OpId>, ghost batch: seq<CtxId>, ghost run: seq<Label>)
      requires Valid() && Enabled(Abs(), Enter)
      modifies this
      ensures Valid() && (crashed ==> Orphaned(Abs()))
      ensures !crashed ==>
                && q.phase == CQ.Idle && q.local == [] && current == MAIN && active == None
                && old(hist).completed <= swapped <= hist.completed && hist.resumed == swapped
                && old(q).shared <= batch && |swapped| == |old(hist).resumed| + |batch|
                && hist.freedCtxs == old(hist).freedCtxs + batch
                && Drives(old(Abs()), run, [Enter, Swap] + Turns(accepts, |batch|) + [Leave], Next(Abs()))
      ensures crashed ==> Exec(old(Abs()), run) == Some(Crash)
    {
      hide Reachable, Apply, Orphan, Drives, Turns, Exec, DrainGoes;
      crashed, run := EnterAndSwap(At(world, 0));
      swapped, batch := hist.completed, q.local;
      if crashed {
        return;
      }
      var i := 0;
      NoTurnYet(accepts);
      while q.local != []
        invariant Valid() && !crashed && DrainGoes(Abs(), swapped, batch, old(hist).freedCtxs)
        invariant i + |q.local| == |batch| && Drives(old(Abs()), run, [Enter, Swap] + Turns(accepts, i), Next(Abs()))
        decreases |q.local|
      {
        ghost var b, turn := Abs(), [];
        crashed, turn := DrainOnce(At(world, 2 * i + 1), At(world, 2 * i + 2), i < |accepts| && accepts[i],
                                   swapped, batch, old(hist).freedCtxs);
        TurnDrives(old(Abs()), run, accepts, i, b, turn, if crashed then Crash else Next(Abs()));
        run := run + turn;
        if crashed {
          return;
        }
        i := i + 1;
      }
      DrainEnds(Abs(), swapped, batch, old(hist).freedCtxs);
      DrainFrame(Abs(), Leave);
      DrivesOn(old(Abs()), run, [Enter, Swap] + Turns(accepts, i), Abs(), Leave,
               [Enter, Swap] + Turns(accepts, i) + [Leave]);
      run := run + [Leave];
      LoopStep(Leave);
    }

    /** The beginning of the drain: everything queued so far is taken over. */
    method EnterAndSwap(before: seq<Label>) returns (crashed: bool, ghost run: seq<Label>)
      requires Valid() && Enabled(Abs(), Enter)
      modifies this
      ensures Valid() && (crashed ==> Orphaned(Abs()) && Exec(old(Abs()), run) == Some(Crash))
      ensures !crashed ==>
                && DrainGoes(Abs(), hist.completed, q.local, old(hist).freedCtxs)
                && old(hist).completed <= hist.completed && old(q).shared <= q.local
                && |hist.completed| == |old(hist).resumed| + |q.local|
                && Drives(old(Abs()), run, [Enter, Swap], Next(Abs()))
    {
      hide Reachable, Apply, Orphan, Drives, Exec;
      ghost var b := Abs();
      DrainFacts(b);
      DrainFrame(b, Enter);
      DrivesNothing(b);
      DrivesOn(b, [], [], b, Enter, [Enter]);
      assert [] + [Enter] == [Enter];
      LoopStep(Enter);
      ghost var c, others := Abs(), [];
      crashed, others := Others(before);
      DrivesThrough(b, [Enter], [Enter], c, others, if crashed then Crash else Next(Abs()));
      run := [Enter] + others;
      if crashed {
        DrivesMeans(b, run, [Enter], Crash);
        return;
      }
      DrainFacts(Abs());
      DrainFrame(Abs(), Swap);
      DrivesOn(b, run, [Enter], Abs(), Swap, [Enter, Swap]);
      run := run + [Swap];
      LoopStep(Swap);
    }

    /** One turn of the drain's loop: pop, resume, wait for the fiber to stop, delete. */
    method DrainOnce(during: seq<Label>, after: seq<Label>, accepted: bool,
                     ghost swapped: seq<OpId>, ghost batch: seq<CtxId>, ghost freed: seq<CtxId>)
      returns (crashed: bool, ghost run: seq<Label>)
      requires Valid() && q.local != [] && DrainGoes(Abs(), swapped, batch, freed)
      modifies this
      ensures Valid() && (crashed ==> Orphaned(Abs()))
      ensures !crashed ==> DrainGoes(Abs(), swapped, batch, freed) && |q.local| + 1 == |old(q).local|
      ensures if crashed then Exec(old(Abs()), run) == Some(Crash)
              else Drives(old(Abs()), run, [ResumeNext(accepted), Delete], Next(Abs()))
    {
      hide Reachable, Apply, Enabled, Orphan, Drives, Exec;
      ghost var b, l := Abs(), ResumeNext(accepted);
      DrainFacts(b);
      crashed, run := ResumeOne(during, accepted);
      if crashed {
        return;
      }
      DrainFacts(Abs());
      ghost var d := Abs();
      DeleteEffect(d);
      DrivesOn(b, run, [l], d, Delete, [l, Delete]);
      run := run + [Delete];
      LoopStep(Delete);
      ghost var c, more := Abs(), [];
      crashed, more := Others(after);
      DrivesThrough(b, run, [l, Delete], c, more, if crashed then Crash else Next(Abs()));
      run := run + more;
      if crashed {
        DrivesMeans(b, run, [l, Delete], Crash);
      }
    }

    /** The first half of a turn: the fiber is resumed and runs until it stops. */
    method ResumeOne(during: seq<Label>, accepted: bool) returns (crashed: bool, ghost run: seq<Label>)
      requires Valid() && q.local != [] && q.phase == CQ.Draining && active == None && current == MAIN
      modifies this
      ensures Valid()
      ensures crashed ==> Orphaned(Abs()) && Exec(old(Abs()), run) == Some(Crash)
      ensures !crashed ==>
                && Drives(old(Abs()), run, [ResumeNext(accepted)], Next(Abs()))
                && current == MAIN && q.phase == CQ.Draining && active == Some(old(q).local[0])
                && q.local == old(q).local[1..] && |hist.resumed| == |old(hist).resumed| + 1
                && hist.freedCtxs == old(hist).freedCtxs && old(hist).completed <= hist.completed
    {
      hide Reachable, Apply, Enabled, Orphan, Drives, Exec;
      ghost var b, l := Abs(), ResumeNext(accepted);
      ResumeEffect(b, accepted);
      DrivesNothing(b);
      DrivesOn(b, [], [], b, l, [l]);
      assert [] + [l] == [l];
      ResumeFront(accepted);
      ghost var c := Abs();
      crashed, run := RunScript(during);
      DrivesThrough(b, [l], [l], c, run, if crashed then Crash else Next(Abs()));
      run := [l] + run;
      if crashed {
        DrivesMeans(b, run, [l], Crash);
      }
    }
  }
}
