/**
 From libuv to the fiber: the answer given in a callback reaches the one fiber that waits
 for it, unchanged, and is what the value its primitive returns is made of.
 */
module RuntimeDelivery {
  import opened Prelude
  import opened Results
  import opened Runtime
  import opened RuntimeInvariant
  import opened RuntimeSafety
  import opened RuntimeHistory
  import opened RuntimeOrder
  import opened RuntimeAnswers
  import opened RuntimeListeners
  import opened RuntimeTheorems
  import Own = Ownership
  import CQ = CompletionQueue

  // ---------------------------------------------------------------- one callback

  /** What a callback says: this context, serving this operation, has this result. */
  datatype Answer = Answer(ctx: CtxId, op: OpId, raw: Raw)

  /** The answer a label carries; a connection answers the accept of the first waiter. */
  function AnswerGiven(s: State, l: Label): Option<Answer> {
    match l
    case OnComplete(_, c, raw) => if c in s.ctxs then Some(Answer(c, s.ctxs[c].op, raw)) else None
    case OnRead(_, h, raw) =>
      if h in s.pending && s.pending[h] in s.ctxs
      then Some(Answer(s.pending[h], s.ctxs[s.pending[h]].op, raw)) else None
    case OnConnection(_, h, status) =>
      var w := Waiters(s, h);
      if w != [] && w[0] in s.fibers && s.fibers[w[0]].awaiting != None
      then Some(Answer(s.nextCtx, s.fibers[w[0]].awaiting.value, Raw(status, [], ""))) else None
    case _ => None
  }

  /** The context holds the answer and is queued, the answer is on record, and nothing else has moved. */
  ghost predicate Takes(s: State, t: CQ.Thread, a: Answer, s': State) {
    && s'.ctxs.Keys == s.ctxs.Keys + {a.ctx} && s'.ctxs[a.ctx].op == a.op && s'.ctxs[a.ctx].raw == a.raw
    && (forall d :: d in s.ctxs && d != a.ctx ==> s'.ctxs[d] == s.ctxs[d])
    && s'.hist.outcome == s.hist.outcome[a.op := a.raw] && s'.hist.completed == s.hist.completed + [a.op]
    && s'.q.shared == s.q.shared + [a.ctx] && s'.q.sending == s.q.sending + {t}
    && s'.q == s.q.(shared := s'.q.shared, sending := s'.q.sending)
    && s'.fibers == s.fibers && s'.current == s.current && s'.active == s.active && s'.heap == s.heap
    && s'.closing == s.closing && s'.listening == s.listening
    && s'.hist.ops == s.hist.ops && s'.hist.minted == s.hist.minted && s'.hist.resumed == s.hist.resumed
    && s'.hist.issued == s.hist.issued && s'.hist.received == s.hist.received
  }

  /** A callback takes its context from where it waited, and from nowhere else. */
  ghost predicate LeavesItsPlace(s: State, l: Label, s': State) {
    match l
    case OnComplete(_, c, _) =>
      s'.inflight == s.inflight - {c} && s'.pending == s.pending && s'.reading == s.reading
      && s'.accept == s.accept && s'.hist.wire == s.hist.wire
    case OnRead(_, h, raw) =>
      s'.inflight == s.inflight && s'.pending == s.pending - {h} && s'.reading == s.reading - {h}
      && s'.accept == s.accept && s'.hist.wire == s.hist.wire[h := Log(s.hist.wire, h) + raw.bytes]
    case OnConnection(_, h, _) =>
      s'.inflight == s.inflight && s'.pending == s.pending && s'.reading == s.reading
      && s'.accept == s.accept[h := if Waiters(s, h) == [] then [] else Waiters(s, h)[1..]]
      && s'.hist.wire == s.hist.wire
    case _ => false
  }

  lemma CompletionIsTaken(s: State, t: CQ.Thread, c: CtxId, raw: Raw)
    requires t !in s.q.sending && OnCompleteStep(s, t, c, raw).Next?
    ensures var l, s' := OnComplete(t, c, raw), OnCompleteStep(s, t, c, raw).s;
            AnswerGiven(s, l) != None && Takes(s, t, AnswerGiven(s, l).value, s') && LeavesItsPlace(s, l, s')
  {
  }

  lemma ReadIsTaken(s: State, t: CQ.Thread, h: Ref, raw: Raw)
    requires t !in s.q.sending && OnReadStep(s, t, h, raw).Next?
    ensures var l, s' := OnRead(t, h, raw), OnReadStep(s, t, h, raw).s;
            AnswerGiven(s, l) != None && Takes(s, t, AnswerGiven(s, l).value, s') && LeavesItsPlace(s, l, s')
  {
    hide Log;
  }

  lemma ConnectionIsTaken(s: State, t: CQ.Thread, h: Ref, status: int)
    requires t !in s.q.sending && OnConnectionStep(s, t, h, status).Next? && s.nextCtx !in s.ctxs
    ensures var l, s' := OnConnection(t, h, status), OnConnectionStep(s, t, h, status).s;
            if Waiters(s, h) == [] then AnswerGiven(s, l) == None && s' == s
            else AnswerGiven(s, l) != None && Takes(s, t, AnswerGiven(s, l).value, s') && LeavesItsPlace(s, l, s')
  {
    hide Append;
  }

  /** The operation that a callback answers has no answer yet, and a fiber is suspended in it. */
  ghost predicate Awaits(s: State, o: OpId) {
    && o !in s.hist.outcome && o < |s.hist.ops|
    && var f := s.hist.ops[o].fiber;
       f in s.fibers && f != s.current && s.fibers[f].state == SUSPENDED && s.fibers[f].awaiting == Some(o)
  }

  lemma WaiterAwaits(s: State, f: FiberId, o: OpId)
    requires FibersOk(s) && Waiting(s, f, o) && o !in s.hist.outcome
    ensures Awaits(s, o)
  {
  }

  lemma CompletionIsAwaited(s: State, c: CtxId)
    requires FibersOk(s) && CtxsOk(s) && PlacesOk(s) && OutcomesOk(s) && c in s.inflight
    ensures c in s.ctxs && Awaits(s, s.ctxs[c].op)
  {
    assert CtxOk(s, c);
    hide FibersOk, CtxsOk;
    WaiterAwaits(s, s.ctxs[c].fiber, s.ctxs[c].op);
  }

  lemma ReadIsAwaited(s: State, h: Ref)
    requires FibersOk(s) && CtxsOk(s) && PlacesOk(s) && OutcomesOk(s) && h in s.pending
    ensures s.pending[h] in s.ctxs && Awaits(s, s.ctxs[s.pending[h]].op)
  {
    var c := s.pending[h];
    assert CtxOk(s, c) && Parked(s, c);
    hide FibersOk, CtxsOk;
    WaiterAwaits(s, s.ctxs[c].fiber, s.ctxs[c].op);
  }

  lemma AcceptIsAwaited(s: State, h: Ref)
    requires FibersOk(s) && AcceptOk(s) && OutcomesOk(s) && Waiters(s, h) != []
    ensures var f := Waiters(s, h)[0];
            f in s.fibers && s.fibers[f].awaiting != None && Awaits(s, s.fibers[f].awaiting.value)
  {
    HeadIsWaiting(s, h);
    var f := Waiters(s, h)[0];
    assert s.fibers[f].awaiting.value !in s.hist.outcome;
    hide FibersOk, AcceptOk, OutcomesOk;
    WaiterAwaits(s, f, s.fibers[f].awaiting.value);
  }

  predicate IsCallback(l: Label) {
    l.OnComplete? || l.OnRead? || l.OnConnection?
  }

  /**
   Every callback that does not meet an orphan answers exactly one operation, which a fiber is
   suspended in, with exactly what libuv says; only a connection with nobody waiting does nothing.
   */
  lemma CallbackAnswers(s: State, l: Label)
    requires Reachable(s) && Enabled(s, l) && IsCallback(l) && Apply(s, l).Next?
    ensures var s' := Apply(s, l).s;
            match AnswerGiven(s, l)
            case None => l.OnConnection? && Waiters(s, l.h) == [] && s' == s
            case Some(a) => Awaits(s, a.op) && Takes(s, l.t, a, s') && LeavesItsPlace(s, l, s')
  {
    hide Reachable, Inv, Core, FibersOk, CtxsOk, PlacesOk, AcceptOk, OutcomesOk, Awaits, Takes, LeavesItsPlace;
    hide AnswerGiven, OnCompleteStep, OnReadStep, OnConnectionStep;
    ReachableHasInv(s);
    InvParts(s);
    match l {
      case OnComplete(t, c, raw) =>
        CompletionIsTaken(s, t, c, raw);
        CompletionIsAwaited(s, c);
      case OnRead(t, h, raw) =>
        CoreReading(s, h);
        ReadIsTaken(s, t, h, raw);
        ReadIsAwaited(s, h);
      case OnConnection(t, h, status) =>
        NextIsFresh(s);
        ConnectionIsTaken(s, t, h, status);
        if Waiters(s, h) != [] {
          AcceptIsAwaited(s, h);
        }
    }
    if AnswerGiven(s, l) != None {
      AnswerUnfolds(s, l);
    }
  }

  lemma InvParts(s: State)
    requires Inv(s)
    ensures Core(s) && FibersOk(s) && CtxsOk(s) && PlacesOk(s) && AcceptOk(s) && OutcomesOk(s)
  {
    hide FibersOk, CtxsOk, WaitsOk, AcceptOk, PlacesOk, OnceQueued, ReadingOk, FramesOk, CQ.Inv, Own.Inv;
    hide AcceptLogOk, LivesOk, FreedOk, OrderOk, OutcomesOk, WireOk, IssuesOk, AnswersOk, MintedOk;
    hide ListenersOk, FsClosesOk, HandlesOk, MadeOk;
  }

  /** Which operation an answer is for. */
  lemma AnswerUnfolds(s: State, l: Label)
    requires AnswerGiven(s, l) != None
    ensures var o := AnswerGiven(s, l).value.op;
            match l
            case OnComplete(_, c, _) => c in s.ctxs && o == s.ctxs[c].op
            case OnRead(_, h, _) => h in s.pending && s.pending[h] in s.ctxs && o == s.ctxs[s.pending[h]].op
            case OnConnection(_, h, _) =>
              && Waiters(s, h) != [] && Waiters(s, h)[0] in s.fibers
              && s.fibers[Waiters(s, h)[0]].awaiting == Some(o)
            case _ => false
  {
  }

  // ---------------------------------------------------------------- whole runs

  lemma OthersAnswerNothing(s: State, l: Label)
    requires CQ.Inv(s.q) && Enabled(s, l) && Apply(s, l).Next? && !IsCallback(l)
    ensures AnswerGiven(s, l) == None
    ensures Apply(s, l).s.hist.outcome == s.hist.outcome && Apply(s, l).s.hist.completed == s.hist.completed
  {
    if l.Start? {
      StartSuspends(s, l.kind, l.id);
      hide StartStep, Started;
    } else if l.ResumeNext? {
      ResumeMoves(s, l.accepted);
      hide ResumeNextStep;
    } else if l.Delete? {
    } else {
      OrderUntouched(s, l);
      hide Apply, Enabled;
    }
  }

  /** The answers that libuv gives along a run, in the order it gives them. */
  function Given(s: State, ls: seq<Label>): seq<Answer>
    decreases ls
  {
    if ls == [] || !Enabled(s, ls[0]) || Apply(s, ls[0]) == Crash then []
    else
      var rest := Given(Apply(s, ls[0]).s, ls[1..]);
      match AnswerGiven(s, ls[0])
      case None => rest
      case Some(a) => [a] + rest
  }

  /** After the answers `given`, in this order, each operation answered has its own answer on record. */
  ghost predicate Recorded(hist: History, given: seq<Answer>, hist': History) {
    && |hist'.completed| == |hist.completed| + |given| && hist.completed <= hist'.completed
    && (forall i :: 0 <= i < |given| ==>
         && hist'.completed[|hist.completed| + i] == given[i].op
         && given[i].op !in hist.outcome
         && given[i].op in hist'.outcome && hist'.outcome[given[i].op] == given[i].raw)
    && (forall o :: o in hist.outcome ==> o in hist'.outcome && hist'.outcome[o] == hist.outcome[o])
    && (forall o :: o in hist'.outcome ==> o in hist.outcome || exists i :: 0 <= i < |given| && given[i].op == o)
  }

  lemma RecordedNothing(hist: History, given: seq<Answer>, hist1: History, hist': History)
    requires hist1.outcome == hist.outcome && hist1.completed == hist.completed && Recorded(hist1, given, hist')
    ensures Recorded(hist, given, hist')
  {
  }

  lemma RecordedFirst(hist: History, a: Answer, given: seq<Answer>, hist1: History, hist': History)
    requires a.op !in hist.outcome
    requires hist1.outcome == hist.outcome[a.op := a.raw] && hist1.completed == hist.completed + [a.op]
    requires Recorded(hist1, given, hist')
    ensures Recorded(hist, [a] + given, hist')
  {
    var all := [a] + given;
    assert forall i :: 0 < i < |all| ==> all[i] == given[i - 1];
    OnlyGivenFirst(hist, a, given, hist1, hist');
    forall i | 0 <= i < |all|
      ensures hist'.completed[|hist.completed| + i] == all[i].op && all[i].op !in hist.outcome
      ensures all[i].op in hist'.outcome && hist'.outcome[all[i].op] == all[i].raw
    {
      if i > 0 {
        assert hist'.completed[|hist1.completed| + (i - 1)] == given[i - 1].op;
      } else {
        assert hist'.completed[|hist.completed|] == hist1.completed[|hist.completed|];
      }
    }
  }

  lemma OnlyGivenFirst(hist: History, a: Answer, given: seq<Answer>, hist1: History, hist': History)
    requires hist1.outcome == hist.outcome[a.op := a.raw] && Recorded(hist1, given, hist')
    ensures var all := [a] + given;
            forall o :: o in hist'.outcome ==> o in hist.outcome || exists i :: 0 <= i < |all| && all[i].op == o
  {
    var all := [a] + given;
    forall o | o in hist'.outcome && o !in hist.outcome
      ensures exists i :: 0 <= i < |all| && all[i].op == o
    {
      if o == a.op {
        assert all[0].op == o;
      } else {
        var i :| 0 <= i < |given| && given[i].op == o;
        assert all[i + 1].op == o;
      }
    }
  }

  /**
   Over every run, operations complete in the order libuv answers them, what is on record for
   each is exactly the answer it was given, and that never changes afterwards.
   */
  lemma {:induction false} AnswersAreRecorded(s: State, ls: seq<Label>)
    requires Reachable(s) && Exec(s, ls) != None && Exec(s, ls).value.Next?
    ensures Recorded(s.hist, Given(s, ls), Exec(s, ls).value.s.hist)
    decreases ls
  {
    hide Reachable, Core, Recorded, AnswerGiven;
    if ls == [] {
      assert Recorded(s.hist, [], s.hist) by {
        RecordsNothing(s.hist);
      }
    } else {
      var l, s' := ls[0], Apply(s, ls[0]).s;
      ReachableExtends(s, l);
      GivenUnfolds(s, ls);
      AnswersAreRecorded(s', ls[1..]);
      FirstIsRecorded(s, l);
      hide Exec, Given, Apply, Enabled;
      var hist' := Exec(s', ls[1..]).value.s.hist;
      match AnswerGiven(s, l)
      case None => RecordedNothing(s.hist, Given(s', ls[1..]), s'.hist, hist');
      case Some(a) => RecordedFirst(s.hist, a, Given(s', ls[1..]), s'.hist, hist');
    }
  }

  lemma RecordsNothing(hist: History)
    ensures Recorded(hist, [], hist)
  {
  }

  lemma GivenUnfolds(s: State, ls: seq<Label>)
    requires ls != [] && Exec(s, ls) != None && Exec(s, ls).value.Next?
    ensures Enabled(s, ls[0]) && Apply(s, ls[0]).Next? && Exec(s, ls) == Exec(Apply(s, ls[0]).s, ls[1..])
    ensures var rest := Given(Apply(s, ls[0]).s, ls[1..]);
            Given(s, ls) == if AnswerGiven(s, ls[0]) == None then rest else [AnswerGiven(s, ls[0]).value] + rest
  {
    hide Enabled, Apply, AnswerGiven;
  }

  lemma FirstIsRecorded(s: State, l: Label)
    requires Reachable(s) && Enabled(s, l) && Apply(s, l).Next?
    ensures var s' := Apply(s, l).s;
            match AnswerGiven(s, l)
            case None => s'.hist.outcome == s.hist.outcome && s'.hist.completed == s.hist.completed
            case Some(a) =>
              && a.op !in s.hist.outcome
              && s'.hist.outcome == s.hist.outcome[a.op := a.raw] && s'.hist.completed == s.hist.completed + [a.op]
  {
    hide Reachable, Inv, Core, Enabled, Apply, AnswerGiven, LeavesItsPlace;
    if IsCallback(l) {
      CallbackAnswers(s, l);
    } else {
      ReachableHasInv(s);
      InvCore(s);
      CoreQueue(s);
      OthersAnswerNothing(s, l);
    }
  }

  /**
   From the start of the runtime: the i-th value a fiber received was made of the answer that
   libuv gave, in this very run, to the i-th operation it started.
   */
  lemma FibersGetTheirAnswers(ls: seq<Label>, f: FiberId, i: nat)
    requires Exec(INIT, ls) != None && Exec(INIT, ls).value.Next?
    requires var hist := Exec(INIT, ls).value.s.hist; f in hist.received && i < |hist.received[f]|
    ensures var hist, given := Exec(INIT, ls).value.s.hist, Given(INIT, ls);
            && f in hist.issued && i < |hist.issued[f]|
            && hist.issued[f][i] < |hist.ops| && hist.ops[hist.issued[f][i]].fiber == f
            && Answered(hist, hist.issued[f][i], hist.received[f][i])
            && exists k :: 0 <= k < |given| && given[k].op == hist.issued[f][i]
                           && given[k].raw == hist.outcome[hist.issued[f][i]]
  {
    var s := Exec(INIT, ls).value.s;
    assert Reachable(s);
    hide Reachable, Answered, Exec, Given, Recorded;
    InitIsReachable();
    ReceiverIsKnown(s, f);
    AnswersInOrder(s, f);
    AnswersAreRecorded(INIT, ls);
    var o := s.hist.issued[f][i];
    AnsweredHasOutcome(s.hist, o, s.hist.received[f][i]);
    OutcomeWasGiven(INIT.hist, Given(INIT, ls), s.hist, o);
  }

  lemma InitIsReachable()
    ensures Reachable(INIT)
  {
    assert Exec(INIT, []) == Some(Next(INIT));
  }

  lemma ReceiverIsKnown(s: State, f: FiberId)
    requires Reachable(s) && f in s.hist.received
    ensures f in s.hist.life
  {
    hide Reachable, Inv;
    ReachableHasInv(s);
    InvAnswers(s);
    hide AnswersOk, IssueOk;
  }

  lemma OutcomeWasGiven(hist: History, given: seq<Answer>, hist': History, o: OpId)
    requires hist.outcome == map[] && Recorded(hist, given, hist') && o in hist'.outcome
    ensures exists k :: 0 <= k < |given| && given[k].op == o && given[k].raw == hist'.outcome[o]
  {
    var k :| 0 <= k < |given| && given[k].op == o;
    assert hist'.outcome[given[k].op] == given[k].raw;
  }

  lemma AnsweredHasOutcome(hist: History, o: OpId, v: Value)
    requires Answered(hist, o, v)
    ensures o in hist.outcome
  {
  }

  // ---------------------------------------------------------------- what the values say

  /**
   A resumption puts a handle into the store exactly when an open, a scan or a connect
   succeeded, or an accept succeeded and uv_accept took the client.  It is a file, a directory
   or a socket accordingly, its id and address are new, and the fiber receives its id.
   Otherwise no handle is touched.
   */
  lemma ResumptionMakesIff(s: State, accepted: bool)
    requires Reachable(s) && Enabled(s, ResumeNext(accepted))
    ensures Apply(s, ResumeNext(accepted)).Next? && s.q.local[0] in s.ctxs
    ensures var s', x, id, r := Apply(s, ResumeNext(accepted)).s, s.ctxs[s.q.local[0]], s.heap.nextId, s.heap.nextRef;
            var makes := x.raw.code >= 0
              && (x.kind.FsOpen? || x.kind.FsScandir? || x.kind.TcpConnect? || (x.kind.TcpAccept? && accepted));
            var kind := if x.kind.FsOpen? then Own.FileK else if x.kind.FsScandir? then Own.DirectoryK else Own.NetK;
            && x.op in s.hist.outcome && s.hist.outcome[x.op] == x.raw
            && x.fiber in s'.fibers && s'.current == x.fiber
            && if makes then
                 && Own.StorePtr(id) !in s.heap.ptrs && r !in s.heap.objs
                 && s'.fibers[x.fiber].resumeValue == BigInt(id) && s'.hist.minted == s.hist.minted[x.op := id]
                 && s'.heap.nextId == id + 1 && s'.heap.nextRef == r + 1
                 && s'.heap.ptrs == s.heap.ptrs[Own.StorePtr(id) := r]
                 && s'.heap.objs == s.heap.objs[r := Own.Obj(kind, id, 1)]
               else s'.heap == s.heap && s'.hist.minted == s.hist.minted
  {
    hide Reachable, Inv, Core, FibersOk, CtxsOk, PlacesOk, AcceptOk, OutcomesOk, ResumeNextStep;
    ReachableHasInv(s);
    InvParts(s);
    ResumeNextKeeps(s, accepted);
    FreshNames(s);
    ResumeBuilds(s, accepted);
    HeadIsOnRecord(s);
    var x := s.ctxs[s.q.local[0]];
    MakesIff(x.kind, x.raw, accepted);
    hide CreateResultValue;
  }

  lemma HeadIsOnRecord(s: State)
    requires OutcomesOk(s) && s.q.local != [] && s.q.local[0] in s.ctxs
    ensures var x := s.ctxs[s.q.local[0]]; x.op in s.hist.outcome && s.hist.outcome[x.op] == x.raw
  {
    assert Queued(s, s.q.local[0]);
  }

  lemma MakesIff(k: OpKind, raw: Raw, accepted: bool)
    ensures var b := CreateResultValue(k, raw, accepted);
            && (b.NewHandle? <==>
                 raw.code >= 0 && (k.FsOpen? || k.FsScandir? || k.TcpConnect? || (k.TcpAccept? && accepted)))
            && (b.NewHandle? ==>
                 b.kind == if k.FsOpen? then Own.FileK else if k.FsScandir? then Own.DirectoryK else Own.NetK)
  {
  }

  /**
   A fiber receives an error exactly when libuv reported one for its operation, timers and the
   end of a TCP stream apart, or refused the client it accepted; and then it is that error.
   */
  lemma ErrorIffFailed(s: State, f: FiberId, i: nat)
    requires Reachable(s) && f in s.hist.received && i < |s.hist.received[f]|
    ensures f in s.hist.issued && i < |s.hist.issued[f]| && s.hist.issued[f][i] < |s.hist.ops|
    ensures s.hist.issued[f][i] in s.hist.outcome
    ensures var o, v := s.hist.issued[f][i], s.hist.received[f][i];
            var k, code := s.hist.ops[o].kind, s.hist.outcome[o].code;
            && (v.Error? <==>
                 || (code < 0 && !k.Sleep? && !(k.TcpRead? && code == -4095))
                 || (code >= 0 && k.TcpAccept? && o !in s.hist.minted))
            && (v.Error? && code < 0 ==> v.code == code)
            && (v.Error? && code < 0 ==> v.syscall == NameInErrors(k))
            && (v.Error? && code >= 0 ==> v == Error("accept (internal)", -1))
            && (k.TcpRead? && code == -4095 ==> v == BigInt(-1))
            && (k.Sleep? ==> v == Undefined)
  {
    hide Reachable, Answered;
    ReceiverIsKnown(s, f);
    AnswersInOrder(s, f);
    ErrorAnswers(s.hist, s.hist.issued[f][i], s.hist.received[f][i]);
  }

  /** The system call that an error message names. */
  function NameInErrors(k: OpKind): string {
    if k.FsRead? || k.TcpRead? || k.UdpRecv? then "read"
    else if k.FsWrite? || k.TcpWrite? || k.UdpSend? then "write"
    else if k.FsOpen? then "open"
    else if k.FsScandir? then "scandir"
    else if k.FsUnlink? then "unlink"
    else if k.FsMkdir? then "mkdir"
    else if k.FsRmdir? then "rmdir"
    else if k.FsStat? then "fstat"
    else if k.FsSync? then "fsync"
    else if k.FsDataSync? then "fdatasync"
    else if k.FsClose? then "close"
    else if k.TcpConnect? then "connect"
    else if k.TcpAccept? then "accept"
    else if k.TcpPoll? then "poll"
    else "getaddrinfo"
  }

  lemma ErrorAnswers(hist: History, o: OpId, v: Value)
    requires Answered(hist, o, v)
    ensures o in hist.outcome
    ensures var k, code := hist.ops[o].kind, hist.outcome[o].code;
            && (v.Error? <==>
                 || (code < 0 && !k.Sleep? && !(k.TcpRead? && code == -4095))
                 || (code >= 0 && k.TcpAccept? && o !in hist.minted))
            && (v.Error? && code < 0 ==> v.code == code && v.syscall == NameInErrors(k))
            && (v.Error? && code >= 0 ==> v == Error("accept (internal)", -1))
            && (k.TcpRead? && code == -4095 ==> v == BigInt(-1))
            && (k.Sleep? ==> v == Undefined)
  {
  }

  /** What a fiber receives when its operation succeeded, for every kind of operation. */
  lemma SuccessReturns(s: State, f: FiberId, i: nat)
    requires Reachable(s) && f in s.hist.received && i < |s.hist.received[f]|
    ensures f in s.hist.issued && i < |s.hist.issued[f]| && s.hist.issued[f][i] < |s.hist.ops|
    ensures s.hist.issued[f][i] in s.hist.outcome
    ensures var o := s.hist.issued[f][i];
            s.hist.outcome[o].code >= 0 ==> Delivers(s.hist, o, s.hist.received[f][i])
  {
    hide Reachable, Inv, Answered, Delivers;
    ReceiverIsKnown(s, f);
    AnswersInOrder(s, f);
    ReachableHasInv(s);
    InvWire(s);
    var o, v := s.hist.issued[f][i], s.hist.received[f][i];
    AnsweredHasOutcome(s.hist, o, v);
    if s.hist.outcome[o].code >= 0 {
      SuccessAnswers(s, o, v);
    }
  }

  /** `v` is the id made for `o`, the count or size of what was transferred, or what its kind returns. */
  ghost predicate Delivers(hist: History, o: OpId, v: Value)
    requires o < |hist.ops| && o in hist.outcome
  {
    var op, code, host := hist.ops[o], hist.outcome[o].code, hist.outcome[o].host;
    match op.kind
    case FsOpen | FsScandir | TcpConnect => o in hist.minted && v == BigInt(hist.minted[o])
    case TcpAccept => if o in hist.minted then v == BigInt(hist.minted[o]) else v.Error?
    case FsRead => v == BigInt(if code == 0 then -1 else code)
    case FsWrite => v == BigInt(code)
    case TcpPoll => v == BigInt(code)
    case TcpWrite(len) => v == BigInt(len)
    case TcpRead => op.handle != None && v == BigInt(|BytesOn(hist, op.handle.value, o)|)
    case UdpRecv =>
      op.handle != None
      && var size := |BytesOn(hist, op.handle.value, o)|;
         v == if size == 0 && host == "" then Null else Datagram(size, host)
    case FsStat => v == Stat
    case DnsResolve => v == Addresses
    case Sleep | FsUnlink | FsMkdir | FsRmdir | FsSync | FsDataSync | FsClose | UdpSend => v == Undefined
  }

  lemma SuccessAnswers(s: State, o: OpId, v: Value)
    requires WireOk(s) && HandlesOk(s) && Answered(s.hist, o, v) && s.hist.outcome[o].code >= 0
    ensures Delivers(s.hist, o, v)
  {
  }

  // ---------------------------------------------------------------- the hand-over

  /** Nothing is queued, the loop is outside OnFibersToResume, and no script runs. */
  predicate LoopIdle(s: State) {
    s.current == MAIN && s.q.phase == CQ.Idle && CQ.Contents(s.q) == []
  }

  /** The five steps from a thread's uv_async_send to the return of the primitive. */
  function Delivery(t: CQ.Thread, accepted: bool): seq<Label> {
    [Send(t), Enter, Swap, ResumeNext(accepted), Return]
  }

  /** What the delivery of an answer to `f` has brought about, seen from the state before it. */
  ghost predicate Received(hist: History, f: FiberId, o: OpId, s': State) {
    && f in hist.received && f in s'.hist.received && s'.current == f && f in s'.fibers
    && s'.fibers[f].awaiting == None && s'.hist.outcome == hist.outcome
    && |s'.hist.received[f]| == |hist.received[f]| + 1 && hist.received[f] <= s'.hist.received[f]
    && Answered(s'.hist, o, s'.hist.received[f][|hist.received[f]|])
  }

  /**
   From a callback to the script: with the loop idle, a callback's answer can be sent, drained
   and returned, and then exactly the fiber whose operation it answers runs, and has received
   one more value, made of this answer.
   */
  lemma AnswerReachesFiber(s: State, l: Label, accepted: bool)
    requires Reachable(s) && Enabled(s, l) && IsCallback(l) && Apply(s, l).Next? && LoopIdle(s)
    requires AnswerGiven(s, l) != None
    ensures var a, end := AnswerGiven(s, l).value, Exec(s, [l] + Delivery(l.t, accepted));
            && a.op < |s.hist.ops| && end != None && end.value.Next?
            && Received(s.hist.(outcome := s.hist.outcome[a.op := a.raw]), s.hist.ops[a.op].fiber, a.op, end.value.s)
  {
    hide Reachable, Core, Inv, Enabled, Apply, Exec, AnswerGiven, LeavesItsPlace, Awaits, Received;
    var a := AnswerGiven(s, l).value;
    CallbackAnswers(s, l);
    AwaitsMeans(s, a.op);
    IdleLoopIsFree(s);
    var s1 := Apply(s, l).s;
    ReachableExtends(s, l);
    ExecCons(s, l, Delivery(l.t, accepted));
    DeliveryReaches(s1, l.t, accepted, a);
    ReceivedSince(s1.hist, s.hist.(outcome := s.hist.outcome[a.op := a.raw]), s.hist.ops[a.op].fiber, a.op,
                  Exec(s, [l] + Delivery(l.t, accepted)).value.s);
  }

  lemma IdleLoopIsFree(s: State)
    requires Reachable(s) && LoopIdle(s)
    ensures s.active == None && s.q.local == [] && s.q.shared == []
  {
    hide Reachable, Inv, Core;
    ReachableHasInv(s);
    InvCore(s);
    ControlIsSound(s);
  }

  lemma AwaitsMeans(s: State, o: OpId)
    requires Reachable(s) && Awaits(s, o)
    ensures o < |s.hist.ops| && s.hist.ops[o].fiber in s.hist.received && s.hist.ops[o].fiber != MAIN
  {
    hide Reachable, Inv, Core;
    ReachableHasInv(s);
    InvParts(s);
    InvAnswers(s);
    hide AnswersOk, IssueOk, CtxsOk, PlacesOk, AcceptOk, OutcomesOk;
  }

  /** A send, the entry into OnFibersToResume, and its swap move the one queued context to the local queue. */
  lemma QueueMoves(s: State, t: CQ.Thread, c: CtxId)
    requires LoopQueued(s, t, c)
    ensures var s2 := s.(q := s.q.(signalled := true, sending := s.q.sending - {t}));
            var s3 := s.(q := s.q.(signalled := false, local := [], sending := s.q.sending - {t}, phase := CQ.Entered));
            && Enabled(s, Send(t)) && Apply(s, Send(t)) == Next(s2)
            && Enabled(s2, Enter) && Apply(s2, Enter) == Next(s3)
            && Enabled(s3, Swap) && Apply(s3, Swap) == Next(Swapped(s, t, c))
  {
  }

  predicate LoopQueued(s: State, t: CQ.Thread, c: CtxId) {
    s.current == MAIN && s.q.phase == CQ.Idle && s.q.local == [] && s.q.shared == [c] && t in s.q.sending
  }

  function Swapped(s: State, t: CQ.Thread, c: CtxId): State {
    s.(q := CQ.Queue([], [c], false, s.q.sending - {t}, CQ.Draining))
  }

  lemma SwapIsReached(s: State, t: CQ.Thread, c: CtxId, rest: seq<Label>)
    requires Reachable(s) && LoopQueued(s, t, c)
    ensures Reachable(Swapped(s, t, c))
    ensures Exec(s, [Send(t), Enter, Swap] + rest) == Exec(Swapped(s, t, c), rest)
  {
    hide Reachable, Enabled, Apply, Exec, LoopQueued;
    QueueMoves(s, t, c);
    hide Swapped;
    var s2 := Apply(s, Send(t)).s;
    var s3 := Apply(s2, Enter).s;
    ReachableExtends(s, Send(t));
    ReachableExtends(s2, Enter);
    ReachableExtends(s3, Swap);
    ExecCons(s3, Swap, rest);
    ExecCons(s2, Enter, [Swap] + rest);
    ExecCons(s, Send(t), [Enter] + ([Swap] + rest));
    assert [Send(t), Enter, Swap] + rest == [Send(t)] + ([Enter] + ([Swap] + rest));
  }

  /** The resume of one context: its fiber runs on with a value that answers its operation. */
  lemma ResumeHands(s: State, accepted: bool)
    requires Reachable(s) && Enabled(s, ResumeNext(accepted))
    ensures Apply(s, ResumeNext(accepted)).Next? && s.q.local[0] in s.ctxs
    ensures var s', x := Apply(s, ResumeNext(accepted)).s, s.ctxs[s.q.local[0]];
            && x.op < |s.hist.ops| && s.hist.ops[x.op].fiber == x.fiber
            && s'.current == x.fiber && x.fiber in s'.fibers && s'.fibers[x.fiber].awaiting == Some(x.op)
            && s'.hist.ops == s.hist.ops && s'.hist.outcome == s.hist.outcome && s'.hist.received == s.hist.received
            && Answered(s'.hist, x.op, s'.fibers[x.fiber].resumeValue)
  {
    hide Reachable, Inv, Core, FibersOk, CtxsOk, PlacesOk, AcceptOk, OutcomesOk, ResumeNextStep, Answered, MintedOk;
    ReachableHasInv(s);
    InvParts(s);
    InvMinted(s);
    ResumeNextKeeps(s, accepted);
    ResumeAnswers(s, accepted);
    ResumeMoves(s, accepted);
    ResumeContinues(s, accepted);
    OpOfCtx(s, s.q.local[0]);
  }

  lemma OpOfCtx(s: State, c: CtxId)
    requires CtxsOk(s) && c in s.ctxs
    ensures s.ctxs[c].op < |s.hist.ops| && s.hist.ops[s.ctxs[c].op].fiber == s.ctxs[c].fiber
  {
    assert CtxOk(s, c);
  }

  lemma ResumeContinues(s: State, accepted: bool)
    requires s.q.phase == CQ.Draining && s.q.local != [] && ResumeNextStep(s, accepted).Next?
    ensures s.q.local[0] in s.ctxs && s.ctxs[s.q.local[0]].fiber in s.fibers
    ensures var s', f := ResumeNextStep(s, accepted).s, s.ctxs[s.q.local[0]].fiber;
            && s'.current == f && f in s'.fibers && s'.fibers[f].awaiting == s.fibers[f].awaiting
            && s'.hist.received == s.hist.received
  {
    BuildEffect(s, s.ctxs[s.q.local[0]], accepted);
    hide Build, Append, CQ.Apply;
  }

  /** The return of a primitive: the value it was resumed with is received. */
  lemma ReturnHands(s: State, f: FiberId, o: OpId)
    requires Reachable(s) && f == s.current && f in s.fibers && s.fibers[f].awaiting == Some(o) && f != MAIN
    requires f in s.hist.received && Answered(s.hist, o, s.fibers[f].resumeValue)
    ensures Enabled(s, Return) && Apply(s, Return).Next?
    ensures Received(s.hist, f, o, Apply(s, Return).s)
  {
    hide Reachable, Inv, Core, Answered, ReturnStep, SameAnswer;
    ReachableHasInv(s);
    InvCore(s);
    ReturnKeeps(s);
    ReturnMoves(s);
    var s' := Apply(s, Return).s;
    OnlyReceivedGrows(s.hist, s'.hist, s'.hist.received);
    AnswerStable(s.hist, s'.hist, o, s.fibers[f].resumeValue);
    assert s'.hist.received[f] == s.hist.received[f] + [s.fibers[f].resumeValue];
  }

  lemma DeliveryReaches(s: State, t: CQ.Thread, accepted: bool, a: Answer)
    requires Reachable(s) && LoopQueued(s, t, a.ctx)
    requires a.ctx in s.ctxs && s.ctxs[a.ctx].op == a.op && s.active == None
    requires a.op < |s.hist.ops| && s.hist.ops[a.op].fiber in s.hist.received && s.hist.ops[a.op].fiber != MAIN
    ensures var end := Exec(s, Delivery(t, accepted));
            end != None && end.value.Next? && Received(s.hist, s.hist.ops[a.op].fiber, a.op, end.value.s)
  {
    var l4, s4 := ResumeNext(accepted), Swapped(s, t, a.ctx);
    assert Enabled(s4, l4);
    assert Delivery(t, accepted) == [Send(t), Enter, Swap] + [l4, Return];
    hide Reachable, Enabled, Apply, Exec, LoopQueued, Delivery, Received;
    SwapIsReached(s, t, a.ctx, [l4, Return]);
    ResumeAndReturn(s4, accepted);
  }

  lemma ResumeAndReturn(s: State, accepted: bool)
    requires Reachable(s) && Enabled(s, ResumeNext(accepted)) && s.q.local[0] in s.ctxs
    requires var o := s.ctxs[s.q.local[0]].op;
             o < |s.hist.ops| && s.hist.ops[o].fiber in s.hist.received && s.hist.ops[o].fiber != MAIN
    ensures var end, o := Exec(s, [ResumeNext(accepted), Return]), s.ctxs[s.q.local[0]].op;
            end != None && end.value.Next? && Received(s.hist, s.hist.ops[o].fiber, o, end.value.s)
  {
    var l, o := ResumeNext(accepted), s.ctxs[s.q.local[0]].op;
    hide Reachable, Enabled, Apply, Exec, Answered, Received;
    ResumeHands(s, accepted);
    var s1 := Apply(s, l).s;
    ReachableExtends(s, l);
    ReturnHands(s1, s.hist.ops[o].fiber, o);
    ExecTwo(s, l, Return);
    ReceivedSince(s1.hist, s.hist, s.hist.ops[o].fiber, o, Apply(s1, Return).s);
  }

  lemma ReceivedSince(hist: History, hist0: History, f: FiberId, o: OpId, s': State)
    requires Received(hist, f, o, s') && hist0.received == hist.received && hist0.outcome == hist.outcome
    ensures Received(hist0, f, o, s')
  {
    hide Answered;
  }

  // ---------------------------------------------------------------- nothing is stuck

  /**
   Whoever runs can go on: out of the primitive it is returning from, into any other, and to its
   end once no primitive is on its stack.
   */
  lemma RunningScriptCanAct(s: State)
    requires Reachable(s)
    ensures s.current == MAIN || s.current in s.fibers
    ensures s.current != MAIN && s.fibers[s.current].awaiting != None ==> Enabled(s, Return)
    ensures s.current != MAIN && s.fibers[s.current].awaiting == None ==>
              && (forall kind, id, ready :: Enabled(s, Start(kind, id, ready)))
              && (forall id, want, slot :: slot > 0 && Own.FramePtr(s.current, slot) !in s.heap.ptrs ==>
                   Enabled(s, Hold(id, want, slot)))
              && (forall slot :: slot > 0 && Own.FramePtr(s.current, slot) in s.heap.ptrs ==> Enabled(s, LetGo(slot)))
              && ((forall slot: nat :: Own.FramePtr(s.current, slot) !in s.heap.ptrs) ==> Enabled(s, Finish))
    ensures s.current == MAIN && s.q.phase == CQ.Idle ==>
              forall f :: f != MAIN && f !in s.hist.life ==> Enabled(s, FiberRun(f))
    ensures (if s.current == MAIN then s.q.phase == CQ.Idle else s.fibers[s.current].awaiting == None) ==>
              && Enabled(s, Listen)
              && (forall kind :: kind != Own.TlsK ==> Enabled(s, Create(kind)))
              && (forall id :: Enabled(s, CreateTls(id))) && (forall id :: Enabled(s, Free(id)))
              && (forall id :: Enabled(s, Close(id, Own.NetK))) && (forall id :: Enabled(s, Close(id, Own.UdpK)))
              && (forall id :: Enabled(s, Close(id, Own.DirectoryK)))
  {
    hide Reachable, Inv, Core;
    ReachableHasInv(s);
    InvCore(s);
    ControlIsSound(s);
  }

  /**
   While anything is queued and no fiber runs, a thread still has its send to make or the loop
   itself has a next step, which nobody can take away.
   */
  lemma QueuedMeansOngoing(s: State)
    requires Reachable(s) && s.current == MAIN && CQ.Contents(s.q) != []
    ensures || (exists t :: t in s.q.sending && Enabled(s, Send(t)))
            || Enabled(s, Enter) || Enabled(s, Swap) || Enabled(s, Delete) || Enabled(s, Leave)
            || forall accepted :: Enabled(s, ResumeNext(accepted))
  {
    hide Reachable, Inv, Core;
    ReachableHasInv(s);
    InvCore(s);
    CoreQueue(s);
    hide CQ.Inv, CQ.Contents, Enabled;
    if s.active == None {
      var e := QueueGoesOn(s.q);
      QueueStepsOn(s, e);
    } else {
      assert Enabled(s, Delete) by {
        DeleteIsNext(s);
      }
    }
  }

  lemma DeleteIsNext(s: State)
    requires s.current == MAIN && s.active != None
    ensures Enabled(s, Delete)
  {
  }

  lemma QueueStepsOn(s: State, e: CQ.Event)
    requires s.current == MAIN && s.active == None && CQ.Enabled(s.q, e) && !e.Push?
    ensures match e
            case Send(t) => t in s.q.sending && Enabled(s, Label.Send(t))
            case Enter => Enabled(s, Label.Enter)
            case Swap => Enabled(s, Label.Swap)
            case Pop => forall accepted :: Enabled(s, ResumeNext(accepted))
            case Leave => Enabled(s, Label.Leave)
            case Push(_, _) => true
  {
  }

  lemma QueueGoesOn(q: CQ.Queue) returns (e: CQ.Event)
    requires CQ.Inv(q) && CQ.Contents(q) != []
    ensures CQ.Enabled(q, e) && !e.Push?
  {
    if forall d: CQ.Event :: CQ.Enabled(q, d) ==> d.Push? {
      CQ.StoppedMeansDelivered(q);
    }
    e :| CQ.Enabled(q, e) && !e.Push?;
  }

  /**
   A suspended fiber waits in one place, and from there it can be reached: libuv may answer its
   request, deliver to the handle it reads, or report a connection to the server it waits on,
   until that is closed; or its answer is queued already.
   */
  lemma WaitersCanBeReached(s: State, f: FiberId, t: CQ.Thread)
    requires Reachable(s) && f in s.fibers && f != s.current && t !in s.q.sending
    ensures exists token :: Holder(s, token) == Some(f) &&
              match token
              case InFlight(c) => forall raw :: Enabled(s, OnComplete(t, c, raw))
              case PendingRead(h) =>
                h in s.closing
                || ((forall bytes: seq<Byte>, host :: Enabled(s, OnRead(t, h, Raw(|bytes|, bytes, host))))
                    && forall code, host :: code < 0 ==> Enabled(s, OnRead(t, h, Raw(code, [], host))))
              case AcceptEntry(h, _) =>
                h in s.closing || h !in s.listening || forall status :: Enabled(s, OnConnection(t, h, status))
              case Shared(i) => i < |s.q.shared|
              case Local(i) => i < |s.q.local|
  {
    hide Reachable, Inv, Core;
    ReachableHasInv(s);
    InvCore(s);
    var token := TokenExists(s, f);
    if token.PendingRead? {
      CoreReading(s, token.h);
    }
  }
}
