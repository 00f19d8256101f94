/**
 What fibers get back: the values received by a fiber are the results of the
 operations it started, in the order it started them, and every handle id in them
 was made for that operation alone.
 */
module RuntimeAnswers {
  import opened Prelude
  import opened Results
  import opened Runtime
  import opened RuntimeInvariant
  import opened RuntimeSafety
  import opened RuntimeHistory
  import opened RuntimeOrder
  import Own = Ownership
  import CQ = CompletionQueue

  // ---------------------------------------------------------------- issue order

  /** Per fiber: one more operation started than values received while inside a primitive, equal otherwise. */
  ghost predicate IssueOk(s: State, f: FiberId)
    requires f in s.hist.issued && f in s.hist.received
  {
    var issued := s.hist.issued[f];
    var outstanding := f in s.fibers && s.fibers[f].awaiting != None;
    && |issued| == |s.hist.received[f]| + (if outstanding then 1 else 0)
    && (outstanding ==> issued[|issued| - 1] == s.fibers[f].awaiting.value)
    && (forall i :: 0 <= i < |issued| ==> issued[i] < |s.hist.ops| && s.hist.ops[issued[i]].fiber == f)
    && (forall i, j :: 0 <= i < j < |issued| ==> issued[i] < issued[j])
  }

  ghost predicate IssuesOk(s: State) {
    && s.hist.issued.Keys == s.hist.received.Keys == s.hist.life.Keys
    && s.fibers.Keys <= s.hist.life.Keys
    && forall f :: f in s.hist.issued ==> IssueOk(s, f)
  }

  /** What `o` must hand back, given libuv's answer and the id minted for it. */
  function Expected(hist: History, o: OpId): Value
    requires o < |hist.ops| && o in hist.outcome
  {
    match CreateResultValue(hist.ops[o].kind, hist.outcome[o], o in hist.minted)
    case Ready(v) => v
    case NewHandle(_) => if o in hist.minted then BigInt(hist.minted[o]) else Undefined
  }

  /** `v` is what `o` hands back; the id of a handle only once that handle has been made. */
  ghost predicate Answered(hist: History, o: OpId, v: Value) {
    && o < |hist.ops| && o in hist.outcome && v == Expected(hist, o)
    && (CreateResultValue(hist.ops[o].kind, hist.outcome[o], o in hist.minted).NewHandle? ==> o in hist.minted)
  }

  ghost predicate FiberAnswered(s: State, f: FiberId)
    requires f in s.hist.issued && f in s.hist.received
  {
    forall i :: 0 <= i < |s.hist.received[f]| && i < |s.hist.issued[f]| ==>
      Answered(s.hist, s.hist.issued[f][i], s.hist.received[f][i])
  }

  /** Every value received so far, and the one about to be received, answers its operation. */
  ghost predicate AnswersOk(s: State) {
    && (forall f :: f in s.hist.issued && f in s.hist.received ==> FiberAnswered(s, f))
    && (s.current in s.fibers && s.fibers[s.current].awaiting != None ==>
         Answered(s.hist, s.fibers[s.current].awaiting.value, s.fibers[s.current].resumeValue))
  }

  /** Minted ids are distinct, below the store's counter, and made only on resumption. */
  ghost predicate MintedOk(s: State) {
    && (forall o :: o in s.hist.minted ==> o in s.hist.outcome && 1 <= s.hist.minted[o] < s.heap.nextId)
    && (forall o, o' :: o in s.hist.minted && o' in s.hist.minted && o != o' ==> s.hist.minted[o] != s.hist.minted[o'])
    && (forall c :: c in s.ctxs && Queued(s, c) ==> s.ctxs[c].op !in s.hist.minted)
  }

  // ---------------------------------------------------------------- issue order is kept

  /** A fiber whose own logs and wait are as before is as well off as before. */
  lemma IssueStays(s: State, s': State, f: FiberId)
    requires f in s.hist.issued && f in s.hist.received && IssueOk(s, f)
    requires f in s'.hist.issued && f in s'.hist.received
    requires s'.hist.issued[f] == s.hist.issued[f] && s'.hist.received[f] == s.hist.received[f]
    requires s.hist.ops <= s'.hist.ops
    requires f in s.fibers <==> f in s'.fibers
    requires f in s.fibers ==> s'.fibers[f].awaiting == s.fibers[f].awaiting
    ensures IssueOk(s', f)
  {
  }

  lemma IssuesFrame(s: State, s': State)
    requires IssuesOk(s)
    requires s'.fibers.Keys == s.fibers.Keys && s'.hist.life.Keys == s.hist.life.Keys
    requires forall f :: f in s.fibers ==> s'.fibers[f].awaiting == s.fibers[f].awaiting
    requires s'.hist.issued == s.hist.issued && s'.hist.received == s.hist.received && s.hist.ops <= s'.hist.ops
    ensures IssuesOk(s')
  {
    hide IssueOk;
    assert forall f :: f in s'.fibers <==> f in s'.fibers.Keys;
    forall f | f in s'.hist.issued
      ensures IssueOk(s', f)
    {
      IssueStays(s, s', f);
    }
  }

  predicate MovesIssues(l: Label) {
    l.FiberRun? || l.Start? || l.Return? || l.Finish? || l.ResumeNext?
  }

  /** Neither the fibers nor what they started and received. */
  ghost predicate SameIssues(s: State, s': State) {
    && s'.fibers == s.fibers && s'.current == s.current && s'.hist.life == s.hist.life
    && s'.hist.issued == s.hist.issued && s'.hist.received == s.hist.received && s'.hist.ops == s.hist.ops
  }

  lemma IssuesUntouchedByCallback(s: State, l: Label)
    requires Enabled(s, l) && Apply(s, l).Next? && (l.OnComplete? || l.OnRead? || l.OnConnection?)
    ensures SameIssues(s, Apply(s, l).s)
  {
    hide CQ.Apply, CQ.Enabled, Append, Log, RawFits;
  }

  lemma IssuesUntouched(s: State, l: Label)
    requires Enabled(s, l) && Apply(s, l).Next? && !MovesIssues(l)
    ensures SameIssues(s, Apply(s, l).s)
  {
    if l.OnComplete? || l.OnRead? || l.OnConnection? {
      IssuesUntouchedByCallback(s, l);
      hide Apply, Enabled, SameIssues;
    } else if MovesQueue(l) || l.Delete? {
      hide CQ.Apply, CQ.Enabled;
    } else {
      IssuesUntouchedByScript(s, l);
      hide Apply, Enabled;
    }
  }

  lemma IssuesUntouchedByScript(s: State, l: Label)
    requires Enabled(s, l) && Apply(s, l).Next?
    requires l.Create? || l.Listen? || l.CreateTls? || l.Hold? || l.LetGo? || l.Close? || l.Free?
    ensures SameIssues(s, Apply(s, l).s)
  {
    hide Enabled, FiberRunStep, TryStart, ReturnStep, FinishStep, OnCompleteStep, OnReadStep, OnConnectionStep;
    hide ResumeNextStep, DeleteStep, CQ.Apply;
    hide OpenListener, Own.Add, Own.Remove, Own.Drop, Own.Copy, Own.AddTls, Own.Get;
  }

  lemma IssuesBegin(s: State, f: FiberId)
    requires IssuesOk(s) && f !in s.hist.life
    ensures IssuesOk(FiberRunStep(s, f).s)
  {
    var s' := FiberRunStep(s, f).s;
    forall g | g in s'.hist.issued
      ensures IssueOk(s', g)
    {
      if g != f {
        assert IssueOk(s, g);
      }
    }
  }

  lemma IssueOfStarter(s: State, s': State, f: FiberId, op: Op)
    requires f in s.hist.issued && f in s.hist.received && IssueOk(s, f)
    requires f in s.fibers && s.fibers[f].awaiting == None && op.fiber == f
    requires f in s'.fibers && s'.fibers[f].awaiting == Some(|s.hist.ops|)
    requires f in s'.hist.issued && f in s'.hist.received
    requires s'.hist.ops == s.hist.ops + [op] && s'.hist.received[f] == s.hist.received[f]
    requires s'.hist.issued[f] == s.hist.issued[f] + [|s.hist.ops|]
    ensures IssueOk(s', f)
  {
  }

  /** The fiber `f` starts one more operation. */
  lemma IssueGrows(s: State, s': State, f: FiberId, op: Op)
    requires IssuesOk(s) && f in s.fibers && s.fibers[f].awaiting == None && op.fiber == f
    requires s'.fibers.Keys == s.fibers.Keys && s'.fibers[f].awaiting == Some(|s.hist.ops|)
    requires forall g :: g in s.fibers && g != f ==> s'.fibers[g] == s.fibers[g]
    requires s'.hist.ops == s.hist.ops + [op] && s'.hist.received == s.hist.received
    requires s'.hist.issued == Append(s.hist.issued, f, |s.hist.ops|) && s'.hist.life.Keys == s.hist.life.Keys
    ensures IssuesOk(s')
  {
    hide IssueOk;
    assert forall g :: g in s'.fibers <==> g in s'.fibers.Keys;
    forall g | g in s'.hist.issued
      ensures IssueOk(s', g)
    {
      if g == f {
        IssueOfStarter(s, s', f, op);
      } else {
        IssueStays(s, s', g);
      }
    }
  }

  lemma IssuesStart(s: State, kind: OpKind, id: Own.Id)
    requires FibersOk(s) && IssuesOk(s) && StartStep(s, kind, id).Next?
    requires s.current in s.fibers && s.fibers[s.current].awaiting == None
    ensures IssuesOk(StartStep(s, kind, id).s)
  {
    StartSuspends(s, kind, id);
    var s', f := StartStep(s, kind, id).s, s.current;
    assert f in s.hist.life;
    hide StartStep, FibersOk, IssuesOk;
    if s' != s {
      IssueGrows(s, s', f, Started(s, kind, id));
    }
  }

  lemma IssuesReturn(s: State)
    requires IssuesOk(s) && ReturnStep(s).Next?
    ensures IssuesOk(ReturnStep(s).s)
  {
    hide ReturnStep, IssueOk, Append;
    ReturnMoves(s);
    var s', f := ReturnStep(s).s, s.current;
    IssueOfReturner(s, s', f);
    KeysOfAppend(s.hist.received, f, s.fibers[f].resumeValue);
    forall g | g in s'.hist.issued
      ensures IssueOk(s', g)
    {
      if g != f {
        IssueStays(s, s', g);
      }
    }
  }

  /** One more value, and no operation outstanding any more. */
  lemma IssueOfReturner(s: State, s': State, f: FiberId)
    requires IssuesOk(s) && f in s.fibers && s.fibers[f].awaiting != None
    requires s'.fibers == s.fibers[f := s.fibers[f].(awaiting := None)]
    requires s'.hist == s.hist.(received := Append(s.hist.received, f, s.fibers[f].resumeValue))
    ensures f in s.hist.issued && f in s'.hist.received && IssueOk(s', f)
  {
    assert IssueOk(s, f);
  }

  lemma KeysOfAppend(m: map<FiberId, seq<Value>>, f: FiberId, v: Value)
    ensures Append(m, f, v).Keys == m.Keys + {f}
    ensures forall g :: g in m && g != f ==> Append(m, f, v)[g] == m[g]
  {
  }

  lemma IssuesFinish(s: State)
    requires IssuesOk(s) && s.current in s.fibers && s.fibers[s.current].awaiting == None
    ensures IssuesOk(FinishStep(s).s)
  {
    var s' := FinishStep(s).s;
    assert IssueOk(s, s.current);
    forall g | g in s'.hist.issued
      ensures IssueOk(s', g)
    {
      assert IssueOk(s, g);
    }
  }

  lemma IssuesResume(s: State, accepted: bool)
    requires IssuesOk(s)
    requires s.q.phase == CQ.Draining && s.q.local != [] && ResumeNextStep(s, accepted).Next?
    ensures IssuesOk(ResumeNextStep(s, accepted).s)
  {
    BuildEffect(s, s.ctxs[s.q.local[0]], accepted);
    assert s.ctxs[s.q.local[0]].fiber in s.hist.life;
    hide Build, IssuesOk;
    IssuesFrame(s, ResumeNextStep(s, accepted).s);
  }

  lemma IssuesKept(s: State, l: Label)
    requires Core(s) && IssuesOk(s) && Enabled(s, l) && Apply(s, l).Next?
    ensures IssuesOk(Apply(s, l).s)
  {
    hide Core, IssuesOk, FibersOk, StartStep, ReturnStep, FinishStep, FiberRunStep, ResumeNextStep;
    hide OnCompleteStep, OnReadStep, OnConnectionStep, DeleteStep, CloseStep, CreateTlsStep, HoldStep;
    if MovesIssues(l) {
      ControlIsSound(s);
      CoreFibers(s);
      match l {
        case FiberRun(f) => IssuesBegin(s, f);
        case Start(k, id, _) => IssuesStart(s, k, id);
        case Return => IssuesReturn(s);
        case Finish => IssuesFinish(s);
        case ResumeNext(accepted) => IssuesResume(s, accepted);
      }
    } else {
      IssuesUntouched(s, l);
      hide Apply, Enabled;
      IssuesFrame(s, Apply(s, l).s);
    }
  }

  // ---------------------------------------------------------------- answers are kept

  /** Old answers stand when operations and outcomes are only added and `o` is not minted anew. */
  ghost predicate SameAnswer(hist: History, hist': History, o: OpId) {
    && hist.ops <= hist'.ops
    && (o in hist.outcome ==> o in hist'.outcome && hist'.outcome[o] == hist.outcome[o])
    && (o in hist'.minted <==> o in hist.minted)
    && (o in hist.minted && o in hist'.minted ==> hist'.minted[o] == hist.minted[o])
  }

  lemma AnswerStable(hist: History, hist': History, o: OpId, v: Value)
    requires Answered(hist, o, v) && SameAnswer(hist, hist', o)
    ensures Answered(hist', o, v)
  {
  }

  /** Received values stay answers when no operation already answered is touched. */
  lemma AnswersFrame(s: State, s': State, f: FiberId)
    requires IssuesOk(s) && AnswersOk(s) && f in s.hist.received
    requires f in s'.hist.issued && f in s'.hist.received
    requires s'.hist.received[f] == s.hist.received[f] && s.hist.issued[f] <= s'.hist.issued[f]
    requires forall i :: 0 <= i < |s.hist.received[f]| && i < |s.hist.issued[f]| ==>
               SameAnswer(s.hist, s'.hist, s.hist.issued[f][i])
    ensures FiberAnswered(s', f)
  {
    assert IssueOk(s, f) && FiberAnswered(s, f);
    hide IssuesOk, AnswersOk, Answered, SameAnswer;
    forall i | 0 <= i < |s'.hist.received[f]| && i < |s'.hist.issued[f]|
      ensures Answered(s'.hist, s'.hist.issued[f][i], s'.hist.received[f][i])
    {
      AnswerStable(s.hist, s'.hist, s.hist.issued[f][i], s.hist.received[f][i]);
    }
  }

  lemma AnswersBegin(s: State, f: FiberId)
    requires IssuesOk(s) && AnswersOk(s) && f !in s.hist.life
    ensures AnswersOk(FiberRunStep(s, f).s)
  {
    var s' := FiberRunStep(s, f).s;
    forall g | g in s'.hist.issued && g in s'.hist.received
      ensures FiberAnswered(s', g)
    {
      if g != f {
        AnswersFrame(s, s', g);
      }
    }
  }

  lemma CurrentIsKnown(s: State)
    requires FibersOk(s) && IssuesOk(s) && s.current in s.fibers
    ensures MAIN !in s.fibers && s.current in s.hist.issued
  {
    hide IssueOk;
  }

  lemma AnswersStart(s: State, kind: OpKind, id: Own.Id)
    requires FibersOk(s) && IssuesOk(s) && AnswersOk(s) && StartStep(s, kind, id).Next?
    ensures AnswersOk(StartStep(s, kind, id).s)
  {
    hide StartStep, Started, FibersOk, AnswersOk, IssuesOk, Answered, FiberAnswered;
    StartSuspends(s, kind, id);
    CurrentIsKnown(s);
    var s' := StartStep(s, kind, id).s;
    if s' != s {
      forall g | g in s'.hist.issued && g in s'.hist.received
        ensures FiberAnswered(s', g)
      {
        AnswersFrame(s, s', g);
      }
      AllAnswered(s');
    }
  }

  lemma ReturnMoves(s: State)
    requires ReturnStep(s).Next?
    ensures s.current in s.fibers && s.fibers[s.current].awaiting != None
    ensures var s', f := ReturnStep(s).s, s.current;
            && s'.fibers == s.fibers[f := s.fibers[f].(awaiting := None)] && s'.current == f
            && s'.hist == s.hist.(received := Append(s.hist.received, f, s.fibers[f].resumeValue))
  {
    hide Unwind, Append;
  }

  /** The returning fiber receives the value that was due. */
  lemma ReturnedIsAnswered(s: State, s': State, f: FiberId)
    requires f in s.hist.issued && f in s.hist.received && IssueOk(s, f) && FiberAnswered(s, f)
    requires f in s.fibers && s.fibers[f].awaiting != None
    requires Answered(s.hist, s.fibers[f].awaiting.value, s.fibers[f].resumeValue)
    requires s'.hist == s.hist.(received := s.hist.received[f := s.hist.received[f] + [s.fibers[f].resumeValue]])
    ensures FiberAnswered(s', f)
  {
    hide Answered;
    forall i | 0 <= i < |s'.hist.received[f]| && i < |s'.hist.issued[f]|
      ensures Answered(s'.hist, s'.hist.issued[f][i], s'.hist.received[f][i])
    {
      AnswerStable(s.hist, s'.hist, s.hist.issued[f][i], s'.hist.received[f][i]);
    }
  }

  /** What is known of a fiber whose primitive is about to return. */
  lemma AnswerDue(s: State, f: FiberId)
    requires IssuesOk(s) && AnswersOk(s) && f == s.current && f in s.fibers && s.fibers[f].awaiting != None
    ensures f in s.hist.issued && f in s.hist.received && IssueOk(s, f) && FiberAnswered(s, f)
    ensures Answered(s.hist, s.fibers[f].awaiting.value, s.fibers[f].resumeValue)
  {
    hide IssueOk, FiberAnswered, Answered;
  }

  lemma OnlyReceivedGrows(hist: History, hist': History, received: map<FiberId, seq<Value>>)
    requires hist' == hist.(received := received)
    ensures forall o :: SameAnswer(hist, hist', o)
  {
  }

  /** With every received value an answer and nobody inside a primitive's return, all is answered. */
  lemma AllAnswered(s: State)
    requires s.current in s.fibers ==> s.fibers[s.current].awaiting == None
    requires forall f :: f in s.hist.issued && f in s.hist.received ==> FiberAnswered(s, f)
    ensures AnswersOk(s)
  {
    hide FiberAnswered;
  }

  lemma AnswersReturn(s: State)
    requires IssuesOk(s) && AnswersOk(s) && ReturnStep(s).Next?
    ensures AnswersOk(ReturnStep(s).s)
  {
    hide ReturnStep, Answered, AnswersOk, IssuesOk, IssueOk, FiberAnswered, SameAnswer;
    ReturnMoves(s);
    var s', f := ReturnStep(s).s, s.current;
    AnswerDue(s, f);
    assert s'.hist.received == s.hist.received[f := s.hist.received[f] + [s.fibers[f].resumeValue]];
    hide Append;
    ReturnedIsAnswered(s, s', f);
    OnlyReceivedGrows(s.hist, s'.hist, s'.hist.received);
    forall g | g in s'.hist.issued && g in s'.hist.received
      ensures FiberAnswered(s', g)
    {
      if g != f {
        AnswersFrame(s, s', g);
      }
    }
    AllAnswered(s');
  }

  lemma AnswersFinish(s: State)
    requires FibersOk(s) && IssuesOk(s) && AnswersOk(s) && FinishStep(s).Next?
    ensures AnswersOk(FinishStep(s).s)
  {
    var s' := FinishStep(s).s;
    assert MAIN !in s.fibers;
    hide FibersOk;
    forall g | g in s'.hist.issued && g in s'.hist.received
      ensures FiberAnswered(s', g)
    {
      AnswersFrame(s, s', g);
    }
  }

  /** A completion answers nothing yet: it records the outcome of an operation that had none. */
  lemma AnswersComplete(s: State, s': State, o: OpId, raw: Raw)
    requires IssuesOk(s) && AnswersOk(s) && o !in s.hist.outcome
    requires s'.fibers == s.fibers && s'.current == s.current
    requires s'.hist.issued == s.hist.issued && s'.hist.received == s.hist.received
    requires s'.hist.ops == s.hist.ops && s'.hist.minted == s.hist.minted && s'.hist.outcome == s.hist.outcome[o := raw]
    ensures AnswersOk(s')
  {
    forall g | g in s'.hist.issued && g in s'.hist.received
      ensures FiberAnswered(s', g)
    {
      AnswersFrame(s, s', g);
    }
    if s.current in s.fibers && s.fibers[s.current].awaiting != None {
      AnswerStable(s.hist, s'.hist, s.fibers[s.current].awaiting.value, s.fibers[s.current].resumeValue);
    }
  }

  lemma MintedIffNewHandle(k: OpKind, raw: Raw, accepted: bool)
    ensures var built := CreateResultValue(k, raw, accepted); CreateResultValue(k, raw, built.NewHandle?) == built
  {
  }

  /** An operation still waited for has been answered to nobody. */
  lemma AwaitedIsUnanswered(s: State, f: FiberId, g: FiberId, i: nat)
    requires IssuesOk(s) && f in s.fibers && s.fibers[f].awaiting != None
    requires g in s.hist.issued && i < |s.hist.received[g]| && i < |s.hist.issued[g]|
    ensures s.hist.issued[g][i] != s.fibers[f].awaiting.value
  {
    assert IssueOk(s, f) && IssueOk(s, g);
  }

  /** The value a resumed fiber is about to receive answers the operation of its context. */
  lemma ResumeAnswers(s: State, accepted: bool)
    requires CtxsOk(s) && OutcomesOk(s) && MintedOk(s) && s.active == None
    requires s.q.phase == CQ.Draining && s.q.local != [] && ResumeNextStep(s, accepted).Next?
    ensures var x, s' := s.ctxs[s.q.local[0]], ResumeNextStep(s, accepted).s;
            && x.fiber in s.fibers && s.fibers[x.fiber].awaiting == Some(x.op)
            && Answered(s'.hist, x.op, s'.fibers[x.fiber].resumeValue)
  {
    var c := s.q.local[0];
    var x := s.ctxs[c];
    assert Queued(s, c) && CtxOk(s, c);
    assert x.op in s.hist.outcome && s.hist.outcome[x.op] == x.raw && x.op !in s.hist.minted;
    hide CtxsOk, OutcomesOk, MintedOk;
    MintedIffNewHandle(x.kind, x.raw, accepted);
    hide CreateResultValue;
  }

  lemma AnswersResume(s: State, accepted: bool)
    requires CtxsOk(s) && OutcomesOk(s) && MintedOk(s) && IssuesOk(s) && AnswersOk(s) && s.active == None
    requires s.q.phase == CQ.Draining && s.q.local != [] && ResumeNextStep(s, accepted).Next?
    ensures AnswersOk(ResumeNextStep(s, accepted).s)
  {
    hide CreateResultValue, CtxsOk, OutcomesOk, MintedOk, IssuesOk, Answered;
    ResumeAnswers(s, accepted);
    var x, s' := s.ctxs[s.q.local[0]], ResumeNextStep(s, accepted).s;
    forall g | g in s'.hist.issued && g in s'.hist.received
      ensures FiberAnswered(s', g)
    {
      forall i | 0 <= i < |s.hist.received[g]| && i < |s.hist.issued[g]|
        ensures SameAnswer(s.hist, s'.hist, s.hist.issued[g][i])
      {
        AwaitedIsUnanswered(s, x.fiber, g, i);
      }
      AnswersFrame(s, s', g);
    }
  }

  lemma AnswersUntouched(s: State, s': State)
    requires AnswersOk(s) && s'.fibers == s.fibers && s'.current == s.current
    requires s'.hist.issued == s.hist.issued && s'.hist.received == s.hist.received
    requires s'.hist.ops == s.hist.ops && s'.hist.minted == s.hist.minted && s'.hist.outcome == s.hist.outcome
    ensures AnswersOk(s')
  {
    hide CreateResultValue;
    forall g | g in s'.hist.issued && g in s'.hist.received
      ensures FiberAnswered(s', g)
    {
      assert FiberAnswered(s, g);
    }
  }

  lemma AnswersOnComplete(s: State, t: CQ.Thread, c: CtxId, raw: Raw)
    requires OutcomesOk(s) && IssuesOk(s) && AnswersOk(s) && t !in s.q.sending && c in s.inflight
    requires OnCompleteStep(s, t, c, raw).Next?
    ensures AnswersOk(OnCompleteStep(s, t, c, raw).s)
  {
    assert s.ctxs[c].op !in s.hist.outcome;
    hide OutcomesOk, IssuesOk, AnswersOk;
    AnswersComplete(s, OnCompleteStep(s, t, c, raw).s, s.ctxs[c].op, raw);
  }

  lemma AnswersOnRead(s: State, t: CQ.Thread, h: Ref, raw: Raw)
    requires OutcomesOk(s) && PlacesOk(s) && IssuesOk(s) && AnswersOk(s) && t !in s.q.sending
    requires OnReadStep(s, t, h, raw).Next?
    ensures AnswersOk(OnReadStep(s, t, h, raw).s)
  {
    var c := s.pending[h];
    assert Parked(s, c) && s.ctxs[c].op !in s.hist.outcome;
    hide OutcomesOk, IssuesOk, AnswersOk, PlacesOk;
    AnswersComplete(s, OnReadStep(s, t, h, raw).s, s.ctxs[c].op, raw);
  }

  lemma AnswersOnConnection(s: State, t: CQ.Thread, h: Ref, status: int)
    requires OutcomesOk(s) && AcceptOk(s) && IssuesOk(s) && AnswersOk(s) && t !in s.q.sending
    requires OnConnectionStep(s, t, h, status).Next?
    ensures AnswersOk(OnConnectionStep(s, t, h, status).s)
  {
    if Waiters(s, h) != [] {
      HeadIsWaiting(s, h);
      var o := s.fibers[Waiters(s, h)[0]].awaiting.value;
      assert o !in s.hist.outcome;
      hide OutcomesOk, IssuesOk, AnswersOk, AcceptOk;
      AnswersComplete(s, OnConnectionStep(s, t, h, status).s, o, Raw(status, [], ""));
    }
  }

  lemma AnswersKept(s: State, l: Label)
    requires Core(s) && OutcomesOk(s) && MintedOk(s) && IssuesOk(s) && AnswersOk(s)
    requires Enabled(s, l) && Apply(s, l).Next?
    ensures AnswersOk(Apply(s, l).s)
  {
    hide FibersOk, CtxsOk, WaitsOk, AcceptOk, PlacesOk, OnceQueued, FramesOk, ReadingOk, Own.Inv, CQ.Inv;
    hide OutcomesOk, MintedOk, IssuesOk, AnswersOk;
    hide FiberRunStep, StartStep, ReturnStep, FinishStep, OnCompleteStep, OnReadStep, OnConnectionStep;
    hide ResumeNextStep, DeleteStep;
    match l {
      case FiberRun(f) => AnswersBegin(s, f);
      case Start(k, id, _) => AnswersStart(s, k, id);
      case Return => AnswersReturn(s);
      case Finish => AnswersFinish(s);
      case OnComplete(t, c, raw) => AnswersOnComplete(s, t, c, raw);
      case OnRead(t, h, raw) => AnswersOnRead(s, t, h, raw);
      case OnConnection(t, h, status) => AnswersOnConnection(s, t, h, status);
      case ResumeNext(accepted) => AnswersResume(s, accepted);
      case Delete => AnswersDelete(s);
      case _ =>
        IssuesUntouched(s, l);
        OrderUntouched(s, l);
        hide Apply, Enabled;
        AnswersUntouched(s, Apply(s, l).s);
    }
  }

  lemma AnswersDelete(s: State)
    requires AnswersOk(s) && DeleteStep(s).Next?
    ensures AnswersOk(DeleteStep(s).s)
  {
    hide AnswersOk;
    AnswersUntouched(s, DeleteStep(s).s);
  }

  // ---------------------------------------------------------------- minted ids

  lemma StoreUntouched(s: State, l: Label)
    requires Enabled(s, l) && Apply(s, l).Next?
    requires l.FiberRun? || l.Finish? || l.OnComplete? || l.OnRead? || l.OnConnection? || l.Send?
             || l.Enter? || l.Swap? || l.Delete? || l.Leave?
    ensures Apply(s, l).s.heap == s.heap
  {
    hide CQ.Apply, CQ.Enabled, ScriptRunning, Append, Log, RawFits;
  }

  lemma CreateTlsIsLater(s: State, net: Own.Id)
    ensures CreateTlsStep(s, net).Next? && Own.Later(s.heap, CreateTlsStep(s, net).s.heap)
  {
    hide Own.Get;
  }

  lemma HoldIsLater(s: State, id: Own.Id, want: Own.Kind, slot: nat)
    ensures HoldStep(s, id, want, slot).Next? && Own.Later(s.heap, HoldStep(s, id, want, slot).s.heap)
  {
    hide Own.Get;
  }

  /** The store moves on: ids already handed out never come to mean another handle. */
  lemma StoreIsLater(s: State, l: Label)
    requires Core(s) && Enabled(s, l) && Apply(s, l).Next?
    ensures Own.Later(s.heap, Apply(s, l).s.heap)
  {
    hide FibersOk, CtxsOk, WaitsOk, AcceptOk, PlacesOk, OnceQueued, ReadingOk, CQ.Inv, Own.Later;
    Own.LaterItself(s.heap);
    match l {
      case Start(k, id, _) => StartIsLater(s, k, id); hide StartStep;
      case Return => ReturnIsLater(s); hide ReturnStep;
      case ResumeNext(accepted) => ResumeIsLater(s, accepted); hide ResumeNextStep;
      case Free(id) => Own.RemoveIsLater(s.heap, id); hide Own.Remove;
      case Close(id, _) => Own.RemoveIsLater(s.heap, id); hide Own.Remove;
      case LetGo(slot) => Own.DropIsLater(s.heap, Own.FramePtr(s.current, slot)); hide Own.Drop;
      case Create(k) => Own.AddIsLater(s.heap, k); hide Own.Add;
      case Listen => Own.AddIsLater(s.heap, Own.NetK); hide Own.Add;
      case CreateTls(net) => CreateTlsIsLater(s, net); hide CreateTlsStep;
      case Hold(id, want, slot) => HoldIsLater(s, id, want, slot); hide HoldStep;
      case _ => StoreUntouched(s, l); hide Apply;
    }
  }

  /** Whatever a primitive pins, the store itself is as before. */
  lemma PinIsLater(s: State, handle: Option<Ref>)
    ensures Own.Later(s.heap, Pin(s, handle)) && Pin(s, handle).nextId == s.heap.nextId
  {
  }

  lemma StartIsLater(s: State, kind: OpKind, id: Own.Id)
    requires StartStep(s, kind, id).Next?
    ensures Own.Later(s.heap, StartStep(s, kind, id).s.heap)
  {
    StartCases(s, kind, id);
    PinIsLater(s, Started(s, kind, id).handle);
    StartPins(s, kind, id);
    hide StartStep, Started, Pin, BeginRequest, BeginRead, BeginAccept;
  }

  lemma StartPins(s: State, kind: OpKind, id: Own.Id)
    requires StartStep(s, kind, id).Next?
    ensures var h' := StartStep(s, kind, id).s.heap; h' == s.heap || h' == Pin(s, Started(s, kind, id).handle)
  {
    StartCases(s, kind, id);
    hide StartStep, Started, Pin, Append;
  }

  lemma UnwindIsLater(h: Own.Heap, f: FiberId, op: Op)
    requires Own.Inv(h) && (op.handle != None <==> Own.FramePtr(f, 0) in h.ptrs)
    ensures Own.Later(h, Unwind(h, f, op))
  {
    var h1 := if op.kind == FsClose then Own.Remove(h, op.id) else h;
    hide Own.Inv, Own.Remove, Own.Drop;
    Own.RemoveKeepsInv(h, op.id);
    Own.RemoveMoves(h, op.id);
    Own.RemoveIsLater(h, op.id);
    if op.handle != None {
      Own.DropIsLater(h1, Own.FramePtr(f, 0));
      Own.LaterTrans(h, h1, Own.Drop(h1, Own.FramePtr(f, 0)));
    }
  }

  lemma ReturnIsLater(s: State)
    requires FibersOk(s) && FramesOk(s) && Own.Inv(s.heap) && ReturnStep(s).Next?
    ensures Own.Later(s.heap, ReturnStep(s).s.heap)
  {
    var op := s.hist.ops[s.fibers[s.current].awaiting.value];
    assert Own.FramePtr(s.current, 0) in s.heap.ptrs <==> op.handle != None;
    hide FramesOk, FibersOk, Own.Inv, Unwind;
    UnwindIsLater(s.heap, s.current, op);
  }

  lemma ResumeIsLater(s: State, accepted: bool)
    requires s.q.phase == CQ.Draining && s.q.local != [] && ResumeNextStep(s, accepted).Next?
    ensures Own.Later(s.heap, ResumeNextStep(s, accepted).s.heap)
  {
    hide CreateResultValue, CQ.Apply;
  }

  lemma MintedFrame(s: State, s': State)
    requires MintedOk(s) && s'.hist.minted == s.hist.minted
    requires s.hist.outcome.Keys <= s'.hist.outcome.Keys && s.heap.nextId <= s'.heap.nextId
    requires forall c :: c in s'.ctxs && Queued(s', c) ==>
               s'.ctxs[c].op !in s.hist.outcome || (c in s.ctxs && Queued(s, c) && s'.ctxs[c].op == s.ctxs[c].op)
    ensures MintedOk(s')
  {
    hide Queued;
  }

  /** A start allocates at most the next context, and touches neither the queue nor what was answered. */
  lemma StartAllocates(s: State, kind: OpKind, id: Own.Id)
    requires StartStep(s, kind, id).Next?
    ensures AllocatesNext(s, StartStep(s, kind, id).s)
  {
    StartCases(s, kind, id);
    hide StartStep, Target, IsRead, AllocatesNext, BeginRequest, BeginRead, BeginAccept;
    var s', op := StartStep(s, kind, id).s, Started(s, kind, id);
    hide Started;
    NothingAllocates(s);
    BeginningsAllocate(s, op, if op.handle == None then 0 else op.handle.value);
  }

  ghost predicate AllocatesNext(s: State, s': State) {
    && (forall c :: c in s'.ctxs ==> c == s.nextCtx || (c in s.ctxs && s'.ctxs[c] == s.ctxs[c]))
    && s'.q == s.q && s'.hist.minted == s.hist.minted && s'.hist.outcome == s.hist.outcome
  }

  lemma NothingAllocates(s: State)
    ensures AllocatesNext(s, s)
  {
  }

  lemma BeginningsAllocate(s: State, op: Op, h: Ref)
    requires s.current in s.fibers
    ensures AllocatesNext(s, BeginRequest(s, op)) && AllocatesNext(s, BeginRead(s, op, h))
    ensures AllocatesNext(s, BeginAccept(s, op, h))
  {
    hide Pin, Append;
  }

  lemma MintedStart(s: State, kind: OpKind, id: Own.Id)
    requires MintedOk(s) && PlacesOk(s) && CtxsOk(s) && StartStep(s, kind, id).Next?
    ensures MintedOk(StartStep(s, kind, id).s)
  {
    hide StartStep, MintedOk;
    StartIsLater(s, kind, id);
    StartAllocates(s, kind, id);
    NewOpIsUnqueued(s);
    hide PlacesOk, CtxsOk;
    MintedFrame(s, StartStep(s, kind, id).s);
  }

  lemma NewOpIsUnqueued(s: State)
    requires PlacesOk(s) && CtxsOk(s)
    ensures s.nextCtx !in s.ctxs && !Queued(s, s.nextCtx)
  {
    hide Placed;
  }

  lemma MintedComplete(s: State, s': State, c: CtxId)
    requires MintedOk(s) && s'.hist.minted == s.hist.minted && s'.heap == s.heap
    requires s.hist.outcome.Keys <= s'.hist.outcome.Keys
    requires c in s'.ctxs && s'.ctxs[c].op !in s.hist.outcome
    requires s'.q.local == s.q.local && s'.q.shared == s.q.shared + [c]
    requires forall d :: d in s'.ctxs && d != c ==> d in s.ctxs && s'.ctxs[d] == s.ctxs[d]
    ensures MintedOk(s')
  {
    assert forall d :: Queued(s', d) <==> d == c || Queued(s, d);
    hide Queued, MintedOk;
    MintedFrame(s, s');
  }

  lemma MintedOnComplete(s: State, t: CQ.Thread, c: CtxId, raw: Raw)
    requires MintedOk(s) && OutcomesOk(s) && t !in s.q.sending && c in s.inflight && OnCompleteStep(s, t, c, raw).Next?
    ensures MintedOk(OnCompleteStep(s, t, c, raw).s)
  {
    assert s.ctxs[c].op !in s.hist.outcome;
    hide OutcomesOk, MintedOk;
    MintedComplete(s, OnCompleteStep(s, t, c, raw).s, c);
  }

  lemma MintedOnRead(s: State, t: CQ.Thread, h: Ref, raw: Raw)
    requires MintedOk(s) && OutcomesOk(s) && PlacesOk(s) && t !in s.q.sending && OnReadStep(s, t, h, raw).Next?
    ensures MintedOk(OnReadStep(s, t, h, raw).s)
  {
    var c := s.pending[h];
    assert Parked(s, c) && s.ctxs[c].op !in s.hist.outcome;
    hide OutcomesOk, MintedOk, PlacesOk;
    MintedComplete(s, OnReadStep(s, t, h, raw).s, c);
  }

  lemma MintedOnConnection(s: State, t: CQ.Thread, h: Ref, status: int)
    requires MintedOk(s) && OutcomesOk(s) && AcceptOk(s) && t !in s.q.sending && OnConnectionStep(s, t, h, status).Next?
    ensures MintedOk(OnConnectionStep(s, t, h, status).s)
  {
    if Waiters(s, h) != [] {
      HeadIsWaiting(s, h);
      assert s.fibers[Waiters(s, h)[0]].awaiting.value !in s.hist.outcome;
      hide OutcomesOk, MintedOk, AcceptOk;
      MintedComplete(s, OnConnectionStep(s, t, h, status).s, s.nextCtx);
    }
  }

  /** What resuming does to the minted ids: at most one more, for the resumed operation, from the store's counter. */
  lemma ResumeMints(s: State, accepted: bool)
    requires s.q.phase == CQ.Draining && s.q.local != [] && ResumeNextStep(s, accepted).Next?
    ensures s.q.local[0] in s.ctxs
    ensures var s', o := ResumeNextStep(s, accepted).s, s.ctxs[s.q.local[0]].op;
            || (s'.heap.nextId == s.heap.nextId && s'.hist.minted == s.hist.minted)
            || (s'.heap.nextId == s.heap.nextId + 1 && s'.hist.minted == s.hist.minted[o := s.heap.nextId])
  {
    hide CreateResultValue, CQ.Apply;
  }

  /** The resumed context is out of the queue, and no other serves its operation. */
  lemma ResumedIsAlone(s: State, s': State, d: CtxId)
    requires CtxsOk(s) && OnceQueued(s) && s.q.local != [] && s.q.local[0] in s.ctxs
    requires s'.ctxs == s.ctxs && s'.q.local == s.q.local[1..] && s'.q.shared == s.q.shared
    requires d in s'.ctxs && Queued(s', d)
    ensures Queued(s, d) && s.ctxs[d].op != s.ctxs[s.q.local[0]].op
  {
    var c := s.q.local[0];
    assert CQ.Contents(s.q) == [c] + CQ.Contents(s'.q);
    DistinctHead(c, CQ.Contents(s'.q));
    QueuedIsContents(s');
    QueuedIsContents(s);
    UniqueOp(s, c);
  }

  lemma MintedResume(s: State, accepted: bool)
    requires MintedOk(s) && OutcomesOk(s) && CtxsOk(s) && OnceQueued(s) && Own.Inv(s.heap)
    requires s.q.phase == CQ.Draining && s.q.local != [] && ResumeNextStep(s, accepted).Next?
    ensures MintedOk(ResumeNextStep(s, accepted).s)
  {
    var c, s' := s.q.local[0], ResumeNextStep(s, accepted).s;
    ResumeMints(s, accepted);
    ResumeMoves(s, accepted);
    hide ResumeNextStep;
    assert Queued(s, c) && s.ctxs[c].op in s.hist.outcome;
    assert s.heap.nextId >= 1;
    hide OutcomesOk, Own.Inv, CtxsOk, OnceQueued;
    forall d | d in s'.ctxs && Queued(s', d)
      ensures d in s.ctxs && Queued(s, d) && s'.ctxs[d].op == s.ctxs[d].op != s.ctxs[c].op
    {
      ResumedIsAlone(s, s', d);
    }
    hide Queued, MintedOk;
    if s'.hist.minted == s.hist.minted {
      MintedFrame(s, s');
    } else {
      MintedGrows(s, s', s.ctxs[c].op);
    }
  }

  lemma MintedGrows(s: State, s': State, o: OpId)
    requires MintedOk(s) && o in s.hist.outcome && s.heap.nextId >= 1
    requires s'.hist.minted == s.hist.minted[o := s.heap.nextId] && s'.heap.nextId == s.heap.nextId + 1
    requires s'.hist.outcome == s.hist.outcome
    requires forall d :: d in s'.ctxs && Queued(s', d) ==>
               d in s.ctxs && Queued(s, d) && s'.ctxs[d].op == s.ctxs[d].op != o
    ensures MintedOk(s')
  {
    hide Queued;
  }

  lemma MintedDelete(s: State)
    requires MintedOk(s) && DeleteStep(s).Next?
    ensures MintedOk(DeleteStep(s).s)
  {
    hide MintedOk;
    MintedFrame(s, DeleteStep(s).s);
  }

  lemma MintedUntouched(s: State, s': State)
    requires MintedOk(s) && SameOrder(s, s') && s.heap.nextId <= s'.heap.nextId
    ensures MintedOk(s')
  {
    QueuedIsContents(s);
    QueuedIsContents(s');
    hide MintedOk, Queued;
    MintedFrame(s, s');
  }

  lemma MintedKept(s: State, l: Label)
    requires Core(s) && OutcomesOk(s) && MintedOk(s) && Enabled(s, l) && Apply(s, l).Next?
    ensures MintedOk(Apply(s, l).s)
  {
    hide FibersOk, CtxsOk, WaitsOk, AcceptOk, PlacesOk, OnceQueued, FramesOk, ReadingOk, Own.Inv, CQ.Inv;
    hide OutcomesOk, MintedOk, StartStep, OnCompleteStep, OnReadStep, OnConnectionStep, ResumeNextStep, DeleteStep;
    match l {
      case Start(k, id, _) => MintedStart(s, k, id);
      case OnComplete(t, c, raw) => MintedOnComplete(s, t, c, raw);
      case OnRead(t, h, raw) => MintedOnRead(s, t, h, raw);
      case OnConnection(t, h, status) => MintedOnConnection(s, t, h, status);
      case ResumeNext(accepted) => MintedResume(s, accepted);
      case Delete => MintedDelete(s);
      case _ =>
        OrderUntouched(s, l);
        StoreIsLater(s, l);
        hide Apply, Enabled;
        MintedUntouched(s, Apply(s, l).s);
    }
  }
}
