/** The promises of the runtime, for every state a run can reach. */
module RuntimeTheorems {
  import opened Prelude
  import opened Results
  import opened Runtime
  import opened RuntimeInvariant
  import opened RuntimeSafety
  import opened RuntimeHistory
  import opened RuntimeOrder
  import opened RuntimeAnswers
  import opened RuntimeListeners
  import Own = Ownership
  import CQ = CompletionQueue

  ghost predicate Inv(s: State) {
    && Core(s) && AcceptLogOk(s) && LivesOk(s) && FreedOk(s)
    && OrderOk(s) && OutcomesOk(s) && WireOk(s)
    && IssuesOk(s) && AnswersOk(s) && MintedOk(s)
    && ListenersOk(s) && FsClosesOk(s) && HandlesOk(s) && MadeOk(s)
  }

  /** An enabled step crashes exactly when it is a connection to an orphan, and else keeps all that holds. */
  lemma StepKeepsInv(s: State, l: Label)
    requires Inv(s) && Enabled(s, l)
    ensures Apply(s, l) == Crash <==> MeetsOrphan(s, l)
    ensures Apply(s, l).Next? ==> Inv(Apply(s, l).s)
  {
    StepKeeps(s, l);
    assert FibersOk(s);
    hide Core, AcceptLogOk, LivesOk, FreedOk, OrderOk, OutcomesOk, WireOk, IssuesOk, AnswersOk, MintedOk;
    hide ListenersOk, FsClosesOk, HandlesOk, MadeOk, FibersOk, Apply, Enabled;
    if Apply(s, l).Next? {
      AcceptLogKept(s, l);
      LivesKept(s, l);
      FreedKept(s, l);
      OrderKept(s, l);
      WireKept(s, l);
      IssuesKept(s, l);
      AnswersKept(s, l);
      MintedKept(s, l);
      ListenersKept(s, l);
      FsClosesKept(s, l);
      HandlesKept(s, l);
      MadeKept(s, l);
    }
  }

  /** Every state that a run reaches from a good state is good. */
  lemma {:induction false} RunsKeepInv(s: State, ls: seq<Label>)
    requires Inv(s) && Exec(s, ls) != None && Exec(s, ls).value.Next?
    ensures Inv(Exec(s, ls).value.s)
    decreases ls
  {
    hide Inv;
    if ls != [] {
      StepKeepsInv(s, ls[0]);
      RunsKeepInv(Apply(s, ls[0]).s, ls[1..]);
    }
  }

  lemma InitHasInv()
    ensures Inv(INIT)
  {
    InitIsCore();
    hide Core;
    assert CQ.Contents(INIT.q) == [];
  }

  ghost predicate Reachable(s: State) {
    exists ls: seq<Label> :: Exec(INIT, ls) == Some(Next(s))
  }

  lemma {:induction false} ExecSnoc(s: State, ls: seq<Label>, m: State, l: Label)
    requires Exec(s, ls) == Some(Next(m)) && Enabled(m, l)
    ensures Exec(s, ls + [l]) == Some(Apply(m, l))
    decreases ls
  {
    hide Enabled, Apply;
    if ls == [] {
      assert [l][1..] == [];
    } else {
      assert (ls + [l])[1..] == ls[1..] + [l];
      ExecSnoc(Apply(s, ls[0]).s, ls[1..], m, l);
    }
  }

  lemma ReachableExtends(s: State, l: Label)
    requires Reachable(s) && Enabled(s, l) && Apply(s, l).Next?
    ensures Reachable(Apply(s, l).s)
  {
    hide Enabled, Apply, Exec;
    var ls: seq<Label> :| Exec(INIT, ls) == Some(Next(s));
    ExecSnoc(INIT, ls, s, l);
    assert Exec(INIT, ls + [l]) == Some(Next(Apply(s, l).s));
  }

  lemma ReachableHasInv(s: State)
    requires Reachable(s)
    ensures Inv(s)
  {
    var ls: seq<Label> :| Exec(INIT, ls) == Some(Next(s));
    InitHasInv();
    RunsKeepInv(INIT, ls);
  }

  // ---------------------------------------------------------------- when a run can crash

  /** A listener that was freed by id while open, and that no frame and no TLSHandle keeps alive. */
  ghost predicate Orphan(s: State, h: Ref) {
    h in s.hist.abandoned && Own.Owners(s.heap, h) == {}
  }

  ghost predicate Orphaned(s: State) {
    exists h :: Orphan(s, h)
  }

  /** For a listener libuv still uses, being gone, being an orphan, and crashing the next connection are one. */
  lemma OrphanIffGone(s: State, h: Ref)
    requires Inv(s) && Open(s, h)
    ensures h !in s.heap.objs <==> Orphan(s, h)
  {
    assert ListenerOk(s, h);
    hide FibersOk, CtxsOk, WaitsOk, AcceptOk, PlacesOk, OnceQueued, ReadingOk, FramesOk, CQ.Inv, AcceptLogOk;
    hide LivesOk, FreedOk, OrderOk, OutcomesOk, WireOk, IssuesOk, AnswersOk, MintedOk, FsClosesOk, HandlesOk, MadeOk;
    if h in s.heap.objs {
      assert |Own.Owners(s.heap, h)| > 0;
    }
  }

  lemma OrphansAreOpen(s: State, h: Ref)
    requires Inv(s) && Orphan(s, h)
    ensures Open(s, h)
  {
    assert ListenerOk(s, h);
    hide Core, AcceptLogOk, LivesOk, FreedOk, OrderOk, OutcomesOk, WireOk, IssuesOk, AnswersOk, MintedOk;
    hide FsClosesOk, HandlesOk, MadeOk, Stored;
  }

  /** Somewhere along the run a connection arrives for an orphan. */
  ghost predicate MeetsOrphanOn(s: State, ls: seq<Label>)
    decreases ls
  {
    && ls != [] && Enabled(s, ls[0])
    && ((ls[0].OnConnection? && Orphan(s, ls[0].h))
        || (Apply(s, ls[0]).Next? && MeetsOrphanOn(Apply(s, ls[0]).s, ls[1..])))
  }

  lemma {:induction false} RunCrashesIff(s: State, ls: seq<Label>)
    requires Inv(s) && Exec(s, ls) != None
    ensures Exec(s, ls) == Some(Crash) <==> MeetsOrphanOn(s, ls)
    decreases ls
  {
    hide Inv, Orphan;
    if ls != [] {
      StepKeepsInv(s, ls[0]);
      if ls[0].OnConnection? {
        OrphanIffGone(s, ls[0].h);
      }
      hide Apply;
      if Apply(s, ls[0]).Next? {
        RunCrashesIff(Apply(s, ls[0]).s, ls[1..]);
      }
    }
  }

  /** No step of the run frees an open listener by its id; a script can check that before each free. */
  ghost predicate SparesListeners(s: State, ls: seq<Label>)
    decreases ls
  {
    ls != [] && Enabled(s, ls[0]) ==>
      && (ls[0].Free? ==> OpenListener(s, ls[0].freed) == None)
      && (Apply(s, ls[0]).Next? ==> SparesListeners(Apply(s, ls[0]).s, ls[1..]))
  }

  lemma {:induction false} SparingRunsGoOn(s: State, ls: seq<Label>)
    requires Inv(s) && s.hist.abandoned == {} && Exec(s, ls) != None && SparesListeners(s, ls)
    ensures Exec(s, ls).value.Next?
    ensures Exec(s, ls).value.s.hist.abandoned == {}
    decreases ls
  {
    hide Inv;
    if ls != [] {
      StepKeepsInv(s, ls[0]);
      if ls[0].OnConnection? {
        OrphanIffGone(s, ls[0].h);
      }
      ListenersMove(s, ls[0]);
      hide Apply, OpenListener;
      SparingRunsGoOn(Apply(s, ls[0]).s, ls[1..]);
    }
  }

  /** A run spared its listeners exactly when it has abandoned none. */
  lemma {:induction false} SparedIffNoneAbandoned(s: State, ls: seq<Label>)
    requires Exec(s, ls) != None && Exec(s, ls).value.Next?
    ensures Exec(s, ls).value.s.hist.abandoned == {} <==> s.hist.abandoned == {} && SparesListeners(s, ls)
    decreases ls
  {
    if ls != [] {
      ListenersMove(s, ls[0]);
      hide Apply, OpenListener, Enabled;
      SparedIffNoneAbandoned(Apply(s, ls[0]).s, ls[1..]);
    }
  }

  /**
   As long as no script or finalizer frees an open listener, no run of the runtime from its
   start ever uses a deleted or null object.
   */
  lemma NoRunCrashes(ls: seq<Label>)
    requires Exec(INIT, ls) != None && SparesListeners(INIT, ls)
    ensures Exec(INIT, ls).value != Crash
  {
    hide Exec, SparesListeners, Inv;
    InitHasInv();
    SparingRunsGoOn(INIT, ls);
  }

  /** The condition is needed: listen, free the id, and the next client crashes the process. */
  lemma FreedListenerCrashes()
    ensures Exec(INIT, [Listen, Free(1), OnConnection(0, 0, 0)]) == Some(Crash)
    ensures !SparesListeners(INIT, [Listen, Free(1), OnConnection(0, 0, 0)])
  {
    var s1 := Apply(INIT, Listen).s;
    assert s1.heap == Own.Heap(map[0 := Own.Obj(Own.NetK, 1, 1)], map[Own.StorePtr(1) := 0], 2, 1);
    assert s1.listening == {0};
    var s2 := Apply(s1, Free(1)).s;
    assert 0 !in s2.heap.objs && Open(s2, 0);
    var ls := [Listen, Free(1), OnConnection(0, 0, 0)];
    assert ls[1..] == [Free(1), OnConnection(0, 0, 0)] && ls[1..][1..] == [OnConnection(0, 0, 0)];
    assert Apply(s2, OnConnection(0, 0, 0)) == Crash;
  }

  /** In every reachable state: some step can crash next exactly when there is an orphan. */
  lemma CrashesNextIff(s: State)
    requires Reachable(s)
    ensures (exists l :: Enabled(s, l) && Apply(s, l) == Crash) <==> Orphaned(s)
  {
    hide Reachable, Inv, Orphan;
    ReachableHasInv(s);
    if l :| Enabled(s, l) && Apply(s, l) == Crash {
      StepKeepsInv(s, l);
      assert Open(s, l.h);
      hide Enabled, Apply;
      OrphanIffGone(s, l.h);
    }
    if h :| Orphan(s, h) {
      OrphansAreOpen(s, h);
      OrphanIffGone(s, h);
      var t := IdleThread(s.q.sending);
      var l := OnConnection(t, h, 0);
      assert Enabled(s, l);
      StepKeepsInv(s, l);
      assert MeetsOrphan(s, l);
    }
  }

  lemma {:induction false} IdleThread(busy: set<CQ.Thread>) returns (t: CQ.Thread)
    ensures forall u :: u in busy ==> u < t
    decreases busy
  {
    if busy == {} {
      t := 0;
    } else {
      var u :| u in busy;
      t := IdleThread(busy - {u});
      t := if u < t then t else u + 1;
      assert forall v :: v in busy ==> v == u || v in busy - {u};
    }
  }

  /** An open listener is in the store exactly as long as nobody has freed its id. */
  lemma OpenListenersAreStored(s: State, h: Ref)
    requires Reachable(s) && Open(s, h)
    ensures Stored(s.heap, h) <==> h !in s.hist.abandoned
    ensures Stored(s.heap, h) ==> OpenListener(s, s.heap.objs[h].id) == Some(h)
  {
    hide Reachable, Inv;
    ReachableHasInv(s);
    InvListeners(s);
    assert ListenerOk(s, h);
  }

  lemma InvListeners(s: State)
    requires Inv(s)
    ensures ListenersOk(s) && FsClosesOk(s) && MadeOk(s) && Own.Inv(s.heap)
  {
    HeapIsSound(s);
    hide Core, AcceptLogOk, LivesOk, FreedOk, OrderOk, OutcomesOk, WireOk, IssuesOk, AnswersOk, MintedOk;
    hide ListenersOk, FsClosesOk, HandlesOk, MadeOk, Own.Inv;
  }

  /**
   Freeing an id and then accepting a client on the handle it named crashes exactly when the
   handle was an open listener that nothing but the store owned.
   */
  lemma FreeThenConnectCrashesIff(s: State, id: Own.Id, t: CQ.Thread, status: int)
    requires Reachable(s) && Enabled(s, Free(id)) && t !in s.q.sending && Own.StorePtr(id) in s.heap.ptrs
    ensures var h := s.heap.ptrs[Own.StorePtr(id)];
            Exec(s, [Free(id), OnConnection(t, h, status)]) == Some(Crash) <==>
              Open(s, h) && Own.Owners(s.heap, h) == {Own.StorePtr(id)}
  {
    hide Reachable, Inv;
    ReachableHasInv(s);
    InvListeners(s);
    var h := s.heap.ptrs[Own.StorePtr(id)];
    var l := OnConnection(t, h, status);
    var s1 := FreeStep(s, id).s;
    ExecTwo(s, Free(id), l);
    StepKeepsInv(s, Free(id));
    FreeDestroysIff(s, id);
    assert Enabled(s1, l) <==> Open(s, h);
    if Open(s, h) {
      StepKeepsInv(s1, l);
    }
  }

  lemma FreeDestroysIff(s: State, id: Own.Id)
    requires Own.Inv(s.heap) && Own.StorePtr(id) in s.heap.ptrs
    requires ListenersOk(s)
    ensures var h := s.heap.ptrs[Own.StorePtr(id)];
            Open(s, h) ==>
              (h !in Own.Remove(s.heap, id).objs <==> Own.Owners(s.heap, h) == {Own.StorePtr(id)})
  {
    var h := s.heap.ptrs[Own.StorePtr(id)];
    if Open(s, h) {
      assert ListenerOk(s, h);
      Own.DestroyedExactlyWithLastOwner(s.heap, Own.StorePtr(id), h);
      assert Own.TlsPtr(h) !in s.heap.ptrs;
      assert Own.StorePtr(id) in Own.Owners(s.heap, h);
    }
  }

  lemma ExecTwo(s: State, l: Label, m: Label)
    requires Enabled(s, l) && Apply(s, l).Next?
    ensures Exec(s, [l, m]) == if Enabled(Apply(s, l).s, m) then Some(Apply(Apply(s, l).s, m)) else None
  {
    hide Enabled, Apply;
    var s1 := Apply(s, l).s;
    assert [l, m][1..] == [m] && [m][1..] == [];
    assert Exec(s, [l, m]) == Exec(s1, [m]);
    if Enabled(s1, m) && Apply(s1, m).Next? {
      assert Exec(s1, [m]) == Exec(Apply(s1, m).s, []);
    }
  }

  // ---------------------------------------------------------------- wait tokens

  /** The places from which a fiber can be resumed. */
  datatype Token =
    | InFlight(c: CtxId)
    | PendingRead(h: Ref)
    | AcceptEntry(server: Ref, at: nat)
    | Shared(at: nat)
    | Local(at: nat)

  /** The fiber a token leads to, if the token is there. */
  function Holder(s: State, t: Token): Option<FiberId> {
    match t
    case InFlight(c) => if c in s.inflight && c in s.ctxs then Some(s.ctxs[c].fiber) else None
    case PendingRead(h) => if h in s.pending && s.pending[h] in s.ctxs then Some(s.ctxs[s.pending[h]].fiber) else None
    case AcceptEntry(h, i) => if i < |Waiters(s, h)| then Some(Waiters(s, h)[i]) else None
    case Shared(i) => if i < |s.q.shared| && s.q.shared[i] in s.ctxs then Some(s.ctxs[s.q.shared[i]].fiber) else None
    case Local(i) => if i < |s.q.local| && s.q.local[i] in s.ctxs then Some(s.ctxs[s.q.local[i]].fiber) else None
  }

  /** The context a token stands for, once there is one. */
  function CtxAt(s: State, t: Token): Option<CtxId> {
    match t
    case InFlight(c) => if c in s.inflight then Some(c) else None
    case PendingRead(h) => if h in s.pending then Some(s.pending[h]) else None
    case AcceptEntry(_, _) => None
    case Shared(i) => if i < |s.q.shared| then Some(s.q.shared[i]) else None
    case Local(i) => if i < |s.q.local| then Some(s.q.local[i]) else None
  }

  /** A token leads to a fiber that is suspended, and to nobody else. */
  lemma TokenHoldsSuspended(s: State, t: Token)
    requires Core(s) && Holder(s, t) != None
    ensures var f := Holder(s, t).value;
            && f in s.fibers && s.fibers[f].state == SUSPENDED && s.fibers[f].awaiting != None
            && (CtxAt(s, t) != None ==>
                 && CtxAt(s, t).value in s.ctxs && s.active != CtxAt(s, t)
                 && s.ctxs[CtxAt(s, t).value].op == s.fibers[f].awaiting.value
                 && s.hist.serving.Keys >= {s.fibers[f].awaiting.value}
                 && s.hist.serving[s.fibers[f].awaiting.value] == CtxAt(s, t).value)
            && (CtxAt(s, t) == None ==>
                 && t.AcceptEntry? && s.fibers[f].awaiting.value !in s.hist.serving
                 && s.fibers[f].awaiting.value < |s.hist.ops|
                 && s.hist.ops[s.fibers[f].awaiting.value].handle == Some(t.server))
  {
    hide OnceQueued, ReadingOk, FramesOk, Own.Inv, CQ.Inv, WaitsOk;
    var f := Holder(s, t).value;
    if t.AcceptEntry? {
      assert f in s.accept[t.server];
    } else {
      var c := CtxAt(s, t).value;
      assert CtxOk(s, c);
      assert t.Shared? || t.Local? ==> Queued(s, c);
    }
  }

  /** One context, one place. */
  lemma CtxAtIsInjective(s: State, t: Token, u: Token)
    requires PlacesOk(s) && OnceQueued(s) && CtxAt(s, t) != None && CtxAt(s, t) == CtxAt(s, u)
    ensures t == u
  {
    var c := CtxAt(s, t).value;
    if t.Shared? || t.Local? {
      assert Queued(s, c);
    }
    if u.Shared? || u.Local? {
      assert Queued(s, c);
    }
    var q := CQ.Contents(s.q);
    if (t.Shared? || t.Local?) && (u.Shared? || u.Local?) {
      var i := if t.Local? then t.at else |s.q.local| + t.at;
      var j := if u.Local? then u.at else |s.q.local| + u.at;
      assert q[i] == c && q[j] == c;
    }
  }

  /** The place where a context waits. */
  lemma PlaceExists(s: State, c: CtxId) returns (t: Token)
    requires c in s.ctxs && Placed(s, c) && s.active != Some(c)
    ensures Holder(s, t) == Some(s.ctxs[c].fiber)
  {
    if c in s.inflight {
      return InFlight(c);
    } else if Parked(s, c) {
      return PendingRead(s.hist.ops[s.ctxs[c].op].handle.value);
    } else if c in s.q.local {
      var i :| 0 <= i < |s.q.local| && s.q.local[i] == c;
      return Local(i);
    } else {
      var i :| 0 <= i < |s.q.shared| && s.q.shared[i] == c;
      return Shared(i);
    }
  }

  /** What a suspended fiber waits for: its operation's context, or a place in an accept queue. */
  lemma WhatIsAwaited(s: State, f: FiberId)
    requires Core(s) && f in s.fibers && f != s.current
    ensures s.fibers[f].awaiting != None
    ensures var o := s.fibers[f].awaiting.value;
            if o in s.hist.serving then
              var c := s.hist.serving[o]; c in s.ctxs && s.ctxs[c].fiber == f && s.active != Some(c) && Placed(s, c)
            else
              o < |s.hist.ops| && s.hist.ops[o].handle != None && f in Waiters(s, s.hist.ops[o].handle.value)
  {
    hide OnceQueued, ReadingOk, FramesOk, AcceptOk, Own.Inv, CQ.Inv, Placed;
    var o := s.fibers[f].awaiting.value;
    if o in s.hist.serving {
      assert CtxOk(s, s.hist.serving[o]);
    }
  }

  /** The place where a suspended fiber waits. */
  lemma TokenExists(s: State, f: FiberId) returns (t: Token)
    requires Core(s) && f in s.fibers && f != s.current
    ensures Holder(s, t) == Some(f)
  {
    WhatIsAwaited(s, f);
    hide Core;
    var o := s.fibers[f].awaiting.value;
    if o in s.hist.serving {
      t := PlaceExists(s, s.hist.serving[o]);
    } else {
      var w := Waiters(s, s.hist.ops[o].handle.value);
      var i :| 0 <= i < |w| && w[i] == f;
      t := AcceptEntry(s.hist.ops[o].handle.value, i);
    }
  }

  lemma TokenUnique(s: State, t: Token, u: Token)
    requires Core(s) && Holder(s, t) != None && Holder(s, t) == Holder(s, u)
    ensures t == u
  {
    TokenHoldsSuspended(s, t);
    TokenHoldsSuspended(s, u);
    if CtxAt(s, t) != None {
      CtxAtIsInjective(s, t, u);
    } else {
      assert t.server == u.server && Distinct(s.accept[t.server]);
    }
  }

  /**
   In every reachable state a fiber is either current and RUNNING, or SUSPENDED and
   waiting in exactly one place; and every place leads to an existing, suspended fiber.
   */
  lemma ExactlyOneToken(s: State)
    requires Reachable(s)
    ensures forall f :: f in s.fibers ==>
              if f == s.current then s.fibers[f].state == RUNNING && (forall t :: Holder(s, t) != Some(f))
              else s.fibers[f].state == SUSPENDED
                   && (exists t :: Holder(s, t) == Some(f))
                   && (forall t, u :: Holder(s, t) == Some(f) && Holder(s, u) == Some(f) ==> t == u)
    ensures forall t :: Holder(s, t) != None ==> Holder(s, t).value in s.fibers && Holder(s, t).value != s.current
  {
    hide Reachable;
    ReachableHasInv(s);
    forall t | Holder(s, t) != None
      ensures Holder(s, t).value in s.fibers && Holder(s, t).value != s.current
    {
      TokenHoldsSuspended(s, t);
    }
    forall f | f in s.fibers && f != s.current
      ensures exists t :: Holder(s, t) == Some(f)
    {
      var t := TokenExists(s, f);
    }
    forall t, u | Holder(s, t) != None && Holder(s, t) == Holder(s, u)
      ensures t == u
    {
      TokenUnique(s, t, u);
    }
  }

  // ---------------------------------------------------------------- answers

  lemma InvAnswers(s: State)
    requires Inv(s)
    ensures IssuesOk(s) && AnswersOk(s)
  {
    hide Core, AcceptLogOk, LivesOk, FreedOk, OrderOk, OutcomesOk, WireOk, IssuesOk, AnswersOk, MintedOk;
  }

  /**
   Over every run, the values a fiber received are the results of the operations it
   started, in start order; at most one operation, the one it is inside, is unanswered.
   */
  lemma AnswersInOrder(s: State, f: FiberId)
    requires Reachable(s) && f in s.hist.life
    ensures f in s.hist.issued && f in s.hist.received
    ensures var n := |s.hist.received[f]|;
            && |s.hist.issued[f]| == n + (if f in s.fibers && s.fibers[f].awaiting != None then 1 else 0)
            && forall i :: 0 <= i < n ==>
                 && s.hist.issued[f][i] < |s.hist.ops| && s.hist.ops[s.hist.issued[f][i]].fiber == f
                 && Answered(s.hist, s.hist.issued[f][i], s.hist.received[f][i])
                 && (i + 1 < |s.hist.issued[f]| ==> s.hist.issued[f][i] < s.hist.issued[f][i + 1])
  {
    hide Reachable, Inv, CreateResultValue, Answered;
    ReachableHasInv(s);
    InvAnswers(s);
    assert IssueOk(s, f) && FiberAnswered(s, f);
    hide IssuesOk, AnswersOk;
  }

  /** Two operations never hand out the same handle id, and ids never run ahead of the store. */
  lemma HandleIdsAreFresh(s: State, o: OpId, o': OpId)
    requires Reachable(s) && o in s.hist.minted && o' in s.hist.minted && o != o'
    ensures s.hist.minted[o] != s.hist.minted[o'] && 1 <= s.hist.minted[o] < s.heap.nextId
  {
    hide Reachable;
    ReachableHasInv(s);
  }

  /**
   A value tells its fiber what happened: equal values of two counting operations of one kind
   come from equal answers of libuv, and no two operations are answered with the same handle.
   */
  lemma ValuesTellOutcomes(s: State, o: OpId, o': OpId, v: Value)
    requires Reachable(s) && Answered(s.hist, o, v) && Answered(s.hist, o', v)
    ensures var k, k' := s.hist.ops[o].kind, s.hist.ops[o'].kind;
            && (k == k' && Counts(k) ==> s.hist.outcome[o].code == s.hist.outcome[o'].code)
            && (v.BigInt? && Makes(k) != None && Makes(k') != None ==> o == o')
  {
    hide Reachable, Inv;
    ReachableHasInv(s);
    InvMinted(s);
    var k, k' := s.hist.ops[o].kind, s.hist.ops[o'].kind;
    var m, m' := o in s.hist.minted, o' in s.hist.minted;
    if k == k' && Counts(k) {
      CountersMakeNothing(k, s.hist.outcome[o], m);
      CountersMakeNothing(k, s.hist.outcome[o'], m');
      ValueTellsOutcomeIff(k, s.hist.outcome[o], s.hist.outcome[o'], m, m');
      hide CreateResultValue;
    } else if v.BigInt? && Makes(k) != None && Makes(k') != None {
      BigIntMeansHandle(s, o, v);
      BigIntMeansHandle(s, o', v);
      hide CreateResultValue;
    }
  }

  lemma CountersMakeNothing(k: OpKind, raw: Raw, accepted: bool)
    requires Counts(k)
    ensures CreateResultValue(k, raw, accepted).Ready?
  {
  }

  lemma BigIntMeansHandle(s: State, o: OpId, v: Value)
    requires Answered(s.hist, o, v) && v.BigInt? && Makes(s.hist.ops[o].kind) != None
    ensures o in s.hist.minted && v == BigInt(s.hist.minted[o])
  {
  }

  lemma InvMinted(s: State)
    requires Inv(s)
    ensures MintedOk(s)
  {
    hide Core, AcceptLogOk, LivesOk, FreedOk, OrderOk, OutcomesOk, WireOk, IssuesOk, AnswersOk, MintedOk;
    hide ListenersOk, FsClosesOk, HandlesOk, MadeOk;
  }

  /** An id that an open, a connect or an accept returned names a handle of the type made, while it names one. */
  lemma IdsFitTheirType(s: State, o: OpId, id: Own.Id)
    requires Reachable(s) && Answered(s.hist, o, BigInt(id)) && Makes(s.hist.ops[o].kind) != None
    ensures Own.StorePtr(id) in s.heap.ptrs <==> Own.Get(s.heap, id, Makes(s.hist.ops[o].kind).value) != None
  {
    hide Reachable, Inv;
    ReachableHasInv(s);
    InvListeners(s);
    BigIntMeansHandle(s, o, BigInt(id));
    hide Own.Inv, ListenersOk, FsClosesOk, CreateResultValue, Answered;
  }

  // ---------------------------------------------------------------- order

  ghost predicate GrownLogs(s: State, s': State) {
    s.hist.completed <= s'.hist.completed && s.hist.resumed <= s'.hist.resumed
  }

  lemma CallbacksGrowLogs(s: State, l: Label)
    requires Enabled(s, l) && Apply(s, l).Next? && (l.OnComplete? || l.OnRead? || l.OnConnection? || l.Delete?)
    ensures GrownLogs(s, Apply(s, l).s)
  {
    hide CQ.Apply, Append, Log, RawFits;
  }

  lemma LogsGrow(s: State, l: Label)
    requires Enabled(s, l) && Apply(s, l).Next? && CQ.Inv(s.q)
    ensures GrownLogs(s, Apply(s, l).s)
  {
    hide Apply, Enabled, GrownLogs;
    if l.Start? {
      StartKeepsLogs(s, l);
    } else if l.ResumeNext? {
      ResumeGrowsLogs(s, l);
    } else if l.OnComplete? || l.OnRead? || l.OnConnection? || l.Delete? {
      CallbacksGrowLogs(s, l);
    } else {
      OrderUntouched(s, l);
      SameOrderGrows(s, Apply(s, l).s);
    }
  }

  lemma StartKeepsLogs(s: State, l: Label)
    requires l.Start? && Enabled(s, l) && Apply(s, l).Next?
    ensures GrownLogs(s, Apply(s, l).s)
  {
    StartSuspends(s, l.kind, l.id);
    hide StartStep, Started;
  }

  lemma ResumeGrowsLogs(s: State, l: Label)
    requires l.ResumeNext? && Enabled(s, l) && Apply(s, l).Next?
    ensures GrownLogs(s, Apply(s, l).s)
  {
    ResumeMoves(s, l.accepted);
    hide ResumeNextStep;
  }

  lemma SameOrderGrows(s: State, s': State)
    requires SameOrder(s, s')
    ensures GrownLogs(s, s')
  {
  }

  lemma {:induction false} RunLogsGrow(s: State, ls: seq<Label>)
    requires Core(s) && Exec(s, ls) != None && Exec(s, ls).value.Next?
    ensures var s' := Exec(s, ls).value.s;
            s.hist.completed <= s'.hist.completed && s.hist.resumed <= s'.hist.resumed
    decreases ls
  {
    if ls != [] {
      StepKeeps(s, ls[0]);
      CoreQueue(s);
      LogsGrow(s, ls[0]);
      hide Core;
      RunLogsGrow(Apply(s, ls[0]).s, ls[1..]);
    }
  }

  lemma CoreQueue(s: State)
    requires Core(s)
    ensures CQ.Inv(s.q)
  {
  }

  /** In every reachable state, operations were resumed in the order they completed, none skipped or repeated. */
  lemma ResumedInCompletionOrder(s: State)
    requires Reachable(s)
    ensures s.hist.completed == s.hist.resumed + OpsOf(s.ctxs, CQ.Contents(s.q))
    ensures Distinct(s.hist.completed)
    ensures forall o :: o in s.hist.completed <==> o in s.hist.outcome
  {
    hide Reachable;
    ReachableHasInv(s);
  }

  lemma InvOrder(s: State)
    requires Inv(s)
    ensures OrderOk(s) && s.hist.resumed <= s.hist.completed
  {
    hide Core, AcceptLogOk, LivesOk, FreedOk, OutcomesOk, WireOk, IssuesOk, AnswersOk, MintedOk;
  }

  /** An operation with k completed operations ahead of it is resumed after exactly k other resumptions. */
  lemma KAheadResumeFirst(s: State, ls: seq<Label>, k: nat)
    requires Reachable(s) && Exec(s, ls) != None && Exec(s, ls).value.Next? && k < |CQ.Contents(s.q)|
    ensures var s', at := Exec(s, ls).value.s, |s.hist.resumed| + k;
            && at < |s'.hist.completed|
            && s'.hist.completed[at] == OpOf(s.ctxs, CQ.Contents(s.q)[k])
            && (at < |s'.hist.resumed| ==> s'.hist.resumed[at] == OpOf(s.ctxs, CQ.Contents(s.q)[k]))
  {
    hide Reachable, Inv, Core, Exec, OpOf, CQ.Contents;
    ReachableHasInv(s);
    RunsKeepInv(s, ls);
    var s', at := Exec(s, ls).value.s, |s.hist.resumed| + k;
    InvOrder(s);
    InvOrder(s');
    InvCore(s);
    RunLogsGrow(s, ls);
    assert s.hist.completed[at] == OpOf(s.ctxs, CQ.Contents(s.q)[k]);
    hide OrderOk;
    assert s'.hist.completed[at] == s.hist.completed[at];
  }

  /** The queue event of one step, if it is one. */
  function QueueEvent(s: State, l: Label): Option<CQ.Event> {
    match l
    case OnComplete(t, c, _) => Some(CQ.Push(t, c))
    case OnRead(t, h, _) => if h in s.pending then Some(CQ.Push(t, s.pending[h])) else None
    case OnConnection(t, h, _) => if Waiters(s, h) == [] then None else Some(CQ.Push(t, s.nextCtx))
    case Send(t) => Some(CQ.Send(t))
    case Enter => Some(CQ.Enter)
    case Swap => Some(CQ.Swap)
    case ResumeNext(_) => Some(CQ.Pop)
    case Leave => Some(CQ.Leave)
    case _ => None
  }

  function QueueEvents(s: State, ls: seq<Label>): seq<CQ.Event>
    decreases ls
  {
    if ls == [] || !Enabled(s, ls[0]) || Apply(s, ls[0]) == Crash then []
    else
      var rest := QueueEvents(Apply(s, ls[0]).s, ls[1..]);
      match QueueEvent(s, ls[0])
      case None => rest
      case Some(e) => [e] + rest
  }

  lemma QueueStep(s: State, l: Label)
    requires Enabled(s, l) && Apply(s, l).Next?
    ensures var e, q' := QueueEvent(s, l), Apply(s, l).s.q;
            if e == None then q' == s.q else CQ.Enabled(s.q, e.value) && q' == CQ.Apply(s.q, e.value)
  {
    if l.Start? {
      StartCases(s, l.kind, l.id);
      hide StartStep, Started;
    } else {
      hide CQ.Apply, CreateResultValue, ScriptRunning, Own.Get, Own.Add, Own.AddTls, Own.Copy, Own.Drop;
      hide Own.Remove, Unwind;
    }
  }

  lemma QueueCons(q: CQ.Queue, e: CQ.Event, es: seq<CQ.Event>)
    requires CQ.Enabled(q, e) && CQ.Legal(CQ.Apply(q, e), es)
    ensures CQ.Legal(q, [e] + es) && CQ.Exec(q, [e] + es) == CQ.Exec(CQ.Apply(q, e), es)
  {
    assert ([e] + es)[0] == e && ([e] + es)[1..] == es;
  }

  lemma RunUnfolds(s: State, ls: seq<Label>)
    requires ls != [] && Exec(s, ls) != None && (Enabled(s, ls[0]) ==> Apply(s, ls[0]).Next?)
    ensures Enabled(s, ls[0])
    ensures var s', e := Apply(s, ls[0]).s, QueueEvent(s, ls[0]);
            && Exec(s, ls) == Exec(s', ls[1..])
            && QueueEvents(s, ls) ==
                 if e == None then QueueEvents(s', ls[1..]) else [e.value] + QueueEvents(s', ls[1..])
  {
    hide Enabled, Apply, QueueEvent;
  }

  /** A run of the runtime drives its completion queue through a legal run of CompletionQueue. */
  lemma {:induction false} RunDrivesQueue(s: State, ls: seq<Label>)
    requires Core(s) && Exec(s, ls) != None && Exec(s, ls).value.Next?
    ensures CQ.Legal(s.q, QueueEvents(s, ls))
    ensures CQ.Exec(s.q, QueueEvents(s, ls)) == Exec(s, ls).value.s.q
    decreases ls
  {
    if ls != [] {
      hide Core;
      assert Enabled(s, ls[0]);
      StepKeeps(s, ls[0]);
      var s' := Apply(s, ls[0]).s;
      QueueStep(s, ls[0]);
      RunUnfolds(s, ls);
      hide Exec, QueueEvents, Apply, Enabled, QueueEvent, CQ.Apply, CQ.Enabled, CQ.Exec, CQ.Legal;
      RunDrivesQueue(s', ls[1..]);
      var e := QueueEvent(s, ls[0]);
      if e != None {
        QueueCons(s.q, e.value, QueueEvents(s', ls[1..]));
      }
    }
  }

  /** Over a whole run, contexts leave the queue in the order they entered it. */
  lemma RunIsFifo(s: State, ls: seq<Label>)
    requires Reachable(s) && Exec(s, ls) != None && Exec(s, ls).value.Next?
    ensures CQ.Legal(s.q, QueueEvents(s, ls))
    ensures CQ.Popped(s.q, QueueEvents(s, ls)) + CQ.Contents(Exec(s, ls).value.s.q)
         == CQ.Contents(s.q) + CQ.Pushed(QueueEvents(s, ls))
  {
    hide Reachable;
    ReachableHasInv(s);
    RunDrivesQueue(s, ls);
    CQ.RunIsFifo(s.q, QueueEvents(s, ls));
  }

  // ---------------------------------------------------------------- no wakeup is lost

  /**
   With every thread past its send, no signal pending and no drain running, nothing is
   queued: every suspended fiber waits for libuv or for a connection.
   */
  lemma QuietMeansNothingQueued(s: State, f: FiberId)
    requires Reachable(s) && s.q.sending == {} && !s.q.signalled && s.q.phase == CQ.Idle
    requires f in s.fibers && f != s.current
    ensures CQ.Contents(s.q) == []
    ensures exists t :: Holder(s, t) == Some(f) && (t.InFlight? || t.PendingRead? || t.AcceptEntry?)
  {
    hide Reachable, Inv, Core, Holder;
    ReachableHasInv(s);
    InvCore(s);
    CoreQueue(s);
    var t := TokenExists(s, f);
    NotInEmptyQueue(s, t);
  }

  lemma NotInEmptyQueue(s: State, t: Token)
    requires CQ.Contents(s.q) == [] && Holder(s, t) != None
    ensures t.InFlight? || t.PendingRead? || t.AcceptEntry?
  {
  }

  lemma InvCore(s: State)
    requires Inv(s)
    ensures Core(s)
  {
  }

  // ---------------------------------------------------------------- reads

  /**
   A handle is read exactly while a read is pending on it and it is not closing, and the
   pending context belongs to a fiber suspended in a read primitive on that same handle.
   */
  lemma OneReaderPerHandle(s: State, h: Ref)
    requires Reachable(s)
    ensures h in s.reading <==> h in s.pending && h !in s.closing
    ensures h in s.pending ==>
              && h in s.heap.objs && s.pending[h] in s.ctxs
              && var x := s.ctxs[s.pending[h]];
                 && x.fiber in s.fibers && s.fibers[x.fiber].state == SUSPENDED
                 && s.fibers[x.fiber].awaiting == Some(x.op) && x.op < |s.hist.ops|
                 && IsRead(s.hist.ops[x.op].kind) && s.hist.ops[x.op].handle == Some(h)
                 && Own.FramePtr(x.fiber, 0) in s.heap.ptrs && s.heap.ptrs[Own.FramePtr(x.fiber, 0)] == h
  {
    hide Reachable;
    ReachableHasInv(s);
    if h in s.pending {
      PendingHandleExists(s, h);
      assert CtxOk(s, s.pending[h]);
    }
  }

  /** For a handle scripts can still name, reading and a pending read are the same thing. */
  lemma StoredHandleIsOpen(s: State, id: Own.Id)
    requires Reachable(s) && Own.StorePtr(id) in s.heap.ptrs
    ensures var h := s.heap.ptrs[Own.StorePtr(id)]; h !in s.closing && (h in s.reading <==> h in s.pending)
  {
    hide Reachable;
    ReachableHasInv(s);
  }

  /**
   A primitive throws, and then nothing at all has changed, exactly when its id does not name
   a handle of its type, it is a second read on a handle already being read, or it is a poll
   or a name lookup that cannot start.
   */
  lemma StartIsRefusedIff(s: State, kind: OpKind, id: Own.Id, ready: bool)
    requires Reachable(s) && Enabled(s, Start(kind, id, ready))
    ensures Apply(s, Start(kind, id, ready)) == Next(s) <==>
              || (kind in {TcpPoll, DnsResolve} && !ready)
              || (Target(kind) != None
                  && var got := Own.Get(s.heap, id, Target(kind).value);
                     got == None || (IsRead(kind) && got.value in s.pending))
  {
    hide Reachable, Inv, Core, StartStep, Own.Get;
    ReachableHasInv(s);
    InvCore(s);
    ControlIsSound(s);
    StartStepRefusesIff(s, kind, id);
    assert StartStep(s, kind, id).Next? by {
      hide Target, MayDecline, IsRead;
      StartKeeps(s, kind, id);
    }
  }

  lemma StartStepRefusesIff(s: State, kind: OpKind, id: Own.Id)
    requires s.current in s.fibers && s.current != MAIN
    ensures StartStep(s, kind, id) == Next(s) <==>
              Target(kind) != None
              && var got := Own.Get(s.heap, id, Target(kind).value);
                 got == None || (IsRead(kind) && got.value in s.pending)
  {
    hide Own.Get, BeginRequest, BeginRead, BeginAccept;
    var op := Started(s, kind, id);
    BeginningsLeave(s, op, if op.handle == None then 0 else op.handle.value);
  }

  lemma BeginningsLeave(s: State, op: Op, h: Ref)
    requires s.current in s.fibers
    ensures BeginRequest(s, op).current == BeginRead(s, op, h).current == BeginAccept(s, op, h).current == MAIN
  {
    hide Pin, Append;
  }

  /**
   The bytes libuv delivered for a socket, whichever fibers read them, are cut into
   consecutive pieces: first those of reads already resumed, in resume order, then those
   of reads still queued, in queue order.
   */
  lemma StreamIsSplitInOrder(s: State, h: Ref)
    requires Reachable(s)
    ensures Log(s.hist.wire, h) ==
              StreamOf(s.hist, h, s.hist.resumed) + StreamOf(s.hist, h, OpsOf(s.ctxs, CQ.Contents(s.q)))
  {
    hide Reachable;
    ReachableHasInv(s);
    hide Core;
    StreamConcat(s.hist, h, s.hist.resumed, OpsOf(s.ctxs, CQ.Contents(s.q)));
  }

  lemma InvWire(s: State)
    requires Inv(s)
    ensures WireOk(s) && HandlesOk(s)
  {
    hide Core, AcceptLogOk, LivesOk, FreedOk, OrderOk, OutcomesOk, WireOk, IssuesOk, AnswersOk, MintedOk;
    hide ListenersOk, FsClosesOk, HandlesOk, MadeOk;
  }

  /** A successful TCP_Read returns the length of its piece of the stream, and end of stream as -1. */
  lemma ReadReturnsItsPiece(s: State, o: OpId, v: Value)
    requires Reachable(s) && Answered(s.hist, o, v) && s.hist.ops[o].kind == TcpRead
    ensures s.hist.ops[o].handle != None
    ensures s.hist.outcome[o].code >= 0 ==> v == BigInt(|BytesOn(s.hist, s.hist.ops[o].handle.value, o)|)
    ensures s.hist.outcome[o].code == UV_EOF ==> v == BigInt(-1)
    ensures s.hist.outcome[o].code < 0 ==> BytesOn(s.hist, s.hist.ops[o].handle.value, o) == []
  {
    hide Reachable, Inv;
    ReachableHasInv(s);
    InvWire(s);
  }

  // ---------------------------------------------------------------- accepts

  /** Accept waiters are served first come, first served. */
  lemma AcceptIsFirstComeFirstServed(s: State, h: Ref)
    requires Reachable(s)
    ensures Log(s.hist.joined, h) == Log(s.hist.served, h) + Waiters(s, h)
    ensures Distinct(Waiters(s, h))
  {
    hide Reachable;
    ReachableHasInv(s);
  }

  /** A connection wakes the first waiter, and nobody else; it crashes exactly when its listener is an orphan. */
  lemma ConnectionWakesTheFirst(s: State, t: CQ.Thread, h: Ref, status: int)
    requires Reachable(s) && Enabled(s, OnConnection(t, h, status))
    ensures Apply(s, OnConnection(t, h, status)) == Crash <==> Orphan(s, h)
    ensures !Orphan(s, h) ==>
            var s', w := Apply(s, OnConnection(t, h, status)).s, Waiters(s, h);
            if w == [] then s' == s
            else
              && s'.q.shared == s.q.shared + [s.nextCtx] && s.nextCtx in s'.ctxs
              && s'.ctxs[s.nextCtx].fiber == w[0] && s'.ctxs[s.nextCtx].server == Some(h)
              && s'.fibers == s.fibers && Waiters(s', h) == w[1..]
              && forall g: Ref :: g != h ==> Waiters(s', g) == Waiters(s, g)
  {
    hide Reachable, Inv, Core, OnConnectionStep, Orphan;
    ReachableHasInv(s);
    StepKeepsInv(s, OnConnection(t, h, status));
    OrphanIffGone(s, h);
    if !Orphan(s, h) {
      ConnectionEffect(s, t, h, status);
    }
  }

  lemma ConnectionEffect(s: State, t: CQ.Thread, h: Ref, status: int)
    requires t !in s.q.sending && OnConnectionStep(s, t, h, status).Next?
    ensures var s', w := OnConnectionStep(s, t, h, status).s, Waiters(s, h);
            if w == [] then s' == s
            else
              && s'.q.shared == s.q.shared + [s.nextCtx] && s.nextCtx in s'.ctxs
              && s'.ctxs[s.nextCtx].fiber == w[0] && s'.ctxs[s.nextCtx].server == Some(h)
              && s'.fibers == s.fibers && Waiters(s', h) == w[1..]
              && forall g: Ref :: g != h ==> Waiters(s', g) == Waiters(s, g)
  {
  }

  /**
   A resumption that makes a handle (an open, a scan, a connect, a successful accept) puts it
   under an id and an address never used before, and exactly that id is what the waiter gets;
   any other resumption leaves all handles alone.  No other fiber is touched.
   */
  lemma ResumeDeliversFreshId(s: State, accepted: bool)
    requires Reachable(s) && Enabled(s, ResumeNext(accepted))
    ensures Apply(s, ResumeNext(accepted)).Next? && s.q.local[0] in s.ctxs
    ensures var s', x := Apply(s, ResumeNext(accepted)).s, s.ctxs[s.q.local[0]];
            && x.fiber in s.fibers && s'.current == x.fiber && s'.fibers.Keys == s.fibers.Keys
            && (forall f :: f in s.fibers && f != x.fiber ==> s'.fibers[f] == s.fibers[f])
            && match CreateResultValue(x.kind, x.raw, accepted)
               case Ready(v) => s'.heap == s.heap && s'.fibers[x.fiber].resumeValue == v
               case NewHandle(k) =>
                 && s'.fibers[x.fiber].resumeValue == BigInt(s.heap.nextId)
                 && Own.StorePtr(s.heap.nextId) !in s.heap.ptrs && s.heap.nextRef !in s.heap.objs
                 && s'.heap.ptrs == s.heap.ptrs[Own.StorePtr(s.heap.nextId) := s.heap.nextRef]
                 && Own.Get(s'.heap, s.heap.nextId, k) == Some(s.heap.nextRef)
  {
    hide Reachable, Inv, Core, ResumeNextStep;
    ReachableHasInv(s);
    InvCore(s);
    ResumeNextKeeps(s, accepted);
    FreshNames(s);
    ResumeBuilds(s, accepted);
    hide CreateResultValue;
  }

  lemma ResumeBuilds(s: State, accepted: bool)
    requires s.q.phase == CQ.Draining && s.q.local != [] && ResumeNextStep(s, accepted).Next?
    ensures s.q.local[0] in s.ctxs
    ensures var s', x := ResumeNextStep(s, accepted).s, s.ctxs[s.q.local[0]];
            && x.fiber in s.fibers && s'.current == x.fiber && s'.fibers.Keys == s.fibers.Keys
            && (forall f :: f in s.fibers && f != x.fiber ==> s'.fibers[f] == s.fibers[f])
            && match CreateResultValue(x.kind, x.raw, accepted)
               case Ready(v) =>
                 s'.heap == s.heap && s'.hist.minted == s.hist.minted && s'.fibers[x.fiber].resumeValue == v
               case NewHandle(k) =>
                 s'.heap == Own.Add(s.heap, k) && s'.hist.minted == s.hist.minted[x.op := s.heap.nextId]
                 && s'.fibers[x.fiber].resumeValue == BigInt(s.heap.nextId)
  {
    hide Own.Add, CQ.Apply, CreateResultValue, Append;
  }

  lemma FreshNames(s: State)
    requires Core(s)
    ensures Own.StorePtr(s.heap.nextId) !in s.heap.ptrs && s.heap.nextRef !in s.heap.objs
  {
    hide FibersOk, CtxsOk, WaitsOk, AcceptOk, PlacesOk, OnceQueued, ReadingOk, FramesOk, CQ.Inv;
  }

  // ---------------------------------------------------------------- ownership

  /** Every count is store membership, plus stack frames of existing fibers, plus TLS handles built on it. */
  lemma CountsAreExact(s: State, r: Ref)
    requires Reachable(s) && r in s.heap.objs
    ensures var frames := set p | p in Own.Owners(s.heap, r) && p.FramePtr?;
            var tls := set t | t in s.heap.objs && Own.TlsPtr(t) in s.heap.ptrs && s.heap.ptrs[Own.TlsPtr(t)] == r;
            var key := Own.StorePtr(s.heap.objs[r].id);
            && s.heap.objs[r].count == (if key in s.heap.ptrs && s.heap.ptrs[key] == r then 1 else 0) + |frames| + |tls|
            && s.heap.objs[r].count > 0
            && forall p :: p in frames ==> p.fiber in s.fibers
  {
    hide Reachable;
    ReachableHasInv(s);
    hide AcceptLogOk, LivesOk, FreedOk, OrderOk, OutcomesOk, WireOk, IssuesOk, AnswersOk, MintedOk;
    hide FibersOk, CtxsOk, WaitsOk, AcceptOk, PlacesOk, OnceQueued, ReadingOk, CQ.Inv;
    Own.CountSplits(s.heap, r);
  }

  /** Whatever any fiber closes or frees, the handle of a waiting fiber and the server of a queued accept exist. */
  lemma WaitingHandlesExist(s: State, f: FiberId, c: CtxId)
    requires Reachable(s)
    ensures f in s.fibers && s.fibers[f].awaiting != None ==>
              && s.fibers[f].awaiting.value < |s.hist.ops|
              && var h := s.hist.ops[s.fibers[f].awaiting.value].handle; h != None ==> h.value in s.heap.objs
    ensures c in s.ctxs && s.active != Some(c) && s.ctxs[c].kind == TcpAccept ==>
              s.ctxs[c].server != None && s.ctxs[c].server.value in s.heap.objs
  {
    hide Reachable, Inv;
    ReachableHasInv(s);
    InvCore(s);
    hide PlacesOk, OnceQueued, ReadingOk, CQ.Inv, AcceptOk, WaitsOk;
    if c in s.ctxs {
      assert CtxOk(s, c);
    }
  }

  /**
   TCP_Close starts uv_close and then drops the store's pointer; libuv reports the end of the
   closing later.  At any time before or after, the handle it was given still exists exactly
   when a primitive's frame or a TLSHandle owns it.
   */
  lemma ClosingHandleExistsIff(s: State, h: Ref)
    requires Reachable(s) && h in s.closing
    ensures h in s.heap.objs <==>
              || (exists f: FiberId, i: nat :: Own.FramePtr(f, i) in Own.Owners(s.heap, h))
              || (exists t: Ref :: Own.TlsPtr(t) in Own.Owners(s.heap, h))
  {
    hide Reachable, Inv, Core;
    ReachableHasInv(s);
    InvCore(s);
    HeapIsSound(s);
    ClosedIsUnstored(s, h);
    if h in s.heap.objs {
      assert |Own.Owners(s.heap, h)| > 0;
      var p :| p in Own.Owners(s.heap, h);
      match p
      case StorePtr(id) => assert false;
      case FramePtr(f, i) =>
      case TlsPtr(t) =>
    }
  }

  lemma ClosedIsUnstored(s: State, h: Ref)
    requires Core(s) && h in s.closing
    ensures forall id: Own.Id :: Own.StorePtr(id) in s.heap.ptrs ==> s.heap.ptrs[Own.StorePtr(id)] != h
  {
    hide FibersOk, CtxsOk, WaitsOk, AcceptOk, PlacesOk, OnceQueued, FramesOk, CQ.Inv, Own.Inv;
  }

  /** Along any run, an id the store has handed out never comes to mean another handle. */
  lemma {:induction false} IdsAreNeverReused(s: State, ls: seq<Label>)
    requires Core(s) && Exec(s, ls) != None && Exec(s, ls).value.Next?
    ensures Own.Later(s.heap, Exec(s, ls).value.s.heap)
    decreases ls
  {
    if ls != [] {
      StepKeeps(s, ls[0]);
      StoreIsLater(s, ls[0]);
      hide Core;
      var s' := Apply(s, ls[0]).s;
      IdsAreNeverReused(s', ls[1..]);
      hide Apply, Own.Later;
      Own.LaterTrans(s.heap, s'.heap, Exec(s, ls).value.s.heap);
    }
  }

  /**
   Once an id has left the store, it stays unknown in every later state, and a finalizer
   that frees it then, however often, changes nothing at all.
   */
  lemma LateFreeIsHarmless(s: State, ls: seq<Label>, id: Own.Id)
    requires Reachable(s) && Exec(s, ls) != None && Exec(s, ls).value.Next?
    requires id < s.heap.nextId && Own.StorePtr(id) !in s.heap.ptrs
    ensures var s' := Exec(s, ls).value.s;
            Own.StorePtr(id) !in s'.heap.ptrs && (Enabled(s', Free(id)) ==> Apply(s', Free(id)) == Next(s'))
  {
    hide Reachable, Inv, Core, Exec;
    ReachableHasInv(s);
    InvCore(s);
    IdsAreNeverReused(s, ls);
  }

  /** Once a close or a free is through, or an FS_Close has returned, its id resolves to nothing. */
  lemma ClosingRemovesTheId(s: State, l: Label, id: Own.Id)
    requires Reachable(s) && Enabled(s, l)
    requires match l
             case Free(i) => i == id
             case Close(i, kind) => i == id && Own.Get(s.heap, id, kind) != None
             case Return =>
               s.current in s.fibers && s.fibers[s.current].awaiting != None
               && s.fibers[s.current].awaiting.value < |s.hist.ops|
               && var op := s.hist.ops[s.fibers[s.current].awaiting.value]; op.kind == FsClose && op.id == id
             case _ => false
    ensures Apply(s, l).Next? && forall kind :: Own.Get(Apply(s, l).s.heap, id, kind) == None
  {
    hide Reachable, Inv;
    ReachableHasInv(s);
    InvCore(s);
    StepKeepsInv(s, l);
    Own.RemoveKeepsInv(s.heap, id);
    if l.Return? {
      ReturnDropsTheId(s, id);
    }
    hide Own.Remove, Core;
  }

  /** A socket that was closed is silent for ever: libuv reads nothing for it and reports no connection. */
  lemma {:induction false} ClosedStaysClosed(s: State, ls: seq<Label>, h: Ref)
    requires Core(s) && Exec(s, ls) != None && Exec(s, ls).value.Next? && h in s.closing
    ensures var s' := Exec(s, ls).value.s; h in s'.closing && h !in s'.reading
    decreases ls
  {
    if ls == [] {
      CoreReading(s, h);
    } else {
      StepKeeps(s, ls[0]);
      ClosingGrows(s, ls[0]);
      hide Core, Apply, Enabled;
      ClosedStaysClosed(Apply(s, ls[0]).s, ls[1..], h);
    }
  }

  lemma CoreReading(s: State, h: Ref)
    requires Core(s)
    ensures h in s.reading <==> h in s.pending && h !in s.closing
  {
    hide FibersOk, CtxsOk, WaitsOk, AcceptOk, PlacesOk, OnceQueued, FramesOk, CQ.Inv, Own.Inv;
  }

  lemma ClosingGrows(s: State, l: Label)
    requires Enabled(s, l) && Apply(s, l).Next?
    ensures s.closing <= Apply(s, l).s.closing
    ensures l.Close? && l.of != Own.DirectoryK && Own.Get(s.heap, l.closed, l.of) != None ==>
              Own.Get(s.heap, l.closed, l.of).value in Apply(s, l).s.closing
  {
    if l.Start? {
      StartCases(s, l.kind, l.id);
      hide StartStep, Started, Pin, Append;
    } else {
      hide CQ.Apply, CreateResultValue, ScriptRunning, Append, Log, RawFits;
      hide Own.Get, Own.Add, Own.AddTls, Own.Copy, Own.Drop, Own.Remove, Unwind;
    }
  }

  /** TCP_Close and UDP_Close silence the socket at once, and for the rest of the run. */
  lemma CloseSilences(s: State, id: Own.Id, kind: Own.Kind, ls: seq<Label>)
    requires Reachable(s) && Enabled(s, Close(id, kind)) && kind != Own.DirectoryK && Own.Get(s.heap, id, kind) != None
    requires Exec(s, [Close(id, kind)] + ls) != None && Exec(s, [Close(id, kind)] + ls).value.Next?
    ensures var s', h := Exec(s, [Close(id, kind)] + ls).value.s, Own.Get(s.heap, id, kind).value;
            && h in s'.closing && h !in s'.reading
            && (forall t, raw :: !Enabled(s', OnRead(t, h, raw)))
            && (forall t, status :: !Enabled(s', OnConnection(t, h, status)))
  {
    hide Reachable, Inv, Core, Apply, Enabled, Own.Get, Exec;
    ReachableHasInv(s);
    InvCore(s);
    var l := Close(id, kind);
    StepKeeps(s, l);
    ClosingGrows(s, l);
    ExecCons(s, l, ls);
    ClosedStaysClosed(Apply(s, l).s, ls, Own.Get(s.heap, id, kind).value);
    ClosedIsSilent(Exec(s, [l] + ls).value.s, Own.Get(s.heap, id, kind).value);
  }

  lemma ExecCons(s: State, l: Label, ls: seq<Label>)
    requires Enabled(s, l) && Apply(s, l).Next?
    ensures Exec(s, [l] + ls) == Exec(Apply(s, l).s, ls)
  {
    hide Enabled, Apply;
    assert ([l] + ls)[0] == l && ([l] + ls)[1..] == ls;
  }

  lemma ClosedIsSilent(s: State, h: Ref)
    requires h in s.closing && h !in s.reading
    ensures forall t, raw :: !Enabled(s, OnRead(t, h, raw))
    ensures forall t, status :: !Enabled(s, OnConnection(t, h, status))
  {
  }

  /** A primitive's own copy of a handle's pointer leaves no trace once it is gone again. */
  lemma HoldThenLetGo(s: State, id: Own.Id, want: Own.Kind, slot: nat)
    requires Reachable(s) && Enabled(s, Hold(id, want, slot)) && Own.Get(s.heap, id, want) != None
    ensures Apply(s, Hold(id, want, slot)).Next?
    ensures var s1 := Apply(s, Hold(id, want, slot)).s;
            && Own.FramePtr(s.current, slot) in s1.heap.ptrs
            && s1.heap.ptrs[Own.FramePtr(s.current, slot)] == Own.Get(s.heap, id, want).value
            && Enabled(s1, LetGo(slot)) && Apply(s1, LetGo(slot)) == Next(s)
  {
    hide Reachable, Inv, Core, Own.Inv;
    ReachableHasInv(s);
    InvCore(s);
    HeapIsSound(s);
    Own.CopyThenDrop(s.heap, Own.FramePtr(s.current, slot), Own.Get(s.heap, id, want).value);
    HoldCopies(s, id, want, slot);
    hide Own.Drop, Own.Copy, Own.Get, HoldStep;
  }

  lemma HoldCopies(s: State, id: Own.Id, want: Own.Kind, slot: nat)
    requires Own.Get(s.heap, id, want) != None
    ensures var p, r := Own.FramePtr(s.current, slot), Own.Get(s.heap, id, want).value;
            && HoldStep(s, id, want, slot) == Next(s.(heap := Own.Copy(s.heap, p, r)))
            && p in Own.Copy(s.heap, p, r).ptrs && Own.Copy(s.heap, p, r).ptrs[p] == r
  {
  }

  lemma ReturnDropsTheId(s: State, id: Own.Id)
    requires Core(s) && ReturnStep(s).Next?
    requires var op := s.hist.ops[s.fibers[s.current].awaiting.value]; op.kind == FsClose && op.id == id
    ensures Own.StorePtr(id) !in ReturnStep(s).s.heap.ptrs
  {
    var op := s.hist.ops[s.fibers[s.current].awaiting.value];
    var h1, p := Own.Remove(s.heap, id), Own.FramePtr(s.current, 0);
    Own.RemoveKeepsInv(s.heap, id);
    assert ReturnStep(s).s.heap == if op.handle == None then h1 else Own.Drop(h1, p);
    hide Core, ReturnStep, Own.Remove;
    if op.handle != None && p in h1.ptrs {
      Own.DropEffect(h1, p);
    }
  }

  // ---------------------------------------------------------------- lives

  lemma InvLives(s: State)
    requires Inv(s)
    ensures Core(s) && LivesOk(s) && FreedOk(s)
  {
    hide Core, AcceptLogOk, LivesOk, FreedOk, OrderOk, OutcomesOk, WireOk, IssuesOk, AnswersOk, MintedOk;
    hide ListenersOk, FsClosesOk, HandlesOk, MadeOk;
  }

  /** A freed context is nowhere any more. */
  lemma FreedIsNowhere(s: State, c: CtxId)
    requires Core(s) && FreedOk(s) && c in s.hist.freedCtxs
    ensures c !in s.ctxs && c !in CQ.Contents(s.q) && c !in s.inflight
    ensures forall h :: h in s.pending ==> s.pending[h] != c
  {
    hide FibersOk, CtxsOk, WaitsOk, AcceptOk, OnceQueued, ReadingOk, FramesOk, Own.Inv, CQ.Inv, Distinct;
    QueuedIsContents(s);
    hide CQ.Contents;
  }

  /** Fibers live NEW, RUNNING, (SUSPENDED, RUNNING)*, DONE, and finished fibers and resumed contexts are freed once. */
  lemma LivesAreProper(s: State, f: FiberId)
    requires Reachable(s) && f in s.hist.life
    ensures ProperLife(s.hist.life[f])
    ensures f in s.hist.freedFibers <==> f !in s.fibers
    ensures f !in s.fibers <==> s.hist.life[f][|s.hist.life[f]| - 1] == DONE
    ensures Distinct(s.hist.freedFibers) && Distinct(s.hist.freedCtxs)
    ensures forall c :: c in s.hist.freedCtxs ==> c !in s.ctxs && c !in CQ.Contents(s.q) && c !in s.inflight
    ensures forall h :: h in s.pending ==> s.pending[h] !in s.hist.freedCtxs
  {
    hide Reachable, Inv, Core, FreedOk, CQ.Contents;
    ReachableHasInv(s);
    InvLives(s);
    assert LifeOk(s, f);
    EndIsDone(s, f);
    hide LivesOk, ProperLife, Distinct;
    assert Distinct(s.hist.freedCtxs) by {
      FreedOnce(s);
    }
    forall c | c in s.hist.freedCtxs
      ensures c !in s.ctxs && c !in CQ.Contents(s.q) && c !in s.inflight
      ensures forall h :: h in s.pending ==> s.pending[h] != c
    {
      FreedIsNowhere(s, c);
    }
  }

  lemma FreedOnce(s: State)
    requires FreedOk(s)
    ensures Distinct(s.hist.freedCtxs)
  {
    hide Distinct;
  }

  /** A fiber that exists is not DONE. */
  lemma EndIsDone(s: State, f: FiberId)
    requires Core(s) && LivesOk(s) && f in s.hist.life
    ensures f !in s.fibers <==> s.hist.life[f][|s.hist.life[f]| - 1] == DONE
  {
    CoreFibers(s);
    hide Core, ProperLife, Distinct;
    assert LifeOk(s, f);
  }
}
