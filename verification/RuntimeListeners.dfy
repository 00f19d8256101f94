/**
 Which handles a removal can hit: a listening socket stays in the store until it is
 closed or freed by id, FS_Close only ever removes files, and an id made for an
 operation names a handle of the type that operation makes.
 */
module RuntimeListeners {
  import opened Prelude
  import opened Results
  import opened Runtime
  import opened RuntimeInvariant
  import opened RuntimeSafety
  import opened RuntimeHistory
  import opened RuntimeOrder
  import opened RuntimeAnswers
  import Own = Ownership
  import CQ = CompletionQueue

  /** The store owns `r` under the id it carries. */
  predicate Stored(h: Own.Heap, r: Ref) {
    r in h.objs && Own.StorePtr(h.objs[r].id) in h.ptrs && h.ptrs[Own.StorePtr(h.objs[r].id)] == r
  }

  /** A listening handle is a socket; while open, it is in the store unless it was abandoned. */
  ghost predicate ListenerOk(s: State, h: Ref) {
    && (h in s.listening ==>
         h < s.heap.nextRef && (h in s.heap.objs ==> s.heap.objs[h].kind == Own.NetK))
    && (Open(s, h) ==> (h in s.hist.abandoned <==> !Stored(s.heap, h)))
    && (h in s.hist.abandoned ==> Open(s, h))
  }

  ghost predicate ListenersOk(s: State) {
    forall h: Ref :: ListenerOk(s, h)
  }

  /** The id of an FS_Close names a file, or nothing any more. */
  ghost predicate FsClosesOk(s: State) {
    forall o :: 0 <= o < |s.hist.ops| && s.hist.ops[o].kind == FsClose ==>
      NamesOnly(s.heap, s.hist.ops[o].id, Own.FileK)
  }

  /** An operation of a primitive that takes a handle names that handle. */
  ghost predicate HandlesOk(s: State) {
    forall o :: 0 <= o < |s.hist.ops| && Target(s.hist.ops[o].kind) != None ==> s.hist.ops[o].handle != None
  }

  /** An id made for an operation names a handle of the type made, or nothing any more. */
  ghost predicate MadeOk(s: State) {
    forall o :: o in s.hist.minted ==>
      && o < |s.hist.ops| && Makes(s.hist.ops[o].kind) != None
      && NamesOnly(s.heap, s.hist.minted[o], Makes(s.hist.ops[o].kind).value)
  }

  /** The id was handed out, and what it names, if anything, is of this kind. */
  ghost predicate NamesOnly(h: Own.Heap, id: Own.Id, kind: Own.Kind) {
    && id < h.nextId
    && (Own.StorePtr(id) in h.ptrs ==>
         h.ptrs[Own.StorePtr(id)] in h.objs && h.objs[h.ptrs[Own.StorePtr(id)]].kind == kind)
  }

  // ---------------------------------------------------------------- what steps do to the store

  /** The ids a step takes out of the store. */
  function Unstores(s: State, l: Label): set<Own.Id> {
    match l
    case Free(id) => {id}
    case Close(id, kind) => if Own.Get(s.heap, id, kind) == None then {} else {id}
    case Return =>
      if s.current in s.fibers && s.fibers[s.current].awaiting != None
         && s.fibers[s.current].awaiting.value < |s.hist.ops|
         && s.hist.ops[s.fibers[s.current].awaiting.value].kind == FsClose
      then {s.hist.ops[s.fibers[s.current].awaiting.value].id} else {}
    case _ => {}
  }

  ghost predicate LosesOnly(h: Own.Heap, h': Own.Heap, ids: set<Own.Id>) {
    forall id: Own.Id :: Own.StorePtr(id) in h.ptrs && id !in ids ==>
      Own.StorePtr(id) in h'.ptrs && h'.ptrs[Own.StorePtr(id)] == h.ptrs[Own.StorePtr(id)]
  }

  lemma DropLoses(h: Own.Heap, p: Own.Pointer)
    requires Own.Inv(h) && p in h.ptrs && !p.TlsPtr?
    ensures LosesOnly(h, Own.Drop(h, p), if p.StorePtr? then {p.id} else {})
  {
    Own.DropEffect(h, p);
    hide Own.Drop, Own.Inv;
  }

  lemma RemoveLoses(h: Own.Heap, id: Own.Id)
    requires Own.Inv(h)
    ensures LosesOnly(h, Own.Remove(h, id), {id})
  {
    if Own.StorePtr(id) in h.ptrs {
      DropLoses(h, Own.StorePtr(id));
    }
  }

  lemma UnwindLoses(h: Own.Heap, f: FiberId, op: Op)
    requires Own.Inv(h) && (op.handle != None <==> Own.FramePtr(f, 0) in h.ptrs)
    ensures LosesOnly(h, Unwind(h, f, op), if op.kind == FsClose then {op.id} else {})
  {
    var h1 := if op.kind == FsClose then Own.Remove(h, op.id) else h;
    hide Own.Inv, Own.Remove, Own.Drop;
    Own.RemoveKeepsInv(h, op.id);
    Own.RemoveMoves(h, op.id);
    RemoveLoses(h, op.id);
    if op.handle != None {
      DropLoses(h1, Own.FramePtr(f, 0));
    }
  }

  lemma ReturnLoses(s: State)
    requires FibersOk(s) && FramesOk(s) && Own.Inv(s.heap) && ReturnStep(s).Next?
    ensures LosesOnly(s.heap, ReturnStep(s).s.heap, Unstores(s, Return))
  {
    var op := s.hist.ops[s.fibers[s.current].awaiting.value];
    assert Own.FramePtr(s.current, 0) in s.heap.ptrs <==> op.handle != None;
    hide FramesOk, FibersOk, Own.Inv, Unwind, LosesOnly;
    UnwindLoses(s.heap, s.current, op);
  }

  lemma AddLoses(h: Own.Heap, kind: Own.Kind)
    requires Own.Inv(h)
    ensures LosesOnly(h, Own.Add(h, kind), {})
  {
  }

  lemma CreateTlsLoses(s: State, net: Own.Id)
    requires Own.Inv(s.heap)
    ensures CreateTlsStep(s, net).Next? && LosesOnly(s.heap, CreateTlsStep(s, net).s.heap, {})
  {
    hide Own.Get;
  }

  lemma HoldLoses(s: State, id: Own.Id, want: Own.Kind, slot: nat)
    ensures HoldStep(s, id, want, slot).Next? && LosesOnly(s.heap, HoldStep(s, id, want, slot).s.heap, {})
  {
    hide Own.Get;
  }

  lemma CloseLoses(s: State, id: Own.Id, kind: Own.Kind)
    requires Own.Inv(s.heap)
    ensures CloseStep(s, id, kind).Next?
    ensures LosesOnly(s.heap, CloseStep(s, id, kind).s.heap, Unstores(s, Close(id, kind)))
  {
    RemoveLoses(s.heap, id);
    hide Own.Remove, Own.Inv;
  }

  /** A step takes no more out of the store than it says. */
  lemma StoreLoses(s: State, l: Label)
    requires Core(s) && Enabled(s, l) && Apply(s, l).Next?
    ensures LosesOnly(s.heap, Apply(s, l).s.heap, Unstores(s, l))
  {
    hide FibersOk, CtxsOk, WaitsOk, AcceptOk, PlacesOk, OnceQueued, ReadingOk, CQ.Inv, LosesOnly;
    match l {
      case Start(k, id, _) => StartLoses(s, k, id); SameLoses(s.heap); hide StartStep;
      case Return => ReturnLoses(s); hide ReturnStep, Unstores;
      case ResumeNext(accepted) => ResumeLoses(s, accepted); hide ResumeNextStep;
      case Free(id) => RemoveLoses(s.heap, id); hide Own.Remove;
      case Close(id, kind) => CloseLoses(s, id, kind); hide CloseStep, Unstores;
      case LetGo(slot) => DropLoses(s.heap, Own.FramePtr(s.current, slot)); hide Own.Drop;
      case Create(k) => AddLoses(s.heap, k); hide Own.Add;
      case Listen => AddLoses(s.heap, Own.NetK); hide Own.Add;
      case CreateTls(net) => CreateTlsLoses(s, net); hide CreateTlsStep;
      case Hold(id, want, slot) => HoldLoses(s, id, want, slot); hide HoldStep;
      case _ => StoreUntouched(s, l); SameLoses(s.heap); hide Apply;
    }
  }

  lemma SameLoses(h: Own.Heap)
    ensures LosesOnly(h, h, {})
  {
  }

  lemma StartLoses(s: State, kind: OpKind, id: Own.Id)
    requires StartStep(s, kind, id).Next?
    ensures LosesOnly(s.heap, StartStep(s, kind, id).s.heap, {})
  {
    StartPins(s, kind, id);
    hide StartStep, Started;
  }

  lemma ResumeLoses(s: State, accepted: bool)
    requires Own.Inv(s.heap)
    requires s.q.phase == CQ.Draining && s.q.local != [] && ResumeNextStep(s, accepted).Next?
    ensures LosesOnly(s.heap, ResumeNextStep(s, accepted).s.heap, {})
  {
    hide CreateResultValue, CQ.Apply;
  }

  // ---------------------------------------------------------------- listeners

  /** The sockets a step gives to uv_close. */
  function Closes(s: State, l: Label): set<Ref> {
    if l.Close? && l.of != Own.DirectoryK && Own.Get(s.heap, l.closed, l.of) != None
    then {Own.Get(s.heap, l.closed, l.of).value} else {}
  }

  /** The open listener that a free names: libuv goes on using it, the store does not. */
  function Abandons(s: State, l: Label): set<Ref> {
    if l.Free? && OpenListener(s, l.freed) != None then {OpenListener(s, l.freed).value} else {}
  }

  ghost predicate ListenersMoved(s: State, l: Label, s': State) {
    && s'.listening == s.listening + (if l.Listen? then {s.heap.nextRef} else {})
    && s'.closing == s.closing + Closes(s, l)
    && s'.hist.abandoned == s.hist.abandoned + Abandons(s, l)
  }

  lemma StartKeepsListeners(s: State, kind: OpKind, id: Own.Id)
    requires StartStep(s, kind, id).Next?
    ensures var s' := StartStep(s, kind, id).s;
            s'.listening == s.listening && s'.closing == s.closing && s'.hist.abandoned == s.hist.abandoned
  {
    StartCases(s, kind, id);
    hide StartStep, Started, Pin, Append;
  }

  lemma IdleMoves(s: State, l: Label, s': State)
    requires !l.Listen? && !l.Close? && !l.Free?
    requires s'.listening == s.listening && s'.closing == s.closing && s'.hist.abandoned == s.hist.abandoned
    ensures ListenersMoved(s, l, s')
  {
  }

  lemma ListenersMove(s: State, l: Label)
    requires Enabled(s, l) && Apply(s, l).Next?
    ensures ListenersMoved(s, l, Apply(s, l).s)
  {
    hide ListenersMoved;
    if l.Create? || l.CreateTls? || l.Hold? || l.LetGo? || l.Listen? || l.Close? || l.Free? {
      HandlesMoveListeners(s, l);
      hide Apply, Enabled;
    } else {
      if l.Start? {
        StartKeepsListeners(s, l.kind, l.id);
        hide StartStep;
      } else if l.OnComplete? || l.OnRead? || l.OnConnection? || l.ResumeNext? {
        CallbacksKeepListeners(s, l);
        hide Apply, Enabled;
      } else {
        ControlKeepsListeners(s, l);
        hide Apply, Enabled;
      }
      IdleMoves(s, l, Apply(s, l).s);
    }
  }

  lemma ControlKeepsListeners(s: State, l: Label)
    requires Enabled(s, l) && Apply(s, l).Next?
    requires MovesQueue(l) || l.FiberRun? || l.Return? || l.Finish? || l.Delete?
    ensures var s' := Apply(s, l).s;
            s'.listening == s.listening && s'.closing == s.closing && s'.hist.abandoned == s.hist.abandoned
  {
    hide CQ.Apply, CQ.Enabled, ScriptRunning, Append, Unwind;
  }

  lemma HandlesMoveListeners(s: State, l: Label)
    requires Enabled(s, l) && Apply(s, l).Next?
    requires l.Create? || l.CreateTls? || l.Hold? || l.LetGo? || l.Listen? || l.Close? || l.Free?
    ensures ListenersMoved(s, l, Apply(s, l).s)
  {
    hide ScriptRunning, OpenListener, Own.Get, Own.Add, Own.AddTls, Own.Copy, Own.Drop, Own.Remove;
  }

  lemma CallbacksKeepListeners(s: State, l: Label)
    requires Enabled(s, l) && Apply(s, l).Next? && (l.OnComplete? || l.OnRead? || l.OnConnection? || l.ResumeNext?)
    ensures var s' := Apply(s, l).s;
            s'.listening == s.listening && s'.closing == s.closing && s'.hist.abandoned == s.hist.abandoned
  {
    hide CQ.Apply, CreateResultValue, Append, Log, RawFits, Own.Add;
  }

  /** Being stored is lost with the id and never comes back. */
  lemma StoredMoves(h: Own.Heap, h': Own.Heap, ids: set<Own.Id>, r: Ref)
    requires Own.Inv(h) && Own.Inv(h') && Own.Later(h, h') && LosesOnly(h, h', ids) && r < h.nextRef
    ensures Stored(h', r) ==> Stored(h, r)
    ensures Stored(h, r) && h.objs[r].id !in ids ==> Stored(h', r)
  {
  }

  /** A listener named by an id that leaves the store is being closed or abandoned. */
  lemma UnstoredListener(s: State, l: Label, h: Ref)
    requires Core(s) && ListenersOk(s) && FsClosesOk(s) && Enabled(s, l)
    requires Open(s, h) && Stored(s.heap, h) && s.heap.objs[h].id in Unstores(s, l)
    ensures h in Closes(s, l) + Abandons(s, l)
  {
    assert ListenerOk(s, h);
    hide FibersOk, CtxsOk, WaitsOk, AcceptOk, PlacesOk, OnceQueued, ReadingOk, FramesOk, CQ.Inv, Own.Inv;
  }

  /** What a step closes or abandons leaves the store with it. */
  lemma GoneFromStore(s: State, l: Label, h: Ref)
    requires Core(s) && Enabled(s, l) && Apply(s, l).Next? && h in Closes(s, l) + Abandons(s, l)
    ensures Stored(s.heap, h) && !Stored(Apply(s, l).s.heap, h)
  {
    HeapIsSound(s);
    hide Core, Own.Inv, Stored;
    NamedIsRemoved(s, l, h);
    hide Apply, Enabled, Closes, Abandons;
    RemoveUnstores(s.heap, if l.Free? then l.freed else l.closed);
  }

  lemma NamedIsRemoved(s: State, l: Label, h: Ref)
    requires Enabled(s, l) && Apply(s, l).Next? && h in Closes(s, l) + Abandons(s, l)
    ensures l.Free? || l.Close?
    ensures var id := if l.Free? then l.freed else l.closed;
            && Apply(s, l).s.heap == Own.Remove(s.heap, id)
            && Own.StorePtr(id) in s.heap.ptrs && s.heap.ptrs[Own.StorePtr(id)] == h
  {
    hide Own.Remove;
  }

  lemma RemoveUnstores(h: Own.Heap, id: Own.Id)
    requires Own.Inv(h) && Own.StorePtr(id) in h.ptrs
    ensures Stored(h, h.ptrs[Own.StorePtr(id)]) && !Stored(Own.Remove(h, id), h.ptrs[Own.StorePtr(id)])
  {
    Own.RemoveKeepsInv(h, id);
    Own.RemoveIsLater(h, id);
    assert h.objs[h.ptrs[Own.StorePtr(id)]].id == id;
    hide Own.Remove, Own.Inv;
  }

  lemma HeapIsSound(s: State)
    requires Core(s)
    ensures Own.Inv(s.heap)
  {
    hide FibersOk, CtxsOk, WaitsOk, AcceptOk, PlacesOk, OnceQueued, ReadingOk, FramesOk, CQ.Inv, Own.Inv;
  }

  lemma ListenerStays(s: State, l: Label, s': State, h: Ref)
    requires Core(s) && ListenersOk(s) && FsClosesOk(s) && Enabled(s, l) && Apply(s, l) == Next(s') && Core(s')
    requires Own.Later(s.heap, s'.heap) && LosesOnly(s.heap, s'.heap, Unstores(s, l)) && ListenersMoved(s, l, s')
    requires Open(s, h) && Open(s', h)
    ensures h in s'.hist.abandoned <==> !Stored(s'.heap, h)
  {
    assert ListenerOk(s, h);
    hide Apply, Enabled, Core, Own.Later, LosesOnly, Stored, Unstores, FsClosesOk, ListenersOk;
    HeapIsSound(s);
    HeapIsSound(s');
    StoredMoves(s.heap, s'.heap, Unstores(s, l), h);
    if h in Closes(s, l) + Abandons(s, l) {
      GoneFromStore(s, l, h);
    } else if Stored(s.heap, h) {
      StoredExists(s.heap, h);
      if s.heap.objs[h].id in Unstores(s, l) {
        UnstoredListener(s, l, h);
        assert false;
      }
    }
  }

  lemma StoredExists(h: Own.Heap, r: Ref)
    requires Stored(h, r)
    ensures r in h.objs
  {
  }

  /** A listener is born in the store, open, and not abandoned. */
  lemma NewListener(s: State)
    requires Core(s) && ListenersOk(s)
    ensures var s', h := ListenStep(s).s, s.heap.nextRef;
            && h < s'.heap.nextRef && h in s'.heap.objs && s'.heap.objs[h].kind == Own.NetK
            && Stored(s'.heap, h) && h !in s'.hist.abandoned && Open(s', h)
  {
    assert ListenerOk(s, s.heap.nextRef);
    hide FibersOk, CtxsOk, WaitsOk, AcceptOk, PlacesOk, OnceQueued, FramesOk, CQ.Inv, Own.Inv;
  }

  lemma ListenerIsNet(s: State, s': State, h: Ref)
    requires ListenersOk(s) && Own.Later(s.heap, s'.heap) && h in s.listening
    ensures h < s'.heap.nextRef && (h in s'.heap.objs ==> s'.heap.objs[h].kind == Own.NetK)
  {
    assert ListenerOk(s, h);
    hide Stored, Open;
  }

  lemma AbandonedStayOpen(s: State, l: Label, s': State, h: Ref)
    requires Core(s) && ListenersOk(s) && Enabled(s, l) && Apply(s, l) == Next(s') && ListenersMoved(s, l, s')
    requires h in s'.hist.abandoned
    ensures Open(s', h)
  {
    assert ListenerOk(s, h);
    hide Apply, Enabled, Core, Stored, ListenersOk;
    if h in Closes(s, l) {
      GoneFromStore(s, l, h);
    }
  }

  lemma ListenIsNew(s: State, l: Label, s': State, h: Ref)
    requires Core(s) && ListenersOk(s) && Enabled(s, l) && Apply(s, l) == Next(s') && ListenersMoved(s, l, s')
    requires h in s'.listening && h !in s.listening
    ensures l.Listen? && h == s.heap.nextRef && s' == ListenStep(s).s
  {
    hide Core, ListenersOk, ListenStep, Own.Get;
  }

  /** Everything that ListenersOk says, of one handle after a step. */
  lemma ListenerKept(s: State, l: Label, s': State, h: Ref)
    requires Core(s) && ListenersOk(s) && FsClosesOk(s) && Enabled(s, l) && Apply(s, l) == Next(s') && Core(s')
    requires Own.Later(s.heap, s'.heap) && LosesOnly(s.heap, s'.heap, Unstores(s, l)) && ListenersMoved(s, l, s')
    ensures ListenerOk(s', h)
  {
    hide Apply, Enabled, Core, FsClosesOk, Own.Later, LosesOnly, Unstores, Stored, ListenersOk;
    if h in s'.hist.abandoned {
      AbandonedStayOpen(s, l, s', h);
    }
    if h in s'.listening {
      if h in s.listening {
        ListenerIsNet(s, s', h);
        if Open(s', h) {
          assert Open(s, h);
          ListenerStays(s, l, s', h);
        }
      } else {
        ListenIsNew(s, l, s', h);
        NewListener(s);
        hide ListenStep;
      }
    }
  }

  lemma ListenersKept(s: State, l: Label)
    requires Core(s) && ListenersOk(s) && FsClosesOk(s) && Enabled(s, l) && Apply(s, l).Next? && Core(Apply(s, l).s)
    ensures ListenersOk(Apply(s, l).s)
  {
    var s' := Apply(s, l).s;
    hide Apply, Enabled, Core, FsClosesOk, Own.Later, LosesOnly, Unstores, ListenersMoved, ListenerOk;
    StoreIsLater(s, l);
    StoreLoses(s, l);
    ListenersMove(s, l);
    forall h: Ref
      ensures ListenerOk(s', h)
    {
      ListenerKept(s, l, s', h);
    }
  }

  // ---------------------------------------------------------------- ids and types

  lemma NamesStay(h: Own.Heap, h': Own.Heap, id: Own.Id, kind: Own.Kind)
    requires Own.Inv(h) && Own.Inv(h') && Own.Later(h, h') && NamesOnly(h, id, kind)
    ensures NamesOnly(h', id, kind)
  {
  }

  lemma GetNames(h: Own.Heap, id: Own.Id, kind: Own.Kind)
    requires Own.Inv(h) && Own.Get(h, id, kind) != None
    ensures NamesOnly(h, id, kind)
  {
  }

  /** What is new among the operations comes from a start that found its handle. */
  lemma OpsMove(s: State, l: Label)
    requires Enabled(s, l) && Apply(s, l).Next?
    ensures var s' := Apply(s, l).s;
            || s'.hist.ops == s.hist.ops
            || (l.Start? && s'.hist.ops == s.hist.ops + [Started(s, l.kind, l.id)]
                && (Target(l.kind) != None ==> Own.Get(s.heap, l.id, Target(l.kind).value) != None))
  {
    if l.Start? {
      StartSuspends(s, l.kind, l.id);
      StartFinds(s, l.kind, l.id);
      hide StartStep, Started, Own.Get;
    } else if MovesIssues(l) {
      hide Own.Add, Unwind, CreateResultValue, CQ.Apply, Append, Log;
    } else {
      IssuesUntouched(s, l);
      hide Apply, Enabled;
    }
  }

  lemma StartFinds(s: State, kind: OpKind, id: Own.Id)
    requires StartStep(s, kind, id).Next?
    ensures StartStep(s, kind, id).s != s && Target(kind) != None ==> Own.Get(s.heap, id, Target(kind).value) != None
  {
    hide BeginRequest, BeginRead, BeginAccept, Own.Get;
  }

  /** A new FS_Close is for an id that names a file. */
  lemma NewOpNames(s: State, l: Label)
    requires Core(s) && Enabled(s, l) && Apply(s, l).Next?
    ensures var ops, ops' := s.hist.ops, Apply(s, l).s.hist.ops;
            || ops' == ops
            || (|ops'| == |ops| + 1 && ops <= ops'
                && (ops'[|ops|].kind == FsClose ==> NamesOnly(s.heap, ops'[|ops|].id, Own.FileK)))
  {
    hide Apply, Enabled, Core, Own.Inv, NamesOnly, Own.Get;
    OpsMove(s, l);
    HeapIsSound(s);
    if Apply(s, l).s.hist.ops != s.hist.ops && l.kind == FsClose {
      GetNames(s.heap, l.id, Own.FileK);
    }
  }

  lemma FsClosesKept(s: State, l: Label)
    requires Core(s) && FsClosesOk(s) && Enabled(s, l) && Apply(s, l).Next? && Core(Apply(s, l).s)
    ensures FsClosesOk(Apply(s, l).s)
  {
    hide Apply, Enabled, Core, FsClosesOk, Own.Later, Own.Inv, NamesOnly;
    NewOpNames(s, l);
    StoreIsLater(s, l);
    HeapIsSound(s);
    HeapIsSound(Apply(s, l).s);
    FsClosesGrow(s, Apply(s, l).s);
  }

  lemma FsClosesGrow(s: State, s': State)
    requires FsClosesOk(s) && Own.Inv(s.heap) && Own.Inv(s'.heap) && Own.Later(s.heap, s'.heap)
    requires s'.hist.ops == s.hist.ops
             || (|s'.hist.ops| == |s.hist.ops| + 1 && s.hist.ops <= s'.hist.ops
                 && var op := s'.hist.ops[|s.hist.ops|]; op.kind == FsClose ==> NamesOnly(s.heap, op.id, Own.FileK))
    ensures FsClosesOk(s')
  {
    hide Own.Later, Own.Inv, NamesOnly;
    forall o | 0 <= o < |s'.hist.ops| && s'.hist.ops[o].kind == FsClose
      ensures NamesOnly(s'.heap, s'.hist.ops[o].id, Own.FileK)
    {
      NamesStay(s.heap, s'.heap, s'.hist.ops[o].id, Own.FileK);
    }
  }

  lemma HandlesKept(s: State, l: Label)
    requires HandlesOk(s) && Enabled(s, l) && Apply(s, l).Next?
    ensures HandlesOk(Apply(s, l).s)
  {
    OpsMove(s, l);
    hide Apply, Enabled, Own.Get, Target;
  }

  /** Ids are minted only by the resumptions that make a handle, one each, of the right type. */
  lemma ResumeMakes(s: State, accepted: bool)
    requires s.q.phase == CQ.Draining && s.q.local != [] && ResumeNextStep(s, accepted).Next?
    ensures s.q.local[0] in s.ctxs
    ensures var s', x := ResumeNextStep(s, accepted).s, s.ctxs[s.q.local[0]];
            || s'.hist.minted == s.hist.minted
            || (s'.hist.minted == s.hist.minted[x.op := s.heap.nextId] && Makes(x.kind) != None
                && s'.heap == Own.Add(s.heap, Makes(x.kind).value))
  {
    var x := s.ctxs[s.q.local[0]];
    OnlyMakersMake(x.kind, x.raw, accepted);
    hide CreateResultValue, CQ.Apply, Own.Add, Makes, Append;
  }

  lemma AddNames(h: Own.Heap, kind: Own.Kind)
    ensures NamesOnly(Own.Add(h, kind), h.nextId, kind)
  {
  }

  /** The one new id is the store's next, for a handle of the type that `o` makes. */
  ghost predicate Mints(s: State, s': State, o: OpId) {
    && o < |s.hist.ops| && Makes(s.hist.ops[o].kind) != None
    && s'.hist.minted == s.hist.minted[o := s.heap.nextId]
    && s'.heap == Own.Add(s.heap, Makes(s.hist.ops[o].kind).value)
  }

  lemma MintedMove(s: State, l: Label)
    requires CtxsOk(s) && Enabled(s, l) && Apply(s, l).Next?
    ensures Apply(s, l).s.hist.minted == s.hist.minted || exists o :: Mints(s, Apply(s, l).s, o)
  {
    hide Mints;
    if l.ResumeNext? {
      ResumeMintsOne(s, l.accepted);
      hide ResumeNextStep, CtxsOk;
    } else if l.Start? {
      StartSuspends(s, l.kind, l.id);
      hide StartStep, Started, CtxsOk;
    } else if MovesOrder(l) {
      MintedUntouchedByCallback(s, l);
      hide Apply, Enabled, CtxsOk;
    } else {
      MintedUntouched(s, l);
      hide Apply, Enabled, CtxsOk;
    }
  }

  lemma ResumeMintsOne(s: State, accepted: bool)
    requires CtxsOk(s)
    requires s.q.phase == CQ.Draining && s.q.local != [] && ResumeNextStep(s, accepted).Next?
    ensures var s' := ResumeNextStep(s, accepted).s; s'.hist.minted == s.hist.minted || exists o :: Mints(s, s', o)
  {
    ResumeMakes(s, accepted);
    assert CtxOk(s, s.q.local[0]);
    hide ResumeNextStep, CtxsOk, Own.Add, Makes;
    if ResumeNextStep(s, accepted).s.hist.minted != s.hist.minted {
      assert Mints(s, ResumeNextStep(s, accepted).s, s.ctxs[s.q.local[0]].op);
    }
  }

  lemma MintedUntouchedByCallback(s: State, l: Label)
    requires Enabled(s, l) && Apply(s, l).Next? && (l.OnComplete? || l.OnRead? || l.OnConnection? || l.Delete?)
    ensures Apply(s, l).s.hist.minted == s.hist.minted
  {
    hide CQ.Apply, Append, Log, RawFits;
  }

  lemma MintedUntouched(s: State, l: Label)
    requires Enabled(s, l) && Apply(s, l).Next? && !MovesOrder(l)
    ensures Apply(s, l).s.hist.minted == s.hist.minted
  {
    hide Own.Add, Own.AddTls, Own.Copy, Own.Drop, Own.Remove, Own.Get, Unwind, CQ.Apply, Append, ScriptRunning;
  }

  /** Old ids keep naming what they named. */
  lemma MadeStays(s: State, s': State, o: OpId)
    requires Own.Inv(s.heap) && Own.Inv(s'.heap) && Own.Later(s.heap, s'.heap) && s.hist.ops <= s'.hist.ops
    requires MadeOk(s) && o in s.hist.minted
    ensures o < |s'.hist.ops| && Makes(s'.hist.ops[o].kind) != None
            && NamesOnly(s'.heap, s.hist.minted[o], Makes(s'.hist.ops[o].kind).value)
  {
    hide Own.Inv, Own.Later, NamesOnly, Makes;
    NamesStay(s.heap, s'.heap, s.hist.minted[o], Makes(s.hist.ops[o].kind).value);
  }

  lemma MadeKept(s: State, l: Label)
    requires Core(s) && MadeOk(s) && Enabled(s, l) && Apply(s, l).Next? && Core(Apply(s, l).s)
    ensures MadeOk(Apply(s, l).s)
  {
    var s' := Apply(s, l).s;
    CoreContexts(s);
    MintedMove(s, l);
    OpsMove(s, l);
    StoreIsLater(s, l);
    HeapIsSound(s);
    HeapIsSound(s');
    hide Apply, Enabled, Core, CtxsOk, MadeOk, Mints, Own.Later, Own.Inv, Own.Get, Started, Target;
    assert s.hist.ops <= s'.hist.ops;
    if s'.hist.minted == s.hist.minted {
      MadeFrame(s, s');
    } else {
      var made :| Mints(s, s', made);
      MadeGrows(s, s', made);
    }
  }

  lemma MadeFrame(s: State, s': State)
    requires Own.Inv(s.heap) && Own.Inv(s'.heap) && Own.Later(s.heap, s'.heap) && s.hist.ops <= s'.hist.ops
    requires MadeOk(s) && s'.hist.minted == s.hist.minted
    ensures MadeOk(s')
  {
    hide Own.Inv, Own.Later, NamesOnly, Makes;
    forall o | o in s'.hist.minted
      ensures o < |s'.hist.ops| && Makes(s'.hist.ops[o].kind) != None
              && NamesOnly(s'.heap, s'.hist.minted[o], Makes(s'.hist.ops[o].kind).value)
    {
      MadeStays(s, s', o);
    }
  }

  lemma MadeGrows(s: State, s': State, made: OpId)
    requires Own.Inv(s.heap) && Own.Inv(s'.heap) && Own.Later(s.heap, s'.heap) && s.hist.ops <= s'.hist.ops
    requires MadeOk(s) && Mints(s, s', made)
    ensures MadeOk(s')
  {
    hide Own.Inv, Own.Later, NamesOnly, Makes, Own.Add;
    AddNames(s.heap, Makes(s.hist.ops[made].kind).value);
    forall o | o in s'.hist.minted
      ensures o < |s'.hist.ops| && Makes(s'.hist.ops[o].kind) != None
              && NamesOnly(s'.heap, s'.hist.minted[o], Makes(s'.hist.ops[o].kind).value)
    {
      if o != made {
        MadeStays(s, s', o);
      }
    }
  }

  lemma CoreContexts(s: State)
    requires Core(s)
    ensures CtxsOk(s)
  {
    hide CtxsOk;
  }
}
