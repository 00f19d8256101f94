/**
 Shared ownership of native handles (handles.h:19-126, handles.cpp:7-38).

 Dafny has no `delete`, so addresses are numbers and the C++ heap is a map: a handle
 is destroyed by removing it from `objs`.  Every `shared_ptr` instance is an entry of
 `ptrs`, named by the place it lives in, and each object carries the reference count
 of its control block, updated the way copying and dropping a `shared_ptr` does.
 */
module Ownership {
  import opened Prelude

  type Ref = nat
  type Id = nat

  datatype Kind = FileK | DirectoryK | NetK | UdpK | TlsContextK | TlsK | KeyK | CertK

  datatype Pointer =
    | StorePtr(id: Id)                     // an entry of HandleStore::store
    | FramePtr(fiber: nat, slot: nat)      // a local of a primitive on a fiber's stack
    | TlsPtr(tls: Ref)                     // TLSHandle::net_handle

  datatype Obj = Obj(kind: Kind, id: Id, count: nat)

  datatype Heap = Heap(objs: map<Ref, Obj>, ptrs: map<Pointer, Ref>, nextId: Id, nextRef: Ref)

  /** HandleStore::Init */
  const EMPTY := Heap(map[], map[], 1, 0)

  /** HandleStore::Get<T>: found and of the right dynamic type. */
  function Get(h: Heap, id: Id, kind: Kind): (r: Option<Ref>) {
    var p := StorePtr(id);
    if p in h.ptrs && h.ptrs[p] in h.objs && h.objs[h.ptrs[p]].kind == kind then Some(h.ptrs[p])
    else None
  }

  /** make_shared followed by HandleStore::Add. */
  function Add(h: Heap, kind: Kind): Heap {
    h.(objs := h.objs[h.nextRef := Obj(kind, h.nextId, 1)],
       ptrs := h.ptrs[StorePtr(h.nextId) := h.nextRef],
       nextId := h.nextId + 1,
       nextRef := h.nextRef + 1)
  }

  /** Copying a shared_ptr that refers to `r` into the place `p`. */
  function Copy(h: Heap, p: Pointer, r: Ref): Heap {
    if r in h.objs then
      h.(objs := h.objs[r := h.objs[r].(count := h.objs[r].count + 1)], ptrs := h.ptrs[p := r])
    else h
  }

  /** Adding a TLSHandle built on the socket `net`. */
  function AddTls(h: Heap, net: Ref): Heap {
    Copy(Add(h, TlsK), TlsPtr(h.nextRef), net)
  }

  /** One shared_ptr destructor: the object goes with its last owner. */
  function Release(h: Heap, p: Pointer): Heap {
    if p in h.ptrs && h.ptrs[p] in h.objs then
      var r := h.ptrs[p];
      var o := h.objs[r];
      h.(objs := if o.count <= 1 then h.objs - {r} else h.objs[r := o.(count := o.count - 1)],
         ptrs := h.ptrs - {p})
    else h
  }

  /** A shared_ptr destructor, with the member `net_handle` of a TLSHandle it destroys. */
  function Drop(h: Heap, p: Pointer): Heap {
    var h' := Release(h, p);
    if p in h.ptrs && h.ptrs[p] in h.objs && h.ptrs[p] !in h'.objs
    then Release(h', TlsPtr(h.ptrs[p]))
    else h'
  }

  /** HandleStore::Remove: erasing an absent key does nothing. */
  function Remove(h: Heap, id: Id): Heap {
    if StorePtr(id) in h.ptrs then Drop(h, StorePtr(id)) else h
  }

  // ---------------------------------------------------------------- invariant

  ghost function Owners(h: Heap, r: Ref): set<Pointer> {
    set p | p in h.ptrs && h.ptrs[p] == r
  }

  /** Every count is the number of owners, and only owned objects exist. */
  ghost predicate Counted(h: Heap) {
    && (forall p :: p in h.ptrs ==> h.ptrs[p] in h.objs)
    && (forall r :: r in h.objs ==> r < h.nextRef && h.objs[r].count == |Owners(h, r)| > 0)
  }

  /** Store keys are below `next_id` and each stored handle carries its own key. */
  ghost predicate Keyed(h: Heap) {
    forall id: Id :: StorePtr(id) in h.ptrs ==>
      1 <= id < h.nextId && h.ptrs[StorePtr(id)] in h.objs && h.objs[h.ptrs[StorePtr(id)]].id == id
  }

  /** Each TLSHandle owns exactly one NetHandle, and only while it exists. */
  ghost predicate TlsShaped(h: Heap) {
    && (forall t: Ref :: t in h.objs && h.objs[t].kind == TlsK ==> TlsPtr(t) in h.ptrs)
    && (forall t: Ref :: TlsPtr(t) in h.ptrs ==>
        && t in h.objs && h.objs[t].kind == TlsK
        && h.ptrs[TlsPtr(t)] in h.objs && h.objs[h.ptrs[TlsPtr(t)]].kind == NetK)
  }

  ghost predicate Inv(h: Heap) {
    Counted(h) && Keyed(h) && TlsShaped(h) && h.nextId >= 1
  }

  lemma CopyKeepsCounts(h: Heap, p: Pointer, r: Ref)
    requires Counted(h) && p !in h.ptrs && r in h.objs
    ensures Counted(Copy(h, p, r))
  {
    var h' := Copy(h, p, r);
    forall x | x in h'.objs
      ensures x < h'.nextRef && h'.objs[x].count == |Owners(h', x)| > 0
    {
      assert Owners(h', x) == if x == r then Owners(h, x) + {p} else Owners(h, x);
    }
  }

  lemma AddKeepsCounts(h: Heap, kind: Kind)
    requires Counted(h) && StorePtr(h.nextId) !in h.ptrs
    ensures Counted(Add(h, kind))
  {
    var h' := Add(h, kind);
    forall x | x in h'.objs
      ensures x < h'.nextRef && h'.objs[x].count == |Owners(h', x)| > 0
    {
      if x == h.nextRef {
        assert Owners(h', x) == {StorePtr(h.nextId)};
      } else {
        assert Owners(h', x) == Owners(h, x);
      }
    }
  }

  lemma ReleaseKeepsCounts(h: Heap, p: Pointer)
    requires Counted(h) && p in h.ptrs
    ensures Counted(Release(h, p))
    ensures h.ptrs[p] !in Release(h, p).objs <==> Owners(h, h.ptrs[p]) == {p}
  {
    var h', r := Release(h, p), h.ptrs[p];
    assert p in Owners(h, r);
    assert Owners(h', r) == Owners(h, r) - {p};
    assert Owners(h, r) == Owners(h', r) + {p};
    if h.objs[r].count <= 1 {
      assert |Owners(h', r)| == 0;
      forall q | q in h'.ptrs
        ensures h'.ptrs[q] in h'.objs
      {
        assert h'.ptrs[q] == r ==> q in Owners(h', r);
      }
    }
    forall x | x in h'.objs
      ensures x < h'.nextRef && h'.objs[x].count == |Owners(h', x)| > 0
    {
      if x != r {
        assert Owners(h', x) == Owners(h, x);
      }
    }
  }

  lemma CopyKeepsInv(h: Heap, p: Pointer, r: Ref)
    requires Inv(h) && p.FramePtr? && p !in h.ptrs && r in h.objs
    ensures Inv(Copy(h, p, r))
  {
    CopyKeepsCounts(h, p, r);
  }

  lemma AddKeepsInv(h: Heap, kind: Kind)
    requires Inv(h) && kind != TlsK
    ensures Inv(Add(h, kind))
  {
    AddKeepsCounts(h, kind);
  }

  lemma AddTlsKeyed(h: Heap, net: Ref)
    requires Inv(h) && net in h.objs && h.nextRef !in h.objs
    ensures Keyed(AddTls(h, net))
  {
    hide Counted, TlsShaped;
  }

  lemma AddTlsShaped(h: Heap, net: Ref)
    requires TlsShaped(h) && net in h.objs && h.objs[net].kind == NetK && h.nextRef !in h.objs
    ensures TlsShaped(AddTls(h, net)) && TlsPtr(h.nextRef) !in Add(h, TlsK).ptrs
  {
    assert TlsPtr(h.nextRef) !in h.ptrs;
  }

  lemma AddTlsKeepsInv(h: Heap, net: Ref)
    requires Inv(h) && net in h.objs && h.objs[net].kind == NetK
    ensures Inv(AddTls(h, net))
  {
    assert h.nextRef !in h.objs && net != h.nextRef && StorePtr(h.nextId) !in h.ptrs;
    AddTlsKeyed(h, net);
    AddTlsShaped(h, net);
    AddKeepsCounts(h, TlsK);
    AddTlsCounter(h, net);
    hide Counted, Keyed, TlsShaped, Copy;
    CopyKeepsCounts(Add(h, TlsK), TlsPtr(h.nextRef), net);
  }

  lemma AddTlsCounter(h: Heap, net: Ref)
    requires h.nextId >= 1
    ensures AddTls(h, net).nextId >= 1
  {
  }

  /** One destructor touches one pointer and one object. */
  lemma ReleaseEffect(h: Heap, p: Pointer)
    requires Counted(h) && p in h.ptrs
    ensures var h' := Release(h, p);
            && Counted(h')
            && h'.ptrs == h.ptrs - {p} && h'.nextId == h.nextId && h'.nextRef == h.nextRef
            && (forall x :: x in h'.objs ==>
                 x in h.objs && h'.objs[x].kind == h.objs[x].kind && h'.objs[x].id == h.objs[x].id)
            && (forall x :: x in h.objs && x !in h'.objs ==> x == h.ptrs[p] && Owners(h, x) == {p})
            && (Owners(h, h.ptrs[p]) == {p} ==> h.ptrs[p] !in h'.objs)
  {
    ReleaseKeepsCounts(h, p);
  }

  /** The objects a destructor destroys: its own when last owner, and then a socket owned only through it. */
  ghost predicate Dies(h: Heap, p: Pointer, x: Ref)
    requires p in h.ptrs
  {
    || Owners(h, x) == {p}
    || (Owners(h, h.ptrs[p]) == {p} && Owners(h, x) == {TlsPtr(h.ptrs[p])})
  }

  /** What one destructor does to the set of pointers, cascade included. */
  lemma DropEffect(h: Heap, p: Pointer)
    requires Inv(h) && p in h.ptrs && !p.TlsPtr?
    ensures var r, h' := h.ptrs[p], Drop(h, p);
            && Counted(h')
            && h'.ptrs == h.ptrs - (if Owners(h, r) == {p} then {p, TlsPtr(r)} else {p})
            && h'.nextId == h.nextId && h'.nextRef == h.nextRef
            && (forall x :: x in h'.objs ==>
                 x in h.objs && h'.objs[x].kind == h.objs[x].kind && h'.objs[x].id == h.objs[x].id)
            && (Owners(h, r) == {p} ==> r !in h'.objs)
  {
    var r, h1 := h.ptrs[p], Release(h, p);
    ReleaseEffect(h, p);
    assert p in Owners(h, r);
    if r !in h1.objs && TlsPtr(r) in h1.ptrs {
      ReleaseEffect(h1, TlsPtr(r));
    }
  }

  lemma DropKeepsKeyed(h: Heap, p: Pointer)
    requires Inv(h) && p in h.ptrs && !p.TlsPtr?
    ensures Keyed(Drop(h, p))
  {
    DropEffect(h, p);
    hide Drop, TlsShaped, Dies, Owners;
  }

  /** As long as `net_handle` of a TLSHandle is there, so is the TLSHandle. */
  lemma TlsStays(h: Heap, p: Pointer, t: Ref)
    requires Inv(h) && p in h.ptrs && !p.TlsPtr? && TlsPtr(t) in Drop(h, p).ptrs
    ensures t in Drop(h, p).objs
  {
    DropEffect(h, p);
    hide Drop, Keyed;
    var h', r := Drop(h, p), h.ptrs[p];
    assert |Owners(h, t)| > 0 && p in Owners(h, r);
    var q :| q in Owners(h, t);
    if q == p {
      assert Owners(h, r) - {p} != {};
      var q' :| q' in Owners(h, r) - {p};
      assert q' in h'.ptrs;
    } else {
      assert q in h'.ptrs;
    }
  }

  lemma DropKeepsShaped(h: Heap, p: Pointer)
    requires Inv(h) && p in h.ptrs && !p.TlsPtr?
    ensures TlsShaped(Drop(h, p))
  {
    DropEffect(h, p);
    hide Drop, Keyed, Dies;
    var h' := Drop(h, p);
    forall t: Ref | TlsPtr(t) in h'.ptrs
      ensures t in h'.objs && h'.objs[t].kind == TlsK
              && h'.ptrs[TlsPtr(t)] in h'.objs && h'.objs[h'.ptrs[TlsPtr(t)]].kind == NetK
    {
      assert TlsPtr(t) in h.ptrs && h'.ptrs[TlsPtr(t)] == h.ptrs[TlsPtr(t)];
      TlsStays(h, p, t);
    }
  }

  lemma DropKeepsInv(h: Heap, p: Pointer)
    requires Inv(h) && p in h.ptrs && !p.TlsPtr?
    ensures Inv(Drop(h, p))
  {
    DropEffect(h, p);
    DropKeepsKeyed(h, p);
    DropKeepsShaped(h, p);
    hide Drop, Counted, Keyed, TlsShaped;
  }

  /** Removing an id, by `close` or by a finalizer, keeps the accounting. */
  lemma RemoveKeepsInv(h: Heap, id: Id)
    requires Inv(h)
    ensures Inv(Remove(h, id)) && StorePtr(id) !in Remove(h, id).ptrs
  {
    if StorePtr(id) in h.ptrs {
      DropKeepsInv(h, StorePtr(id));
      DropEffect(h, StorePtr(id));
    }
  }

  // ---------------------------------------------------------------- what it buys

  /** The count is store membership, plus suspended frames, plus TLS handles built on it. */
  lemma CountSplits(h: Heap, r: Ref)
    requires Inv(h) && r in h.objs
    ensures var frames := set p | p in Owners(h, r) && p.FramePtr?;
            var tls := set t | t in h.objs && TlsPtr(t) in h.ptrs && h.ptrs[TlsPtr(t)] == r;
            h.objs[r].count ==
              (if StorePtr(h.objs[r].id) in h.ptrs && h.ptrs[StorePtr(h.objs[r].id)] == r then 1 else 0)
              + |frames| + |tls|
  {
    var own := Owners(h, r);
    var frames := set p | p in own && p.FramePtr?;
    var tls := set t | t in h.objs && TlsPtr(t) in h.ptrs && h.ptrs[TlsPtr(t)] == r;
    var tlsPtrs := set t | t in tls :: TlsPtr(t);
    var inStore := set p | p in own && p.StorePtr?;
    var key := StorePtr(h.objs[r].id);
    assert inStore == (if key in own then {key} else {}) by {
      assert forall p :: p in inStore ==> p == key;
    }
    assert h.objs[r].count == |own|;
    hide Inv;
    forall p | p in own
      ensures p in inStore + frames + tlsPtrs
    {
      if p.TlsPtr? {
        TlsOwnerExists(h, p.tls);
        assert p.tls in tls;
      }
    }
    SameSize(tls, tlsPtrs);
    assert own == inStore + frames + tlsPtrs;
  }

  lemma TlsOwnerExists(h: Heap, t: Ref)
    requires Inv(h) && TlsPtr(t) in h.ptrs
    ensures t in h.objs
  {
  }

  lemma {:induction false} SameSize(ts: set<Ref>, ps: set<Pointer>)
    requires ps == set t | t in ts :: TlsPtr(t)
    ensures |ts| == |ps|
    decreases ts
  {
    if ts != {} {
      var t :| t in ts;
      var ts', ps' := ts - {t}, ps - {TlsPtr(t)};
      assert ps' == set u | u in ts' :: TlsPtr(u);
      assert ts == ts' + {t} && ps == ps' + {TlsPtr(t)};
      SameSize(ts', ps');
    }
  }

  /** A pointer dropped elsewhere never destroys what another pointer still owns. */
  lemma OwnedSurvives(h: Heap, p: Pointer, q: Pointer)
    requires Inv(h) && p in h.ptrs && q in h.ptrs && p != q && !p.TlsPtr? && !q.TlsPtr?
    ensures q in Drop(h, p).ptrs && Drop(h, p).ptrs[q] == h.ptrs[q] && h.ptrs[q] in Drop(h, p).objs
  {
    DropEffect(h, p);
  }

  /** Copying a shared_ptr and dropping the copy leaves the heap as it was. */
  lemma CopyThenDrop(h: Heap, p: Pointer, r: Ref)
    requires Inv(h) && p.FramePtr? && p !in h.ptrs && r in h.objs
    ensures Drop(Copy(h, p, r), p) == h
  {
    var h1 := Copy(h, p, r);
    assert h.objs[r].count > 0;
    assert h1.objs[r].count == h.objs[r].count + 1;
    var h2 := Release(h1, p);
    assert h2.objs == h.objs && h2.ptrs == h.ptrs;
  }

  /** Exactly when a destructor destroys an object, for every object of the heap. */
  lemma DestroyedExactlyWithLastOwner(h: Heap, p: Pointer, x: Ref)
    requires Inv(h) && p in h.ptrs && !p.TlsPtr? && x in h.objs
    ensures x !in Drop(h, p).objs <==> Dies(h, p, x)
  {
    DropEffect(h, p);
    var h', r := Drop(h, p), h.ptrs[p];
    hide Drop, Keyed;
    assert Owners(h', x) == Owners(h, x) - (if Owners(h, r) == {p} then {p, TlsPtr(r)} else {p});
    ExistsIffOwned(h', x);
    OwnedSomehow(h, x);
    hide Counted, TlsShaped, Inv;
    assert p in Owners(h, x) ==> x == r;
  }

  lemma ExistsIffOwned(h: Heap, x: Ref)
    requires Counted(h)
    ensures x in h.objs <==> Owners(h, x) != {}
  {
    if x in h.objs {
      assert |Owners(h, x)| > 0;
    }
  }

  /** What owns an object is not its own `net_handle`. */
  lemma OwnedSomehow(h: Heap, x: Ref)
    requires Inv(h) && x in h.objs
    ensures Owners(h, x) != {} && TlsPtr(x) !in Owners(h, x)
  {
    ExistsIffOwned(h, x);
  }

  /**
   `h'` comes later than `h`: ids and addresses that `h` handed out never come to mean
   anything new in the store, what lives on is of the same kind under the same id, and a
   TLSHandle never changes its socket.
   */
  ghost predicate Later(h: Heap, h': Heap) {
    && h.nextId <= h'.nextId && h.nextRef <= h'.nextRef
    && (forall id: Id :: StorePtr(id) in h'.ptrs && (id < h.nextId || h'.ptrs[StorePtr(id)] < h.nextRef) ==>
         StorePtr(id) in h.ptrs && h'.ptrs[StorePtr(id)] == h.ptrs[StorePtr(id)])
    && (forall t: Ref :: TlsPtr(t) in h'.ptrs && t < h.nextRef ==>
         TlsPtr(t) in h.ptrs && h'.ptrs[TlsPtr(t)] == h.ptrs[TlsPtr(t)])
    && (forall r :: r in h'.objs && r < h.nextRef ==>
         r in h.objs && h'.objs[r].kind == h.objs[r].kind && h'.objs[r].id == h.objs[r].id)
  }

  lemma LaterTrans(a: Heap, b: Heap, c: Heap)
    requires Later(a, b) && Later(b, c)
    ensures Later(a, c)
  {
  }

  lemma LaterItself(h: Heap)
    ensures Later(h, h)
  {
  }

  lemma AddIsLater(h: Heap, kind: Kind)
    ensures Later(h, Add(h, kind))
  {
  }

  lemma DropIsLater(h: Heap, p: Pointer)
    requires Inv(h) && p in h.ptrs && !p.TlsPtr?
    ensures Later(h, Drop(h, p))
  {
    DropEffect(h, p);
  }

  lemma RemoveIsLater(h: Heap, id: Id)
    requires Inv(h)
    ensures Later(h, Remove(h, id))
  {
    if StorePtr(id) in h.ptrs {
      DropIsLater(h, StorePtr(id));
    }
  }

  /** The same locals on the same stacks, referring to the same handles. */
  ghost predicate SameFrames(h: Heap, h': Heap) {
    forall f: nat, i: nat ::
      (FramePtr(f, i) in h'.ptrs <==> FramePtr(f, i) in h.ptrs)
      && (FramePtr(f, i) in h'.ptrs && FramePtr(f, i) in h.ptrs ==> h'.ptrs[FramePtr(f, i)] == h.ptrs[FramePtr(f, i)])
  }

  /** The store only lost entries, or gained entries for handles made since. */
  ghost predicate StoreMoved(h: Heap, h': Heap) {
    && h.nextRef <= h'.nextRef
    && forall id: Id :: StorePtr(id) in h'.ptrs ==>
         h'.ptrs[StorePtr(id)] >= h.nextRef
         || (StorePtr(id) in h.ptrs && h.ptrs[StorePtr(id)] == h'.ptrs[StorePtr(id)])
  }

  lemma RemoveMoves(h: Heap, id: Id)
    requires Inv(h)
    ensures SameFrames(h, Remove(h, id)) && StoreMoved(h, Remove(h, id))
  {
    if StorePtr(id) in h.ptrs {
      DropEffect(h, StorePtr(id));
    }
  }

  /** Removing an id takes pointers away and leaves the others as they were. */
  lemma RemoveShrinks(h: Heap, id: Id)
    requires Inv(h)
    ensures var h' := Remove(h, id);
            && h'.nextId == h.nextId && h'.nextRef == h.nextRef
            && (forall i: Id :: StorePtr(i) in h'.ptrs <==> StorePtr(i) in h.ptrs && i != id)
            && (forall i: Id :: StorePtr(i) in h'.ptrs ==> h'.ptrs[StorePtr(i)] == h.ptrs[StorePtr(i)])
            && Inv(h') && SameFrames(h, h')
  {
    RemoveKeepsInv(h, id);
    RemoveMoves(h, id);
    if StorePtr(id) in h.ptrs {
      DropEffect(h, StorePtr(id));
    }
  }
}
