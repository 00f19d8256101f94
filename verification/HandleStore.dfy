/**
 The global handle store (handles.cpp, handles.h:104-126) as an object, and the
 finalization registry of the JavaScript wrappers (stdlib.js:37-58).
 */
module HandleStore {
  import opened Prelude
  import Own = Ownership

  const TWO_64: nat := 0x1_0000_0000_0000_0000

  /** BigInt::Uint64Value: the value modulo two to the 64. */
  function Uint64Value(n: int): nat {
    n % TWO_64
  }

  /** It is the id itself for every id there can be, and differs from `n` by a multiple of two to the 64. */
  lemma Uint64Wraps(n: int)
    ensures 0 <= Uint64Value(n) < 18446744073709551616
    ensures 0 <= n < 18446744073709551616 <==> Uint64Value(n) == n
    ensures exists k: int :: n == Uint64Value(n) + 18446744073709551616 * k
  {
    assert n == Uint64Value(n) + 18446744073709551616 * (n / 18446744073709551616);
  }

  // ---------------------------------------------------------------- ids in 64 bits

  /** The id handed out by the i-th call of Add, counting from zero: `next_id++` on a uint64_t from 1. */
  function NthId(i: nat): nat {
    (1 + i) % TWO_64
  }

  /** Exactly up to two to the 64 additions hand out different ids. */
  lemma IdsAreDistinctIff(n: nat)
    ensures (forall i, j :: 0 <= i < j < n ==> NthId(i) != NthId(j)) <==> n <= TWO_64
    ensures forall i :: 0 <= i < 18446744073709551615 ==> NthId(i) == i + 1
    ensures NthId(18446744073709551615) == 0
  {
    if n > TWO_64 {
      assert NthId(0) == NthId(TWO_64);
    }
  }

  // ---------------------------------------------------------------- the finalization registry

  /** What `handleRegistry` remembers of a registered wrapper; unregistering goes by the token. */
  datatype Cell = Cell(target: nat, held: int, token: Option<nat>)

  /** The constructor of ExternalResource registers; every `close` override unregisters. */
  datatype WrapperEvent = Made(target: nat, held: int) | Closed(target: nat)

  /** unregister(token) drops the cells registered with that token. */
  function Unregister(cells: seq<Cell>, token: nat): seq<Cell> {
    if cells == [] then []
    else (if cells[0].token == Some(token) then [] else [cells[0]]) + Unregister(cells[1..], token)
  }

  /** register(this, id) passes no third argument, so the cell has no token. */
  function Registry(cells: seq<Cell>, es: seq<WrapperEvent>): seq<Cell>
    decreases es
  {
    if es == [] then cells
    else match es[0]
      case Made(w, id) => Registry(cells + [Cell(w, id, None)], es[1..])
      case Closed(w) => Registry(Unregister(cells, w), es[1..])
  }

  /** One cell for every wrapper ever made. */
  function CellsMade(es: seq<WrapperEvent>): seq<Cell> {
    if es == [] then []
    else (if es[0].Made? then [Cell(es[0].target, es[0].held, None)] else []) + CellsMade(es[1..])
  }

  lemma {:induction false} UnregisterNeedsAToken(cells: seq<Cell>, token: nat)
    ensures Unregister(cells, token) == cells <==> forall c :: c in cells ==> c.token != Some(token)
    ensures |Unregister(cells, token)| <= |cells|
    ensures forall c :: c in Unregister(cells, token) <==> c in cells && c.token != Some(token)
  {
    if cells != [] {
      UnregisterNeedsAToken(cells[1..], token);
      assert cells == [cells[0]] + cells[1..];
      if cells[0].token == Some(token) {
        assert cells[0] in cells;
      }
    }
  }

  /** Closing never takes a wrapper out of the registry: the finalizer will still free its id. */
  lemma {:induction false} CloseDoesNotUnregister(cells: seq<Cell>, es: seq<WrapperEvent>)
    requires forall c :: c in cells ==> c.token == None
    ensures Registry(cells, es) == cells + CellsMade(es)
    ensures forall w, id :: Cell(w, id, None) in Registry(cells, es) <==>
              Cell(w, id, None) in cells || Made(w, id) in es
    decreases es
  {
    if es != [] {
      var rest := CellsMade(es[1..]);
      match es[0]
      case Made(w, id) =>
        var cell := Cell(w, id, None);
        CloseDoesNotUnregister(cells + [cell], es[1..]);
        assert cells + [cell] + rest == cells + ([cell] + rest);
      case Closed(w) =>
        assert [] + rest == rest;
        UnregisterNeedsAToken(cells, w);
        CloseDoesNotUnregister(cells, es[1..]);
    }
  }

  // ---------------------------------------------------------------- the store

  /** The handles stored under ids below `id`, in the order a std::map visits them. */
  function StoredBelow(h: Own.Heap, id: Own.Id): seq<Own.Ref> {
    if id == 0 then []
    else StoredBelow(h, id - 1)
         + if Own.StorePtr(id - 1) in h.ptrs then [h.ptrs[Own.StorePtr(id - 1)]] else []
  }

  /** Some suspended primitive still keeps `r` alive, directly or through a TLSHandle. */
  ghost predicate Held(h: Own.Heap, r: Own.Ref) {
    || (exists f: nat, i: nat :: Own.FramePtr(f, i) in h.ptrs && h.ptrs[Own.FramePtr(f, i)] == r)
    || (exists f: nat, i: nat :: HeldThrough(h, f, i, r))
  }

  ghost predicate HeldThrough(h: Own.Heap, f: nat, i: nat, r: Own.Ref) {
    && Own.FramePtr(f, i) in h.ptrs && Own.TlsPtr(h.ptrs[Own.FramePtr(f, i)]) in h.ptrs
    && h.ptrs[Own.TlsPtr(h.ptrs[Own.FramePtr(f, i)])] == r
  }

  ghost predicate StoreEmpty(h: Own.Heap) {
    forall id: Own.Id :: Own.StorePtr(id) !in h.ptrs
  }

  /** With an empty store a handle exists exactly when a primitive still holds it. */
  lemma OnlyHeldSurvive(h: Own.Heap, r: Own.Ref)
    requires Own.Inv(h) && StoreEmpty(h)
    ensures r in h.objs <==> Held(h, r)
  {
    if r in h.objs {
      OwnedByFrameOrTls(h, r);
      if t :| Own.TlsPtr(t) in Own.Owners(h, r) {
        OwnedByFrameOrTls(h, t);
        assert forall u :: Own.TlsPtr(u) !in Own.Owners(h, t);
        var f: nat, i: nat :| Own.FramePtr(f, i) in Own.Owners(h, t);
        assert HeldThrough(h, f, i, r);
      }
    }
  }

  lemma OwnedByFrameOrTls(h: Own.Heap, r: Own.Ref)
    requires Own.Inv(h) && StoreEmpty(h) && r in h.objs
    ensures (exists f: nat, i: nat :: Own.FramePtr(f, i) in Own.Owners(h, r))
            || (exists t :: Own.TlsPtr(t) in Own.Owners(h, r))
  {
    assert |Own.Owners(h, r)| > 0;
    var p :| p in Own.Owners(h, r);
    match p
    case StorePtr(id) => assert false;
    case FramePtr(f, i) =>
    case TlsPtr(t) =>
  }

  /** A handle is stored under its own id only. */
  lemma StoredOnce(h: Own.Heap, h': Own.Heap, id: Own.Id)
    requires Own.Inv(h) && Own.StorePtr(id) in h.ptrs && h' == Own.Remove(h, id)
    ensures forall i: Own.Id :: Own.StorePtr(i) in h'.ptrs ==> h'.ptrs[Own.StorePtr(i)] != h.ptrs[Own.StorePtr(id)]
    ensures h.ptrs[Own.StorePtr(id)] < h.nextRef == h'.nextRef
  {
    Own.RemoveShrinks(h, id);
    hide Own.Remove;
  }

  lemma KeysAreBelowNext(h: Own.Heap)
    requires Own.Inv(h)
    ensures forall i: Own.Id :: Own.StorePtr(i) in h.ptrs ==> i < h.nextId
  {
  }

  lemma {:induction false} StoredAreDistinct(h: Own.Heap, id: Own.Id)
    requires Own.Inv(h)
    ensures Distinct(StoredBelow(h, id)) && forall r :: r in StoredBelow(h, id) ==> r < h.nextRef
    ensures forall r :: r in StoredBelow(h, id) <==>
              && r in h.objs && h.objs[r].id < id
              && Own.StorePtr(h.objs[r].id) in h.ptrs && h.ptrs[Own.StorePtr(h.objs[r].id)] == r
  {
    if id > 0 {
      StoredAreDistinct(h, id - 1);
    }
  }

  /** Each stored handle comes after those with smaller ids. */
  ghost predicate Ascending(h: Own.Heap, rs: seq<Own.Ref>) {
    && (forall i :: 0 <= i < |rs| ==> rs[i] in h.objs)
    && (forall i, j :: 0 <= i < j < |rs| ==> h.objs[rs[i]].id < h.objs[rs[j]].id)
  }

  lemma KeyIsItsId(h: Own.Heap, id: Own.Id)
    requires Own.Inv(h)
    ensures Own.StorePtr(id) in h.ptrs ==>
              h.ptrs[Own.StorePtr(id)] in h.objs && h.objs[h.ptrs[Own.StorePtr(id)]].id == id
  {
  }

  lemma AscendsSnoc(h: Own.Heap, rs: seq<Own.Ref>, r: Own.Ref)
    requires Ascending(h, rs) && r in h.objs && forall x :: x in rs && x in h.objs ==> h.objs[x].id < h.objs[r].id
    ensures Ascending(h, rs + [r])
  {
    assert forall i :: 0 <= i < |rs| ==> rs[i] in rs && (rs + [r])[i] == rs[i];
  }

  lemma {:induction false} StoredAscend(h: Own.Heap, id: Own.Id)
    requires Own.Inv(h)
    ensures Ascending(h, StoredBelow(h, id))
  {
    hide Own.Inv, Ascending, Distinct;
    if id == 0 {
      assert Ascending(h, []) by {
        NothingAscends(h);
      }
    } else {
      StoredAscend(h, id - 1);
      StoredAreDistinct(h, id - 1);
      KeyIsItsId(h, id - 1);
      if Own.StorePtr(id - 1) in h.ptrs {
        AscendsSnoc(h, StoredBelow(h, id - 1), h.ptrs[Own.StorePtr(id - 1)]);
      } else {
        assert StoredBelow(h, id - 1) + [] == StoredBelow(h, id - 1);
      }
    }
  }

  lemma NothingAscends(h: Own.Heap)
    ensures Ascending(h, [])
  {
  }

  class HandleStore {
    var objs: map<Own.Ref, Own.Obj>
    var ptrs: map<Own.Pointer, Own.Ref>
    var nextId: Own.Id             // one more than the additions so far; next_id is this modulo two to the 64
    var nextRef: Own.Ref
    var closed: seq<Own.Ref>       // handles whose virtual Close has run, oldest first

    function Abs(): Own.Heap
      reads this
    {
      Own.Heap(objs, ptrs, nextId, nextRef)
    }

    /** Counts are exact, ids fit their handles, and a closed handle was closed once and is not stored. */
    ghost predicate Valid()
      reads this
    {
      && Own.Inv(Abs()) && Distinct(closed)
      && (forall r :: r in closed ==> r < nextRef)
      && (forall id: Own.Id :: Own.StorePtr(id) in ptrs ==> ptrs[Own.StorePtr(id)] !in closed)
    }

    /** HandleStore::Init */
    constructor ()
      ensures Valid() && Abs() == Own.EMPTY && closed == []
    {
      objs, ptrs, nextId, nextRef, closed := map[], map[], 1, 0, [];
    }

    /** HandleStore::Add, for every addition before `next_id` has wrapped around to zero. */
    method Add(kind: Own.Kind) returns (id: Own.Id)
      requires Valid() && kind != Own.TlsK && nextId < TWO_64
      modifies this
      ensures Valid() && Abs() == Own.Add(old(Abs()), kind) && closed == old(closed)
      ensures Own.StorePtr(id) !in old(ptrs) && Own.Get(Abs(), id, kind) == Some(old(nextRef))
      ensures id == NthId(old(nextId) - 1) && nextId == old(nextId) + 1
    {
      hide Own.Inv;
      Own.AddKeepsInv(Abs(), kind);
      KeysAreBelowNext(Abs());
      id, nextId := Uint64Value(nextId), nextId + 1;
      objs := objs[nextRef := Own.Obj(kind, id, 1)];
      ptrs := ptrs[Own.StorePtr(id) := nextRef];
      nextRef := nextRef + 1;
    }

    /** HandleStore::Get<T> */
    method Get(id: Own.Id, kind: Own.Kind) returns (r: Option<Own.Ref>)
      requires Valid()
      ensures r == Own.Get(Abs(), id, kind)
      ensures r != None <==> Own.StorePtr(id) in ptrs && objs[ptrs[Own.StorePtr(id)]].kind == kind
      ensures r != None ==> objs[r.value].id == id && r.value !in closed
    {
      if Own.StorePtr(id) !in ptrs {
        return None;
      }
      var it := ptrs[Own.StorePtr(id)];
      r := if objs[it].kind == kind then Some(it) else None;
    }

    /** HandleStore::Remove: the erased shared_ptr may be the last. */
    method Remove(id: Own.Id)
      requires Valid()
      modifies this
      ensures Valid() && Abs() == Own.Remove(old(Abs()), id) && closed == old(closed)
      ensures Own.StorePtr(id) !in ptrs && Own.Later(old(Abs()), Abs())
      ensures Own.StorePtr(id) !in old(ptrs) ==> Abs() == old(Abs())
    {
      Own.RemoveIsLater(Abs(), id);
      Own.RemoveShrinks(Abs(), id);
      var h := Own.Remove(Abs(), id);
      assert Own.StorePtr(id) !in ptrs ==> h == Abs();
      hide Own.Remove, Own.Inv;
      objs, ptrs := h.objs, h.ptrs;
    }

    /** HANDLES_Free, the finalizer's primitive. */
    method Free(n: int)
      requires Valid()
      modifies this
      ensures Valid() && Abs() == Own.Remove(old(Abs()), Uint64Value(n)) && closed == old(closed)
    {
      Remove(Uint64Value(n));
    }

    /** TCP_Close, UDP_Close and FS_DirClose: look up, close, remove; an unknown id does nothing. */
    method Close(id: Own.Id, kind: Own.Kind) returns (found: bool)
      requires Valid()
      modifies this
      ensures Valid() && (found <==> Own.Get(old(Abs()), id, kind) != None)
      ensures if found then Abs() == Own.Remove(old(Abs()), id)
                            && closed == old(closed) + [Own.Get(old(Abs()), id, kind).value]
              else Abs() == old(Abs()) && closed == old(closed)
    {
      hide Own.Remove;
      var handle := Get(id, kind);
      if handle == None {
        return false;
      }
      found := true;
      Remove(id);
      StoredOnce(old(Abs()), Abs(), id);
      DistinctSnoc(closed, handle.value);
      closed := closed + [handle.value];
    }

    /** HandleStore::Dispose: close everything that is left, in id order, then clear the map. */
    method Dispose()
      requires Valid()
      modifies this
      ensures Valid() && StoreEmpty(Abs())
      ensures closed == old(closed) + StoredBelow(old(Abs()), old(nextId))
      ensures Ascending(old(Abs()), closed[|old(closed)|..])
      ensures Own.SameFrames(old(Abs()), Abs())
      ensures forall r :: r in objs <==> Held(Abs(), r)
    {
      hide Own.Inv;
      ghost var b := Abs();
      var id := 0;
      while id < nextId
        invariant id <= nextId && Abs() == b
        invariant closed == old(closed) + StoredBelow(b, id)
      {
        if Own.StorePtr(id) in ptrs {
          closed := closed + [ptrs[Own.StorePtr(id)]];
        }
        id := id + 1;
      }
      StoredAreDistinct(b, nextId);
      StoredAscend(b, nextId);
      assert closed[|old(closed)|..] == StoredBelow(b, nextId);
      DistinctAppend(old(closed), StoredBelow(b, nextId));
      Clear();
      forall r
        ensures r in objs <==> Held(Abs(), r)
      {
        OnlyHeldSurvive(Abs(), r);
      }
    }

    /** store.clear() */
    method Clear()
      requires Own.Inv(Abs())
      modifies `objs, `ptrs
      ensures Own.Inv(Abs()) && StoreEmpty(Abs()) && Own.SameFrames(old(Abs()), Abs())
    {
      KeysAreBelowNext(Abs());
      hide Own.Inv, Own.Remove;
      var id := 0;
      while id < nextId
        invariant id <= nextId && Own.Inv(Abs()) && Own.SameFrames(old(Abs()), Abs())
        invariant forall i: Own.Id :: Own.StorePtr(i) in ptrs ==> id <= i < nextId
      {
        Own.RemoveShrinks(Abs(), id);
        var h := Own.Remove(Abs(), id);
        objs, ptrs := h.objs, h.ptrs;
        id := id + 1;
      }
    }
  }
}
