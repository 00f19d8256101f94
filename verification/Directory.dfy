/**
 Directory listings (handles.h:33-39, primitives_fs.cpp): a scan duplicates every name
 on the C heap, each read hands one entry out and frees its name, and Close frees the
 rest.  `free` and the use of a name demand a block that is still allocated, so a double
 free or a use after free would not verify.
 */
module Directory {
  import opened Prelude

  type Addr = nat

  datatype Dirent = Dirent(name: string, kind: int)

  /** uv_dirent_t as kept by the handle: `name` is null once it has been freed. */
  datatype Entry = Entry(name: Option<Addr>, kind: int)

  /** Every block ever allocated is either live or was freed, and none was freed twice. */
  class CHeap {
    var live: map<Addr, string>
    var next: Addr
    var freed: seq<Addr>        // every block given back, in order

    ghost predicate Valid()
      reads this
    {
      && Distinct(freed)
      && (forall a: Addr :: a < next <==> a in live || a in freed)
      && (forall a :: a in freed ==> a !in live)
    }

    constructor ()
      ensures Valid() && live == map[] && freed == []
    {
      live, next, freed := map[], 0, [];
    }

    method Strdup(s: string) returns (a: Addr)
      requires Valid()
      modifies `live, `next
      ensures Valid() && a == old(next) && next == a + 1 && a !in old(live)
      ensures live == old(live)[a := s]
    {
      a, next := next, next + 1;
      live := live[a := s];
    }

    method Free(a: Addr)
      requires Valid() && a in live
      modifies `live, `freed
      ensures Valid() && live == old(live) - {a} && freed == old(freed) + [a]
    {
      DistinctSnoc(freed, a);
      live, freed := live - {a}, freed + [a];
    }
  }

  /** The blocks that entries still point to. */
  ghost function NamesOf(es: seq<Entry>): set<Addr> {
    set i | 0 <= i < |es| && es[i].name != None :: es[i].name.value
  }

  lemma NamesOfSnoc(es: seq<Entry>, i: nat)
    requires i < |es|
    ensures NamesOf(es[..i + 1]) == NamesOf(es[..i]) + if es[i].name == None then {} else {es[i].name.value}
  {
    var es' := es[..i + 1];
    assert forall j :: 0 <= j < i ==> es[..i][j] == es'[j];
    forall a | a in NamesOf(es[..i])
      ensures a in NamesOf(es')
    {
      var j :| 0 <= j < i && es[..i][j].name == Some(a);
      assert es'[j].name == Some(a);
    }
    assert es'[i] == es[i];
  }

  /** Names before `index` are freed and null, the others are the handle's own and hold what was scanned. */
  ghost predicate Intact(es: seq<Entry>, index: nat, names: seq<Addr>, listing: seq<Dirent>, live: map<Addr, string>) {
    && |es| == |listing| == |names| && index <= |es| && Distinct(names)
    && (forall i :: 0 <= i < index ==> es[i].name == None)
    && (forall i :: index <= i < |es| ==>
         && es[i] == Entry(Some(names[i]), listing[i].kind)
         && names[i] in live && live[names[i]] == listing[i].name)
  }

  /** Freeing blocks that are not its own leaves a handle as good as it was. */
  lemma IntactStays(es: seq<Entry>, index: nat, names: seq<Addr>, listing: seq<Dirent>,
                    live: map<Addr, string>, gone: set<Addr>)
    requires Intact(es, index, names, listing, live) && gone !! NamesOf(es)
    ensures Intact(es, index, names, listing, live - gone)
  {
    forall i | index <= i < |es|
      ensures names[i] !in gone
    {
      assert es[i].name == Some(names[i]);
      assert names[i] in NamesOf(es);
    }
  }

  /** A name that is not null yet is still allocated, whatever was freed before it. */
  lemma NameIsLive(es: seq<Entry>, es0: seq<Entry>, index: nat, names: seq<Addr>, listing: seq<Dirent>,
                   live: map<Addr, string>, i: nat)
    requires Intact(es0, index, names, listing, live) && i < |es| == |es0| && es[i] == es0[i]
    ensures es[i].name == None <==> i < index
    ensures i >= index ==> es[i].name == Some(names[i]) && names[i] in live && names[i] !in NamesOf(es0[..i])
  {
  }

  ghost function Members(s: seq<Addr>): set<Addr> {
    set a | a in s
  }

  lemma OwnedIsRest(es: seq<Entry>, names: seq<Addr>, index: nat)
    requires index <= |es| == |names| && Distinct(names)
    requires forall i :: 0 <= i < index ==> es[i].name == None
    requires forall i :: index <= i < |es| ==> es[i].name == Some(names[i])
    ensures NamesOf(es) == Members(names[index..])
    ensures index < |es| ==>
              NamesOf(es) == {names[index]} + Members(names[index + 1..]) && names[index] !in names[index + 1..]
  {
  }

  class DirectoryHandle {
    const heap: CHeap
    var entries: seq<Entry>
    var index: nat
    ghost const listing: seq<Dirent>     // what the scan found, in its order
    ghost const names: seq<Addr>         // the duplicates it made

    ghost predicate Open()
      reads this, heap
    {
      Intact(entries, index, names, listing, heap.live)
    }

    ghost predicate Valid()
      reads this, heap
    {
      heap.Valid() && (entries == [] || Open())
    }

    /** The blocks this handle still has to free. */
    ghost function Owned(): set<Addr>
      reads this
    {
      NamesOf(entries)
    }

    /** OnFSCallback for a scandir (primitives_fs.cpp:106-114), then the handle around its result. */
    constructor (heap: CHeap, listing: seq<Dirent>)
      requires heap.Valid()
      modifies heap
      ensures this.heap == heap && this.listing == listing && index == 0
      ensures Valid() && Open() && |entries| == |listing| == |names| && Distinct(names)
      ensures heap.Valid() && heap.freed == old(heap.freed)
      ensures heap.live.Keys == old(heap.live).Keys + Owned() && Owned() !! old(heap.live).Keys
      ensures forall a :: a in old(heap.live) ==> heap.live[a] == old(heap.live)[a]
      ensures Owned() == Members(names)
    {
      this.heap, this.listing, index := heap, listing, 0;
      var found: seq<Entry> := [];
      ghost var dups: seq<Addr> := [];
      var i := 0;
      while i < |listing|
        invariant i == |found| == |dups| <= |listing| && heap.Valid() && Distinct(dups)
        invariant heap.freed == old(heap.freed) && heap.next >= old(heap.next)
        invariant forall j :: 0 <= j < i ==>
                    && found[j] == Entry(Some(dups[j]), listing[j].kind)
                    && dups[j] in heap.live && heap.live[dups[j]] == listing[j].name && dups[j] >= old(heap.next)
        invariant forall a :: a in heap.live <==> a in old(heap.live) || a in dups
        invariant forall a :: a in old(heap.live) ==> heap.live[a] == old(heap.live)[a]
      {
        var copy := heap.Strdup(listing[i].name);
        found := found + [Entry(Some(copy), listing[i].kind)];
        DistinctSnoc(dups, copy);
        assert forall a :: a in dups + [copy] <==> a in dups || a == copy;
        dups := dups + [copy];
        i := i + 1;
      }
      entries, names := found, dups;
      new;
      assert forall j :: 0 <= j < |names| ==> entries[j].name == Some(names[j]);
      assert Owned() == Members(names);
    }

    /** FS_DirRead: the next entry, whose name is copied out and freed, or null at the end. */
    method DirRead() returns (r: Option<Dirent>)
      requires Valid()
      modifies `index, `entries, heap
      ensures Valid() && heap.Valid()
      ensures if old(index) < |old(entries)| then
                && old(index) < |listing| == |names| && r == Some(listing[old(index)])
                && index == old(index) + 1 && |entries| == |old(entries)| && Open()
                && heap.freed == old(heap.freed) + [names[old(index)]]
                && heap.live == old(heap.live) - {names[old(index)]}
              else r == None && index == old(index) && entries == old(entries)
                   && heap.live == old(heap.live) && heap.freed == old(heap.freed)
      ensures Owned() == old(Owned()) - if old(index) < |old(entries)| then {names[old(index)]} else {}
      ensures old(index) < |old(entries)| ==> Owned() == Members(names[index..])
    {
      if index >= |entries| {
        return None;
      }
      var dent := entries[index];
      r := Some(Dirent(heap.live[dent.name.value], dent.kind));
      heap.Free(dent.name.value);
      entries := entries[index := dent.(name := None)];
      OwnedIsRest(old(entries), names, index);
      OwnedIsRest(entries, names, index + 1);
      index := index + 1;
    }

    /** The body of the loop in Close: a name that is not null is freed and becomes null. */
    method FreeName(i: nat)
      requires heap.Valid() && i < |entries| && (entries[i].name != None ==> entries[i].name.value in heap.live)
      modifies `entries, heap
      ensures heap.Valid() && entries == old(entries)[i := old(entries)[i].(name := None)]
      ensures match old(entries)[i].name
              case None => heap.live == old(heap.live) && heap.freed == old(heap.freed)
              case Some(a) => heap.live == old(heap.live) - {a} && heap.freed == old(heap.freed) + [a]
    {
      var entry := entries[i];
      if entry.name != None {
        heap.Free(entry.name.value);
      }
      entries := entries[i := entry.(name := None)];
    }

    /** DirectoryHandle::Close (primitives_fs.cpp:32-40) */
    method Close()
      requires Valid()
      modifies `entries, heap
      ensures Valid() && heap.Valid() && entries == [] && Owned() == {}
      ensures old(entries) == [] ==> heap.live == old(heap.live) && heap.freed == old(heap.freed)
      ensures old(entries) != [] ==> heap.freed == old(heap.freed) + names[index..]
      ensures heap.live == old(heap.live) - old(Owned())
    {
      var i := 0;
      while i < |entries|
        invariant i <= |entries| == |old(entries)| && heap.Valid() && index == old(index)
        invariant forall j :: i <= j < |entries| ==> entries[j] == old(entries)[j]
        invariant heap.live == old(heap.live) - NamesOf(old(entries)[..i])
        invariant heap.freed == old(heap.freed) + if i <= index || entries == [] then [] else names[index..i]
      {
        hide NamesOf, Distinct, Intact, CHeap.Valid;
        NamesOfSnoc(old(entries), i);
        NameIsLive(entries, old(entries), index, names, listing, old(heap.live), i);
        FreeName(i);
        i := i + 1;
      }
      assert old(entries)[..i] == old(entries);
      entries := [];
    }

    /**
     ~DirectoryHandle, run when the last owner goes: the vector is destroyed, and nothing is
     done about the names its entries point to.
     */
    method Destroy()
      modifies `entries
      ensures entries == [] && heap.live == old(heap.live) && heap.freed == old(heap.freed)
    {
      entries := [];
    }
  }

  /** Reading a fresh handle `times` times: scan order, then null; what was read is freed, in order. */
  method ReadTimes(dir: DirectoryHandle, times: nat) returns (got: seq<Option<Dirent>>)
    requires dir.Valid() && dir.heap.Valid() && dir.index == 0 && |dir.entries| == |dir.listing| == |dir.names|
    requires dir.Owned() == Members(dir.names)
    modifies dir, dir.heap
    ensures dir.Valid() && dir.heap.Valid() && |dir.entries| == |dir.listing|
    ensures dir.index == if times < |dir.listing| then times else |dir.listing|
    ensures |got| == times
    ensures forall i :: 0 <= i < times ==> got[i] == if i < |dir.listing| then Some(dir.listing[i]) else None
    ensures dir.heap.freed == old(dir.heap.freed) + dir.names[..dir.index]
    ensures dir.Owned() == Members(dir.names[dir.index..])
    ensures dir.heap.live == old(dir.heap.live) - Members(dir.names[..dir.index])
  {
    hide DirectoryHandle.Open, DirectoryHandle.Valid, DirectoryHandle.Owned, CHeap.Valid;
    got := [];
    assert dir.names[0..] == dir.names;
    while |got| < times
      invariant dir.Valid() && dir.heap.Valid() && |dir.entries| == |dir.listing|
      invariant dir.index == (if |got| < |dir.listing| then |got| else |dir.listing|)
      invariant |got| <= times
      invariant forall i :: 0 <= i < |got| ==> got[i] == if i < |dir.listing| then Some(dir.listing[i]) else None
      invariant dir.heap.freed == old(dir.heap.freed) + dir.names[..dir.index]
      invariant dir.Owned() == Members(dir.names[dir.index..])
      invariant dir.heap.live == old(dir.heap.live) - Members(dir.names[..dir.index])
    {
      hide Members;
      ghost var k := dir.index;
      var entry := dir.DirRead();
      if k < |dir.names| {
        MembersSnoc(dir.names, k);
      }
      got := got + [entry];
    }
  }

  lemma MembersSnoc(names: seq<Addr>, k: nat)
    requires k < |names|
    ensures Members(names[..k + 1]) == Members(names[..k]) + {names[k]}
  {
    assert names[..k + 1] == names[..k] + [names[k]];
  }

  /**
   Opening a directory, reading it any number of times, and then giving it up, by a close (or
   at HandleStore::Dispose) or only by freeing its id.  The entries come out in scan order and
   then null for ever.  Exactly the names not yet read stay allocated after a mere free, so
   every name is freed, once and in order, exactly when the handle is closed or read to its end.
   */
  method Browse(heap: CHeap, listing: seq<Dirent>, times: nat, closed: bool)
    returns (got: seq<Option<Dirent>>, ghost names: seq<Addr>)
    requires heap.Valid()
    modifies heap
    ensures heap.Valid() && |names| == |listing| && Members(names) !! old(heap.live).Keys
    ensures |got| == times && forall i :: 0 <= i < times ==> got[i] == if i < |listing| then Some(listing[i]) else None
    ensures var k := if closed || times >= |listing| then |listing| else times;
            && heap.freed == old(heap.freed) + names[..k]
            && heap.live.Keys == old(heap.live).Keys + Members(names[k..])
            && forall a :: a in old(heap.live) ==> heap.live[a] == old(heap.live)[a]
    ensures heap.live == old(heap.live) <==> closed || times >= |listing|
  {
    hide NamesOf, DirectoryHandle.Open, DirectoryHandle.Valid, DirectoryHandle.Owned, CHeap.Valid, Members;
    var dir := new DirectoryHandle(heap, listing);
    names := dir.names;
    got := ReadTimes(dir, times);
    MembersSplit(names, dir.index);
    if closed {
      dir.Close();
      MembersSplit(names, |names|);
    } else {
      dir.Destroy();
    }
    SameMapIff(old(heap.live), heap.live, names, if closed then |listing| else dir.index);
  }

  lemma MembersSplit(names: seq<Addr>, k: nat)
    requires k <= |names| && Distinct(names)
    ensures names[..k] + names[k..] == names
    ensures Members(names) == Members(names[..k]) + Members(names[k..]) && Members(names[..k]) !! Members(names[k..])
    ensures k == |names| ==> Members(names[k..]) == {} && names[..k] == names
  {
    var l, r := names[..k], names[k..];
    assert names == l + r;
    forall i, j | 0 <= i < k && 0 <= j < |r|
      ensures l[i] != r[j]
    {
      assert l[i] == names[i] && r[j] == names[k + j];
    }
  }

  /** A map that gained some keys is the old one exactly when it gained none. */
  lemma SameMapIff(before: map<Addr, string>, after: map<Addr, string>, names: seq<Addr>, k: nat)
    requires k <= |names| && Members(names[k..]) !! before.Keys
    requires after.Keys == before.Keys + Members(names[k..])
    requires forall a :: a in before ==> after[a] == before[a]
    ensures after == before <==> k == |names|
  {
    if k < |names| {
      assert names[k] == names[k..][0];
      assert names[k] in Members(names[k..]);
    } else {
      assert after.Keys == before.Keys;
    }
  }

  /** Everything that some of the handles still have to free. */
  ghost function AllOwned(dirs: seq<DirectoryHandle>): set<Addr>
    reads dirs
  {
    set i, a | 0 <= i < |dirs| && a in dirs[i].Owned() :: a
  }

  /** HandleStore::Dispose on the directories still open: all their names are freed, nothing else is. */
  method Dispose(heap: CHeap, dirs: seq<DirectoryHandle>)
    requires heap.Valid() && Distinct(dirs)
    requires forall d :: d in dirs ==> d.heap == heap && d.Valid()
    requires forall i, j :: 0 <= i < j < |dirs| ==> dirs[i].Owned() !! dirs[j].Owned()
    modifies heap, dirs
    ensures heap.Valid() && forall d :: d in dirs ==> d.entries == []
    ensures heap.live == old(heap.live) - old(AllOwned(dirs))
  {
    hide NamesOf, Intact, CHeap.Valid;
    ghost var gone: set<Addr> := {};
    var i := 0;
    while i < |dirs|
      invariant i <= |dirs| && heap.Valid()
      invariant forall j :: 0 <= j < i ==> dirs[j].entries == []
      invariant forall j :: i <= j < |dirs| ==> dirs[j].Valid() && dirs[j].Owned() == old(dirs[j].Owned())
      invariant heap.live == old(heap.live) - gone
      invariant forall j :: 0 <= j < i ==> old(dirs[j].Owned()) <= gone
      invariant gone <= old(AllOwned(dirs))
    {
      ghost var own := dirs[i].Owned();
      forall j | i < j < |dirs| && dirs[j].Open()
        ensures Intact(dirs[j].entries, dirs[j].index, dirs[j].names, dirs[j].listing, heap.live - own)
      {
        IntactStays(dirs[j].entries, dirs[j].index, dirs[j].names, dirs[j].listing, heap.live, own);
      }
      dirs[i].Close();
      gone := gone + own;
      i := i + 1;
    }
  }
}
