/** vec_copy.c, the earlier registry: ids are counted up, and the module's own cleanup deletes while it
    walks the list. */
module VecCopy {
  import opened Registry
  import VectorList

  /** The ids fall strictly from head to tail, from the counter downwards. */
  predicate Descending(es: seq<Entry>, count: nat) {
    && (forall i | 0 <= i < |es| :: 1 <= es[i].id <= count)
    && (forall i, j | 0 <= i < j < |es| :: es[i].id > es[j].id)
  }

  /** What add_vector_address does to the list; this registry has no bitmaps. */
  function Added(r: Table, count: nat, name: string, addr: nat, owner: nat): Table {
    r.(entries := [Entry(name, count + 1, addr, 0, 0, owner)] + r.entries)
  }

  /** The vectors with a reference count other than zero. */
  function InUse(es: seq<Entry>): seq<Entry> {
    if es == [] then []
    else if es[0].refcount == 0 then InUse(es[1..])
    else [es[0]] + InUse(es[1..])
  }

  lemma AddedDescends(r: Table, count: nat, name: string, addr: nat, owner: nat)
    requires Descending(r.entries, count)
    ensures Descending(Added(r, count, name, addr, owner).entries, count + 1)
  {
  }

  /** A new vector has the next id, which no other has, and no references; searches for its name and its address
      find it first, and taking it out again leaves the list as it was. */
  lemma AddedExact(r: Table, count: nat, name: string, addr: nat, owner: nat)
    requires Descending(r.entries, count)
    ensures var r1 := Added(r, count, name, addr, owner); var e := r1.entries[0];
      && e.name == name && e.addr == addr && e.owner == owner && e.refcount == 0 && e.id == count + 1
      && (forall i | 1 <= i < |r1.entries| :: r1.entries[i].id != e.id)
      && Find(r1.entries, ByName(name)) == Find(r1.entries, ByAddr(addr)) == 0
      && Acquire(r1, ByName(name)).1 == addr && Unregister(r1, addr) == (r, 0)
  {
    var r1 := Added(r, count, name, addr, owner);
    assert Matches(r1.entries[0], ByName(name)) && Matches(r1.entries[0], ByAddr(addr));
    assert r1.entries[..0] + r1.entries[1..] == r.entries;
  }

  lemma UnregisterDescends(r: Table, addr: nat, count: nat)
    requires Descending(r.entries, count)
    ensures Descending(Unregister(r, addr).0.entries, count)
  {
  }

  lemma BumpDescends(r: Table, i: nat, d: int, count: nat)
    requires Descending(r.entries, count) && i < |r.entries|
    ensures Descending(Bump(r, i, d).entries, count)
  {
  }

  /** Nothing in use is lost and nothing else is kept; with falling ids, this fixes the order too. */
  lemma {:induction false} InUseExact(es: seq<Entry>)
    ensures forall e :: e in InUse(es) <==> e in es && e.refcount != 0
    ensures |InUse(es)| <= |es|
  {
    if es != [] {
      InUseExact(es[1..]);
      assert es == [es[0]] + es[1..];
    }
  }

  /** Where a vector in use is in the list. */
  lemma {:induction false} InUseAt(es: seq<Entry>, j: nat) returns (k: nat)
    requires j < |InUse(es)|
    ensures k < |es| && es[k] == InUse(es)[j]
  {
    if es[0].refcount != 0 && j == 0 {
      k := 0;
    } else {
      k := InUseAt(es[1..], if es[0].refcount == 0 then j else j - 1);
      k := k + 1;
    }
  }

  lemma PrependDescends(e: Entry, rest: seq<Entry>, count: nat)
    requires Descending(rest, count) && 1 <= e.id <= count
    requires forall j | 0 <= j < |rest| :: e.id > rest[j].id
    ensures Descending([e] + rest, count)
  {
    var all := [e] + rest;
    forall i, j | 0 <= i < j < |all| ensures all[i].id > all[j].id {
      assert all[j] == rest[j - 1];
      assert i > 0 ==> all[i] == rest[i - 1];
    }
  }

  lemma {:induction false} InUseDescends(es: seq<Entry>, count: nat)
    requires Descending(es, count)
    ensures Descending(InUse(es), count)
  {
    if es != [] {
      var rest := InUse(es[1..]);
      assert Descending(es[1..], count);
      InUseDescends(es[1..], count);
      forall j | 0 <= j < |rest| ensures es[0].id > rest[j].id {
        var k := InUseAt(es[1..], j);
        assert rest[j] == es[k + 1];
      }
      PrependDescends(es[0], rest, count);
    }
  }

  lemma InUseNext(es: seq<Entry>, i: nat)
    requires i < |es|
    ensures es[i].refcount != 0 ==> es[..i + 1] + InUse(es[i + 1..]) == es[..i] + InUse(es[i..])
    ensures es[i].refcount == 0 ==>
      var rest := es[..i] + es[i + 1..]; rest[..i] + InUse(rest[i..]) == es[..i] + InUse(es[i..])
  {
    assert es[i..][1..] == es[i + 1..];
    var rest := es[..i] + es[i + 1..];
    assert rest[..i] == es[..i] && rest[i..] == es[i + 1..];
  }

  /** Ids are never given twice, so an id is the name of one vector. */
  lemma {:induction false} OneVectorPerId(es: seq<Entry>, count: nat, d: Entry, e: Entry)
    requires Descending(es, count) && d in es && e in es
    ensures d.id == e.id <==> d == e
  {
    var i :| 0 <= i < |es| && es[i] == d;
    var j :| 0 <= j < |es| && es[j] == e;
    assert i < j || j < i || i == j;
  }

  // ---- Runs

  datatype Call =
    | Add(name: string, addr: nat, owner: nat)
    | Remove(addr: nat)
    | Get(name: string)
    | Reduce(name: string)
    | Cleanup

  /** What one call does to the list and the counter. */
  function Done(r: Table, count: nat, call: Call): (Table, nat) {
    match call
    case Add(n, a, m) => (Added(r, count, n, a, m), count + 1)
    case Remove(a) => (Unregister(r, a).0, count)
    case Get(n) => (Acquire(r, ByName(n)).0, count)
    case Reduce(n) => (Release(r, ByName(n)).0, count)
    case Cleanup => (r.(entries := InUse(r.entries)), count)
  }

  function After(r: Table, count: nat, calls: seq<Call>): (Table, nat)
    decreases |calls|
  {
    if calls == [] then (r, count)
    else var (r1, c1) := Done(r, count, calls[0]); After(r1, c1, calls[1..])
  }

  lemma DoneDescends(r: Table, count: nat, call: Call)
    requires Descending(r.entries, count)
    ensures var (r1, c1) := Done(r, count, call); Descending(r1.entries, c1)
  {
    match call
    case Add(n, a, m) => AddedDescends(r, count, n, a, m);
    case Remove(a) => UnregisterDescends(r, a, count);
    case Get(n) =>
      if Has(r.entries, ByName(n)) {
        BumpDescends(r, Find(r.entries, ByName(n)), 1, count);
      }
    case Reduce(n) =>
      if Has(r.entries, ByName(n)) {
        BumpDescends(r, Find(r.entries, ByName(n)), -1, count);
      }
    case Cleanup => InUseDescends(r.entries, count);
  }

  /** In every run ids keep falling from head to tail, and so stay unique. */
  lemma {:induction false} RunDescends(r: Table, count: nat, calls: seq<Call>)
    requires Descending(r.entries, count)
    ensures var (r1, c1) := After(r, count, calls); Descending(r1.entries, c1)
    decreases |calls|
  {
    if calls != [] {
      DoneDescends(r, count, calls[0]);
      var (r1, c1) := Done(r, count, calls[0]);
      RunDescends(r1, c1, calls[1..]);
    }
  }

  lemma NotWalkedYet(es: seq<Entry>)
    ensures es[..0] + InUse(es[0..]) == InUse(es)
  {
    assert es[0..] == es;
  }

  lemma WalkedThrough(es: seq<Entry>, i: nat)
    requires i == |es|
    ensures es[..i] + InUse(es[i..]) == es
  {
    assert es[i..] == [] && es[..i] == es;
  }

  class CountedList {
    const list: VectorList.VectorList
    var vectorCount: nat

    ghost predicate Valid()
      reads this, list, list.head, list.vectors
    {
      list.Valid() && Descending(list.entries, vectorCount)
    }

    constructor ()
      ensures Valid() && list.entries == [] && vectorCount == 0
    {
      list := new VectorList.VectorList(map[]);
      vectorCount := 0;
    }

    /** The new vector, at the head. */
    method Insert(name: string, id: nat, addr: nat, owner: nat)
      requires list.Valid()
      modifies list`vectors, list`entries, list.head, list.vectors
      ensures list.Valid()
      ensures list.View() == old(list.View()).(entries := [Entry(name, id, addr, 0, 0, owner)] + old(list.entries))
    {
      var va := new VectorList.Vector(name, id, addr, owner, 0, 0);
      assert list.Valid();
      list.ListAdd(va);
    }

    /** add_vector_address. */
    method AddVectorAddress(name: string, addr: nat, owner: nat, kzalloc: bool) returns (ret: int)
      requires Valid()
      modifies this, list`vectors, list`entries, list.head, list.vectors
      ensures Valid()
      ensures ret == if kzalloc then 0 else -VectorList.ENOMEM
      ensures kzalloc ==> list.View() == Added(old(list.View()), old(vectorCount), name, addr, owner)
      ensures kzalloc ==>
        (list.View(), vectorCount) == Done(old(list.View()), old(vectorCount), Add(name, addr, owner))
      ensures !kzalloc ==> list.View() == old(list.View())
      ensures vectorCount == old(vectorCount) + if kzalloc then 1 else 0
    {
      ret := 0;
      if !kzalloc {
        ret := -VectorList.ENOMEM;
        return;
      }
      AddedDescends(list.View(), vectorCount, name, addr, owner);
      vectorCount := vectorCount + 1;
      Insert(name, vectorCount, addr, owner);
    }

    /** What cleanup_module does with one position, and where it looks next. */
    method CleanupOne(pos: VectorList.Vector, ghost i: nat) returns (next: VectorList.Vector, ghost i1: nat)
      requires list.Valid() && i < |list.vectors| && pos == list.vectors[i]
      modifies list`vectors, list`entries, list.head, list.vectors
      ensures list.Valid() && i1 <= |list.vectors| && next == VectorList.NodeAt(list.head, list.vectors, i1)
      ensures list.pins == old(list.pins) && (forall v | v in list.vectors :: v in old(list.vectors))
      ensures |list.entries| - i1 == old(|list.entries|) - i - 1
      ensures list.entries[..i1] + InUse(list.entries[i1..])
           == old(list.entries[..i] + InUse(list.entries[i..]))
    {
      assert VectorList.NodeAt(list.head, list.vectors, i).next == VectorList.NodeAt(list.head, list.vectors, i + 1);
      next := pos.next;
      InUseNext(list.entries, i);
      if pos.refcount == 0 {
        list.Delete(pos, i);
        i1 := i;
      } else {
        i1 := i + 1;
      }
    }

    /** list_for_each_safe, deleting what no reference holds. */
    method DeleteUnused()
      requires list.Valid()
      modifies list`vectors, list`entries, list.head, list.vectors
      ensures list.Valid() && list.View() == old(list.View()).(entries := InUse(old(list.entries)))
    {
      ghost var i: nat := 0;
      assert VectorList.NodeAt(list.head, list.vectors, -1).next == VectorList.NodeAt(list.head, list.vectors, 0);
      var pos := list.head.next;
      NotWalkedYet(list.entries);
      while pos != list.head
        invariant list.Valid() && i <= |list.vectors| && pos == VectorList.NodeAt(list.head, list.vectors, i)
        invariant list.pins == old(list.pins) && (forall v | v in list.vectors :: v in old(list.vectors))
        invariant list.entries[..i] + InUse(list.entries[i..]) == InUse(old(list.entries))
        decreases |list.entries| - i
      {
        assert forall k | 0 <= k < |list.vectors| :: list.vectors[k] in old(list.vectors);
        pos, i := CleanupOne(pos, i);
      }
      WalkedThrough(list.entries, i);
    }

    /** cleanup_module. */
    method CleanupModule()
      requires Valid()
      modifies list`vectors, list`entries, list.head, list.vectors
      ensures Valid()
      ensures list.View() == old(list.View()).(entries := InUse(old(list.entries)))
      ensures (list.View(), vectorCount) == Done(old(list.View()), vectorCount, Cleanup)
    {
      InUseDescends(list.entries, vectorCount);
      DeleteUnused();
    }

    /** remove_vector_address. */
    method RemoveVectorAddress(addr: nat) returns (ret: int)
      requires Valid()
      modifies list`vectors, list`entries, list.head, list.vectors
      ensures Valid()
      ensures (list.View(), ret) == Unregister(old(list.View()), addr)
      ensures (list.View(), vectorCount) == Done(old(list.View()), vectorCount, Remove(addr))
    {
      UnregisterDescends(list.View(), addr, vectorCount);
      ret := list.RemoveVectorAddress(addr);
    }

    /** get_vector_address. */
    method GetVectorAddress(name: string) returns (va: nat)
      requires Valid()
      modifies list`pins, list`entries, list.vectors
      ensures Valid()
      ensures (list.View(), va) == Acquire(old(list.View()), ByName(name))
      ensures (list.View(), vectorCount) == Done(old(list.View()), vectorCount, Get(name))
    {
      if Has(list.entries, ByName(name)) {
        BumpDescends(list.View(), Find(list.entries, ByName(name)), 1, vectorCount);
      }
      va := list.GetVectorAddress(name);
    }

    /** reduce_ref_count. */
    method ReduceRefCount(name: string) returns (refCnt: int)
      requires Valid()
      modifies list`pins, list`entries, list.vectors
      ensures Valid()
      ensures (list.View(), refCnt) == Release(old(list.View()), ByName(name))
      ensures (list.View(), vectorCount) == Done(old(list.View()), vectorCount, Reduce(name))
    {
      if Has(list.entries, ByName(name)) {
        BumpDescends(list.View(), Find(list.entries, ByName(name)), -1, vectorCount);
      }
      refCnt := list.Reduce(ByName(name));
    }
  }
}
