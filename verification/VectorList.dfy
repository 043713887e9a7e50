/** vec_load_unload.c on the heap: a circular doubly linked list with a sentinel, walked from the
    sentinel on. Every operation is proved against its function in Registry.dfy. */
module VectorList {
  import opened Registry
  import opened Text

  const MAX_BUFFER_SIZE: nat := 1024
  const ENOMEM: int := 12

  /** struct struct_vector; the sentinel vec_list_head is one too, with nothing in it. */
  class Vector {
    const name: string
    const id: nat
    const addr: nat
    const bitmap: nat
    const owner: nat
    var refcount: int
    var next: Vector
    var prev: Vector

    constructor (name: string, id: nat, addr: nat, owner: nat, bitmap: nat, refcount: int)
      ensures ToEntry() == Entry(name, id, addr, refcount, bitmap, owner)
      ensures next == this && prev == this
    {
      this.name, this.id, this.addr, this.bitmap, this.owner := name, id, addr, bitmap, owner;
      this.refcount := refcount;
      next, prev := this, this;
    }

    function ToEntry(): Entry
      reads this
    {
      Entry(name, id, addr, refcount, bitmap, owner)
    }
  }

  /** The k-th link of a list with this sentinel; on either side of the vectors is the sentinel. */
  ghost function NodeAt(head: Vector, vs: seq<Vector>, k: int): Vector {
    if 0 <= k < |vs| then vs[k] else head
  }

  /** The links of the sentinel and of every vector go round the list both ways. */
  ghost predicate Ring(head: Vector, vs: seq<Vector>)
    reads head, vs
  {
    && head !in vs
    && (forall i, j | 0 <= i < j < |vs| :: vs[i] != vs[j])
    && (forall k | -1 <= k < |vs| :: NodeAt(head, vs, k).next == NodeAt(head, vs, k + 1))
    && (forall k | -1 < k <= |vs| :: NodeAt(head, vs, k).prev == NodeAt(head, vs, k - 1))
  }

  /** Going forwards from the sentinel, or backwards, no link is passed twice. */
  lemma NodeAtInjective(head: Vector, vs: seq<Vector>, j: int, k: int)
    requires head !in vs && (forall i, j | 0 <= i < j < |vs| :: vs[i] != vs[j])
    requires (-1 <= j < |vs| && -1 <= k < |vs|) || (0 <= j <= |vs| && 0 <= k <= |vs|)
    ensures NodeAt(head, vs, j) == NodeAt(head, vs, k) ==> j == k
  {
  }

  lemma NodeAtRemoved(head: Vector, vs: seq<Vector>, i: nat, k: int)
    requires i < |vs|
    ensures NodeAt(head, vs[..i] + vs[i + 1..], k) == NodeAt(head, vs, if k < i then k else k + 1)
  {
  }

  lemma NodeAtPrepended(head: Vector, vs: seq<Vector>, v: Vector, k: int)
    requires k >= 0
    ensures NodeAt(head, [v] + vs, k) == if k == 0 then v else NodeAt(head, vs, k - 1)
  {
  }

  /** list_del. */
  method ListDel(ghost head: Vector, ghost vs: seq<Vector>, v: Vector, ghost i: nat)
    requires Ring(head, vs) && i < |vs| && v == vs[i]
    modifies v.prev`next, v.next`prev
    ensures Ring(head, vs[..i] + vs[i + 1..])
  {
    var (p, n) := (v.prev, v.next);
    assert NodeAt(head, vs, i).prev == NodeAt(head, vs, i - 1);
    assert NodeAt(head, vs, i).next == NodeAt(head, vs, i + 1);
    n.prev := p;
    p.next := n;
    ghost var vs1 := vs[..i] + vs[i + 1..];
    forall k | -1 <= k < |vs1| ensures NodeAt(head, vs1, k).next == NodeAt(head, vs1, k + 1) {
      NodeAtRemoved(head, vs, i, k);
      NodeAtRemoved(head, vs, i, k + 1);
      NodeAtInjective(head, vs, i - 1, if k < i then k else k + 1);
    }
    forall k | -1 < k <= |vs1| ensures NodeAt(head, vs1, k).prev == NodeAt(head, vs1, k - 1) {
      NodeAtRemoved(head, vs, i, k);
      NodeAtRemoved(head, vs, i, k - 1);
      NodeAtInjective(head, vs, i + 1, if k < i then k else k + 1);
    }
  }

  /** memcpy of a text to a place in a buffer. */
  method Memcpy(dst: array<char>, at: nat, text: string)
    requires at + |text| <= dst.Length
    modifies dst
    ensures dst[..] == old(dst[..at]) + text + old(dst[at + |text|..])
  {
    for i := 0 to |text|
      invariant dst[..at] == old(dst[..at]) && dst[at..at + i] == text[..i]
      invariant dst[at + i..] == old(dst[at + i..])
    {
      dst[at + i] := text[i];
    }
  }

  /** One line: a text and a line break, at current_ptr. */
  method PutLine(dst: array<char>, at: nat, text: string) returns (after: nat)
    requires at + |text| + 1 <= dst.Length
    modifies dst
    ensures after == at + |text| + 1
    ensures dst[..after] == old(dst[..at]) + text + LF && dst[after..] == old(dst[after..])
  {
    Memcpy(dst, at, text);
    dst[at + |text|] := '\n';
    after := at + |text| + 1;
  }

  /** The line of a number, by way of an array of eight characters. */
  method PutNumber(dst: array<char>, at: nat, n: nat) returns (after: nat)
    requires |Decimal(n)| < 8 && at + |Decimal(n)| + 1 <= dst.Length
    modifies dst
    ensures after == at + |Decimal(n)| + 1
    ensures dst[..after] == old(dst[..at]) + Decimal(n) + LF && dst[after..] == old(dst[after..])
  {
    var temp := new char[8](_ => '\0');
    Memcpy(temp, 0, Decimal(n));
    after := PutLine(dst, at, temp[..|Decimal(n)|]);
  }

  /** The three lines of one entry; the numbers go through an array of eight characters. */
  method PutRecord(dst: array<char>, at: nat, v: Vector) returns (after: nat)
    requires at + |Record(v.ToEntry())| <= dst.Length
    requires NumberFits(v.ToEntry())
    modifies dst
    ensures after == at + |Record(v.ToEntry())|
    ensures dst[..after] == old(dst[..at]) + Record(v.ToEntry()) && dst[after..] == old(dst[after..])
  {
    after := PutLine(dst, at, v.name);
    after := PutNumber(dst, after, v.id);
    after := PutNumber(dst, after, v.bitmap);
  }

  class VectorList {
    const head: Vector
    var pins: map<nat, int>
    ghost var vectors: seq<Vector>
    ghost var entries: seq<Entry>

    ghost predicate Valid()
      reads this, head, vectors
    {
      && Ring(head, vectors)
      && |entries| == |vectors|
      && (forall i | 0 <= i < |vectors| :: vectors[i].ToEntry() == entries[i])
    }

    /** What the list holds. */
    ghost function View(): Table
      reads this
    {
      Table(entries, pins)
    }

    constructor (pins: map<nat, int>)
      ensures Valid() && View() == Table([], pins) && fresh(head)
    {
      head := new Vector("", 0, 0, 0, 0, 0);
      this.pins := pins;
      vectors, entries := [], [];
    }

    /** list_for_each_entry up to the first match; the sentinel if there is none. */
    method Walk(k: Key) returns (v: Vector, flag: bool)
      requires Valid()
      ensures flag == Has(entries, k)
      ensures v == if flag then vectors[Find(entries, k)] else head
    {
      assert NodeAt(head, vectors, -1).next == NodeAt(head, vectors, 0);
      v := head.next;
      flag := false;
      ghost var i := 0;
      while v != head
        invariant 0 <= i <= |vectors|
        invariant v == NodeAt(head, vectors, i)
        invariant forall j | 0 <= j < i :: !Matches(entries[j], k)
        invariant !flag
        decreases |vectors| - i
      {
        if Matches(v.ToEntry(), k) {
          flag := true;
          FindUnique(entries, k, i);
          break;
        }
        assert NodeAt(head, vectors, i).next == NodeAt(head, vectors, i + 1);
        v := v.next;
        i := i + 1;
      }
    }

    /** try_module_get and module_put on the vector's module. */
    method PinModule(m: nat, d: int)
      modifies this`pins
      ensures pins == Pin(old(pins), m, d)
    {
      if m in pins {
        pins := pins[m := pins[m] + d];
      }
    }

    /** refcount and module pins go up or down together. */
    method Count(v: Vector, ghost i: nat, d: int)
      requires Valid() && i < |vectors| && v == vectors[i]
      modifies this`pins, this`entries, v`refcount
      ensures Valid() && View() == Bump(old(View()), i, d)
    {
      v.refcount := v.refcount + d;
      entries := entries[i := v.ToEntry()];
      PinModule(v.owner, d);
    }

    /** get_vector_address, get_vector_address_from_id and check_any_current_vector: the same walk
        with another key, then one more reference on what was found. */
    method Get(k: Key) returns (va: nat)
      requires Valid()
      modifies this`pins, this`entries, vectors
      ensures Valid() && vectors == old(vectors)
      ensures (View(), va) == Acquire(old(View()), k)
    {
      va := 0;
      var v, flag := Walk(k);
      if flag {
        Count(v, Find(entries, k), 1);
        va := v.addr;
      }
    }

    method GetVectorAddress(name: string) returns (va: nat)
      requires Valid()
      modifies this`pins, this`entries, vectors
      ensures Valid() && vectors == old(vectors)
      ensures (View(), va) == Acquire(old(View()), ByName(name))
    {
      va := Get(ByName(name));
    }

    method GetVectorAddressFromId(bitmap: nat) returns (va: nat)
      requires Valid()
      modifies this`pins, this`entries, vectors
      ensures Valid() && vectors == old(vectors)
      ensures (View(), va) == Acquire(old(View()), ByBitmap(bitmap))
    {
      va := Get(ByBitmap(bitmap));
    }

    method IncrementRefCountFromAddress(addr: nat) returns (ret: int)
      requires Valid()
      modifies this`pins, this`entries, vectors
      ensures Valid() && vectors == old(vectors)
      ensures View() == Acquire(old(View()), ByAddr(addr)).0
      ensures ret == if Has(old(View()).entries, ByAddr(addr)) then 0 else -1
    {
      ret := -1;
      var v, flag := Walk(ByAddr(addr));
      if flag {
        ret := 0;
        Count(v, Find(entries, ByAddr(addr)), 1);
      }
    }

    /** reduce_ref_count and reduce_ref_count_from_address. */
    method Reduce(k: Key) returns (refCnt: int)
      requires Valid()
      modifies this`pins, this`entries, vectors
      ensures Valid() && vectors == old(vectors)
      ensures (View(), refCnt) == Release(old(View()), k)
    {
      refCnt := -1;
      var v, flag := Walk(k);
      if flag {
        Count(v, Find(entries, k), -1);
        refCnt := v.refcount;
      }
    }

    /** add_vector_address, with refcount 0, and add_dynamic_vector_address, with refcount 1. The
        allocation can fail. */
    method AddVectorAddress(name: string, addr: nat, owner: nat, bitmap: nat, refcount: int, kzalloc: bool)
      returns (ret: int)
      requires Valid()
      modifies this`vectors, this`entries, head, vectors
      ensures Valid() && pins == old(pins)
      ensures ret == if kzalloc then 0 else -ENOMEM
      ensures View() == if kzalloc then Register(old(View()), name, addr, owner, bitmap, refcount) else old(View())
      ensures forall v | v in vectors :: v in old(vectors) || fresh(v)
    {
      ret := 0;
      if !kzalloc {
        ret := -ENOMEM;
        return;
      }
      var va := new Vector(name, bitmap, addr, owner, bitmap, refcount);
      ListAdd(va);
    }

    /** list_add. */
    method ListAdd(va: Vector)
      requires Valid() && va != head && va !in vectors
      modifies this`vectors, this`entries, va`next, va`prev, head, vectors
      ensures Valid()
      ensures vectors == [va] + old(vectors) && entries == [va.ToEntry()] + old(entries)
      ensures va.ToEntry() == old(va.ToEntry())
      ensures forall v | v in old(vectors) :: v.ToEntry() == old(v.ToEntry())
    {
      ghost var vs := vectors;
      assert NodeAt(head, vs, -1) == head && NodeAt(head, vs, 0) == head.next;
      va.next := head.next;
      va.prev := head;
      head.next.prev := va;
      head.next := va;
      vectors, entries := [va] + vectors, [va.ToEntry()] + entries;
      forall k | -1 <= k < |vectors| ensures NodeAt(head, vectors, k).next == NodeAt(head, vectors, k + 1) {
        NodeAtPrepended(head, vs, va, k + 1);
        if k >= 0 {
          NodeAtPrepended(head, vs, va, k);
          NodeAtInjective(head, vs, -1, k - 1);
        }
      }
      forall k | -1 < k <= |vectors| ensures NodeAt(head, vectors, k).prev == NodeAt(head, vectors, k - 1) {
        NodeAtPrepended(head, vs, va, k);
        if k > 0 {
          NodeAtPrepended(head, vs, va, k - 1);
          NodeAtInjective(head, vs, 0, k - 1);
        }
      }
    }

    /** list_del of a vector of this list. */
    method Delete(v: Vector, ghost i: nat)
      requires Valid() && i < |vectors| && v == vectors[i]
      modifies this`vectors, this`entries, head, vectors
      ensures Valid()
      ensures vectors == old(vectors[..i] + vectors[i + 1..]) && entries == old(entries[..i] + entries[i + 1..])
    {
      assert NodeAt(head, vectors, i) == v;
      assert v.prev == NodeAt(head, vectors, i - 1) && v.next == NodeAt(head, vectors, i + 1);
      ListDel(head, vectors, v, i);
      vectors, entries := vectors[..i] + vectors[i + 1..], entries[..i] + entries[i + 1..];
    }

    /** remove_vector_address. */
    method RemoveVectorAddress(addr: nat) returns (ret: int)
      requires Valid()
      modifies this`vectors, this`entries, head, vectors
      ensures Valid() && pins == old(pins)
      ensures (View(), ret) == Unregister(old(View()), addr)
      ensures forall v | v in vectors :: v in old(vectors)
    {
      ret := 0;
      var tmp, flag := Walk(ByAddr(addr));
      if flag {
        if tmp.refcount > 0 {
          ret := IN_USE;
          return;
        }
        ghost var i: nat := Find(entries, ByAddr(addr));
        Delete(tmp, i);
      } else {
        ret := -EFAULT;
      }
    }

    /** The loop of show_all_vectors, which fills a buffer of its own. */
    method PrintAll(buffer: array<char>) returns (ret: nat)
      requires Valid() && NumbersFit(entries)
      requires |Listing(entries)| <= MAX_BUFFER_SIZE == buffer.Length
      modifies buffer
      ensures ret == |Listing(entries)| && buffer[..ret] == Listing(entries)
    {
      ret := 0;
      ghost var i := 0;
      assert NodeAt(head, vectors, -1).next == NodeAt(head, vectors, 0);
      var v := head.next;
      while v != head
        invariant 0 <= i <= |vectors| && v == NodeAt(head, vectors, i)
        invariant ret == |Listing(entries[..i])| <= MAX_BUFFER_SIZE && buffer[..ret] == Listing(entries[..i])
        decreases |vectors| - i
      {
        if ret > MAX_BUFFER_SIZE {
          break;
        }
        ListingNext(entries, i);
        ret := PutRecord(buffer, ret, v);
        assert NodeAt(head, vectors, i).next == NodeAt(head, vectors, i + 1);
        v := v.next;
        i := i + 1;
      }
      assert entries[..i] == entries;
    }

    /** show_all_vectors. The text must fit both buffers, and each number an array of eight. */
    method ShowAllVectors(user: array<char>) returns (ret: nat)
      requires Valid() && NumbersFit(entries)
      requires |Listing(entries)| <= user.Length && |Listing(entries)| <= MAX_BUFFER_SIZE
      modifies user
      ensures ret == |Listing(entries)|
      ensures user[..] == Listing(entries) + old(user[ret..])
    {
      var buffer := new char[MAX_BUFFER_SIZE](_ => '\0');
      ret := PrintAll(buffer);
      Memcpy(user, 0, buffer[..ret]);
    }

    /** show_my_vector: what it leaves in a buffer, and how long a record it wrote. */
    method ShowMyVector(user: array?<char>, vec: nat) returns (ret: int)
      requires Valid() && MineFits(entries, vec)
      requires user != null ==> |Mine(entries, vec)| <= user.Length
      modifies user
      ensures user == null ==> ret == -EFAULT
      ensures user != null ==>
        && user[..] == Mine(entries, vec) + old(user[|Mine(entries, vec)|..])
        && ret == if vec == 0 then 0 else |Mine(entries, vec)|
    {
      ret := 0;
      if user == null {
        ret := -EFAULT;
        return;
      }
      if vec == 0 {
        Memcpy(user, 0, UNASSIGNED);
        return;
      }
      var v, flag := Walk(ByAddr(vec));
      if !flag {
        return;
      }
      assert entries[Find(entries, ByAddr(vec))] == v.ToEntry();
      ret := PutRecord(user, 0, v);
    }
  }
}
