/** What the vector registry of vec_load_unload.c holds and what each of its operations does to it,
    as functions on values. The heap class in VectorList.dfy is proved against these functions. */
module Registry {

  /** A registered vector: struct struct_vector without its list links. The address is that of the
      first node of the override list; 0 is NULL. The owner is the module that registered it. */
  datatype Entry = Entry(name: string, id: nat, addr: nat, refcount: int, bitmap: nat, owner: nat)

  /** The list, head first, and the pin count of every module that can still be pinned. */
  datatype Table = Table(entries: seq<Entry>, pins: map<nat, int>)

  datatype Key = ByName(name: string) | ByBitmap(bitmap: nat) | ByAddr(addr: nat)

  const EFAULT: int := 14
  const IN_USE: int := -2222

  predicate Matches(e: Entry, k: Key) {
    match k
    case ByName(n) => e.name == n
    case ByBitmap(b) => e.bitmap == b
    case ByAddr(a) => e.addr == a
  }

  /** The position of the first match, or the length of the list. */
  function Find(es: seq<Entry>, k: Key): (i: nat)
    ensures i <= |es|
    ensures i < |es| ==> Matches(es[i], k)
    ensures forall j | 0 <= j < i :: !Matches(es[j], k)
  {
    if es == [] || Matches(es[0], k) then 0 else 1 + Find(es[1..], k)
  }

  predicate Has(es: seq<Entry>, k: Key) {
    Find(es, k) < |es|
  }

  /** try_module_get and module_put: a module that is being unloaded cannot be pinned. */
  function Pin(pins: map<nat, int>, m: nat, d: int): map<nat, int> {
    if m in pins then pins[m := pins[m] + d] else pins
  }

  /** Changes the refcount of entry i and the pin count of its module by d. */
  function Bump(r: Table, i: nat, d: int): Table
    requires i < |r.entries|
  {
    var e := r.entries[i];
    Table(r.entries[i := e.(refcount := e.refcount + d)], Pin(r.pins, e.owner, d))
  }

  /** Takes a reference on the first match; the address is 0 when there is none. */
  function Acquire(r: Table, k: Key): (Table, nat) {
    var i := Find(r.entries, k);
    if i < |r.entries| then (Bump(r, i, 1), r.entries[i].addr) else (r, 0)
  }

  /** Drops a reference on the first match and returns the count left, or -1. */
  function Release(r: Table, k: Key): (Table, int) {
    var i := Find(r.entries, k);
    if i < |r.entries| then (Bump(r, i, -1), r.entries[i].refcount - 1) else (r, -1)
  }

  /** Puts a new entry at the head; its id is its bitmap. */
  function Register(r: Table, name: string, addr: nat, owner: nat, bitmap: nat, refcount: int): Table {
    r.(entries := [Entry(name, bitmap, addr, refcount, bitmap, owner)] + r.entries)
  }

  /** Takes out the first entry with this address unless it is referenced. */
  function Unregister(r: Table, addr: nat): (Table, int) {
    var i := Find(r.entries, ByAddr(addr));
    if i == |r.entries| then (r, -EFAULT)
    else if r.entries[i].refcount > 0 then (r, IN_USE)
    else (r.(entries := r.entries[..i] + r.entries[i + 1..]), 0)
  }

  predicate DistinctAddresses(es: seq<Entry>) {
    forall i, j | 0 <= i < j < |es| :: es[i].addr != es[j].addr
  }

  lemma FindUnique(es: seq<Entry>, k: Key, i: nat)
    requires i < |es| && Matches(es[i], k)
    requires forall j | 0 <= j < i :: !Matches(es[j], k)
    ensures Find(es, k) == i
  {
    assert Find(es, k) <= i;
  }

  lemma {:induction false} FindAfterUpdate(es: seq<Entry>, k: Key, i: nat, e: Entry)
    requires i < |es|
    requires Matches(e, k) == Matches(es[i], k)
    ensures Find(es[i := e], k) == Find(es, k)
  {
    var f := Find(es, k);
    if f < |es| {
      FindUnique(es[i := e], k, f);
    } else {
      var es1 := es[i := e];
      assert forall j | 0 <= j < |es1| :: !Matches(es1[j], k);
    }
  }

  /** The same vectors and modules, but that entry i and the pins of its module have changed by d. */
  predicate Moved(r: Table, r1: Table, i: nat, d: int)
    requires i < |r.entries|
  {
    var m := r.entries[i].owner;
    && |r1.entries| == |r.entries|
    && (forall j | 0 <= j < |r.entries| && j != i :: r1.entries[j] == r.entries[j])
    && r1.entries[i].refcount == r.entries[i].refcount + d
    && r1.entries[i] == Entry(r.entries[i].name, r.entries[i].id, r.entries[i].addr, r1.entries[i].refcount,
                              r.entries[i].bitmap, m)
    && r1.pins.Keys == r.pins.Keys
    && (forall k | k in r.pins :: r1.pins[k] == r.pins[k] + if k == m then d else 0)
  }

  /** A search that succeeds takes one reference and one pin, and answers the vector's address. */
  lemma AcquireExact(r: Table, k: Key)
    ensures var (r1, a) := Acquire(r, k); var i := Find(r.entries, k);
      if i < |r.entries| then a == r.entries[i].addr && Moved(r, r1, i, 1) else a == 0 && r1 == r
  {
    var i := Find(r.entries, k);
    if i < |r.entries| {
      assert Moved(r, Bump(r, i, 1), i, 1);
    }
  }

  /** A release gives one of each back and answers how many references are left. */
  lemma ReleaseExact(r: Table, k: Key)
    ensures var (r1, left) := Release(r, k); var i := Find(r.entries, k);
      if i < |r.entries|
      then left == r1.entries[i].refcount == r.entries[i].refcount - 1 && Moved(r, r1, i, -1)
      else left == -1 && r1 == r
  {
    var i := Find(r.entries, k);
    if i < |r.entries| {
      assert Moved(r, Bump(r, i, -1), i, -1);
    }
  }

  /** A new vector is what every search for its name, its bitmap or its address finds; its id is its bitmap, and
      older vectors and the pins stay as they are. */
  lemma RegisterExact(r: Table, name: string, addr: nat, owner: nat, bitmap: nat, refcount: int)
    ensures var r1 := Register(r, name, addr, owner, bitmap, refcount); var e := r1.entries[0];
      && Find(r1.entries, ByName(name)) == Find(r1.entries, ByBitmap(bitmap)) == Find(r1.entries, ByAddr(addr)) == 0
      && e.id == e.bitmap == bitmap && e.refcount == refcount && e.owner == owner
      && e.name == name && e.addr == addr
      && r1.entries[1..] == r.entries && r1.pins == r.pins
  {
    var r1 := Register(r, name, addr, owner, bitmap, refcount);
    assert Matches(r1.entries[0], ByName(name)) && Matches(r1.entries[0], ByAddr(addr));
  }

  /** A registration is undone by unregistering its address, so the entries it hid, such as an older
      vector of the same name, are found again. This needs no fresh address: the new entry is first. */
  lemma RegisterThenUnregister(r: Table, name: string, addr: nat, owner: nat, bitmap: nat)
    ensures Unregister(Register(r, name, addr, owner, bitmap, 0), addr) == (r, 0)
    ensures Find(Register(r, name, addr, owner, bitmap, 0).entries, ByName(name)) == 0
  {
    var r1 := Register(r, name, addr, owner, bitmap, 0);
    assert r1.entries[0].addr == addr;
    assert r1.entries[..0] + r1.entries[1..] == r.entries;
  }

  /** Releasing by address what was acquired by any key restores the registry and every pin count
      exactly when the acquired entry is the first one with its address. */
  lemma AcquireThenRelease(r: Table, k: Key)
    requires Has(r.entries, k)
    ensures var i := Find(r.entries, k);
      var (r1, a) := Acquire(r, k);
      && a == r.entries[i].addr
      && (Release(r1, ByAddr(a)).0 == r <==> Find(r.entries, ByAddr(a)) == i)
  {
    var i := Find(r.entries, k);
    var e := r.entries[i];
    var (r1, a) := Acquire(r, k);
    FindAfterUpdate(r.entries, ByAddr(a), i, e.(refcount := e.refcount + 1));
    var j := Find(r.entries, ByAddr(a));
    FindUnique(r1.entries, ByAddr(a), j);
    var r2 := Release(r1, ByAddr(a)).0;
    if j == i {
      assert r2.entries == r.entries;
      assert r2.pins == r.pins;
    } else {
      assert r2.entries[i] == r1.entries[i];
      assert r2.entries[i].refcount != r.entries[i].refcount;
    }
  }

  /** With distinct addresses the two are always inverse. */
  lemma AcquireReleaseInverse(r: Table, k: Key)
    requires DistinctAddresses(r.entries)
    ensures Has(r.entries, k) ==> Release(Acquire(r, k).0, ByAddr(Acquire(r, k).1)).0 == r
    ensures !Has(r.entries, k) ==> Acquire(r, k) == (r, 0)
  {
    if Has(r.entries, k) {
      var i := Find(r.entries, k);
      FindUnique(r.entries, ByAddr(r.entries[i].addr), i);
      AcquireThenRelease(r, k);
    }
  }

  /** An unregistration removes exactly one entry and only an unreferenced one; the three results
      tell the three cases apart. */
  lemma UnregisterCases(r: Table, addr: nat)
    ensures var (r1, ret) := Unregister(r, addr);
      && r1.pins == r.pins
      && (ret == 0 <==> exists i | 0 <= i < |r.entries| ::
            && r.entries[i].addr == addr && r.entries[i].refcount <= 0
            && (forall j | 0 <= j < i :: r.entries[j].addr != addr)
            && r1.entries == r.entries[..i] + r.entries[i + 1..])
      && (ret == -14 <==> forall e | e in r.entries :: e.addr != addr)
      && (ret != 0 ==> r1 == r)
      && (ret == 0 || ret == -2222 || ret == -14)
  {
    var es := r.entries;
    var i := Find(es, ByAddr(addr));
    forall j | 0 <= j < i ensures es[j].addr != addr {
      assert !Matches(es[j], ByAddr(addr));
    }
    if i == |es| {
      assert Unregister(r, addr) == (r, -14);
    } else if es[i].refcount <= 0 {
      assert Unregister(r, addr) == (r.(entries := es[..i] + es[i + 1..]), 0);
      assert es[i] in es;
    } else {
      assert Unregister(r, addr) == (r, -2222);
      assert es[i] in es;
    }
  }
}
