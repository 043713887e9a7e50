/** dynamic_vector.c: building a vector for a bitmap, remembering its list, and taking everything
    down when the module goes. */
module DynamicModule {
  import opened Registry
  import opened Text
  import opened Bitmap
  import opened OverrideList
  import opened Ledger
  import Fork
  import VectorList

  const MAX_LISTS: nat := 256

  // ---- What the cleanup loop does to the registry

  /** unregister_syscall of one address after the other, whatever it answers. */
  function Swept(r: Table, addrs: seq<nat>): Table
    decreases addrs
  {
    if addrs == [] then r else Swept(Unregister(r, addrs[0]).0, addrs[1..])
  }

  function HeadAddrs(lists: seq<seq<Node>>): seq<nat> {
    if lists == [] then [] else [HeadAddr(lists[0])] + HeadAddrs(lists[1..])
  }

  lemma {:induction false} HeadAddrsSnoc(lists: seq<seq<Node>>, more: seq<Node>)
    ensures HeadAddrs(lists + [more]) == HeadAddrs(lists) + [HeadAddr(more)]
  {
    if lists == [] {
      assert ([] + [more])[1..] == [];
    } else {
      HeadAddrsSnoc(lists[1..], more);
      assert (lists + [more])[1..] == lists[1..] + [more];
    }
  }

  /** How many vectors module m has at an address. */
  function CountAt(es: seq<Entry>, m: nat, a: nat): nat {
    if es == [] then 0 else (if es[0].owner == m && es[0].addr == a then 1 else 0) + CountAt(es[1..], m, a)
  }

  /** What is left of a list when module m has gone and the vectors at some addresses are stuck: those of
      others; those in use; and those behind one in use at the same address, since unregister_syscall
      looks no further than the first. */
  function Left(es: seq<Entry>, m: nat, stuck: set<nat>): seq<Entry> {
    if es == [] then []
    else if es[0].owner == m && es[0].refcount <= 0 && es[0].addr !in stuck then Left(es[1..], m, stuck)
    else [es[0]] + Left(es[1..], m, if es[0].owner == m && es[0].refcount > 0 then stuck + {es[0].addr} else stuck)
  }

  function Survivors(es: seq<Entry>, m: nat): seq<Entry> {
    Left(es, m, {})
  }

  /** The first vector at this address is in use. */
  predicate InUse(es: seq<Entry>, a: nat) {
    var i := Find(es, ByAddr(a));
    i < |es| && es[i].refcount > 0
  }

  /** Each of the addresses is given at least as often as module m has a vector there, or is stuck. */
  ghost predicate Enough(es: seq<Entry>, m: nat, addrs: seq<nat>) {
    forall a | a in addrs :: CountAt(es, m, a) <= multiset(addrs)[a] || InUse(es, a)
  }

  /** Every unused vector of module m is at one of the addresses, or its address is stuck. */
  ghost predicate NoneMissing(es: seq<Entry>, m: nat, addrs: seq<nat>) {
    forall e | e in es && e.owner == m && e.refcount <= 0 && e.addr !in addrs :: InUse(es, e.addr)
  }

  /** Nobody else has a vector at one of the addresses or where m has one. */
  ghost predicate Apart(es: seq<Entry>, m: nat, addrs: seq<nat>) {
    && (forall e | e in es && e.owner != m :: e.addr !in addrs)
    && (forall e, f | e in es && f in es && e.owner == m && f.owner != m :: e.addr != f.addr)
  }

  ghost predicate Tracks(es: seq<Entry>, m: nat, addrs: seq<nat>) {
    Enough(es, m, addrs) && NoneMissing(es, m, addrs) && Apart(es, m, addrs)
  }

  lemma {:induction false} CountAtRemoved(es: seq<Entry>, i: nat, m: nat, a: nat)
    requires i < |es|
    ensures CountAt(es[..i] + es[i + 1..], m, a)
         == CountAt(es, m, a) - if es[i].owner == m && es[i].addr == a then 1 else 0
  {
    var rest := es[..i] + es[i + 1..];
    if i == 0 {
      assert rest == es[1..];
    } else {
      CountAtRemoved(es[1..], i - 1, m, a);
      assert rest[1..] == es[1..][..i - 1] + es[1..][i..];
    }
  }

  lemma {:induction false} CountAtBumped(es: seq<Entry>, i: nat, count: int, m: nat, a: nat)
    requires i < |es|
    ensures CountAt(es[i := es[i].(refcount := count)], m, a) == CountAt(es, m, a)
  {
    if i > 0 {
      assert es[i := es[i].(refcount := count)][1..] == es[1..][i - 1 := es[i].(refcount := count)];
      CountAtBumped(es[1..], i - 1, count, m, a);
    } else {
      assert es[0 := es[0].(refcount := count)][1..] == es[1..];
    }
  }

  lemma {:induction false} CountAtPositive(es: seq<Entry>, m: nat, a: nat)
    ensures CountAt(es, m, a) > 0 <==> exists e :: e in es && e.owner == m && e.addr == a
  {
    if es != [] {
      CountAtPositive(es[1..], m, a);
      assert es == [es[0]] + es[1..];
    }
  }

  /** The first vector at its address goes, if it is not in use, and nothing else changes. */
  lemma {:induction false} LeftRemoved(es: seq<Entry>, i: nat, m: nat, stuck: set<nat>)
    requires i < |es| && es[i].owner == m && es[i].refcount <= 0 && es[i].addr !in stuck
    requires forall j | 0 <= j < i :: es[j].addr != es[i].addr
    ensures Left(es[..i] + es[i + 1..], m, stuck) == Left(es, m, stuck)
  {
    var rest := es[..i] + es[i + 1..];
    if i == 0 {
      assert rest == es[1..];
    } else {
      LeftRemoved(es[1..], i - 1, m, if es[0].owner == m && es[0].refcount > 0 then stuck + {es[0].addr} else stuck);
      assert rest[1..] == es[1..][..i - 1] + es[1..][i..];
    }
  }

  /** An unused vector is stuck if one in use is before it. */
  predicate Behind(es: seq<Entry>, m: nat, j: nat)
    requires j < |es|
  {
    exists k :: 0 <= k < j && es[k].owner == m && es[k].refcount > 0 && es[k].addr == es[j].addr
  }

  lemma {:induction false} NothingGoes(es: seq<Entry>, m: nat, stuck: set<nat>)
    requires forall j | 0 <= j < |es| && es[j].owner == m && es[j].refcount <= 0 ::
        es[j].addr in stuck || Behind(es, m, j)
    ensures Left(es, m, stuck) == es
  {
    if es != [] {
      var rest := es[1..];
      var stuck1 := if es[0].owner == m && es[0].refcount > 0 then stuck + {es[0].addr} else stuck;
      forall j | 0 <= j < |rest| && rest[j].owner == m && rest[j].refcount <= 0
        ensures rest[j].addr in stuck1 || Behind(rest, m, j)
      {
        assert rest[j] == es[j + 1];
        if es[j + 1].addr !in stuck {
          var k :| 0 <= k < j + 1 && es[k].owner == m && es[k].refcount > 0 && es[k].addr == es[j + 1].addr;
          if k > 0 {
            assert rest[k - 1] == es[k];
          }
        }
      }
      NothingGoes(rest, m, stuck1);
      assert es == [es[0]] + rest;
    }
  }

  lemma WithoutOne(es: seq<Entry>, i: nat)
    requires i < |es|
    ensures forall e | e in es[..i] + es[i + 1..] :: e in es
    ensures forall e | e in es && e != es[i] :: e in es[..i] + es[i + 1..]
  {
    var rest := es[..i] + es[i + 1..];
    forall e | e in es && e != es[i] ensures e in rest {
      var k :| 0 <= k < |es| && es[k] == e;
      assert rest[if k < i then k else k - 1] == e;
    }
  }

  lemma InUseRemoved(es: seq<Entry>, i: nat, b: nat)
    requires i < |es| && es[i].addr != b
    ensures InUse(es[..i] + es[i + 1..], b) == InUse(es, b)
  {
    var (rest, k) := (es[..i] + es[i + 1..], Find(es, ByAddr(b)));
    assert forall j | 0 <= j < |rest| :: rest[j] == es[if j < i then j else j + 1];
    if k < |es| {
      FindUnique(rest, ByAddr(b), if k < i then k else k - 1);
    } else {
      assert forall j | 0 <= j < |rest| :: !Matches(rest[j], ByAddr(b));
    }
  }

  /** One address and one vector at it less. */
  lemma SweepEnough(es: seq<Entry>, m: nat, addrs: seq<nat>, i: nat)
    requires addrs != [] && Enough(es, m, addrs)
    requires i == Find(es, ByAddr(addrs[0])) < |es| && es[i].refcount <= 0 && es[i].owner == m
    ensures Enough(es[..i] + es[i + 1..], m, addrs[1..])
  {
    var (later, rest) := (addrs[1..], es[..i] + es[i + 1..]);
    assert addrs == [addrs[0]] + later;
    forall b | b in later ensures CountAt(rest, m, b) <= multiset(later)[b] || InUse(rest, b) {
      CountAtRemoved(es, i, m, b);
      if b != addrs[0] {
        InUseRemoved(es, i, b);
      }
    }
  }

  /** An address that does not come again was the address of one vector at most. */
  lemma SweepLast(es: seq<Entry>, m: nat, addrs: seq<nat>, i: nat)
    requires addrs != [] && Enough(es, m, addrs) && addrs[0] !in addrs[1..]
    requires i == Find(es, ByAddr(addrs[0])) < |es| && es[i].refcount <= 0 && es[i].owner == m
    ensures CountAt(es[..i] + es[i + 1..], m, addrs[0]) == 0
  {
    assert addrs == [addrs[0]] + addrs[1..];
    assert addrs[0] in addrs;
    CountAtRemoved(es, i, m, addrs[0]);
  }

  lemma SweepUnused(es: seq<Entry>, m: nat, addrs: seq<nat>, i: nat, e: Entry)
    requires addrs != [] && Enough(es, m, addrs) && NoneMissing(es, m, addrs)
    requires i == Find(es, ByAddr(addrs[0])) < |es| && es[i].refcount <= 0 && es[i].owner == m
    requires e in es[..i] + es[i + 1..] && e.owner == m && e.refcount <= 0 && e.addr !in addrs[1..]
    ensures InUse(es[..i] + es[i + 1..], e.addr)
  {
    WithoutOne(es, i);
    if e.addr != addrs[0] {
      assert addrs == [addrs[0]] + addrs[1..];
      InUseRemoved(es, i, e.addr);
    } else {
      SweepLast(es, m, addrs, i);
      CountAtPositive(es[..i] + es[i + 1..], m, e.addr);
    }
  }

  lemma SweepApart(es: seq<Entry>, m: nat, addrs: seq<nat>, i: nat)
    requires addrs != [] && Apart(es, m, addrs) && i < |es|
    ensures Apart(es[..i] + es[i + 1..], m, addrs[1..])
    ensures es[i].addr == addrs[0] ==> es[i].owner == m
  {
    assert addrs == [addrs[0]] + addrs[1..];
    assert es[i] in es;
    WithoutOne(es, i);
  }

  lemma SweepRemoves(es: seq<Entry>, m: nat, addrs: seq<nat>, i: nat)
    requires addrs != [] && Tracks(es, m, addrs)
    requires i == Find(es, ByAddr(addrs[0])) < |es| && es[i].refcount <= 0
    ensures es[i].owner == m && Tracks(es[..i] + es[i + 1..], m, addrs[1..])
  {
    SweepApart(es, m, addrs, i);
    SweepEnough(es, m, addrs, i);
    var (later, rest) := (addrs[1..], es[..i] + es[i + 1..]);
    forall e | e in rest && e.owner == m && e.refcount <= 0 && e.addr !in later ensures InUse(rest, e.addr) {
      SweepUnused(es, m, addrs, i, e);
    }
  }

  lemma SweepLeaves(es: seq<Entry>, m: nat, addrs: seq<nat>)
    requires addrs != [] && Tracks(es, m, addrs) && (Has(es, ByAddr(addrs[0])) ==> InUse(es, addrs[0]))
    ensures Tracks(es, m, addrs[1..])
  {
    var a := addrs[0];
    assert addrs == [a] + addrs[1..];
    CountAtPositive(es, m, a);
    if !Has(es, ByAddr(a)) {
      forall e | e in es ensures e.addr != a {
        var k :| 0 <= k < |es| && es[k] == e;
        assert !Matches(es[k], ByAddr(a));
      }
    }
  }

  lemma SweepEnds(es: seq<Entry>, m: nat)
    requires Tracks(es, m, [])
    ensures Survivors(es, m) == es
  {
    forall j | 0 <= j < |es| && es[j].owner == m && es[j].refcount <= 0 ensures Behind(es, m, j) {
      assert es[j] in es && InUse(es, es[j].addr);
      var k := Find(es, ByAddr(es[j].addr));
      assert k <= j && es[k] in es;
    }
    NothingGoes(es, m, {});
  }

  /** Sweeping over all addresses leaves exactly the survivors, in order: none of the module's own if and
      only if no refcount is positive. */
  lemma SweepExact(r: Table, m: nat, addrs: seq<nat>)
    requires Tracks(r.entries, m, addrs)
    ensures Swept(r, addrs) == r.(entries := Survivors(r.entries, m))
    ensures (forall e | e in Swept(r, addrs).entries :: e.owner != m)
       <==> (forall e | e in r.entries && e.owner == m :: e.refcount <= 0)
  {
    SurvivorsExact(r.entries, m);
    SweepIs(r, m, addrs);
  }

  /** One unregistration: the rest of the addresses leads to the same survivors. */
  lemma SweepFirst(r: Table, m: nat, addrs: seq<nat>)
    requires addrs != [] && Tracks(r.entries, m, addrs)
    ensures var r1 := Unregister(r, addrs[0]).0;
      && r1.pins == r.pins && Tracks(r1.entries, m, addrs[1..])
      && Survivors(r1.entries, m) == Survivors(r.entries, m)
  {
    var (es, i) := (r.entries, Find(r.entries, ByAddr(addrs[0])));
    if i < |es| && es[i].refcount <= 0 {
      SweepGoes(es, m, addrs, i);
      assert Unregister(r, addrs[0]).0 == r.(entries := es[..i] + es[i + 1..]);
    } else {
      assert Has(es, ByAddr(addrs[0])) ==> InUse(es, addrs[0]);
      assert Unregister(r, addrs[0]).0 == r;
      SweepLeaves(es, m, addrs);
    }
  }

  lemma SweepGoes(es: seq<Entry>, m: nat, addrs: seq<nat>, i: nat)
    requires addrs != [] && Tracks(es, m, addrs)
    requires i == Find(es, ByAddr(addrs[0])) < |es| && es[i].refcount <= 0
    ensures Tracks(es[..i] + es[i + 1..], m, addrs[1..])
    ensures Survivors(es[..i] + es[i + 1..], m) == Survivors(es, m)
  {
    SweepRemoves(es, m, addrs, i);
    LeftRemoved(es, i, m, {});
  }

  lemma {:induction false} SweepIs(r: Table, m: nat, addrs: seq<nat>)
    requires Tracks(r.entries, m, addrs)
    ensures Swept(r, addrs) == r.(entries := Survivors(r.entries, m))
    decreases |addrs|
  {
    if addrs == [] {
      SweepEnds(r.entries, m);
    } else {
      SweepFirst(r, m, addrs);
      SweepIs(Unregister(r, addrs[0]).0, m, addrs[1..]);
    }
  }

  lemma {:induction false} LeftKeeps(es: seq<Entry>, m: nat, stuck: set<nat>, e: Entry)
    ensures e in es && (e.owner != m || e.refcount > 0) ==> e in Left(es, m, stuck)
    ensures e in Left(es, m, stuck) ==> e in es
  {
    if es != [] {
      LeftKeeps(es[1..], m, stuck, e);
      LeftKeeps(es[1..], m, stuck + {es[0].addr}, e);
      assert es == [es[0]] + es[1..];
    }
  }

  lemma {:induction false} LeftDrops(es: seq<Entry>, m: nat)
    requires forall e | e in es && e.owner == m :: e.refcount <= 0
    ensures forall e | e in Left(es, m, {}) :: e.owner != m
  {
    if es != [] {
      assert es == [es[0]] + es[1..];
      LeftDrops(es[1..], m);
    }
  }

  /** The vectors of others and those in use survive; and if none is in use, no others do. */
  lemma SurvivorsExact(es: seq<Entry>, m: nat)
    ensures forall e | e in es && (e.owner != m || e.refcount > 0) :: e in Survivors(es, m)
    ensures forall e | e in Survivors(es, m) :: e in es
    ensures (forall e | e in Survivors(es, m) :: e.owner != m) <==> (forall e | e in es && e.owner == m ::
        e.refcount <= 0)
  {
    forall e ensures (e in es && (e.owner != m || e.refcount > 0) ==> e in Survivors(es, m))
                  && (e in Survivors(es, m) ==> e in es)
    {
      LeftKeeps(es, m, {}, e);
    }
    if forall e | e in es && e.owner == m :: e.refcount <= 0 {
      LeftDrops(es, m);
    }
  }

  // ---- The module

  ghost function AllNodes(lists: seq<seq<Node>>): set<Node> {
    set k, n | 0 <= k < |lists| && n in lists[k] :: n
  }

  /** No node is in two of the lists. */
  ghost predicate Disjoint(lists: seq<seq<Node>>) {
    forall j, k, n | 0 <= j < k < |lists| && n in lists[k] :: n !in lists[j]
  }

  lemma DisjointSnoc(lists: seq<seq<Node>>, more: seq<Node>)
    requires Disjoint(lists) && NodeSet(more) !! AllNodes(lists)
    ensures Disjoint(lists + [more])
  {
    forall j, n | 0 <= j < |lists| && n in lists[j] ensures n !in more {
      assert n in AllNodes(lists);
      assert n !in NodeSet(more);
    }
  }

  lemma AllNodesSnoc(lists: seq<seq<Node>>, more: seq<Node>)
    ensures AllNodes(lists + [more]) == AllNodes(lists) + NodeSet(more)
  {
    var all := lists + [more];
    forall n | n in AllNodes(lists) + NodeSet(more) ensures n in AllNodes(all) {
      if n in AllNodes(lists) {
        var k :| 0 <= k < |lists| && n in lists[k];
        assert n in all[k];
      } else {
        assert n in all[|lists|];
      }
    }
  }

  lemma AllNodesSplit(lists: seq<seq<Node>>, j: nat)
    requires j < |lists| && Disjoint(lists)
    ensures AllNodes(lists[j + 1..]) == AllNodes(lists[j..]) - NodeSet(lists[j])
  {
    var (all, rest) := (lists[j..], lists[j + 1..]);
    forall n | n in AllNodes(all) - NodeSet(lists[j]) ensures n in AllNodes(rest) {
      var k :| 0 <= k < |all| && n in all[k];
      assert n in rest[k - 1];
    }
    forall n | n in AllNodes(rest) ensures n in AllNodes(all) && n !in lists[j] {
      var k :| 0 <= k < |rest| && n in rest[k];
      assert n in all[k + 1] && rest[k] == lists[j + 1 + k];
    }
  }

  /** Which allocations of add_vector_from_bitmap and of the registration succeed, and what the
      eight kmalloc calls of add_syscall_to_vector return. */
  datatype Allocs = Allocs(temp: bool, prefix: bool, vector: bool, kmalloc: seq<nat>)

  /** The answers kmalloc gives one after the other: NULL, or one address each. */
  predicate Answers(kmalloc: seq<nat>) {
    forall j, k | 0 <= j < k < |kmalloc| && kmalloc[j] != 0 :: kmalloc[j] != kmalloc[k]
  }

  /** A call that builds a list. */
  predicate Builds(r: Table, bitmap: nat, al: Allocs) {
    Acquire(r, ByBitmap(bitmap)).1 == 0 && al.temp && al.prefix
  }

  /** What a remembered list was made for, and what kmalloc answered meanwhile. */
  datatype Making = Making(bitmap: nat, kmalloc: seq<nat>)

  /** The list has what its bitmap asks for, but for nodes there was no memory for. */
  predicate MadeBy(nodes: seq<Node>, m: Making) {
    |m.kmalloc| == |BUILD_ORDER| && Overrides(nodes) == Kept(m.bitmap, BUILD_ORDER, m.kmalloc)
  }

  predicate AllMade(lists: seq<seq<Node>>, makings: seq<Making>) {
    var n := |lists| - 1;
    |makings| == |lists| && (n >= 0 ==> MadeBy(lists[n], makings[n]) && AllMade(lists[..n], makings[..n]))
  }

  lemma AllMadeSnoc(lists: seq<seq<Node>>, makings: seq<Making>, nodes: seq<Node>, m: Making)
    requires AllMade(lists, makings) && MadeBy(nodes, m)
    ensures AllMade(lists + [nodes], makings + [m])
  {
    var n := |lists|;
    assert (lists + [nodes])[..n] == lists && (makings + [m])[..n] == makings;
  }

  lemma {:induction false} AllMadeAt(lists: seq<seq<Node>>, makings: seq<Making>, k: nat)
    requires AllMade(lists, makings) && k < |lists|
    ensures MadeBy(lists[k], makings[k])
  {
    var n := |lists| - 1;
    if k < n {
      AllMadeAt(lists[..n], makings[..n], k);
    }
  }

  lemma {:induction false} KeptSnoc(bitmap: nat, candidates: seq<Override>, kmalloc: seq<nat>, k: nat)
    requires k < |candidates| == |kmalloc|
    ensures Kept(bitmap, candidates[..k + 1], kmalloc[..k + 1]) == Kept(bitmap, candidates[..k], kmalloc[..k])
         + if IsSet(bitmap, candidates[k].flag) && kmalloc[k] != 0 then [candidates[k]] else []
  {
    var (c, a) := (candidates, kmalloc);
    if k > 0 {
      KeptSnoc(bitmap, c[1..], a[1..], k - 1);
      assert c[..k + 1][1..] == c[1..][..k] && a[..k + 1][1..] == a[1..][..k];
      assert c[..k][1..] == c[1..][..k - 1] && a[..k][1..] == a[1..][..k - 1];
    } else {
      assert c[..1][1..] == [] && a[..1][1..] == [];
    }
  }

  /** The registry once the module is pinned and, if there is memory for it, the new vector is in. */
  function Announced(r: Table, bitmap: nat, va: nat, ok: bool): Table {
    var pinned := r.(pins := Pin(r.pins, DYNAMIC, 1));
    if ok then Register(pinned, DynamicName(bitmap), va, DYNAMIC, bitmap, 1) else pinned
  }

  class DynamicModule {
    const builder: Builder
    const registry: VectorList.VectorList
    const listHeads: array<Node?>
    var i: nat
    ghost var lists: seq<seq<Node>>
    ghost var makings: seq<Making>

    ghost predicate Valid()
      reads this, builder, builder.live, listHeads, registry, registry.head, registry.vectors
    {
      registry.Valid() && Settled() && AllMade(lists, makings)
    }

    /** No list is being built, and every node is in one that is remembered. */
    ghost predicate Settled()
      reads this, builder, builder.live, listHeads
    {
      && builder.Valid() && builder.building == []
      && listHeads.Length == MAX_LISTS && i == |lists| <= MAX_LISTS
      && builder.live == AllNodes(lists)
      && Remembered()
    }

    /** Slot k holds the head of list k; all lists are acyclic, and no two share a node. */
    ghost predicate Remembered()
      requires |lists| <= listHeads.Length
      reads `lists, builder`live, builder.live, listHeads
    {
      && (forall k | 0 <= k < |lists| :: NodeSet(lists[k]) <= builder.live && Chain(listHeads[k], lists[k]))
      && Disjoint(lists)
    }

    constructor (registry: VectorList.VectorList)
      requires registry.Valid()
      ensures Valid() && lists == [] && makings == [] && this.registry == registry
      ensures fresh(builder) && fresh(listHeads)
    {
      this.registry := registry;
      builder := new Builder();
      listHeads := new Node?[MAX_LISTS](_ => null);
      i, lists, makings := 0, [], [];
    }

    /** The first k candidates have been looked at. */
    ghost predicate BuiltUpTo(bitmap: nat, k: nat, kmalloc: seq<nat>, before: set<Node>)
      requires k <= |BUILD_ORDER| == |kmalloc|
      reads builder, builder.live
    {
      && builder.Valid() && builder.live == before + NodeSet(builder.building)
      && (forall j | k <= j < |kmalloc| :: builder.Spare(kmalloc[j]))
      && Overrides(builder.building) == Kept(bitmap, BUILD_ORDER[..k], kmalloc[..k])
    }

    /** One of the tests of add_vector_from_bitmap, with what follows it. */
    method AddIfSet(bitmap: nat, k: nat, kmalloc: seq<nat>, ghost before: set<Node>)
      requires k < |BUILD_ORDER| == |kmalloc| && Answers(kmalloc)
      requires BuiltUpTo(bitmap, k, kmalloc, before)
      modifies builder, builder.building
      ensures BuiltUpTo(bitmap, k + 1, kmalloc, before)
      ensures old(builder.building) <= builder.building
      ensures forall j | |old(builder.building)| <= j < |builder.building| :: fresh(builder.building[j])
    {
      KeptSnoc(bitmap, BUILD_ORDER, kmalloc, k);
      if IsSet(bitmap, BUILD_ORDER[k].flag) {
        var ret := builder.AddSyscall(BUILD_ORDER[k], kmalloc[k]);
        if kmalloc[k] != 0 {
          OverridesAppend(old(builder.building), builder.building[|builder.building| - 1]);
        }
      }
    }

    /** Two of the eight tests, which follow each other. */
    method AddTwo(bitmap: nat, k: nat, kmalloc: seq<nat>, ghost before: set<Node>)
      requires k + 2 <= |BUILD_ORDER| == |kmalloc| && Answers(kmalloc)
      requires BuiltUpTo(bitmap, k, kmalloc, before)
      modifies builder, builder.building
      ensures BuiltUpTo(bitmap, k + 2, kmalloc, before)
      ensures old(builder.building) <= builder.building
      ensures forall j | |old(builder.building)| <= j < |builder.building| :: fresh(builder.building[j])
    {
      AddIfSet(bitmap, k, kmalloc, before);
      AddIfSet(bitmap, k + 1, kmalloc, before);
    }

    /** Four of them. */
    method AddFour(bitmap: nat, k: nat, kmalloc: seq<nat>, ghost before: set<Node>)
      requires k + 4 <= |BUILD_ORDER| == |kmalloc| && Answers(kmalloc)
      requires BuiltUpTo(bitmap, k, kmalloc, before)
      modifies builder, builder.building
      ensures BuiltUpTo(bitmap, k + 4, kmalloc, before)
      ensures old(builder.building) <= builder.building
      ensures forall j | |old(builder.building)| <= j < |builder.building| :: fresh(builder.building[j])
    {
      AddTwo(bitmap, k, kmalloc, before);
      AddTwo(bitmap, k + 2, kmalloc, before);
    }

    /** The eight tests. */
    method BuildList(bitmap: nat, kmalloc: seq<nat>)
      requires builder.Valid() && builder.building == []
      requires |kmalloc| == |BUILD_ORDER| && Answers(kmalloc)
      requires forall j | 0 <= j < |kmalloc| :: builder.Spare(kmalloc[j])
      modifies builder
      ensures builder.Valid() && builder.live == old(builder.live) + NodeSet(builder.building)
      ensures Overrides(builder.building) == Kept(bitmap, BUILD_ORDER, kmalloc)
      ensures forall n | n in builder.building :: fresh(n)
    {
      ghost var before := builder.live;
      AddFour(bitmap, 0, kmalloc, before);
      AddFour(bitmap, 4, kmalloc, before);
      assert BUILD_ORDER[..8] == BUILD_ORDER && kmalloc[..8] == kmalloc;
    }

    /** A list is being built, beside those that are remembered. */
    ghost predicate Building()
      reads this, builder, builder.live, listHeads
    {
      && builder.Valid() && i == |lists| < listHeads.Length == MAX_LISTS
      && builder.live == AllNodes(lists) + NodeSet(builder.building)
      && Remembered()
      && NodeSet(builder.building) !! AllNodes(lists)
    }

    /** The eight tests, beside the lists that are remembered. */
    method BuildBeside(bitmap: nat, kmalloc: seq<nat>)
      requires Settled() && i < MAX_LISTS
      requires |kmalloc| == |BUILD_ORDER| && Answers(kmalloc)
      requires forall j | 0 <= j < |kmalloc| :: builder.Spare(kmalloc[j])
      modifies builder
      ensures Building() && builder.live == old(builder.live) + NodeSet(builder.building)
      ensures MadeBy(builder.building, Making(bitmap, kmalloc))
    {
      BuildList(bitmap, kmalloc);
    }

    /** list_heads[i++] = listHead. */
    method Store()
      requires Building()
      modifies `lists, `i, listHeads
      ensures lists == old(lists) + [builder.building] && i == |lists| <= MAX_LISTS
      ensures Remembered()
    {
      DisjointSnoc(lists, builder.building);
      listHeads[i] := builder.listHead;
      assert forall k | 0 <= k < |lists| :: Chain(listHeads[k], lists[k]);
      lists := lists + [builder.building];
      i := i + 1;
    }

    /** The list is remembered, and listHead = NULL. */
    method Remember(ghost m: Making)
      requires Building() && AllMade(lists, makings) && MadeBy(builder.building, m)
      modifies `lists, `i, `makings, builder, listHeads
      ensures Settled() && AllMade(lists, makings) && builder.live == old(builder.live)
      ensures lists == old(lists) + [old(builder.building)] && makings == old(makings) + [m]
    {
      AllNodesSnoc(lists, builder.building);
      AllMadeSnoc(lists, makings, builder.building, m);
      Store();
      makings := makings + [m];
      builder.Reset();
    }

    /** try_module_get, register_dynamic_syscall, whose result nobody looks at, and the installation. */
    method Publish(bitmap: nat, task: Fork.TaskStruct, ok: bool) returns (ret: nat)
      requires registry.Valid()
      modifies registry, registry.head, registry.vectors, task
      ensures registry.Valid() && forall v | v in registry.vectors :: v in old(registry.vectors) || fresh(v)
      ensures ret == task.vec == AddrOf(builder.listHead)
      ensures registry.View() == Announced(old(registry.View()), bitmap, ret, ok)
    {
      registry.PinModule(DYNAMIC, 1);
      ret := AddrOf(builder.listHead);
      var _ := registry.AddVectorAddress(DynamicName(bitmap), ret, DYNAMIC, bitmap, 1, ok);
      task.vec := ret;
    }

    /** From the eight tests to the installation. */
    method BuildAndPublish(bitmap: nat, task: Fork.TaskStruct, al: Allocs) returns (ret: nat)
      requires registry.Valid() && Settled() && i < MAX_LISTS
      requires |al.kmalloc| == |BUILD_ORDER| && Answers(al.kmalloc)
      requires forall j | 0 <= j < |al.kmalloc| :: builder.Spare(al.kmalloc[j])
      modifies builder, registry, registry.head, registry.vectors, task
      ensures Building() && registry.Valid()
      ensures forall v | v in registry.vectors :: v in old(registry.vectors) || fresh(v)
      ensures builder.live == old(builder.live) + NodeSet(builder.building)
      ensures MadeBy(builder.building, Making(bitmap, al.kmalloc))
      ensures ret == task.vec == HeadAddr(builder.building)
      ensures registry.View() == Announced(old(registry.View()), bitmap, ret, al.vector)
    {
      BuildBeside(bitmap, al.kmalloc);
      ret := Publish(bitmap, task, al.vector);
    }

    /** The rest of add_vector_from_bitmap, when no list was found and both names could be allocated. */
    method CreateVector(bitmap: nat, task: Fork.TaskStruct, al: Allocs) returns (ret: nat, ghost built: seq<Node>)
      requires Valid() && i < MAX_LISTS
      requires |al.kmalloc| == |BUILD_ORDER| && Answers(al.kmalloc)
      requires forall j | 0 <= j < |al.kmalloc| :: builder.Spare(al.kmalloc[j])
      modifies this, builder, listHeads, registry, registry.head, registry.vectors, task
      ensures Valid()
      ensures forall v | v in registry.vectors :: v in old(registry.vectors) || fresh(v)
      ensures lists == old(lists) + [built] && makings == old(makings) + [Making(bitmap, al.kmalloc)]
      ensures MadeBy(built, Making(bitmap, al.kmalloc))
      ensures builder.live == old(builder.live) + NodeSet(built)
      ensures ret == task.vec == HeadAddr(built)
      ensures HeadAddrs(lists) == HeadAddrs(old(lists)) + [ret]
      ensures registry.View() == Announced(old(registry.View()), bitmap, ret, al.vector)
    {
      ret := BuildAndPublish(bitmap, task, al);
      built := builder.building;
      HeadAddrsSnoc(lists, built);
      assert registry.Valid();
      Remember(Making(bitmap, al.kmalloc));
    }

    /** add_vector_from_bitmap, for the task that calls it. */
    method AddVectorFromBitmap(bitmap: nat, task: Fork.TaskStruct, al: Allocs) returns (ret: nat)
      requires Valid() && (Builds(registry.View(), bitmap, al) ==> i < MAX_LISTS)
      requires |al.kmalloc| == |BUILD_ORDER| && Answers(al.kmalloc)
      requires forall j | 0 <= j < |al.kmalloc| :: builder.Spare(al.kmalloc[j])
      modifies this, builder, listHeads, registry, registry.head, registry.vectors, task
      ensures Valid()
      ensures forall v | v in registry.vectors :: v in old(registry.vectors) || fresh(v)
      ensures var (r, a) := Acquire(old(registry.View()), ByBitmap(bitmap));
        if Builds(old(registry.View()), bitmap, al) then
          && makings == old(makings) + [Making(bitmap, al.kmalloc)]
          && |lists| == |old(lists)| + 1 && lists[..|old(lists)|] == old(lists)
          && Overrides(lists[|old(lists)|]) == Kept(bitmap, BUILD_ORDER, al.kmalloc)
          && builder.live == old(builder.live) + NodeSet(lists[|old(lists)|])
          && ret == task.vec == HeadAddr(lists[|old(lists)|])
          && HeadAddrs(lists) == HeadAddrs(old(lists)) + [ret]
          && registry.View() == Announced(r, bitmap, ret, al.vector)
        else
          && lists == old(lists) && makings == old(makings) && builder.live == old(builder.live)
          && registry.View() == r && ret == a
          && task.vec == if a != 0 then a else old(task.vec)
    {
      ret := registry.Get(ByBitmap(bitmap));
      assert Settled();
      if ret != 0 {
        task.vec := ret;
      } else if al.temp && al.prefix {
        ghost var built;
        ret, built := CreateVector(bitmap, task, al);
      }
    }

    /** The lists from j on are as they were, and all that is live. */
    ghost predicate LeftFrom(j: nat)
      reads this, builder, listHeads, AllNodes(lists)
    {
      && j <= i == |lists| <= listHeads.Length == MAX_LISTS
      && builder.live == AllNodes(lists[j..])
      && (forall k | j <= k < |lists| :: NodeSet(lists[k]) <= AllNodes(lists) && Chain(listHeads[k], lists[k]))
      && Disjoint(lists)
    }

    /** delete_vector of the list in slot j. */
    method DeleteList(j: nat)
      requires j < i && LeftFrom(j)
      modifies builder`live
      ensures LeftFrom(j + 1)
    {
      assert lists[j..][0] == lists[j];
      assert forall n | n in lists[j] :: n in AllNodes(lists[j..]);
      AllNodesSplit(lists, j);
      if listHeads[j] != null {
        builder.DeleteVector(listHeads[j], lists[j]);
      }
    }

    /** What cleanup_override does about slot j. */
    method CleanupOne(j: nat)
      requires j < i && LeftFrom(j) && registry.Valid()
      modifies builder`live, registry, registry.head, registry.vectors
      ensures LeftFrom(j + 1) && registry.Valid()
      ensures registry.View() == Unregister(old(registry.View()), HeadAddr(lists[j])).0
      ensures forall v | v in registry.vectors :: v in old(registry.vectors)
    {
      var _ := registry.RemoveVectorAddress(AddrOf(listHeads[j]));
      DeleteList(j);
    }

    /** The loop of cleanup_override. */
    method CleanupLists()
      requires LeftFrom(0) && registry.Valid()
      modifies builder`live, registry, registry.head, registry.vectors
      ensures LeftFrom(i) && registry.Valid()
      ensures registry.View() == Swept(old(registry.View()), HeadAddrs(lists))
      ensures forall v | v in registry.vectors :: v in old(registry.vectors)
    {
      var j := 0;
      assert lists[0..] == lists;
      while j < i
        invariant j <= i && LeftFrom(j)
        invariant registry.Valid() && forall v | v in registry.vectors :: v in old(registry.vectors)
        invariant Swept(registry.View(), HeadAddrs(lists[j..])) == Swept(old(registry.View()), HeadAddrs(lists))
      {
        SweptStep(registry.View(), lists, j);
        assert forall k | 0 <= k < |registry.vectors| :: registry.vectors[k] in old(registry.vectors);
        CleanupOne(j);
        j := j + 1;
      }
    }

    /** i = 0. */
    method Forget()
      requires LeftFrom(i) && builder.listHead == null && builder.building == []
      modifies `i, `lists, `makings
      ensures Settled() && lists == [] && makings == [] && builder.live == {}
    {
      assert lists[i..] == [];
      i := 0;
      lists, makings := [], [];
    }

    /** cleanup_override: every list is unregistered, whatever comes of that, and freed. kfree is asked
        for each node once, and no freed node is looked at. */
    method CleanupOverride()
      requires Valid()
      modifies this, builder, registry, registry.head, registry.vectors
      ensures Valid() && lists == [] && builder.live == {}
      ensures registry.View() == Swept(old(registry.View()), HeadAddrs(old(lists)))
    {
      assert lists[0..] == lists;
      CleanupLists();
      assert builder.listHead == null && builder.building == [];
      Forget();
    }
  }

  lemma SweptStep(r: Table, lists: seq<seq<Node>>, j: nat)
    requires j < |lists|
    ensures Swept(r, HeadAddrs(lists[j..])) == Swept(Unregister(r, HeadAddr(lists[j])).0, HeadAddrs(lists[j + 1..]))
  {
    assert lists[j..][0] == lists[j] && lists[j..][1..] == lists[j + 1..];
  }
}
