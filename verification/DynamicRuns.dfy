/** The cleanup loop at the end of any run: between loading and unloading the dynamic module, vectors are
    created, counted, and registered and unregistered by others. */
module DynamicRuns {
  import opened Bitmap
  import opened Registry
  import opened Ledger
  import opened OverrideList
  import opened DynamicModule
  import Fork

  /** A creation may find no memory for the registration, and may have a NULL list. */
  datatype Event =
    | Created(bitmap: nat, addr: nat, registered: bool)
    | Counted(i: nat, d: int)
    | Loaded(e: Entry)
    | Unloaded(addr: nat)

  /** The registry, and the addresses in list_heads. */
  function After(r: Table, heads: seq<nat>, ev: Event): (Table, seq<nat>) {
    match ev
    case Created(b, a, ok) => (Announced(r, b, a, ok), heads + [a])
    case Counted(i, d) => (if i < |r.entries| then Bump(r, i, d) else r, heads)
    case Loaded(e) => (Register(r, e.name, e.addr, e.owner, e.bitmap, 0), heads)
    case Unloaded(a) => (Unregister(r, a).0, heads)
  }

  /** A new list is not where another module's list is; other modules register and unregister lists of
      their own. */
  predicate Possible(r: Table, heads: seq<nat>, ev: Event) {
    match ev
    case Created(_, a, _) => NobodyElseAt(r.entries, a)
    case Counted(_, _) => true
    case Loaded(e) => e.owner != DYNAMIC && e.addr !in heads
    case Unloaded(a) => a !in heads
  }

  predicate NobodyElseAt(es: seq<Entry>, a: nat) {
    forall i | 0 <= i < |es| && es[i].addr == a :: es[i].owner == DYNAMIC
  }

  predicate PossibleRun(r: Table, heads: seq<nat>, run: seq<Event>)
    decreases |run|
  {
    run == [] ||
    (Possible(r, heads, run[0])
     && var (r1, heads1) := After(r, heads, run[0]); PossibleRun(r1, heads1, run[1..]))
  }

  function AfterRun(r: Table, heads: seq<nat>, run: seq<Event>): (Table, seq<nat>)
    decreases |run|
  {
    if run == [] then (r, heads) else var (r1, heads1) := After(r, heads, run[0]); AfterRun(r1, heads1, run[1..])
  }

  /** list_heads has the address of every vector of the module, as often as there are vectors at it or
      more often, and of nobody else's. */
  ghost predicate Remembers(es: seq<Entry>, heads: seq<nat>) {
    && (forall e | e in es :: e.owner == DYNAMIC <==> e.addr in heads)
    && (forall a | a in heads :: CountAt(es, DYNAMIC, a) <= multiset(heads)[a])
  }

  lemma RemembersTracks(es: seq<Entry>, heads: seq<nat>)
    requires Remembers(es, heads)
    ensures Tracks(es, DYNAMIC, heads)
  {
  }

  lemma CreatedKeeps(r: Table, heads: seq<nat>, bitmap: nat, a: nat, ok: bool)
    requires Remembers(r.entries, heads) && NobodyElseAt(r.entries, a)
    ensures Remembers(Announced(r, bitmap, a, ok).entries, heads + [a])
  {
    var (es, es1) := (r.entries, Announced(r, bitmap, a, ok).entries);
    if ok {
      assert es1 == [es1[0]] + es && es1[1..] == es;
    }
    forall e | e in es && e.addr == a ensures e.owner == DYNAMIC {
      var k :| 0 <= k < |es| && es[k] == e;
    }
    forall b | b in heads + [a] ensures CountAt(es1, DYNAMIC, b) <= multiset(heads + [a])[b] {
      CountAtPositive(es, DYNAMIC, b);
      assert CountAt(es1, DYNAMIC, b) == CountAt(es, DYNAMIC, b) + if ok && b == a then 1 else 0;
      assert multiset(heads + [a])[b] == multiset(heads)[b] + if b == a then 1 else 0;
    }
  }

  lemma CountedKeeps(r: Table, heads: seq<nat>, i: nat, d: int)
    requires Remembers(r.entries, heads) && i < |r.entries|
    ensures Remembers(Bump(r, i, d).entries, heads)
  {
    var (es, es1) := (r.entries, Bump(r, i, d).entries);
    forall e | e in es1 ensures e.owner == DYNAMIC <==> e.addr in heads {
      var k :| 0 <= k < |es1| && es1[k] == e;
      assert es[k] in es;
    }
    forall a | a in heads ensures CountAt(es1, DYNAMIC, a) == CountAt(es, DYNAMIC, a) {
      CountAtBumped(es, i, es[i].refcount + d, DYNAMIC, a);
    }
  }

  lemma LoadedKeeps(r: Table, heads: seq<nat>, e: Entry)
    requires Remembers(r.entries, heads) && Possible(r, heads, Loaded(e))
    ensures Remembers(Register(r, e.name, e.addr, e.owner, e.bitmap, 0).entries, heads)
  {
    var es1 := Register(r, e.name, e.addr, e.owner, e.bitmap, 0).entries;
    assert es1 == [es1[0]] + r.entries && es1[1..] == r.entries;
  }

  lemma UnloadedKeeps(r: Table, heads: seq<nat>, a: nat)
    requires Remembers(r.entries, heads) && a !in heads
    ensures Remembers(Unregister(r, a).0.entries, heads)
  {
    var (es, i) := (r.entries, Find(r.entries, ByAddr(a)));
    if i < |es| {
      WithoutOne(es, i);
      forall b | b in heads ensures CountAt(es[..i] + es[i + 1..], DYNAMIC, b) == CountAt(es, DYNAMIC, b) {
        CountAtRemoved(es, i, DYNAMIC, b);
      }
    }
  }

  lemma EventKeeps(r: Table, heads: seq<nat>, ev: Event)
    requires Remembers(r.entries, heads) && Possible(r, heads, ev)
    ensures Remembers(After(r, heads, ev).0.entries, After(r, heads, ev).1)
  {
    match ev
    case Created(b, a, ok) => CreatedKeeps(r, heads, b, a, ok);
    case Counted(i, d) =>
      if i < |r.entries| {
        CountedKeeps(r, heads, i, d);
      }
    case Loaded(e) => LoadedKeeps(r, heads, e);
    case Unloaded(a) => UnloadedKeeps(r, heads, a);
  }

  lemma {:induction false} RunKeeps(r: Table, heads: seq<nat>, run: seq<Event>)
    requires Remembers(r.entries, heads) && PossibleRun(r, heads, run)
    ensures Remembers(AfterRun(r, heads, run).0.entries, AfterRun(r, heads, run).1)
    decreases |run|
  {
    if run != [] {
      EventKeeps(r, heads, run[0]);
      var (r1, heads1) := After(r, heads, run[0]);
      RunKeeps(r1, heads1, run[1..]);
    }
  }

  /** At the end of every run the cleanup loop leaves exactly the survivors, in order: none of the
      module's own vectors if and only if no refcount of theirs is positive. */
  lemma CleanupAfterRun(r: Table, run: seq<Event>)
    requires (forall e | e in r.entries :: e.owner != DYNAMIC) && PossibleRun(r, [], run)
    ensures var (r1, heads) := AfterRun(r, [], run);
      && Swept(r1, heads) == r1.(entries := Survivors(r1.entries, DYNAMIC))
      && ((forall e | e in Swept(r1, heads).entries :: e.owner != DYNAMIC)
          <==> (forall e | e in r1.entries && e.owner == DYNAMIC :: e.refcount <= 0))
  {
    RunKeeps(r, [], run);
    var (r1, heads) := AfterRun(r, [], run);
    RemembersTracks(r1.entries, heads);
    SweepExact(r1, DYNAMIC, heads);
  }

  // ---- Which list belongs to which bitmap

  /** The bitmaps of the lists that were built, in order. */
  function BitmapsAfter(bitmaps: seq<nat>, run: seq<Event>): seq<nat>
    decreases |run|
  {
    if run == [] then bitmaps else BitmapsAfter(NextBitmaps(bitmaps, run[0]), run[1..])
  }

  function NextBitmaps(bitmaps: seq<nat>, ev: Event): seq<nat> {
    if ev.Created? then bitmaps + [ev.bitmap] else bitmaps
  }

  /** List k was built for bitmap b and has address a. */
  predicate BuiltAt(heads: seq<nat>, bitmaps: seq<nat>, k: nat, a: nat, b: nat) {
    k < |heads| == |bitmaps| && heads[k] == a && bitmaps[k] == b
  }

  /** Every vector of the module points to a list that was built for its bitmap. */
  ghost predicate PointsRight(es: seq<Entry>, heads: seq<nat>, bitmaps: seq<nat>) {
    && |heads| == |bitmaps|
    && forall i | 0 <= i < |es| && es[i].owner == DYNAMIC ::
         exists k :: BuiltAt(heads, bitmaps, k, es[i].addr, es[i].bitmap)
  }

  lemma CreatedPointsRight(r: Table, heads: seq<nat>, bitmaps: seq<nat>, bitmap: nat, a: nat, ok: bool)
    requires PointsRight(r.entries, heads, bitmaps)
    ensures PointsRight(Announced(r, bitmap, a, ok).entries, heads + [a], bitmaps + [bitmap])
  {
    var (es, es1) := (r.entries, Announced(r, bitmap, a, ok).entries);
    forall i | 0 <= i < |es1| && es1[i].owner == DYNAMIC
      ensures exists k :: BuiltAt(heads + [a], bitmaps + [bitmap], k, es1[i].addr, es1[i].bitmap)
    {
      if ok && i == 0 {
        assert BuiltAt(heads + [a], bitmaps + [bitmap], |heads|, a, bitmap);
      } else {
        var e := es1[i];
        assert e == es[if ok then i - 1 else i];
        var k :| BuiltAt(heads, bitmaps, k, e.addr, e.bitmap);
        assert BuiltAt(heads + [a], bitmaps + [bitmap], k, e.addr, e.bitmap);
      }
    }
  }

  lemma BumpPointsRight(r: Table, heads: seq<nat>, bitmaps: seq<nat>, i: nat, d: int)
    requires PointsRight(r.entries, heads, bitmaps) && i < |r.entries|
    ensures PointsRight(Bump(r, i, d).entries, heads, bitmaps)
  {
    var es1 := Bump(r, i, d).entries;
    assert forall k | 0 <= k < |es1| :: es1[k] == r.entries[k].(refcount := es1[k].refcount);
  }

  lemma AcquirePointsRight(r: Table, heads: seq<nat>, bitmaps: seq<nat>, k: Key)
    requires PointsRight(r.entries, heads, bitmaps)
    ensures PointsRight(Acquire(r, k).0.entries, heads, bitmaps)
  {
    if Has(r.entries, k) {
      BumpPointsRight(r, heads, bitmaps, Find(r.entries, k), 1);
    }
  }

  lemma EventPointsRight(r: Table, heads: seq<nat>, bitmaps: seq<nat>, ev: Event)
    requires PointsRight(r.entries, heads, bitmaps) && Possible(r, heads, ev)
    ensures PointsRight(After(r, heads, ev).0.entries, After(r, heads, ev).1, NextBitmaps(bitmaps, ev))
  {
    match ev
    case Created(b, a, ok) => CreatedPointsRight(r, heads, bitmaps, b, a, ok);
    case Counted(i, d) =>
      if i < |r.entries| {
        BumpPointsRight(r, heads, bitmaps, i, d);
      }
    case Loaded(e) =>
      var es1 := After(r, heads, ev).0.entries;
      assert forall k | 1 <= k < |es1| :: es1[k] == r.entries[k - 1];
    case Unloaded(a) =>
      var (es, es1, i) := (r.entries, After(r, heads, ev).0.entries, Find(r.entries, ByAddr(a)));
      if i < |es| && es[i].refcount <= 0 {
        assert forall k | 0 <= k < |es1| :: es1[k] == es[if k < i then k else k + 1];
      }
  }

  /** In every run each vector of the module points to a list that was built for the vector's bitmap. */
  lemma {:induction false} RunPointsRight(r: Table, heads: seq<nat>, bitmaps: seq<nat>, run: seq<Event>)
    requires PointsRight(r.entries, heads, bitmaps) && PossibleRun(r, heads, run)
    ensures PointsRight(AfterRun(r, heads, run).0.entries, AfterRun(r, heads, run).1, BitmapsAfter(bitmaps, run))
    decreases |run|
  {
    if run != [] {
      EventPointsRight(r, heads, bitmaps, run[0]);
      var (r1, heads1) := After(r, heads, run[0]);
      RunPointsRight(r1, heads1, NextBitmaps(bitmaps, run[0]), run[1..]);
    }
  }

  // ---- The same on the heap

  function MadeFor(makings: seq<Making>): seq<nat> {
    seq(|makings|, k requires 0 <= k < |makings| => makings[k].bitmap)
  }

  /** A remembered list has this address and was built for this bitmap. */
  ghost predicate Decodes(m: DynamicModule, k: nat, a: nat, bitmap: nat)
    reads m
  {
    && k < |m.lists| == |m.makings| && a == HeadAddr(m.lists[k])
    && m.makings[k].bitmap == bitmap && MadeBy(m.lists[k], m.makings[k])
  }

  ghost predicate AllPointRight(m: DynamicModule)
    reads m, m.registry
  {
    PointsRight(m.registry.entries, HeadAddrs(m.lists), MadeFor(m.makings))
  }

  lemma {:induction false} HeadAddrsAreInOrder(lists: seq<seq<Node>>)
    ensures |HeadAddrs(lists)| == |lists|
    ensures forall k | 0 <= k < |lists| :: HeadAddrs(lists)[k] == HeadAddr(lists[k])
  {
    if lists != [] {
      HeadAddrsAreInOrder(lists[1..]);
    }
  }

  /** What a vector of the module points to: the list of its bitmap, whole if no kmalloc failed. */
  lemma VectorDecodes(m: DynamicModule, i: nat) returns (k: nat)
    requires m.Valid() && AllPointRight(m) && i < |m.registry.entries| && m.registry.entries[i].owner == DYNAMIC
    ensures Decodes(m, k, m.registry.entries[i].addr, m.registry.entries[i].bitmap)
    ensures Decoded(Overrides(m.lists[k])) == And(m.registry.entries[i].bitmap, BUILT_FLAGS)
       <==> AllAllocated(m.registry.entries[i].bitmap, BUILD_ORDER, m.makings[k].kmalloc)
  {
    var e := m.registry.entries[i];
    k :| BuiltAt(HeadAddrs(m.lists), MadeFor(m.makings), k, e.addr, e.bitmap);
    HeadAddrsAreInOrder(m.lists);
    AllMadeAt(m.lists, m.makings, k);
    KeptExact(e.bitmap, m.makings[k].kmalloc);
  }

  /** The registry and list_heads after add_vector_from_bitmap. */
  function Added(r: Table, heads: seq<nat>, bitmap: nat, ret: nat, al: Allocs): (Table, seq<nat>) {
    var r1 := Acquire(r, ByBitmap(bitmap)).0;
    if Builds(r, bitmap, al) then (Announced(r1, bitmap, ret, al.vector), heads + [ret]) else (r1, heads)
  }

  lemma AddedKeeps(r: Table, heads: seq<nat>, bitmap: nat, ret: nat, al: Allocs)
    requires Remembers(r.entries, heads) && (Builds(r, bitmap, al) ==> NobodyElseAt(r.entries, ret))
    ensures var (r1, heads1) := Added(r, heads, bitmap, ret, al); Remembers(r1.entries, heads1)
  {
    var r1 := Acquire(r, ByBitmap(bitmap)).0;
    if Has(r.entries, ByBitmap(bitmap)) {
      CountedKeeps(r, heads, Find(r.entries, ByBitmap(bitmap)), 1);
    }
    if Builds(r, bitmap, al) {
      NobodyElseBumped(r, r1, ret, bitmap);
      CreatedKeeps(r1, heads, bitmap, ret, al.vector);
    }
  }

  lemma NobodyElseBumped(r: Table, r1: Table, a: nat, bitmap: nat)
    requires r1 == Acquire(r, ByBitmap(bitmap)).0 && NobodyElseAt(r.entries, a)
    ensures NobodyElseAt(r1.entries, a)
  {
    forall k | 0 <= k < |r1.entries| && r1.entries[k].addr == a ensures r1.entries[k].owner == DYNAMIC {
      assert r1.entries[k].addr == r.entries[k].addr && r1.entries[k].owner == r.entries[k].owner;
    }
  }

  lemma AddedPointsRight(r: Table, heads: seq<nat>, makings: seq<Making>, bitmap: nat, ret: nat, al: Allocs)
    requires PointsRight(r.entries, heads, MadeFor(makings))
    ensures var (r1, heads1) := Added(r, heads, bitmap, ret, al);
      PointsRight(r1.entries, heads1, MadeFor(NextMakings(r, makings, bitmap, al)))
  {
    var (r1, bitmaps) := (Acquire(r, ByBitmap(bitmap)).0, MadeFor(makings));
    AcquirePointsRight(r, heads, bitmaps, ByBitmap(bitmap));
    if Builds(r, bitmap, al) {
      CreatedPointsRight(r1, heads, bitmaps, bitmap, ret, al.vector);
      assert MadeFor(NextMakings(r, makings, bitmap, al)) == bitmaps + [bitmap];
    }
  }

  function NextMakings(r: Table, makings: seq<Making>, bitmap: nat, al: Allocs): seq<Making> {
    if Builds(r, bitmap, al) then makings + [Making(bitmap, al.kmalloc)] else makings
  }

  /** add_vector_from_bitmap builds a list, or finds one of the module's own. */
  predicate Serves(r: Table, bitmap: nat, al: Allocs) {
    Builds(r, bitmap, al)
    || (Acquire(r, ByBitmap(bitmap)).1 != 0 && r.entries[Find(r.entries, ByBitmap(bitmap))].owner == DYNAMIC)
  }

  /** It finds one if the first vector with this bitmap has a list, and builds one otherwise, if there is memory for
      the name. */
  lemma ServesExact(r: Table, bitmap: nat, al: Allocs)
    ensures var i := Find(r.entries, ByBitmap(bitmap));
      if i < |r.entries| && r.entries[i].addr != 0
      then !Builds(r, bitmap, al) && (Serves(r, bitmap, al) <==> r.entries[i].owner == 0)
      else Serves(r, bitmap, al) == Builds(r, bitmap, al) == (al.temp && al.prefix)
  {
  }

  /** Then the list is that of the bitmap. */
  lemma ServedDecodes(m: DynamicModule, r: Table, heads: seq<nat>, bitmap: nat, ret: nat, al: Allocs) returns (k: nat)
    requires m.Valid() && AllPointRight(m) && Serves(r, bitmap, al)
    requires (m.registry.View(), HeadAddrs(m.lists)) == Added(r, heads, bitmap, ret, al)
    requires Builds(r, bitmap, al) ==> m.makings != [] && m.makings[|m.makings| - 1].bitmap == bitmap
    requires !Builds(r, bitmap, al) ==> ret == Acquire(r, ByBitmap(bitmap)).1
    ensures Decodes(m, k, ret, bitmap)
  {
    HeadAddrsAreInOrder(m.lists);
    if Builds(r, bitmap, al) {
      k := |m.lists| - 1;
      AllMadeAt(m.lists, m.makings, k);
    } else {
      k := VectorDecodes(m, Find(r.entries, ByBitmap(bitmap)));
    }
  }

  lemma AddedRight(m: DynamicModule, r: Table, heads: seq<nat>, makings: seq<Making>, bitmap: nat, ret: nat, al: Allocs)
    returns (k: nat)
    requires m.Valid() && Remembers(r.entries, heads) && PointsRight(r.entries, heads, MadeFor(makings))
    requires (m.registry.View(), HeadAddrs(m.lists)) == Added(r, heads, bitmap, ret, al)
    requires m.makings == NextMakings(r, makings, bitmap, al)
    requires !Builds(r, bitmap, al) ==> ret == Acquire(r, ByBitmap(bitmap)).1
    ensures AllPointRight(m)
    ensures NobodyElseAt(r.entries, ret) ==> Remembers(m.registry.entries, HeadAddrs(m.lists))
    ensures Serves(r, bitmap, al) ==> Decodes(m, k, ret, bitmap)
  {
    AddedPointsRight(r, heads, makings, bitmap, ret, al);
    if NobodyElseAt(r.entries, ret) {
      AddedKeeps(r, heads, bitmap, ret, al);
    }
    k := 0;
    if Serves(r, bitmap, al) {
      k := ServedDecodes(m, r, heads, bitmap, ret, al);
    }
  }

  /** add_vector_from_bitmap, in terms of addresses and bitmaps. */
  method Add(m: DynamicModule, bitmap: nat, task: Fork.TaskStruct, al: Allocs) returns (ret: nat)
    requires m.Valid() && (Builds(m.registry.View(), bitmap, al) ==> m.i < MAX_LISTS)
    requires |al.kmalloc| == |BUILD_ORDER| && Answers(al.kmalloc)
    requires forall j | 0 <= j < |al.kmalloc| :: m.builder.Spare(al.kmalloc[j])
    modifies m, m.builder, m.listHeads, m.registry, m.registry.head, m.registry.vectors, task
    ensures m.Valid()
    ensures (m.registry.View(), HeadAddrs(m.lists))
         == Added(old(m.registry.View()), old(HeadAddrs(m.lists)), bitmap, ret, al)
    ensures m.makings == NextMakings(old(m.registry.View()), old(m.makings), bitmap, al)
    ensures !Builds(old(m.registry.View()), bitmap, al) ==> ret == Acquire(old(m.registry.View()), ByBitmap(bitmap)).1
    ensures Serves(old(m.registry.View()), bitmap, al) ==> task.vec == ret
  {
    ret := m.AddVectorFromBitmap(bitmap, task, al);
  }

  /** add_vector_from_bitmap: list_heads remembers what it did, if no other module's list is where the new one
      is; all vectors of the module still point to the lists of their bitmaps; and so does the caller, unless
      the vector found is another module's or there was no memory for the name of a new one. */
  method AddVector(m: DynamicModule, bitmap: nat, task: Fork.TaskStruct, al: Allocs) returns (ret: nat, ghost k: nat)
    requires m.Valid() && (Builds(m.registry.View(), bitmap, al) ==> m.i < MAX_LISTS)
    requires |al.kmalloc| == |BUILD_ORDER| && Answers(al.kmalloc)
    requires forall j | 0 <= j < |al.kmalloc| :: m.builder.Spare(al.kmalloc[j])
    requires Remembers(m.registry.entries, HeadAddrs(m.lists)) && AllPointRight(m)
    modifies m, m.builder, m.listHeads, m.registry, m.registry.head, m.registry.vectors, task
    ensures m.Valid() && AllPointRight(m)
    ensures NobodyElseAt(old(m.registry.entries), ret) ==> Remembers(m.registry.entries, HeadAddrs(m.lists))
    ensures Serves(old(m.registry.View()), bitmap, al) ==> Decodes(m, k, task.vec, bitmap)
  {
    ghost var (r, heads) := (m.registry.View(), HeadAddrs(m.lists));
    ret := Add(m, bitmap, task, al);
    k := AddedRight(m, r, heads, old(m.makings), bitmap, ret, al);
  }

  /** cleanup_override: everything is freed, and the survivors are left. */
  method Cleanup(m: DynamicModule)
    requires m.Valid() && Remembers(m.registry.entries, HeadAddrs(m.lists))
    modifies m, m.builder, m.registry, m.registry.head, m.registry.vectors
    ensures m.Valid() && m.builder.live == {} && m.lists == []
    ensures m.registry.View() == old(m.registry.View()).(entries := Survivors(old(m.registry.entries), DYNAMIC))
  {
    RemembersTracks(m.registry.entries, HeadAddrs(m.lists));
    SweepExact(m.registry.View(), DYNAMIC, HeadAddrs(m.lists));
    m.CleanupOverride();
  }
}
