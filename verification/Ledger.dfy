/** The books of the ownership protocol: what every counter must equal, and which changes keep it so.
    Nothing here depends on the code positions of Protocol.dfy, only on what a task stands for. */
module Ledger {
  import opened Sums
  import opened Registry
  import opened Text
  import opened Bitmap
  import opened Options

  /** dynamic_vector.c; every other module number is a static vector module. */
  const DYNAMIC: nat := 0

  /** What a task's position adds to the books.
      carry: a vector it has a reference on that is not behind its pointer yet, or 0;
      removing: the reference behind its pointer is dropped and the pointer not cleared yet;
      list: an override list that is built and not registered yet, or unregistered and not freed yet, or 0;
      pending: registered lists that the task remembers and no module does;
      pins: how often it has pinned the dynamic module for a vector that is not registered yet;
      creates: the bitmap it found no vector for and is building one for;
      loads: the static module it is loading. */
  datatype Stake = Stake(carry: nat, removing: bool, list: nat, pending: multiset<nat>, pins: nat,
                         creates: Option<nat>, loads: Option<nat>)

  const NO_STAKE: Stake := Stake(0, false, 0, multiset{}, 0, None, None)

  /** A task: its syscall_vector_info and its stake. */
  datatype Party = Party(vec: nat, stake: Stake)

  /** lists: the override lists that are allocated. heads: what each module's listHead or list_heads
      remembers. loaded: every module ever inserted. leaked: one element for every reference that
      was taken and that no task and no local variable accounts for any more. */
  datatype Sheet = Sheet(
    reg: Table,
    heads: seq<(nat, nat)>,
    loaded: set<nat>,
    lists: set<nat>,
    parties: seq<Party>,
    leaked: multiset<nat>)

  function Leak(l: multiset<nat>, a: nat): multiset<nat> {
    if a == 0 then l else l + multiset{a}
  }

  // ---- The sums

  function Claim(p: Party, a: nat): int {
    (if p.vec == a && !p.stake.removing then 1 else 0) + (if p.stake.carry == a then 1 else 0)
  }

  function ListOf(p: Party, a: nat): int { if p.stake.list == a then 1 else 0 }
  function Pending(p: Party, a: nat): int { p.stake.pending[a] }
  function PinInFlight(p: Party, m: nat): int { if m == DYNAMIC then p.stake.pins else 0 }

  /** Tasks that point to a, and references on a that tasks carry. */
  function Claims(ps: seq<Party>, a: nat): int { Sum(ps, (p: Party) => Claim(p, a)) }
  function ListsHeld(ps: seq<Party>, a: nat): int { Sum(ps, (p: Party) => ListOf(p, a)) }
  function Pendings(ps: seq<Party>, a: nat): int { Sum(ps, (p: Party) => Pending(p, a)) }
  function PinsInFlight(ps: seq<Party>, m: nat): int { Sum(ps, (p: Party) => PinInFlight(p, m)) }

  /** The refcount of a, how many entries have the address a, and the refcounts of a module. */
  function RefsAt(es: seq<Entry>, a: nat): int { Sum(es, (e: Entry) => if e.addr == a then e.refcount else 0) }
  function EntriesAt(es: seq<Entry>, a: nat): int { Sum(es, (e: Entry) => if e.addr == a then 1 else 0) }
  function RefsOfModule(es: seq<Entry>, m: nat): int { Sum(es, (e: Entry) => if e.owner == m then e.refcount else 0) }
  function HeadsAt(hs: seq<(nat, nat)>, a: nat): int { Sum(hs, (h: (nat, nat)) => if h.1 == a then 1 else 0) }

  lemma PartyUpdate(ps: seq<Party>, t: nat, p: Party)
    requires t < |ps|
    ensures forall a :: Claims(ps[t := p], a) == Claims(ps, a) - Claim(ps[t], a) + Claim(p, a)
    ensures forall a :: ListsHeld(ps[t := p], a) == ListsHeld(ps, a) - ListOf(ps[t], a) + ListOf(p, a)
    ensures forall a :: Pendings(ps[t := p], a) == Pendings(ps, a) - Pending(ps[t], a) + Pending(p, a)
    ensures forall a :: PinsInFlight(ps[t := p], a) == PinsInFlight(ps, a) - PinInFlight(ps[t], a) + PinInFlight(p, a)
  {
    forall a: nat
      ensures Claims(ps[t := p], a) == Claims(ps, a) - Claim(ps[t], a) + Claim(p, a)
      ensures ListsHeld(ps[t := p], a) == ListsHeld(ps, a) - ListOf(ps[t], a) + ListOf(p, a)
      ensures Pendings(ps[t := p], a) == Pendings(ps, a) - Pending(ps[t], a) + Pending(p, a)
      ensures PinsInFlight(ps[t := p], a) == PinsInFlight(ps, a) - PinInFlight(ps[t], a) + PinInFlight(p, a)
    {
      SumUpdate(ps, t, p, (p: Party) => Claim(p, a));
      SumUpdate(ps, t, p, (p: Party) => ListOf(p, a));
      SumUpdate(ps, t, p, (p: Party) => Pending(p, a));
      SumUpdate(ps, t, p, (p: Party) => PinInFlight(p, a));
    }
  }

  lemma PartyAppend(ps: seq<Party>, p: Party)
    ensures forall a :: Claims(ps + [p], a) == Claims(ps, a) + Claim(p, a)
    ensures forall a :: ListsHeld(ps + [p], a) == ListsHeld(ps, a) + ListOf(p, a)
    ensures forall a :: Pendings(ps + [p], a) == Pendings(ps, a) + Pending(p, a)
    ensures forall a :: PinsInFlight(ps + [p], a) == PinsInFlight(ps, a) + PinInFlight(p, a)
  {
    forall a: nat
      ensures Claims(ps + [p], a) == Claims(ps, a) + Claim(p, a)
      ensures ListsHeld(ps + [p], a) == ListsHeld(ps, a) + ListOf(p, a)
      ensures Pendings(ps + [p], a) == Pendings(ps, a) + Pending(p, a)
      ensures PinsInFlight(ps + [p], a) == PinsInFlight(ps, a) + PinInFlight(p, a)
    {
      SumAppend(ps, p, (p: Party) => Claim(p, a));
      SumAppend(ps, p, (p: Party) => ListOf(p, a));
      SumAppend(ps, p, (p: Party) => Pending(p, a));
      SumAppend(ps, p, (p: Party) => PinInFlight(p, a));
    }
  }

  /** One entry's refcount changes by d. */
  lemma EntryBump(es: seq<Entry>, i: nat, d: int)
    requires i < |es|
    ensures forall a ::
        RefsAt(es[i := es[i].(refcount := es[i].refcount + d)], a) == RefsAt(es, a) + if es[i].addr == a then d else 0
    ensures forall a :: EntriesAt(es[i := es[i].(refcount := es[i].refcount + d)], a) == EntriesAt(es, a)
    ensures forall a ::
        RefsOfModule(es[i := es[i].(refcount := es[i].refcount + d)], a)
        == RefsOfModule(es, a) + if es[i].owner == a then d else 0
  {
    forall a: nat
      ensures RefsAt(es[i := es[i].(refcount := es[i].refcount + d)], a)
           == RefsAt(es, a) + if es[i].addr == a then d else 0
      ensures EntriesAt(es[i := es[i].(refcount := es[i].refcount + d)], a) == EntriesAt(es, a)
      ensures RefsOfModule(es[i := es[i].(refcount := es[i].refcount + d)], a)
           == RefsOfModule(es, a) + if es[i].owner == a then d else 0
    {
      SumUpdate(es, i, es[i].(refcount := es[i].refcount + d), (e: Entry) => if e.addr == a then e.refcount else 0);
      SumUpdate(es, i, es[i].(refcount := es[i].refcount + d), (e: Entry) => if e.addr == a then 1 else 0);
      SumUpdate(es, i, es[i].(refcount := es[i].refcount + d), (e: Entry) => if e.owner == a then e.refcount else 0);
    }
  }

  lemma EntryPrepend(e: Entry, es: seq<Entry>)
    ensures forall a :: RefsAt([e] + es, a) == RefsAt(es, a) + if e.addr == a then e.refcount else 0
    ensures forall a :: EntriesAt([e] + es, a) == EntriesAt(es, a) + if e.addr == a then 1 else 0
    ensures forall a :: RefsOfModule([e] + es, a) == RefsOfModule(es, a) + if e.owner == a then e.refcount else 0
  {
    forall a: nat
      ensures RefsAt([e] + es, a) == RefsAt(es, a) + if e.addr == a then e.refcount else 0
      ensures EntriesAt([e] + es, a) == EntriesAt(es, a) + if e.addr == a then 1 else 0
      ensures RefsOfModule([e] + es, a) == RefsOfModule(es, a) + if e.owner == a then e.refcount else 0
    {
      SumPrepend(e, es, (e: Entry) => if e.addr == a then e.refcount else 0);
      SumPrepend(e, es, (e: Entry) => if e.addr == a then 1 else 0);
      SumPrepend(e, es, (e: Entry) => if e.owner == a then e.refcount else 0);
    }
  }

  lemma EntryRemove(es: seq<Entry>, i: nat)
    requires i < |es|
    ensures forall a ::
        RefsAt(es[..i] + es[i + 1..], a) == RefsAt(es, a) - if es[i].addr == a then es[i].refcount else 0
    ensures forall a :: EntriesAt(es[..i] + es[i + 1..], a) == EntriesAt(es, a) - if es[i].addr == a then 1 else 0
    ensures forall a ::
        RefsOfModule(es[..i] + es[i + 1..], a) == RefsOfModule(es, a) - if es[i].owner == a then es[i].refcount else 0
  {
    forall a: nat
      ensures RefsAt(es[..i] + es[i + 1..], a) == RefsAt(es, a) - if es[i].addr == a then es[i].refcount else 0
      ensures EntriesAt(es[..i] + es[i + 1..], a) == EntriesAt(es, a) - if es[i].addr == a then 1 else 0
      ensures RefsOfModule(es[..i] + es[i + 1..], a)
           == RefsOfModule(es, a) - if es[i].owner == a then es[i].refcount else 0
    {
      SumRemove(es, i, (e: Entry) => if e.addr == a then e.refcount else 0);
      SumRemove(es, i, (e: Entry) => if e.addr == a then 1 else 0);
      SumRemove(es, i, (e: Entry) => if e.owner == a then e.refcount else 0);
    }
  }

  lemma HeadsAppend(hs: seq<(nat, nat)>, h: (nat, nat))
    ensures forall a :: HeadsAt(hs + [h], a) == HeadsAt(hs, a) + if h.1 == a then 1 else 0
  {
    forall a: nat ensures HeadsAt(hs + [h], a) == HeadsAt(hs, a) + if h.1 == a then 1 else 0 {
      SumAppend(hs, h, (h: (nat, nat)) => if h.1 == a then 1 else 0);
    }
  }

  // ---- When the books balance

  /** Every refcount is what tasks point to and carry, plus what was leaked. */
  ghost predicate RefcountsBalance(b: Sheet) {
    forall a: nat | a != 0 :: RefsAt(b.reg.entries, a) == Claims(b.parties, a) + b.leaked[a]
  }

  /** An allocated list is registered once, or one task has built or condemned it; no other list is. */
  ghost predicate ListsOwned(b: Sheet) {
    forall a: nat | a != 0 ::
      EntriesAt(b.reg.entries, a) + ListsHeld(b.parties, a) == if a in b.lists then 1 else 0
  }

  /** A sum of zeros and ones. */
  lemma {:induction false} AtMostOneOf<T>(s: seq<T>, f: T -> int)
    requires forall i | 0 <= i < |s| :: f(s[i]) == 0 || f(s[i]) == 1
    ensures Sum(s, f) == 0 <==> forall i | 0 <= i < |s| :: f(s[i]) == 0
    ensures Sum(s, f) >= 0
    ensures Sum(s, f) <= 1 ==> forall i, j | 0 <= i < j < |s| :: !(f(s[i]) == 1 == f(s[j]))
  {
    if s != [] {
      AtMostOneOf(s[1..], f);
      assert forall i | 1 <= i < |s| :: s[i] == s[1..][i - 1];
    }
  }

  /** Which of the two it is, and where. */
  lemma ListHasOneOwner(es: seq<Entry>, ps: seq<Party>, a: nat, live: bool)
    requires EntriesAt(es, a) + ListsHeld(ps, a) == if live then 1 else 0
    ensures live <==> Has(es, ByAddr(a)) || exists t | 0 <= t < |ps| :: ps[t].stake.list == a
    ensures Has(es, ByAddr(a)) ==> forall t | 0 <= t < |ps| :: ps[t].stake.list != a
    ensures forall i, j | 0 <= i < j < |es| :: !(es[i].addr == a == es[j].addr)
    ensures forall t, u | 0 <= t < u < |ps| :: !(ps[t].stake.list == a == ps[u].stake.list)
  {
    var (f, g) := ((e: Entry) => if e.addr == a then 1 else 0, (p: Party) => ListOf(p, a));
    AtMostOneOf(es, f);
    AtMostOneOf(ps, g);
    assert forall i | 0 <= i < |es| :: es[i].addr == a ==> f(es[i]) == 1;
    assert forall t | 0 <= t < |ps| :: ps[t].stake.list == a ==> g(ps[t]) == 1;
    if Has(es, ByAddr(a)) {
      assert f(es[Find(es, ByAddr(a))]) == 1;
    } else {
      assert forall i | 0 <= i < |es| :: !Matches(es[i], ByAddr(a));
    }
  }

  /** Every registered list is remembered exactly once, so that it will be cleaned up. */
  ghost predicate HeadsTracked(b: Sheet) {
    forall a: nat | a != 0 :: EntriesAt(b.reg.entries, a) == HeadsAt(b.heads, a) + Pendings(b.parties, a)
  }

  /** The pin count of a live module is the sum of its refcounts and of its creations in flight. */
  ghost predicate PinsBalance(b: Sheet) {
    forall m: nat | m in b.reg.pins :: b.reg.pins[m] == RefsOfModule(b.reg.entries, m) + PinsInFlight(b.parties, m)
  }

  /** What is true of a vector from its registration on. */
  predicate VectorOk(e: Entry) {
    && NameOk(e.name)
    && (e.addr == 0 ==> !Buildable(e.bitmap))
    && (e.owner == DYNAMIC ==> Standard(e) && Accepted(e.bitmap))
  }

  predicate EntryOk(b: Sheet, e: Entry) {
    e.refcount >= 0 && e.owner in b.loaded && VectorOk(e)
  }

  predicate EntriesOk(b: Sheet) {
    && (forall m | m in b.reg.pins :: m in b.loaded)
    && DYNAMIC in b.loaded
    && (forall i | 0 <= i < |b.reg.entries| :: EntryOk(b, b.reg.entries[i]))
  }

  predicate NoDynamic(es: seq<Entry>, bitmap: nat) {
    forall i | 0 <= i < |es| :: !(es[i].owner == DYNAMIC && es[i].bitmap == bitmap)
  }

  predicate OnePerBitmap(es: seq<Entry>) {
    forall i, j | 0 <= i < j < |es| && es[i].owner == DYNAMIC && es[j].owner == DYNAMIC
                  && es[i].bitmap == es[j].bitmap :: !Buildable(es[i].bitmap)
  }

  /** While a creation is under way no dynamic vector has its bitmap. */
  predicate CreationOk(es: seq<Entry>, c: Option<nat>) {
    c.Some? && Buildable(c.value) ==> NoDynamic(es, c.value)
  }

  predicate CreationsAlone(b: Sheet) {
    && OnePerBitmap(b.reg.entries)
    && forall t | 0 <= t < |b.parties| :: CreationOk(b.reg.entries, b.parties[t].stake.creates)
  }

  predicate NotOwned(es: seq<Entry>, m: nat) {
    forall i | 0 <= i < |es| :: es[i].owner != m
  }

  /** A static module that is being loaded has nothing registered, and one task loads it. */
  predicate LoadOk(b: Sheet, m: Option<nat>) {
    m.Some? ==> m.value in b.loaded && m.value !in b.reg.pins && m.value != DYNAMIC && NotOwned(b.reg.entries, m.value)
  }

  predicate LoadsAlone(b: Sheet) {
    && (forall t | 0 <= t < |b.parties| :: LoadOk(b, b.parties[t].stake.loads))
    && (forall t, u | 0 <= t < u < |b.parties| && b.parties[t].stake.loads.Some? ::
          b.parties[t].stake.loads != b.parties[u].stake.loads)
  }

  ghost predicate Balanced(b: Sheet) {
    && RefcountsBalance(b)
    && ListsOwned(b)
    && HeadsTracked(b)
    && PinsBalance(b)
    && EntriesOk(b)
    && CreationsAlone(b)
    && LoadsAlone(b)
  }

  // ---- Changes that keep the books balanced

  /** Only party t is different. */
  predicate OneParty(b: Sheet, b1: Sheet, t: nat) {
    t < |b.parties| == |b1.parties| && b1.parties == b.parties[t := b1.parties[t]]
  }

  /** Pointers and carried references change hands, or are leaked; no refcount changes. A task may
      begin to create when no dynamic vector has the bitmap. */
  lemma Reassign(b: Sheet, b1: Sheet, t: nat)
    requires Balanced(b) && OneParty(b, b1, t) && b1 == b.(parties := b1.parties, leaked := b1.leaked)
    requires forall a: nat | a != 0 :: Claim(b1.parties[t], a) + b1.leaked[a] == Claim(b.parties[t], a) + b.leaked[a]
    requires var k, k1 := b.parties[t].stake, b1.parties[t].stake;
      && k1 == k.(carry := k1.carry, removing := k1.removing, creates := k1.creates)
      && CreationOk(b.reg.entries, k1.creates)
    ensures Balanced(b1)
  {
    PartyUpdate(b.parties, t, b1.parties[t]);
  }

  /** A refcount, and the pin count of its module, change together with the claims of task t. */
  lemma Bumped(b: Sheet, b1: Sheet, t: nat, i: nat, d: int)
    requires Balanced(b) && OneParty(b, b1, t) && i < |b.reg.entries|
    requires b1 == b.(reg := Bump(b.reg, i, d), parties := b1.parties)
    requires b.reg.entries[i].refcount + d >= 0
    requires forall a: nat | a != 0 ::
               Claim(b1.parties[t], a) == Claim(b.parties[t], a) + if b.reg.entries[i].addr == a then d else 0
    requires var k, k1 := b.parties[t].stake, b1.parties[t].stake;
      && k1 == k.(carry := k1.carry, removing := k1.removing, creates := k1.creates)
      && CreationOk(b.reg.entries, k1.creates)
    ensures Balanced(b1)
  {
    BumpedSums(b, b1, t, i, d);
    BumpedEntries(b, b1, i, d);
  }

  lemma BumpedSums(b: Sheet, b1: Sheet, t: nat, i: nat, d: int)
    requires RefcountsBalance(b) && ListsOwned(b) && HeadsTracked(b) && PinsBalance(b)
    requires OneParty(b, b1, t) && i < |b.reg.entries|
    requires b1 == b.(reg := Bump(b.reg, i, d), parties := b1.parties)
    requires forall a: nat | a != 0 ::
               Claim(b1.parties[t], a) == Claim(b.parties[t], a) + if b.reg.entries[i].addr == a then d else 0
    requires var k, k1 := b.parties[t].stake, b1.parties[t].stake;
      k1 == k.(carry := k1.carry, removing := k1.removing, creates := k1.creates)
    ensures RefcountsBalance(b1) && ListsOwned(b1) && HeadsTracked(b1) && PinsBalance(b1)
  {
    PartyUpdate(b.parties, t, b1.parties[t]);
    EntryBump(b.reg.entries, i, d);
  }

  lemma BumpedEntries(b: Sheet, b1: Sheet, i: nat, d: int)
    requires i < |b.reg.entries| && b1.reg == Bump(b.reg, i, d) && b1.loaded == b.loaded
    requires EntriesOk(b) && OnePerBitmap(b.reg.entries) && b.reg.entries[i].refcount + d >= 0
    ensures EntriesOk(b1) && OnePerBitmap(b1.reg.entries)
    ensures forall m | NotOwned(b.reg.entries, m) :: NotOwned(b1.reg.entries, m)
    ensures forall c | NoDynamic(b.reg.entries, c) :: NoDynamic(b1.reg.entries, c)
  {
    forall k | 0 <= k < |b1.reg.entries| ensures EntryOk(b1, b1.reg.entries[k]) {
      assert EntryOk(b, b.reg.entries[k]);
    }
  }

  /** A task allocates a list. */
  lemma Allocated(b: Sheet, b1: Sheet, t: nat, a: nat)
    requires Balanced(b) && OneParty(b, b1, t) && a != 0 && a !in b.lists
    requires b1 == b.(parties := b1.parties, lists := b.lists + {a}, loaded := b1.loaded)
    requires b.parties[t].stake.list == 0 && b1.parties[t].vec == b.parties[t].vec
    requires var k1 := b1.parties[t].stake;
      && k1 == b.parties[t].stake.(list := a, loads := k1.loads)
      && if k1.loads.None? then b1.loaded == b.loaded
         else k1.loads.value !in b.loaded && b1.loaded == b.loaded + {k1.loads.value}
    ensures Balanced(b1)
  {
    PartyUpdate(b.parties, t, b1.parties[t]);
    UnloadedOwnsNothing(b, b1, t);
  }

  /** A module that was never loaded owns nothing and nobody loads it. */
  lemma UnloadedOwnsNothing(b: Sheet, b1: Sheet, t: nat)
    requires EntriesOk(b) && LoadsAlone(b) && OneParty(b, b1, t)
    requires b1.reg == b.reg && b1.loaded >= b.loaded
    requires var m := b1.parties[t].stake.loads;
      m == b.parties[t].stake.loads || (m.Some? ==> m.value !in b.loaded && m.value in b1.loaded)
    ensures LoadsAlone(b1) && EntriesOk(b1)
  {
    forall i | 0 <= i < |b1.reg.entries| ensures EntryOk(b1, b1.reg.entries[i]) {
      assert EntryOk(b, b.reg.entries[i]);
    }
    forall u | 0 <= u < |b1.parties| ensures LoadOk(b1, b1.parties[u].stake.loads) {
      assert LoadOk(b, b.parties[u].stake.loads);
      assert forall i | 0 <= i < |b.reg.entries| :: EntryOk(b, b.reg.entries[i]);
    }
  }

  /** The dynamic module is pinned for a vector that is about to be registered. */
  lemma Pinned(b: Sheet, b1: Sheet, t: nat)
    requires Balanced(b) && OneParty(b, b1, t)
    requires b1 == b.(reg := b.reg.(pins := Pin(b.reg.pins, DYNAMIC, 1)), parties := b1.parties)
    requires b1.parties[t] == b.parties[t].(stake := b.parties[t].stake.(pins := b.parties[t].stake.pins + 1))
    ensures Balanced(b1)
  {
    PartyUpdate(b.parties, t, b1.parties[t]);
  }

  /** A vector is registered with a first reference that its creator carries. */
  lemma RegisteredDynamic(b: Sheet, b1: Sheet, t: nat, bitmap: nat, a: nat)
    requires Balanced(b) && OneParty(b, b1, t)
    requires b1 == b.(reg := Register(b.reg, DynamicName(bitmap), a, DYNAMIC, bitmap, 1), parties := b1.parties)
    requires b.parties[t].stake == NO_STAKE.(creates := Some(bitmap), list := a, pins := 1)
    requires b1.parties[t] == b.parties[t].(stake := NO_STAKE.(carry := a, pending := multiset{a}))
    requires (a != 0 <==> Buildable(bitmap)) && Accepted(bitmap)
    requires forall u | 0 <= u < |b.parties| && u != t :: b.parties[u].stake.creates == None
    ensures Balanced(b1)
  {
    RegisteredSums(b, b1, t, bitmap, a);
    NewEntryKeepsEntries(b, b1, Entry(DynamicName(bitmap), bitmap, a, 1, bitmap, DYNAMIC));
    assert CreationOk(b.reg.entries, b.parties[t].stake.creates);
  }

  lemma RegisteredSums(b: Sheet, b1: Sheet, t: nat, bitmap: nat, a: nat)
    requires RefcountsBalance(b) && ListsOwned(b) && HeadsTracked(b) && PinsBalance(b) && OneParty(b, b1, t)
    requires b1 == b.(reg := Register(b.reg, DynamicName(bitmap), a, DYNAMIC, bitmap, 1), parties := b1.parties)
    requires b.parties[t].stake == NO_STAKE.(creates := Some(bitmap), list := a, pins := 1)
    requires b1.parties[t] == b.parties[t].(stake := NO_STAKE.(carry := a, pending := multiset{a}))
    ensures RefcountsBalance(b1) && ListsOwned(b1) && HeadsTracked(b1) && PinsBalance(b1)
  {
    PartyUpdate(b.parties, t, b1.parties[t]);
    EntryPrepend(Entry(DynamicName(bitmap), bitmap, a, 1, bitmap, DYNAMIC), b.reg.entries);
  }

  /** What a new entry leaves true. */
  lemma NewEntryKeepsEntries(b: Sheet, b1: Sheet, e: Entry)
    requires EntriesOk(b) && b1.reg.entries == [e] + b.reg.entries && b1.loaded == b.loaded
    requires EntryOk(b, e) && (forall m | m in b1.reg.pins :: m in b.loaded)
    ensures EntriesOk(b1)
    ensures forall m | NotOwned(b.reg.entries, m) && e.owner != m :: NotOwned(b1.reg.entries, m)
    ensures forall c | NoDynamic(b.reg.entries, c) && e.owner != DYNAMIC :: NoDynamic(b1.reg.entries, c)
  {
    forall i | 0 <= i < |b1.reg.entries| ensures EntryOk(b1, b1.reg.entries[i]) {
      assert i > 0 ==> EntryOk(b, b.reg.entries[i - 1]);
    }
  }

  /** The creator points to the new vector and the module remembers it. */
  lemma Installed(b: Sheet, b1: Sheet, t: nat, a: nat)
    requires Balanced(b) && OneParty(b, b1, t)
    requires b1 == b.(heads := b.heads + [(DYNAMIC, a)], parties := b1.parties,
        leaked := Leak(b.leaked, b.parties[t].vec))
    requires b.parties[t].stake == NO_STAKE.(carry := a, pending := multiset{a})
    requires b1.parties[t] == Party(a, NO_STAKE)
    ensures Balanced(b1)
  {
    PartyUpdate(b.parties, t, b1.parties[t]);
    HeadsAppend(b.heads, (DYNAMIC, a));
  }

  /** A static module registers its vector and becomes live. */
  lemma RegisteredStatic(b: Sheet, b1: Sheet, t: nat, name: string, bitmap: nat, a: nat, m: nat)
    requires Balanced(b) && OneParty(b, b1, t) && NameOk(name) && a != 0
    requires var r := Register(b.reg, name, a, m, bitmap, 0);
      b1 == b.(reg := r.(pins := r.pins[m := 0]), heads := b.heads + [(m, a)], parties := b1.parties)
    requires b.parties[t].stake == NO_STAKE.(loads := Some(m), list := a)
    requires b1.parties[t] == b.parties[t].(stake := NO_STAKE)
    ensures Balanced(b1)
  {
    var e := Entry(name, bitmap, a, 0, bitmap, m);
    PartyUpdate(b.parties, t, b1.parties[t]);
    EntryPrepend(e, b.reg.entries);
    HeadsAppend(b.heads, (m, a));
    assert LoadOk(b, b.parties[t].stake.loads);
    NewEntryKeepsEntries(b, b1, e);
    NoRefs(b.reg.entries, m);
    NoPinsInFlight(b.parties, m);
    forall u | 0 <= u < |b1.parties| && u != t ensures LoadOk(b1, b1.parties[u].stake.loads) {
      assert LoadOk(b, b.parties[u].stake.loads);
      assert b.parties[u].stake.loads != Some(m);
    }
  }

  lemma {:induction false} NoRefs(es: seq<Entry>, m: nat)
    requires NotOwned(es, m)
    ensures RefsOfModule(es, m) == 0
  {
    SumZero(es, (e: Entry) => if e.owner == m then e.refcount else 0);
  }

  lemma {:induction false} NoPinsInFlight(ps: seq<Party>, m: nat)
    requires m != DYNAMIC
    ensures PinsInFlight(ps, m) == 0
  {
    SumZero(ps, (p: Party) => PinInFlight(p, m));
  }

  lemma {:induction false} SumZero<T>(s: seq<T>, f: T -> int)
    requires forall j | 0 <= j < |s| :: f(s[j]) == 0
    ensures Sum(s, f) == 0
  {
    if s != [] {
      SumZero(s[1..], f);
    }
  }

  /** A new task takes over a reference that was accounted as leaked. */
  lemma Spawned(b: Sheet, b1: Sheet, v: nat)
    requires Balanced(b)
    requires b1 == b.(parties := b.parties + [Party(v, NO_STAKE)], leaked := b1.leaked)
    requires Leak(b1.leaked, v) == b.leaked
    ensures Balanced(b1)
  {
    PartyAppend(b.parties, Party(v, NO_STAKE));
  }

  function HeadsOf(heads: seq<(nat, nat)>, m: nat): seq<nat> {
    if heads == [] then []
    else (if heads[0].0 == m then [heads[0].1] else []) + HeadsOf(heads[1..], m)
  }

  function HeadsOfOthers(heads: seq<(nat, nat)>, m: nat): seq<(nat, nat)> {
    if heads == [] then []
    else (if heads[0].0 == m then [] else [heads[0]]) + HeadsOfOthers(heads[1..], m)
  }

  lemma {:induction false} HeadsSplit(heads: seq<(nat, nat)>, m: nat, a: nat)
    ensures HeadsAt(heads, a) == HeadsAt(HeadsOfOthers(heads, m), a) + multiset(HeadsOf(heads, m))[a]
    ensures |heads| == |HeadsOfOthers(heads, m)| + |HeadsOf(heads, m)|
  {
    if heads != [] {
      HeadsSplit(heads[1..], m, a);
      var f := (h: (nat, nat)) => if h.1 == a then 1 else 0;
      SumConcat(if heads[0].0 == m then [] else [heads[0]], HeadsOfOthers(heads[1..], m), f);
    }
  }

  /** A module goes: the task that unloads it remembers its lists from now on. */
  lemma Unloading(b: Sheet, b1: Sheet, t: nat, m: nat)
    requires Balanced(b) && OneParty(b, b1, t)
    requires b1 == b.(reg := b.reg.(pins := b.reg.pins - {m}), heads := HeadsOfOthers(b.heads, m),
        parties := b1.parties)
    requires b.parties[t].stake == NO_STAKE
    requires b1.parties[t] == b.parties[t].(stake := NO_STAKE.(pending := multiset(HeadsOf(b.heads, m))))
    ensures Balanced(b1)
  {
    PartyUpdate(b.parties, t, b1.parties[t]);
    forall a: nat | a != 0
      ensures EntriesAt(b1.reg.entries, a) == HeadsAt(b1.heads, a) + Pendings(b1.parties, a)
    {
      HeadsSplit(b.heads, m, a);
    }
    assert HeadsTracked(b1);
    SameEntriesKeepPromises(b, b1, t);
  }

  /** The promises about creations and loads do not change with pins, heads or other stakes. */
  lemma SameEntriesKeepPromises(b: Sheet, b1: Sheet, t: nat)
    requires EntriesOk(b) && CreationsAlone(b) && LoadsAlone(b) && OneParty(b, b1, t)
    requires b1.reg.entries == b.reg.entries && b1.reg.pins.Keys <= b.reg.pins.Keys && b1.loaded == b.loaded
    requires b1.parties[t].stake.creates == b.parties[t].stake.creates
    requires b1.parties[t].stake.loads == b.parties[t].stake.loads
    ensures EntriesOk(b1) && CreationsAlone(b1) && LoadsAlone(b1)
  {
    forall i | 0 <= i < |b1.reg.entries| ensures EntryOk(b1, b1.reg.entries[i]) {
      assert EntryOk(b, b.reg.entries[i]);
    }
    forall u | 0 <= u < |b1.parties|
      ensures CreationOk(b1.reg.entries, b1.parties[u].stake.creates) && LoadOk(b1, b1.parties[u].stake.loads)
    {
      assert CreationOk(b.reg.entries, b.parties[u].stake.creates) && LoadOk(b, b.parties[u].stake.loads);
    }
  }

  /** An unreferenced entry is taken out; its list is condemned. */
  lemma Unregistered(b: Sheet, b1: Sheet, t: nat, i: nat)
    requires Balanced(b) && OneParty(b, b1, t) && i < |b.reg.entries| && b.reg.entries[i].refcount <= 0
    requires b1 == b.(reg := b.reg.(entries := b.reg.entries[..i] + b.reg.entries[i + 1..]), parties := b1.parties)
    requires var a := b.reg.entries[i].addr;
      && b.parties[t].stake == NO_STAKE.(pending := multiset{a} + b1.parties[t].stake.pending)
      && b1.parties[t] == b.parties[t].(stake := NO_STAKE.(list := a, pending := b1.parties[t].stake.pending))
    ensures Balanced(b1)
  {
    PartyUpdate(b.parties, t, b1.parties[t]);
    EntryRemove(b.reg.entries, i);
    assert EntryOk(b, b.reg.entries[i]);
    RemovalKeepsEntries(b, b1, i);
  }

  lemma RemovalKeepsEntries(b: Sheet, b1: Sheet, i: nat)
    requires i < |b.reg.entries| && b1.reg.entries == b.reg.entries[..i] + b.reg.entries[i + 1..]
    requires EntriesOk(b) && OnePerBitmap(b.reg.entries) && b1.loaded == b.loaded && b1.reg.pins == b.reg.pins
    ensures EntriesOk(b1) && OnePerBitmap(b1.reg.entries)
    ensures forall m | NotOwned(b.reg.entries, m) :: NotOwned(b1.reg.entries, m)
    ensures forall c | NoDynamic(b.reg.entries, c) :: NoDynamic(b1.reg.entries, c)
  {
    var (es, es1) := (b.reg.entries, b1.reg.entries);
    assert forall k | 0 <= k < |es1| :: es1[k] == es[if k < i then k else k + 1];
    forall k | 0 <= k < |es1| ensures EntryOk(b1, es1[k]) {
      assert EntryOk(b, es[if k < i then k else k + 1]);
    }
  }

  /** A condemned list is freed. */
  lemma Freed(b: Sheet, b1: Sheet, t: nat, a: nat)
    requires Balanced(b) && OneParty(b, b1, t)
    requires b1 == b.(lists := b.lists - {a}, parties := b1.parties)
    requires b.parties[t].stake.list == a
    requires b1.parties[t]
        == b.parties[t].(stake := b.parties[t].stake.(list := 0, pending := b1.parties[t].stake.pending))
    requires forall c | c != 0 :: Pending(b1.parties[t], c) == Pending(b.parties[t], c)
    ensures Balanced(b1)
  {
    PartyUpdate(b.parties, t, b1.parties[t]);
    forall c: nat | c != 0
      ensures EntriesAt(b1.reg.entries, c) + ListsHeld(b1.parties, c) == if c in b1.lists then 1 else 0
    {
      SumAtLeast(b.parties, t, (p: Party) => ListOf(p, c));
      SumNonNegative(b1.parties, (p: Party) => ListOf(p, c));
      SumNonNegative(b.reg.entries, (e: Entry) => if e.addr == c then 1 else 0);
    }
  }
}
