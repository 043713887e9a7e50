/** Conditions that can be checked before a call and that keep every run disciplined: a look-up finds a
    vector of a module that is not being unloaded, a task into which a vector is about to be stored does
    not begin to share, and a REMOVE names the vector its caller holds. */
module Guards {
  import opened Sums
  import opened Registry
  import opened Ledger
  import opened Protocol
  import opened Invariant
  import opened Steps
  import opened Safety

  // ---- The guards

  /** try_module_get succeeds for what the look-up finds, if it finds a list. */
  predicate FindsLive(r: Table, k: Key) {
    var i := Find(r.entries, k);
    i < |r.entries| && r.entries[i].addr != 0 ==> r.entries[i].owner in r.pins
  }

  /** Where sys_clone2 is on its way to store a vector into task c. */
  predicate StoresTo(p: Pc, c: nat) {
    match At(p)
    case ClFind(d, _) => d == c
    case ClGet(d, _) => d == c
    case ClStore(d, _) => d == c
    case _ => false
  }

  predicate NobodyStoresTo(s: State, c: nat) {
    forall u | 0 <= u < |s.tasks| :: !StoresTo(s.tasks[u].pc, c)
  }

  predicate Careful(s: State, t: nat)
    requires t < |s.tasks|
  {
    var th := s.tasks[t];
    match th.pc
    case Idle => th.todo != [] && th.todo[0].Clone? && th.todo[0].share ==> NobodyStoresTo(s, t)
    case SetGet(name) => FindsLive(s.reg, ByName(name))
    case CrCheck(b) => FindsLive(s.reg, ByBitmap(b))
    case ClGet(_, id) => FindsLive(s.reg, ByBitmap(id))
    case RemReduce(name) =>
      var i := Find(s.reg.entries, ByName(name));
      i < |s.reg.entries| ==> th.vec != 0 && s.reg.entries[i].addr == th.vec
    case _ => true
  }

  /** While no module is being unloaded, every call is careful but a REMOVE of a vector its caller does not hold,
      and a sharing clone of a task that is itself about to be given a vector. */
  lemma LiveIsCareful(s: State, t: nat)
    requires t < |s.tasks| && forall i | 0 <= i < |s.reg.entries| :: s.reg.entries[i].owner in s.reg.pins
    requires forall u | 0 <= u < |s.tasks| ::
               var p := At(s.tasks[u].pc);
               p.ClFind? || p.ClGet? || p.ClStore? ==> p.child != t
    requires s.tasks[t].pc.RemReduce? && Has(s.reg.entries, ByName(s.tasks[t].pc.name)) ==>
      var a := s.reg.entries[Find(s.reg.entries, ByName(s.tasks[t].pc.name))].addr; a == s.tasks[t].vec != 0
    ensures Careful(s, t)
  {
    forall u | 0 <= u < |s.tasks| ensures !StoresTo(s.tasks[u].pc, t) {
      var p := At(s.tasks[u].pc);
      assert p.ClFind? || p.ClGet? || p.ClStore? ==> p.child != t;
    }
  }

  // ---- Who owns what is remembered

  /** The addresses that have a vector, with its owner. */
  function Owners(es: seq<Entry>): set<(nat, nat)> {
    set i | 0 <= i < |es| :: (es[i].addr, es[i].owner)
  }

  /** Vectors of modules that cannot be pinned are not referenced. */
  predicate Unreferenced(r: Table) {
    forall i | 0 <= i < |r.entries| && r.entries[i].addr != 0 && r.entries[i].owner !in r.pins ::
        r.entries[i].refcount == 0
  }

  /** What is at these addresses belongs to modules that are being unloaded. */
  ghost predicate Doomed(r: Table, rest: seq<nat>) {
    forall o | o in Owners(r.entries) && o.0 != 0 && o.0 in rest :: o.1 !in r.pins
  }

  ghost predicate OwnedBy(r: Table, a: nat, m: nat) {
    forall o | o in Owners(r.entries) && o.0 == a :: o.1 == m
  }

  ghost predicate PositionOk(r: Table, p: Pc) {
    match At(p)
    case CrInstall(a) => a != 0 ==> OwnedBy(r, a, DYNAMIC)
    case UnLoop(rest) => Doomed(r, rest)
    case UnRemove(a, rest) => Doomed(r, [a] + rest)
    case UnFree(a, ret, rest) => (a != 0 ==> ret == 0) && Doomed(r, rest)
    case _ => true
  }

  ghost predicate HeadsOwned(r: Table, heads: seq<(nat, nat)>) {
    forall k | 0 <= k < |heads| && heads[k].1 != 0 :: OwnedBy(r, heads[k].1, heads[k].0)
  }

  ghost predicate Owned(s: State) {
    && Unreferenced(s.reg)
    && HeadsOwned(s.reg, s.heads)
    && (s.outer.Held? ==> DYNAMIC in s.reg.pins)
    && (forall t | 0 <= t < |s.tasks| :: PositionOk(s.reg, s.tasks[t].pc))
  }

  /** Positions are the same but for task t, and for children. */
  predicate OnlyMoved(s: State, s1: State, t: nat) {
    && t < |s.tasks| <= |s1.tasks|
    && (forall u | 0 <= u < |s.tasks| && u != t :: s1.tasks[u].pc == s.tasks[u].pc)
    && (forall u | |s.tasks| <= u < |s1.tasks| :: s1.tasks[u].pc == Idle)
  }

  /** A step that adds no vector and no module, and remembers nothing new. */
  lemma FewerOwnersKeepOwned(s: State, s1: State, t: nat)
    requires Owned(s) && OnlyMoved(s, s1, t)
    requires Owners(s1.reg.entries) <= Owners(s.reg.entries) && s1.reg.pins.Keys == s.reg.pins.Keys
    requires s1.heads == s.heads && Unreferenced(s1.reg)
    requires s1.outer.Held? ==> DYNAMIC in s1.reg.pins
    requires PositionOk(s1.reg, s1.tasks[t].pc)
    ensures Owned(s1)
  {
    forall u | 0 <= u < |s.tasks| && u != t ensures PositionOk(s1.reg, s1.tasks[u].pc) {
      assert PositionOk(s.reg, s.tasks[u].pc);
    }
  }

  lemma BumpOwners(r: Table, i: nat, d: int)
    requires i < |r.entries| && Unreferenced(r)
    requires r.entries[i].addr != 0 ==> r.entries[i].owner in r.pins
    ensures Owners(Bump(r, i, d).entries) == Owners(r.entries) && Bump(r, i, d).pins.Keys == r.pins.Keys
    ensures Unreferenced(Bump(r, i, d))
  {
    var es := Bump(r, i, d).entries;
    assert forall k | 0 <= k < |es| :: es[k].addr == r.entries[k].addr && es[k].owner == r.entries[k].owner;
    forall o | o in Owners(r.entries) ensures o in Owners(es) {
      var k :| 0 <= k < |r.entries| && o == (r.entries[k].addr, r.entries[k].owner);
      assert o == (es[k].addr, es[k].owner);
    }
  }

  /** A vector somebody claims belongs to a module that is pinned. */
  lemma ClaimedIsLive(s: State, t: nat, a: nat)
    requires Inv(s) && Owned(s) && t < |s.tasks| && a != 0 && Claim(PartyOf(s.tasks[t]), a) > 0
    ensures var i := Find(s.reg.entries, ByAddr(a)); i < |s.reg.entries| && s.reg.entries[i].owner in s.reg.pins
  {
    ClaimedIsRegistered(s, t, a);
  }

  /** No other place remembers an address that has no vector. */
  lemma NowhereRemembered(s: State, a: nat)
    requires Inv(s) && a != 0 && !Has(s.reg.entries, ByAddr(a))
    ensures forall o | o in Owners(s.reg.entries) :: o.0 != a
    ensures forall k | 0 <= k < |s.heads| :: s.heads[k].1 != a
    ensures forall u | 0 <= u < |s.tasks| :: a !in StakeOf(s.tasks[u].pc).pending
  {
    var (b, es) := (SheetOf(s), s.reg.entries);
    assert forall i | 0 <= i < |es| :: !Matches(es[i], ByAddr(a));
    SumZero(es, (e: Entry) => if e.addr == a then 1 else 0);
    assert EntriesAt(es, a) == 0 == HeadsAt(s.heads, a) + Pendings(b.parties, a);
    SumNonNegative(s.heads, (h: (nat, nat)) => if h.1 == a then 1 else 0);
    SumNonNegative(b.parties, (p: Party) => Pending(p, a));
    forall k | 0 <= k < |s.heads| ensures s.heads[k].1 != a {
      SumAtLeast(s.heads, k, (h: (nat, nat)) => if h.1 == a then 1 else 0);
    }
    forall u | 0 <= u < |s.tasks| ensures a !in StakeOf(s.tasks[u].pc).pending {
      SumAtLeast(b.parties, u, (p: Party) => Pending(p, a));
      assert b.parties[u] == PartyOf(s.tasks[u]);
    }
  }

  /** Nothing is remembered here. */
  predicate Plain(p: Pc) {
    var q := At(p);
    !q.CrInstall? && !q.UnLoop? && !q.UnRemove? && !q.UnFree?
  }

  /** A step that leaves the registry's owners alone. */
  lemma SameOwnersKeepOwned(s: State, s1: State, t: nat)
    requires Owned(s) && OnlyMoved(s, s1, t) && Plain(s1.tasks[t].pc)
    requires s1.reg.entries == s.reg.entries && s1.reg.pins.Keys == s.reg.pins.Keys && s1.heads == s.heads
    requires s1.outer.Held? ==> DYNAMIC in s1.reg.pins
    ensures Owned(s1)
  {
    FewerOwnersKeepOwned(s, s1, t);
  }

  /** A step that counts at a vector of a live module. */
  lemma BumpKeepsOwned(s: State, s1: State, t: nat, i: nat, d: int)
    requires Owned(s) && OnlyMoved(s, s1, t) && Plain(s1.tasks[t].pc) && i < |s.reg.entries|
    requires s.reg.entries[i].addr != 0 ==> s.reg.entries[i].owner in s.reg.pins
    requires s1.reg == Bump(s.reg, i, d) && s1.heads == s.heads && s1.outer == s.outer
    ensures Owned(s1)
  {
    BumpOwners(s.reg, i, d);
    FewerOwnersKeepOwned(s, s1, t);
  }

  // ---- Every careful step keeps that

  lemma StartOwned(s: State, t: nat)
    requires Owned(s) && t < |s.tasks| && s.tasks[t].pc.Idle? && s.tasks[t].todo != []
    ensures Owned(StepStart(s, t))
  {
    SameOwnersKeepOwned(s, StepStart(s, t), t);
  }

  lemma LockOwned(s: State, t: nat)
    requires Inv(s) && Owned(s) && t < |s.tasks| && (s.tasks[t].pc.Lock? || s.tasks[t].pc.Unlock?)
    ensures Owned(StepLock(s, t))
  {
    assert PcOk(s.tasks[t].pc);
    assert PositionOk(s.reg, s.tasks[t].pc);
    FewerOwnersKeepOwned(s, StepLock(s, t), t);
  }

  lemma IoctlOwned(s: State, t: nat)
    requires Owned(s) && t < |s.tasks| && (s.tasks[t].pc.EnterIoctl? || s.tasks[t].pc.LeaveIoctl?)
    ensures Owned(StepIoctl(s, t))
  {
    SameOwnersKeepOwned(s, StepIoctl(s, t), t);
  }

  lemma SetGetOwned(s: State, t: nat)
    requires Owned(s) && t < |s.tasks| && s.tasks[t].pc.SetGet? && FindsLive(s.reg, ByName(s.tasks[t].pc.name))
    ensures Owned(StepSet(s, t))
  {
    var i := Find(s.reg.entries, ByName(s.tasks[t].pc.name));
    if i < |s.reg.entries| {
      BumpKeepsOwned(s, StepSet(s, t), t, i, 1);
    } else {
      SameOwnersKeepOwned(s, StepSet(s, t), t);
    }
  }

  lemma SetReduceOwned(s: State, t: nat)
    requires Inv(s) && Owned(s) && t < |s.tasks| && s.tasks[t].pc.SetReduce?
    ensures Owned(StepSet(s, t))
  {
    SetReduceNothing(s, t);
    SameOwnersKeepOwned(s, StepSet(s, t), t);
  }

  lemma SetRestOwned(s: State, t: nat)
    requires Owned(s) && t < |s.tasks|
    requires s.tasks[t].pc.SetShow? || s.tasks[t].pc.SetClear? || s.tasks[t].pc.SetInstall?
    ensures Owned(StepSet(s, t))
  {
    SameOwnersKeepOwned(s, StepSet(s, t), t);
  }

  lemma RemReduceOwned(s: State, t: nat)
    requires Inv(s) && Owned(s) && t < |s.tasks| && s.tasks[t].pc.RemReduce? && Disciplined(s, t)
    ensures Owned(StepRemove(s, t))
  {
    var (i, vec) := (Find(s.reg.entries, ByName(s.tasks[t].pc.name)), s.tasks[t].vec);
    if i < |s.reg.entries| {
      ClaimedIsRegistered(s, t, vec);
      ClaimedIsLive(s, t, vec);
      BumpKeepsOwned(s, StepRemove(s, t), t, i, -1);
    } else {
      SameOwnersKeepOwned(s, StepRemove(s, t), t);
    }
  }

  lemma RemClearOwned(s: State, t: nat)
    requires Owned(s) && t < |s.tasks| && s.tasks[t].pc.RemClear?
    ensures Owned(StepRemove(s, t))
  {
    SameOwnersKeepOwned(s, StepRemove(s, t), t);
  }

  lemma ExitOwned(s: State, t: nat)
    requires Inv(s) && Owned(s) && t < |s.tasks| && s.tasks[t].pc.ExReduce?
    ensures Owned(StepExit(s, t))
  {
    var (vec, s1) := (s.tasks[t].vec, StepExit(s, t));
    assert s1.heads == s.heads && s1.outer == s.outer && OnlyMoved(s, s1, t) && Plain(s1.tasks[t].pc);
    if vec != 0 {
      ClaimedIsLive(s, t, vec);
      BumpKeepsOwned(s, s1, t, Find(s.reg.entries, ByAddr(vec)), -1);
    } else {
      SameOwnersKeepOwned(s, s1, t);
    }
  }

  lemma CrCheckOwned(s: State, t: nat)
    requires Owned(s) && t < |s.tasks| && s.tasks[t].pc.CrCheck? && FindsLive(s.reg, ByBitmap(s.tasks[t].pc.bitmap))
    ensures Owned(StepCreate(s, t, 0))
  {
    var i := Find(s.reg.entries, ByBitmap(s.tasks[t].pc.bitmap));
    if i < |s.reg.entries| {
      BumpKeepsOwned(s, StepCreate(s, t, 0), t, i, 1);
    } else {
      SameOwnersKeepOwned(s, StepCreate(s, t, 0), t);
    }
  }

  lemma CrRestOwned(s: State, t: nat, spare: nat)
    requires Owned(s) && t < |s.tasks|
    requires s.tasks[t].pc.CrAdopt? || s.tasks[t].pc.CrBuild? || s.tasks[t].pc.CrPin?
    ensures Owned(StepCreate(s, t, spare))
  {
    SameOwnersKeepOwned(s, StepCreate(s, t, spare), t);
  }

  lemma ClRefMoves(s: State, t: nat)
    requires t < |s.tasks| && s.tasks[t].pc.ClRef?
    ensures var s1 := StepClone(s, t);
      && s1.reg == Acquire(s.reg, ByAddr(s.tasks[t].vec)).0 && s1.heads == s.heads && s1.outer == s.outer
      && OnlyMoved(s, s1, t) && Plain(s1.tasks[t].pc)
  {
  }

  lemma ClRefOwned(s: State, t: nat)
    requires Inv(s) && Owned(s) && t < |s.tasks| && s.tasks[t].pc.ClRef?
    ensures Owned(StepClone(s, t))
  {
    var (vec, s1) := (s.tasks[t].vec, StepClone(s, t));
    var i := Find(s.reg.entries, ByAddr(vec));
    ClRefMoves(s, t);
    if i < |s.reg.entries| {
      if vec != 0 {
        ClaimedIsLive(s, t, vec);
      }
      BumpKeepsOwned(s, s1, t, i, 1);
    } else {
      SameOwnersKeepOwned(s, s1, t);
    }
  }

  lemma ClGetOwned(s: State, t: nat)
    requires Owned(s) && t < |s.tasks| && s.tasks[t].pc.ClGet? && FindsLive(s.reg, ByBitmap(s.tasks[t].pc.id))
    ensures Owned(StepClone(s, t))
  {
    var i := Find(s.reg.entries, ByBitmap(s.tasks[t].pc.id));
    if i < |s.reg.entries| {
      BumpKeepsOwned(s, StepClone(s, t), t, i, 1);
    } else {
      SameOwnersKeepOwned(s, StepClone(s, t), t);
    }
  }

  lemma ClCopyOwned(s: State, t: nat)
    requires Owned(s) && t < |s.tasks| && s.tasks[t].pc.ClCopy?
    ensures Owned(StepClone(s, t))
  {
    SameOwnersKeepOwned(s, StepClone(s, t), t);
  }

  lemma ClFindOwned(s: State, t: nat)
    requires Owned(s) && t < |s.tasks| && s.tasks[t].pc.ClFind?
    ensures Owned(StepClone(s, t))
  {
    SameOwnersKeepOwned(s, StepClone(s, t), t);
  }

  lemma ClStoreMoves(s: State, t: nat)
    requires t < |s.tasks| && s.tasks[t].pc.ClStore?
    ensures var s1 := StepClone(s, t);
      && s1.reg == s.reg && s1.heads == s.heads && s1.outer == s.outer
      && OnlyMoved(s, s1, t) && Plain(s1.tasks[t].pc)
  {
  }

  lemma ClStoreOwned(s: State, t: nat)
    requires Owned(s) && t < |s.tasks| && s.tasks[t].pc.ClStore?
    ensures Owned(StepClone(s, t))
  {
    ClStoreMoves(s, t);
    SameOwnersKeepOwned(s, StepClone(s, t), t);
  }

  // ---- New vectors, new modules, and modules that go

  lemma PrependOwners(e: Entry, es: seq<Entry>)
    ensures Owners([e] + es) == Owners(es) + {(e.addr, e.owner)}
  {
    var all := [e] + es;
    forall o | o in Owners(es) + {(e.addr, e.owner)} ensures o in Owners(all) {
      if o == (e.addr, e.owner) {
        assert o == (all[0].addr, all[0].owner);
      } else {
        var k :| 0 <= k < |es| && o == (es[k].addr, es[k].owner);
        assert o == (all[k + 1].addr, all[k + 1].owner);
      }
    }
  }

  lemma CrInstallOwned(s: State, t: nat)
    requires Owned(s) && t < |s.tasks| && s.tasks[t].pc.CrInstall?
    ensures Owned(StepCreate(s, t, 0))
  {
    var s1 := StepCreate(s, t, 0);
    assert PositionOk(s.reg, s.tasks[t].pc);
    forall k | 0 <= k < |s1.heads| && s1.heads[k].1 != 0 ensures OwnedBy(s1.reg, s1.heads[k].1, s1.heads[k].0) {
      assert k < |s.heads| ==> s1.heads[k] == s.heads[k];
    }
    forall u | 0 <= u < |s1.tasks| ensures PositionOk(s1.reg, s1.tasks[u].pc) {
      assert PositionOk(s.reg, s.tasks[u].pc);
    }
  }

  /** The first vector at an address where nothing was is no matter to what is remembered. */
  lemma NewVector(s: State, r1: Table, e: Entry, u: nat)
    requires Inv(s) && Owned(s) && r1.entries == [e] + s.reg.entries
    requires e.addr == 0 || !Has(s.reg.entries, ByAddr(e.addr))
    requires forall o | o in Owners(s.reg.entries) && o.1 in r1.pins :: o.1 in s.reg.pins
    ensures HeadsOwned(r1, s.heads)
    ensures u < |s.tasks| ==> PositionOk(r1, s.tasks[u].pc)
  {
    PrependOwners(e, s.reg.entries);
    if e.addr != 0 {
      NowhereRemembered(s, e.addr);
    }
    if u < |s.tasks| {
      assert PositionOk(s.reg, s.tasks[u].pc);
    }
  }

  lemma CrRegisterOwned(s: State, t: nat)
    requires Inv(s) && Owned(s) && t < |s.tasks| && s.tasks[t].pc.CrRegister?
    ensures Owned(StepCreate(s, t, 0))
  {
    var (s1, a) := (StepCreate(s, t, 0), s.tasks[t].pc.va);
    var e := s1.reg.entries[0];
    assert s1.reg.entries == [e] + s.reg.entries && e.addr == a && e.owner == DYNAMIC;
    assert s.outer == Held(t);
    if a != 0 {
      ListHeldIsUnregistered(s, t, a);
      NowhereRemembered(s, a);
    }
    PrependOwners(e, s.reg.entries);
    forall u | 0 <= u < |s.tasks| ensures PositionOk(s1.reg, s1.tasks[u].pc) {
      NewVector(s, s1.reg, e, u);
    }
    NewVector(s, s1.reg, e, t);
  }

  lemma LdRegisterOwned(s: State, t: nat, spare: nat)
    requires Inv(s) && Owned(s) && t < |s.tasks| && s.tasks[t].pc.LdRegister?
    ensures Owned(StepLoad(s, t, spare))
  {
    var (s1, a, m) := (StepLoad(s, t, spare), s.tasks[t].pc.va, s.tasks[t].pc.mod);
    var e := s1.reg.entries[0];
    assert s1.reg.entries == [e] + s.reg.entries && e.addr == a && e.owner == m;
    var b := SheetOf(s);
    assert b.parties[t] == PartyOf(s.tasks[t]) && LoadOk(b, b.parties[t].stake.loads);
    ListHeldIsUnregistered(s, t, a);
    NowhereRemembered(s, a);
    PrependOwners(e, s.reg.entries);
    NewVector(s, s1.reg, e, t);
    forall k | 0 <= k < |s1.heads| && s1.heads[k].1 != 0 ensures OwnedBy(s1.reg, s1.heads[k].1, s1.heads[k].0) {
      assert k < |s.heads| ==> s1.heads[k] == s.heads[k];
    }
    forall u | 0 <= u < |s.tasks| ensures PositionOk(s1.reg, s1.tasks[u].pc) {
      NewVector(s, s1.reg, e, u);
    }
  }

  lemma LdBuildOwned(s: State, t: nat, spare: nat)
    requires Owned(s) && t < |s.tasks| && s.tasks[t].pc.LdBuild?
    ensures Owned(StepLoad(s, t, spare))
  {
    SameOwnersKeepOwned(s, StepLoad(s, t, spare), t);
  }

  lemma {:induction false} HeadsOfAt(heads: seq<(nat, nat)>, m: nat, a: nat)
    ensures a in HeadsOf(heads, m) ==> (m, a) in heads
  {
    if heads != [] {
      HeadsOfAt(heads[1..], m, a);
    }
  }

  lemma {:induction false} HeadsOfOthersAt(heads: seq<(nat, nat)>, m: nat, h: (nat, nat))
    ensures h in HeadsOfOthers(heads, m) ==> h in heads
  {
    if heads != [] {
      HeadsOfOthersAt(heads[1..], m, h);
    }
  }

  /** What a module remembers is doomed once it cannot be pinned. */
  lemma HeadsDoomed(r: Table, r1: Table, heads: seq<(nat, nat)>, m: nat)
    requires HeadsOwned(r, heads) && r1.entries == r.entries && m !in r1.pins
    ensures Doomed(r1, HeadsOf(heads, m)) && HeadsOwned(r1, HeadsOfOthers(heads, m))
  {
    forall o | o in Owners(r.entries) && o.0 != 0 && o.0 in HeadsOf(heads, m) ensures o.1 !in r1.pins {
      HeadsOfAt(heads, m, o.0);
      var k :| 0 <= k < |heads| && heads[k] == (m, o.0);
      assert OwnedBy(r, heads[k].1, heads[k].0);
    }
    var others := HeadsOfOthers(heads, m);
    forall k | 0 <= k < |others| && others[k].1 != 0 ensures OwnedBy(r1, others[k].1, others[k].0) {
      HeadsOfOthersAt(heads, m, others[k]);
      var j :| 0 <= j < |heads| && heads[j] == others[k];
      assert OwnedBy(r, heads[j].1, heads[j].0);
    }
  }

  lemma UnBeginOwned(s: State, t: nat)
    requires Inv(s) && Owned(s) && t < |s.tasks| && s.tasks[t].pc.UnBegin?
    ensures Owned(StepUnload(s, t))
  {
    var (s1, m) := (StepUnload(s, t), s.tasks[t].pc.mod);
    if MayUnload(s, m) {
      UnpinnedIsUnreferenced(s, m);
      HeadsDoomed(s.reg, s1.reg, s.heads, m);
      forall u | 0 <= u < |s.tasks| && u != t ensures PositionOk(s1.reg, s1.tasks[u].pc) {
        assert PositionOk(s.reg, s.tasks[u].pc);
      }
    } else {
      SameOwnersKeepOwned(s, s1, t);
    }
  }

  lemma UnLoopOwned(s: State, t: nat)
    requires Owned(s) && t < |s.tasks| && s.tasks[t].pc.UnLoop?
    ensures Owned(StepUnload(s, t))
  {
    var rest := s.tasks[t].pc.rest;
    assert PositionOk(s.reg, s.tasks[t].pc);
    if rest != [] {
      assert [rest[0]] + rest[1..] == rest;
    }
    FewerOwnersKeepOwned(s, StepUnload(s, t), t);
  }

  /** What an unloading task is about to unregister is registered and not referenced. */
  lemma DoomedIsUnreferenced(s: State, t: nat)
    requires Inv(s) && Owned(s) && t < |s.tasks| && s.tasks[t].pc.UnRemove? && s.tasks[t].pc.va != 0
    ensures Unregister(s.reg, s.tasks[t].pc.va).1 == 0
  {
    var (a, es) := (s.tasks[t].pc.va, s.reg.entries);
    assert a in StakeOf(s.tasks[t].pc).pending;
    if !Has(es, ByAddr(a)) {
      NowhereRemembered(s, a);
    }
    var i := Find(es, ByAddr(a));
    assert (es[i].addr, es[i].owner) in Owners(es);
    assert PositionOk(s.reg, s.tasks[t].pc);
  }

  lemma UnregisterOwners(r: Table, a: nat)
    requires Unreferenced(r)
    ensures var r1 := Unregister(r, a).0;
            Owners(r1.entries) <= Owners(r.entries) && r1.pins == r.pins && Unreferenced(r1)
  {
    var (es, rest, i) := (r.entries, Unregister(r, a).0.entries, Find(r.entries, ByAddr(a)));
    if i < |es| && es[i].refcount <= 0 {
      assert forall k | 0 <= k < |rest| :: rest[k] == es[if k < i then k else k + 1];
      forall o | o in Owners(rest) ensures o in Owners(es) {
        var k :| 0 <= k < |rest| && o == (rest[k].addr, rest[k].owner);
        assert rest[k] == es[if k < i then k else k + 1];
      }
    }
  }

  lemma UnRemoveMoves(s: State, t: nat)
    requires t < |s.tasks| && s.tasks[t].pc.UnRemove?
    ensures var (s1, a, rest) := (StepUnload(s, t), s.tasks[t].pc.va, s.tasks[t].pc.rest);
      && s1.reg == Unregister(s.reg, a).0 && s1.heads == s.heads && s1.outer == s.outer
      && OnlyMoved(s, s1, t) && s1.tasks[t].pc == Unlock(UnFree(a, Unregister(s.reg, a).1, rest))
  {
  }

  lemma UnRemovePosition(s: State, t: nat)
    requires Inv(s) && Owned(s) && t < |s.tasks| && s.tasks[t].pc.UnRemove?
    ensures PositionOk(Unregister(s.reg, s.tasks[t].pc.va).0, StepUnload(s, t).tasks[t].pc)
  {
    if s.tasks[t].pc.va != 0 {
      DoomedIsUnreferenced(s, t);
    }
    RemovedPosition(s, t);
  }

  lemma RemovedPosition(s: State, t: nat)
    requires Owned(s) && t < |s.tasks| && s.tasks[t].pc.UnRemove?
    requires s.tasks[t].pc.va != 0 ==> Unregister(s.reg, s.tasks[t].pc.va).1 == 0
    ensures PositionOk(Unregister(s.reg, s.tasks[t].pc.va).0, StepUnload(s, t).tasks[t].pc)
  {
    assert PositionOk(s.reg, s.tasks[t].pc);
    StillDoomed(s.reg, s.tasks[t].pc.va, s.tasks[t].pc.rest);
  }

  lemma StillDoomed(r: Table, a: nat, rest: seq<nat>)
    requires Unreferenced(r) && Doomed(r, [a] + rest)
    ensures Doomed(Unregister(r, a).0, rest)
  {
    UnregisterOwners(r, a);
    assert forall b | b in rest :: b in [a] + rest;
  }

  lemma UnRemoveOwned(s: State, t: nat)
    requires Inv(s) && Owned(s) && t < |s.tasks| && s.tasks[t].pc.UnRemove?
    ensures Owned(StepUnload(s, t))
  {
    var (s1, a) := (StepUnload(s, t), s.tasks[t].pc.va);
    UnRemoveMoves(s, t);
    UnregisterOwners(s.reg, a);
    UnRemovePosition(s, t);
    FewerOwnersKeepOwned(s, s1, t);
  }

  lemma UnFreeOwned(s: State, t: nat)
    requires Owned(s) && t < |s.tasks| && s.tasks[t].pc.UnFree?
    ensures Owned(StepUnload(s, t))
  {
    assert PositionOk(s.reg, s.tasks[t].pc);
    FewerOwnersKeepOwned(s, StepUnload(s, t), t);
  }

  // ---- Nobody stores into a task that shares

  /** Between the two reads of a sharing fork, or before them. */
  predicate Sharing(p: Pc) {
    match At(p)
    case ClRef(_) => true
    case ClCopy(op, _) => op.Clone? && op.share
    case _ => false
  }

  predicate SharesOk(s: State) {
    forall t | 0 <= t < |s.tasks| && Sharing(s.tasks[t].pc) ::
      NobodyStoresTo(s, t) && (At(s.tasks[t].pc).ClCopy? ==> At(s.tasks[t].pc).va == s.tasks[t].vec)
  }

  lemma SharesStay(s: State, s1: State, t: nat)
    requires SharesOk(s) && OnlyMoved(s, s1, t)
    requires forall u | 0 <= u < |s.tasks| && u != t && Sharing(s.tasks[u].pc) :: s1.tasks[u].vec == s.tasks[u].vec
    requires forall c | 0 <= c < |s.tasks| && StoresTo(s1.tasks[t].pc, c) :: StoresTo(s.tasks[t].pc, c)
    requires Sharing(s1.tasks[t].pc) ==> NobodyStoresTo(s, t)
    requires Sharing(s1.tasks[t].pc) && At(s1.tasks[t].pc).ClCopy? ==> At(s1.tasks[t].pc).va == s1.tasks[t].vec
    ensures SharesOk(s1)
  {
    forall u | 0 <= u < |s1.tasks| && Sharing(s1.tasks[u].pc) ensures NobodyStoresTo(s1, u) {
      assert u < |s.tasks|;
      forall w | 0 <= w < |s1.tasks| ensures !StoresTo(s1.tasks[w].pc, u) {
        assert w < |s.tasks| ==> !StoresTo(s.tasks[w].pc, u);
      }
    }
  }

  /** Outside of clones. */
  predicate Aloof(p: Pc) {
    var q := At(p);
    !q.ClRef? && !q.ClCopy? && !q.ClFind? && !q.ClGet? && !q.ClStore?
  }

  lemma AloofShares(s: State, s1: State, t: nat)
    requires SharesOk(s) && t < |s.tasks| == |s1.tasks| && s1.tasks == s.tasks[t := s1.tasks[t]]
    requires Aloof(s1.tasks[t].pc)
    ensures SharesOk(s1)
  {
    SharesStay(s, s1, t);
  }

  lemma StartShares(s: State, t: nat)
    requires SharesOk(s) && t < |s.tasks| && s.tasks[t].pc.Idle? && s.tasks[t].todo != [] && Careful(s, t)
    ensures SharesOk(StepStart(s, t))
  {
    SharesStay(s, StepStart(s, t), t);
  }

  lemma LockShares(s: State, t: nat)
    requires Inv(s) && SharesOk(s) && t < |s.tasks| && (s.tasks[t].pc.Lock? || s.tasks[t].pc.Unlock?)
    ensures SharesOk(StepLock(s, t))
  {
    assert PcOk(s.tasks[t].pc);
    SharesStay(s, StepLock(s, t), t);
  }

  /** What a sharing fork takes a reference on is what it points to. */
  lemma RefIsOwn(s: State, t: nat)
    requires Inv(s) && t < |s.tasks| && s.tasks[t].pc.ClRef?
    ensures Acquire(s.reg, ByAddr(s.tasks[t].vec)).1 == s.tasks[t].vec
  {
    if s.tasks[t].vec != 0 {
      ClaimedIsRegistered(s, t, s.tasks[t].vec);
    }
  }

  lemma ClRefShares(s: State, t: nat)
    requires Inv(s) && SharesOk(s) && t < |s.tasks| && s.tasks[t].pc.ClRef?
    ensures SharesOk(StepClone(s, t))
  {
    RefIsOwn(s, t);
    SharesStay(s, StepClone(s, t), t);
  }

  lemma ClCopyShares(s: State, t: nat)
    requires SharesOk(s) && t < |s.tasks| && s.tasks[t].pc.ClCopy?
    ensures SharesOk(StepClone(s, t))
  {
    SharesStay(s, StepClone(s, t), t);
  }

  lemma ClRestShares(s: State, t: nat)
    requires SharesOk(s) && t < |s.tasks| && (s.tasks[t].pc.ClFind? || s.tasks[t].pc.ClGet?)
    ensures SharesOk(StepClone(s, t))
  {
    SharesStay(s, StepClone(s, t), t);
  }

  lemma ClStoreShares(s: State, t: nat)
    requires SharesOk(s) && t < |s.tasks| && s.tasks[t].pc.ClStore?
    ensures SharesOk(StepClone(s, t))
  {
    var c := s.tasks[t].pc.child;
    assert StoresTo(s.tasks[t].pc, c);
    SharesStay(s, StepClone(s, t), t);
  }

  // ---- Runs

  ghost predicate Guarded(s: State) {
    Inv(s) && Owned(s) && SharesOk(s)
  }

  /** What is checked beforehand is enough for every step to be disciplined. */
  lemma CarefulIsDisciplined(s: State, t: nat)
    requires Guarded(s) && t < |s.tasks| && Careful(s, t)
    ensures Disciplined(s, t)
  {
    assert PositionOk(s.reg, s.tasks[t].pc);
  }

  lemma UnloadStepOwned(s: State, t: nat)
    requires Inv(s) && Owned(s) && t < |s.tasks|
    requires var p := s.tasks[t].pc; p.UnBegin? || p.UnLoop? || p.UnRemove? || p.UnFree?
    ensures Owned(StepUnload(s, t))
  {
    match s.tasks[t].pc
    case UnBegin(_) => UnBeginOwned(s, t);
    case UnLoop(_) => UnLoopOwned(s, t);
    case UnRemove(_, _) => UnRemoveOwned(s, t);
    case UnFree(_, _, _) => UnFreeOwned(s, t);
  }

  lemma CloneStepOwned(s: State, t: nat)
    requires Inv(s) && Owned(s) && t < |s.tasks| && Careful(s, t)
    requires var p := s.tasks[t].pc; p.ClRef? || p.ClCopy? || p.ClFind? || p.ClGet? || p.ClStore?
    ensures Owned(StepClone(s, t))
  {
    match s.tasks[t].pc
    case ClRef(_) => ClRefOwned(s, t);
    case ClCopy(_, _) => ClCopyOwned(s, t);
    case ClFind(_, _) => ClFindOwned(s, t);
    case ClGet(_, _) => ClGetOwned(s, t);
    case ClStore(_, _) => ClStoreOwned(s, t);
  }

  lemma IoctlStepOwned(s: State, t: nat, spare: nat)
    requires Inv(s) && Owned(s) && Enabled(s, t, spare) && Careful(s, t)
    requires HoldsOuter(s.tasks[t].pc) && !s.tasks[t].pc.Lock? && !s.tasks[t].pc.Unlock?
    ensures Owned(Step(s, t, spare))
  {
    match s.tasks[t].pc
    case LeaveIoctl => IoctlOwned(s, t);
    case SetGet(_) => SetGetOwned(s, t);
    case SetReduce(_, _) => SetReduceOwned(s, t);
    case SetShow(_) => SetRestOwned(s, t);
    case SetClear(_) => SetRestOwned(s, t);
    case SetInstall(_) => SetRestOwned(s, t);
    case RemReduce(_) => RemReduceOwned(s, t);
    case RemClear => RemClearOwned(s, t);
    case CrCheck(_) => CrCheckOwned(s, t);
    case CrRegister(_, _) => CrRegisterOwned(s, t);
    case CrInstall(_) => CrInstallOwned(s, t);
    case CrAdopt(_) => CrRestOwned(s, t, spare);
    case CrBuild(_) => CrRestOwned(s, t, spare);
    case CrPin(_, _) => CrRestOwned(s, t, spare);
  }

  lemma StepOwned(s: State, t: nat, spare: nat)
    requires Inv(s) && Owned(s) && Enabled(s, t, spare) && Careful(s, t)
    ensures Owned(Step(s, t, spare))
  {
    var p := s.tasks[t].pc;
    if p.Idle? {
      StartOwned(s, t);
    } else if p.Lock? || p.Unlock? {
      LockOwned(s, t);
    } else if p.EnterIoctl? {
      IoctlOwned(s, t);
    } else if HoldsOuter(p) {
      IoctlStepOwned(s, t, spare);
    } else if p.ClRef? || p.ClCopy? || p.ClFind? || p.ClGet? || p.ClStore? {
      CloneStepOwned(s, t);
    } else if p.ExReduce? {
      ExitOwned(s, t);
    } else if p.LdBuild? {
      LdBuildOwned(s, t, spare);
    } else if p.LdRegister? {
      LdRegisterOwned(s, t, spare);
    } else {
      UnloadStepOwned(s, t);
    }
  }

  lemma AloofSet(s: State, t: nat)
    requires t < |s.tasks|
    requires var p := s.tasks[t].pc; p.SetGet? || p.SetShow? || p.SetReduce? || p.SetClear? || p.SetInstall?
    ensures var s1 := StepSet(s, t);
      |s1.tasks| == |s.tasks| && s1.tasks == s.tasks[t := s1.tasks[t]] && Aloof(s1.tasks[t].pc)
  {
  }

  lemma AloofIoctl(s: State, t: nat, spare: nat)
    requires Enabled(s, t, spare) && HoldsOuter(s.tasks[t].pc)
    requires !s.tasks[t].pc.Lock? && !s.tasks[t].pc.Unlock?
    ensures var s1 := Step(s, t, spare);
      |s1.tasks| == |s.tasks| && s1.tasks == s.tasks[t := s1.tasks[t]] && Aloof(s1.tasks[t].pc)
  {
    var p := s.tasks[t].pc;
    if p.SetGet? || p.SetShow? || p.SetReduce? || p.SetClear? || p.SetInstall? {
      AloofSet(s, t);
    }
  }

  lemma AloofRest(s: State, t: nat, spare: nat)
    requires Enabled(s, t, spare) && !HoldsOuter(s.tasks[t].pc) && Aloof(s.tasks[t].pc)
    requires !s.tasks[t].pc.Idle? && !s.tasks[t].pc.Lock? && !s.tasks[t].pc.Unlock?
    ensures var s1 := Step(s, t, spare);
      |s1.tasks| == |s.tasks| && s1.tasks == s.tasks[t := s1.tasks[t]] && Aloof(s1.tasks[t].pc)
  {
  }

  lemma CloneStepShares(s: State, t: nat)
    requires Inv(s) && SharesOk(s) && t < |s.tasks|
    requires var p := s.tasks[t].pc; p.ClRef? || p.ClCopy? || p.ClFind? || p.ClGet? || p.ClStore?
    ensures SharesOk(StepClone(s, t))
  {
    match s.tasks[t].pc
    case ClRef(_) => ClRefShares(s, t);
    case ClCopy(_, _) => ClCopyShares(s, t);
    case ClFind(_, _) => ClRestShares(s, t);
    case ClGet(_, _) => ClRestShares(s, t);
    case ClStore(_, _) => ClStoreShares(s, t);
  }

  lemma StepShares(s: State, t: nat, spare: nat)
    requires Inv(s) && SharesOk(s) && Enabled(s, t, spare) && Careful(s, t)
    ensures SharesOk(Step(s, t, spare))
  {
    var (p, s1) := (s.tasks[t].pc, Step(s, t, spare));
    if p.Idle? {
      StartShares(s, t);
    } else if p.Lock? || p.Unlock? {
      LockShares(s, t);
    } else if !Aloof(p) {
      CloneStepShares(s, t);
    } else if HoldsOuter(p) {
      AloofIoctl(s, t, spare);
      AloofShares(s, s1, t);
    } else {
      AloofRest(s, t, spare);
      AloofShares(s, s1, t);
    }
  }

  lemma StepGuarded(s: State, t: nat, spare: nat)
    requires Guarded(s) && Enabled(s, t, spare) && Careful(s, t)
    ensures Disciplined(s, t) && Guarded(Step(s, t, spare))
  {
    CarefulIsDisciplined(s, t);
    StepKeepsInv(s, t, spare);
    StepOwned(s, t, spare);
    StepShares(s, t, spare);
  }

  predicate CarefulRun(s: State, sched: seq<Pick>)
    decreases sched
  {
    sched == [] ||
    (Enabled(s, sched[0].t, sched[0].spare) && Careful(s, sched[0].t)
     && CarefulRun(Step(s, sched[0].t, sched[0].spare), sched[1..]))
  }

  /** A careful run is disciplined all along. */
  lemma {:induction false} CarefulIsLegal(s: State, sched: seq<Pick>)
    requires Guarded(s) && CarefulRun(s, sched)
    ensures Legal(s, sched) && Feasible(s, sched) && Guarded(Exec(s, sched))
    decreases sched
  {
    if sched != [] {
      StepGuarded(s, sched[0].t, sched[0].spare);
      CarefulIsLegal(Step(s, sched[0].t, sched[0].spare), sched[1..]);
    }
  }

  /** A state that some careful interleaving leads to. */
  ghost predicate CarefullyReachable(s: State) {
    exists s0, sched :: Initial(s0) && CarefulRun(s0, sched) && Feasible(s0, sched) && Exec(s0, sched) == s
  }

  lemma {:induction false} CarefulSnoc(s: State, sched: seq<Pick>, p: Pick)
    requires CarefulRun(s, sched) && Feasible(s, sched)
    requires Enabled(Exec(s, sched), p.t, p.spare) && Careful(Exec(s, sched), p.t)
    ensures CarefulRun(s, sched + [p])
    decreases sched
  {
    if sched == [] {
      assert [] + [p] == [p] && [p][1..] == [];
    } else {
      assert (sched + [p])[1..] == sched[1..] + [p];
      CarefulSnoc(Step(s, sched[0].t, sched[0].spare), sched[1..], p);
    }
  }

  /** Careful runs begin anywhere and go on with any careful step. */
  lemma CarefullyReachableNext(s: State, t: nat, spare: nat)
    ensures Initial(s) ==> CarefullyReachable(s)
    ensures CarefullyReachable(s) && Enabled(s, t, spare) && Careful(s, t) ==> CarefullyReachable(Step(s, t, spare))
  {
    if Initial(s) {
      assert CarefulRun(s, []) && Feasible(s, []) && Exec(s, []) == s;
    }
    if CarefullyReachable(s) && Enabled(s, t, spare) && Careful(s, t) {
      var s0, sched :| Initial(s0) && CarefulRun(s0, sched) && Feasible(s0, sched) && Exec(s0, sched) == s;
      CarefulSnoc(s0, sched, Pick(t, spare));
      LegalSnoc(s0, sched, Pick(t, spare));
    }
  }

  /** Everything that holds in reachable states holds after careful runs. */
  lemma CarefulIsReachable(s: State)
    requires CarefullyReachable(s)
    ensures Reachable(s) && Guarded(s)
  {
    var s0, sched :| Initial(s0) && CarefulRun(s0, sched) && Feasible(s0, sched) && Exec(s0, sched) == s;
    InitialInv(s0);
    CarefulIsLegal(s0, sched);
  }

  lemma OwnedIsUnregistered(s: State, t: nat)
    requires Owned(s) && t < |s.tasks| && s.tasks[t].pc.UnFree? && s.tasks[t].pc.va != 0
    ensures s.tasks[t].pc.ret == 0
  {
    assert PositionOk(s.reg, s.tasks[t].pc);
  }

  /** Two-level unload safety, to the end: in careful runs unregister_syscall never says that a list is
      in use, and what cleanup frees no task uses and no search finds. */
  lemma CleanupFreesUnused(s: State, t: nat)
    requires CarefullyReachable(s) && t < |s.tasks| && s.tasks[t].pc.UnFree? && s.tasks[t].pc.va != 0
    ensures s.tasks[t].pc.ret == 0
    ensures forall u | 0 <= u < |s.tasks| :: !Uses(s, u, s.tasks[t].pc.va)
    ensures !Has(s.reg.entries, ByAddr(s.tasks[t].pc.va)) && s.tasks[t].pc.va in s.lists
  {
    CarefulIsReachable(s);
    OwnedIsUnregistered(s, t);
    FreeIsSafe(s, t);
  }
}
