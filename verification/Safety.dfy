/** What holds in every interleaving. */
module Safety {
  import opened Sums
  import opened Registry
  import opened Ledger
  import opened Protocol
  import opened Invariant
  import opened Steps

  // ---- Every step keeps the invariant

  lemma IoctlStepKeepsInv(s: State, t: nat, spare: nat)
    requires Inv(s) && Enabled(s, t, spare) && Disciplined(s, t) && HoldsOuter(s.tasks[t].pc)
    requires !s.tasks[t].pc.Lock? && !s.tasks[t].pc.Unlock?
    ensures Inv(Step(s, t, spare))
  {
    match s.tasks[t].pc
    case LeaveIoctl => LeaveKeepsInv(s, t);
    case SetGet(_) => SetGetKeepsInv(s, t);
    case SetShow(_) => SetShowKeepsInv(s, t);
    case SetReduce(_, _) => SetReduceKeepsInv(s, t);
    case SetClear(_) => SetPointerKeepsInv(s, t);
    case SetInstall(_) => SetPointerKeepsInv(s, t);
    case RemReduce(_) => RemReduceKeepsInv(s, t);
    case RemClear => RemClearKeepsInv(s, t);
    case CrCheck(_) => CrCheckKeepsInv(s, t);
    case CrAdopt(_) => CrAdoptKeepsInv(s, t);
    case CrBuild(_) => CrBuildKeepsInv(s, t, spare);
    case CrPin(_, _) => CrPinKeepsInv(s, t);
    case CrRegister(_, _) => CrRegisterKeepsInv(s, t);
    case CrInstall(_) => CrInstallKeepsInv(s, t);
  }

  lemma CloneStepKeepsInv(s: State, t: nat)
    requires Inv(s) && t < |s.tasks| && Disciplined(s, t)
    requires var p := s.tasks[t].pc; p.ClRef? || p.ClCopy? || p.ClFind? || p.ClGet? || p.ClStore?
    ensures Inv(StepClone(s, t))
  {
    match s.tasks[t].pc
    case ClRef(_) => ClRefKeepsInv(s, t);
    case ClCopy(_, _) => ClCopyKeepsInv(s, t);
    case ClFind(_, _) => ClFindKeepsInv(s, t);
    case ClGet(_, _) => ClGetKeepsInv(s, t);
    case ClStore(_, _) => ClStoreKeepsInv(s, t);
  }

  lemma UnloadStepKeepsInv(s: State, t: nat)
    requires Inv(s) && t < |s.tasks| && Disciplined(s, t)
    requires var p := s.tasks[t].pc; p.UnBegin? || p.UnLoop? || p.UnRemove? || p.UnFree?
    ensures Inv(StepUnload(s, t))
  {
    match s.tasks[t].pc
    case UnBegin(_) => UnBeginKeepsInv(s, t);
    case UnLoop(_) => UnLoopKeepsInv(s, t);
    case UnRemove(_, _) => UnRemoveKeepsInv(s, t);
    case UnFree(_, _, _) => UnFreeKeepsInv(s, t);
  }

  lemma StepKeepsInv(s: State, t: nat, spare: nat)
    requires Inv(s) && Enabled(s, t, spare) && Disciplined(s, t)
    ensures Inv(Step(s, t, spare))
  {
    var p := s.tasks[t].pc;
    if p.Idle? {
      StartKeepsInv(s, t);
    } else if p.Lock? || p.Unlock? {
      LockKeepsInv(s, t);
    } else if HoldsOuter(p) {
      IoctlStepKeepsInv(s, t, spare);
    } else {
      match p
      case EnterIoctl(_) => EnterKeepsInv(s, t);
      case ExReduce => ExitKeepsInv(s, t);
      case LdBuild(_, _, _) => LdBuildKeepsInv(s, t, spare);
      case LdRegister(_, _, _, _) => LdRegisterKeepsInv(s, t, spare);
      case UnBegin(_) => UnloadStepKeepsInv(s, t);
      case UnLoop(_) => UnloadStepKeepsInv(s, t);
      case UnRemove(_, _) => UnloadStepKeepsInv(s, t);
      case UnFree(_, _, _) => UnloadStepKeepsInv(s, t);
      case _ => CloneStepKeepsInv(s, t);
    }
  }

  lemma NoPartiesNoBooks(ps: seq<Party>)
    requires forall t | 0 <= t < |ps| :: ps[t] == Party(0, NO_STAKE)
    ensures forall a | a != 0 :: Claims(ps, a) == 0 && ListsHeld(ps, a) == 0 && Pendings(ps, a) == 0
    ensures PinsInFlight(ps, DYNAMIC) == 0
  {
    forall a: nat | a != 0 ensures Claims(ps, a) == 0 && ListsHeld(ps, a) == 0 && Pendings(ps, a) == 0 {
      SumZero(ps, (p: Party) => Claim(p, a));
      SumZero(ps, (p: Party) => ListOf(p, a));
      SumZero(ps, (p: Party) => Pending(p, a));
    }
    SumZero(ps, (p: Party) => PinInFlight(p, DYNAMIC));
  }

  lemma InitialInv(s: State)
    requires Initial(s)
    ensures Inv(s)
  {
    assert forall t | 0 <= t < |s.tasks| :: PartiesOf(s.tasks)[t] == PartyOf(s.tasks[t]);
    NoPartiesNoBooks(PartiesOf(s.tasks));
  }

  /** What tasks may be given to do. */
  lemma OpExact(op: Op)
    ensures op.Load? ==> (OpOk(op) <==> op.mod != 0 && op.name != "" && '\n' !in op.name)
    ensures op.Clone? ==> (OpOk(op) <==> forall i | 0 <= i < |op.child| :: OpOk(op.child[i]))
    ensures !op.Load? && !op.Clone? ==> OpOk(op)
  {
  }

  /** Runs begin with any number of tasks, whatever they are about to do. */
  lemma AnyStart(todos: seq<seq<Op>>) returns (s: State)
    requires forall t | 0 <= t < |todos| :: OpsOk(todos[t])
    ensures Initial(s) && |s.tasks| == |todos| && forall t | 0 <= t < |todos| :: s.tasks[t].todo == todos[t]
  {
    var tasks := seq(|todos|, t requires 0 <= t < |todos| => Task(0, Idle, todos[t]));
    s := State(Table([], map[0 := 0]), [], {0}, {}, tasks, Free, Free, multiset{});
  }

  /** The schedule is feasible and keeps the discipline all along. */
  predicate Legal(s: State, sched: seq<Pick>)
    decreases sched
  {
    sched == [] ||
    (Enabled(s, sched[0].t, sched[0].spare) && Disciplined(s, sched[0].t)
     && Legal(Step(s, sched[0].t, sched[0].spare), sched[1..]))
  }

  lemma {:induction false} LegalIsFeasible(s: State, sched: seq<Pick>)
    requires Legal(s, sched)
    ensures Feasible(s, sched)
    decreases sched
  {
    if sched != [] {
      LegalIsFeasible(Step(s, sched[0].t, sched[0].spare), sched[1..]);
    }
  }

  lemma {:induction false} RunKeepsInv(s: State, sched: seq<Pick>)
    requires Inv(s) && Legal(s, sched)
    ensures Feasible(s, sched) && Inv(Exec(s, sched))
    decreases sched
  {
    if sched != [] {
      StepKeepsInv(s, sched[0].t, sched[0].spare);
      RunKeepsInv(Step(s, sched[0].t, sched[0].spare), sched[1..]);
    }
  }

  /** A state some disciplined interleaving leads to. */
  ghost predicate Reachable(s: State) {
    exists s0, sched :: Initial(s0) && Legal(s0, sched) && Feasible(s0, sched) && Exec(s0, sched) == s
  }

  lemma {:induction false} LegalSnoc(s: State, sched: seq<Pick>, p: Pick)
    requires Feasible(s, sched) && Enabled(Exec(s, sched), p.t, p.spare)
    ensures Feasible(s, sched + [p]) && Exec(s, sched + [p]) == Step(Exec(s, sched), p.t, p.spare)
    ensures Legal(s, sched) ==> (Legal(s, sched + [p]) <==> Disciplined(Exec(s, sched), p.t))
    decreases sched
  {
    if sched == [] {
      assert [] + [p] == [p] && [p][1..] == [];
      assert Exec(Step(s, p.t, p.spare), []) == Step(s, p.t, p.spare);
    } else {
      assert (sched + [p])[1..] == sched[1..] + [p];
      LegalSnoc(Step(s, sched[0].t, sched[0].spare), sched[1..], p);
    }
  }

  /** Every initial state is reachable, and so is what any disciplined step makes of a reachable state. */
  lemma ReachableNext(s: State, t: nat, spare: nat)
    ensures Initial(s) ==> Reachable(s)
    ensures Reachable(s) && Enabled(s, t, spare) && Disciplined(s, t) ==> Reachable(Step(s, t, spare))
  {
    if Initial(s) {
      assert Legal(s, []) && Feasible(s, []) && Exec(s, []) == s;
    }
    if Reachable(s) && Enabled(s, t, spare) && Disciplined(s, t) {
      var s0, sched :| Initial(s0) && Legal(s0, sched) && Feasible(s0, sched) && Exec(s0, sched) == s;
      LegalSnoc(s0, sched, Pick(t, spare));
    }
  }

  /** And any step at all leads from an attainable state to another. */
  lemma AttainableNext(s: State, t: nat, spare: nat)
    ensures Initial(s) ==> Attainable(s)
    ensures Attainable(s) && Enabled(s, t, spare) ==> Attainable(Step(s, t, spare))
  {
    if Initial(s) {
      assert Feasible(s, []) && Exec(s, []) == s;
    }
    if Attainable(s) && Enabled(s, t, spare) {
      var s0, sched :| Initial(s0) && Feasible(s0, sched) && Exec(s0, sched) == s;
      LegalSnoc(s0, sched, Pick(t, spare));
    }
  }

  lemma ReachableIsAttainable(s: State)
    requires Reachable(s)
    ensures Attainable(s)
  {
    var s0, sched :| Initial(s0) && Legal(s0, sched) && Feasible(s0, sched) && Exec(s0, sched) == s;
  }

  lemma ReachableInv(s: State)
    requires Reachable(s)
    ensures Inv(s)
  {
    var s0, sched :| Initial(s0) && Legal(s0, sched) && Feasible(s0, sched) && Exec(s0, sched) == s;
    InitialInv(s0);
    RunKeepsInv(s0, sched);
  }

  // ---- What that means

  /** Task t points to a, or carries a reference on a, and is not dropping it. */
  predicate Uses(s: State, t: nat, a: nat)
    requires t < |s.tasks|
  {
    a != 0 && ((s.tasks[t].vec == a && !Removing(s.tasks[t].pc)) || StakeOf(s.tasks[t].pc).carry == a)
  }

  lemma UsesIsClaim(s: State, t: nat, a: nat)
    requires t < |s.tasks| && a != 0
    ensures Uses(s, t, a) <==> Claim(PartyOf(s.tasks[t]), a) > 0
  {
    assert Removing(s.tasks[t].pc) == StakeOf(s.tasks[t].pc).removing;
  }

  /** No task points to a freed list: what it points to is allocated and registered, under one entry,
      with a positive refcount. */
  lemma NoDanglingVector(s: State, t: nat, a: nat)
    requires Reachable(s) && t < |s.tasks| && Uses(s, t, a)
    ensures a in s.lists
    ensures var i := Find(s.reg.entries, ByAddr(a));
      && i < |s.reg.entries| && s.reg.entries[i].refcount > 0
      && (forall j | 0 <= j < |s.reg.entries| && s.reg.entries[j].addr == a :: j == i)
  {
    ReachableInv(s);
    UsesIsClaim(s, t, a);
    ClaimedIsRegistered(s, t, a);
  }

  /** The exact ledger: a registered vector's refcount is the number of tasks that point to it and of
      references that tasks carry, plus the references that were leaked. */
  lemma ExactLedger(s: State, i: nat)
    requires Reachable(s) && i < |s.reg.entries| && s.reg.entries[i].addr != 0
    ensures var e := s.reg.entries[i];
      e.refcount == Claims(PartiesOf(s.tasks), e.addr) + s.leaked[e.addr]
  {
    ReachableInv(s);
    var a := s.reg.entries[i].addr;
    var b := SheetOf(s);
    SumNonNegative(b.parties, (p: Party) => ListOf(p, a));
    assert EntriesAt(s.reg.entries, a) <= 1;
    OnlyEntry(s.reg.entries, i, a);
  }

  /** A list that a task built or condemned is allocated and not registered. */
  lemma ListHeldIsUnregistered(s: State, t: nat, a: nat)
    requires Inv(s) && t < |s.tasks| && a != 0 && StakeOf(s.tasks[t].pc).list == a
    ensures !Has(s.reg.entries, ByAddr(a)) && a in s.lists
  {
    var (b, es) := (SheetOf(s), s.reg.entries);
    assert b.parties[t] == PartyOf(s.tasks[t]);
    SumAtLeast(b.parties, t, (p: Party) => ListOf(p, a));
    assert EntriesAt(es, a) + ListsHeld(b.parties, a) == if a in s.lists then 1 else 0;
    SumNonNegative(es, (e: Entry) => if e.addr == a then 1 else 0);
    if Has(es, ByAddr(a)) {
      SumAtLeast(es, Find(es, ByAddr(a)), (e: Entry) => if e.addr == a then 1 else 0);
    }
  }

  predicate HoldsList(s: State, t: nat, a: nat)
    requires t < |s.tasks|
  {
    StakeOf(s.tasks[t].pc).list == a
  }

  /** No list is lost: what is allocated is registered or some task has yet to register or free it, not
      both, under one entry or by one task; and nothing else is registered or held. */
  lemma NoListLost(s: State, a: nat)
    requires Reachable(s) && a != 0
    ensures a in s.lists <==> Has(s.reg.entries, ByAddr(a)) || exists t | 0 <= t < |s.tasks| :: HoldsList(s, t, a)
    ensures Has(s.reg.entries, ByAddr(a)) ==> forall t | 0 <= t < |s.tasks| :: !HoldsList(s, t, a)
    ensures forall i, j | 0 <= i < j < |s.reg.entries| :: !(s.reg.entries[i].addr == a == s.reg.entries[j].addr)
    ensures forall t, u | 0 <= t < u < |s.tasks| :: !(HoldsList(s, t, a) && HoldsList(s, u, a))
  {
    ReachableInv(s);
    var b := SheetOf(s);
    ListHasOneOwner(s.reg.entries, b.parties, a, a in s.lists);
    assert forall t | 0 <= t < |s.tasks| :: HoldsList(s, t, a) <==> b.parties[t].stake.list == a;
  }

  /** Releasing by address what was acquired by any key restores the registry and every pin, unless the vector
      has a NULL list. */
  lemma AcquireIsUndone(s: State, k: Key)
    requires Reachable(s) && Has(s.reg.entries, k) && Acquire(s.reg, k).1 != 0
    ensures Release(Acquire(s.reg, k).0, ByAddr(Acquire(s.reg, k).1)).0 == s.reg
  {
    var (es, i) := (s.reg.entries, Find(s.reg.entries, k));
    NoListLost(s, es[i].addr);
    FindUnique(es, ByAddr(es[i].addr), i);
    AcquireThenRelease(s.reg, k);
  }

  /** What cleanup frees after a successful unregistration, nobody uses and nobody can find. */
  lemma FreeIsSafe(s: State, t: nat)
    requires Reachable(s) && t < |s.tasks| && s.tasks[t].pc.UnFree? && s.tasks[t].pc.va != 0 && s.tasks[t].pc.ret == 0
    ensures forall u | 0 <= u < |s.tasks| :: !Uses(s, u, s.tasks[t].pc.va)
    ensures !Has(s.reg.entries, ByAddr(s.tasks[t].pc.va)) && s.tasks[t].pc.va in s.lists
  {
    ReachableInv(s);
    var a := s.tasks[t].pc.va;
    ListHeldIsUnregistered(s, t, a);
    forall u | 0 <= u < |s.tasks| ensures !Uses(s, u, a) {
      if Uses(s, u, a) {
        NoDanglingVector(s, u, a);
      }
    }
  }

  /** Nobody uses a vector exactly when its books have nothing but leaked references. */
  lemma UnusedExact(s: State, a: nat)
    requires Reachable(s) && a != 0
    ensures (forall u | 0 <= u < |s.tasks| :: !Uses(s, u, a)) <==> RefsAt(s.reg.entries, a) == s.leaked[a]
  {
    ReachableInv(s);
    var b := SheetOf(s);
    assert RefsAt(s.reg.entries, a) == Claims(b.parties, a) + s.leaked[a];
    forall u | 0 <= u < |s.tasks| ensures Uses(s, u, a) <==> Claim(b.parties[u], a) > 0 {
      UsesIsClaim(s, u, a);
    }
    if u: nat :| u < |s.tasks| && Uses(s, u, a) {
      SumAtLeast(b.parties, u, (p: Party) => Claim(p, a));
    } else {
      forall u | 0 <= u < |s.tasks| ensures Claim(b.parties[u], a) == 0 {
        assert !Uses(s, u, a);
      }
      SumZero(b.parties, (p: Party) => Claim(p, a));
    }
  }

  lemma RefcountOf(s: State, i: nat)
    requires Reachable(s) && i < |s.reg.entries| && s.reg.entries[i].addr != 0
    ensures var (e, a) := (s.reg.entries[i], s.reg.entries[i].addr);
      e.refcount == RefsAt(s.reg.entries, a) >= s.leaked[a] && Find(s.reg.entries, ByAddr(a)) == i
  {
    var (a, b) := (s.reg.entries[i].addr, SheetOf(s));
    ReachableInv(s);
    ExactLedger(s, i);
    NoListLost(s, a);
    FindUnique(s.reg.entries, ByAddr(a), i);
    SumNonNegative(b.parties, (p: Party) => Claim(p, a));
    assert RefsAt(s.reg.entries, a) == Claims(b.parties, a) + s.leaked[a];
  }

  /** unregister_syscall takes a vector out exactly when no task points to it or carries it and no
      reference on it was leaked; else it says that the vector is in use. */
  lemma UnregisterExact(s: State, i: nat)
    requires Reachable(s) && i < |s.reg.entries| && s.reg.entries[i].addr != 0
    ensures var a := s.reg.entries[i].addr;
      && (Unregister(s.reg, a).1 == 0 <==> (forall t | 0 <= t < |s.tasks| :: !Uses(s, t, a)) && s.leaked[a] == 0)
      && (Unregister(s.reg, a).1 == 0 || Unregister(s.reg, a).1 == IN_USE)
  {
    RefcountOf(s, i);
    UnusedExact(s, s.reg.entries[i].addr);
  }

  /** Cleanup frees a list that nobody uses exactly when unregister_syscall took the vector out or the
      only references it has are leaked ones. */
  lemma FreeExact(s: State, t: nat)
    requires Reachable(s) && t < |s.tasks| && s.tasks[t].pc.UnFree? && s.tasks[t].pc.va != 0
    ensures var a := s.tasks[t].pc.va;
      (forall u | 0 <= u < |s.tasks| :: !Uses(s, u, a))
      <==> s.tasks[t].pc.ret == 0 || RefsAt(s.reg.entries, a) == s.leaked[a]
  {
    UnusedExact(s, s.tasks[t].pc.va);
    if s.tasks[t].pc.ret == 0 {
      FreeIsSafe(s, t);
    }
  }

  /** Where the pins of a live module are 0, so are the refcounts of its vectors. */
  lemma UnpinnedIsUnreferenced(s: State, m: nat)
    requires Inv(s) && m in s.reg.pins && s.reg.pins[m] == 0
    ensures forall i | 0 <= i < |s.reg.entries| && s.reg.entries[i].owner == m :: s.reg.entries[i].refcount == 0
  {
    var (b, es) := (SheetOf(s), s.reg.entries);
    var f := (e: Entry) => if e.owner == m then e.refcount else 0;
    SumNonNegative(b.parties, (p: Party) => PinInFlight(p, m));
    forall j | 0 <= j < |es| ensures f(es[j]) >= 0 {
      assert EntryOk(b, es[j]);
    }
    forall i | 0 <= i < |es| && es[i].owner == m ensures es[i].refcount == 0 {
      SumAtLeast(es, i, f);
      assert EntryOk(b, es[i]);
    }
  }

  /** Two-level unload safety: the pin count of a live module is the sum of its refcounts and its
      creations in flight, so at zero none of its vectors is in use by any task. */
  lemma UnpinnedModuleIsUnused(s: State, m: nat)
    requires Reachable(s) && m in s.reg.pins && s.reg.pins[m] == 0
    ensures forall i | 0 <= i < |s.reg.entries| && s.reg.entries[i].owner == m :: s.reg.entries[i].refcount == 0
    ensures forall i, t | 0 <= i < |s.reg.entries| && s.reg.entries[i].owner == m && 0 <= t < |s.tasks| ::
              !Uses(s, t, s.reg.entries[i].addr)
  {
    ReachableInv(s);
    UnpinnedIsUnreferenced(s, m);
    var es := s.reg.entries;
    forall i, t | 0 <= i < |es| && es[i].owner == m && 0 <= t < |s.tasks| ensures !Uses(s, t, es[i].addr) {
      if Uses(s, t, es[i].addr) {
        NoDanglingVector(s, t, es[i].addr);
      }
    }
  }

  /** Every list a module or a task remembers for cleanup is registered, and every registered list is
      remembered exactly once. */
  lemma RegisteredListsAreRemembered(s: State, a: nat)
    requires Reachable(s) && a != 0
    ensures HeadsAt(s.heads, a) + Pendings(PartiesOf(s.tasks), a) == if Has(s.reg.entries, ByAddr(a)) then 1 else 0
  {
    ReachableInv(s);
    var (b, es) := (SheetOf(s), s.reg.entries);
    SumNonNegative(b.parties, (p: Party) => ListOf(p, a));
    if Has(es, ByAddr(a)) {
      SumAtLeast(es, Find(es, ByAddr(a)), (e: Entry) => if e.addr == a then 1 else 0);
      assert EntriesAt(es, a) <= 1;
    } else {
      assert forall i | 0 <= i < |es| :: !Matches(es[i], ByAddr(a));
      SumZero(es, (e: Entry) => if e.addr == a then 1 else 0);
    }
  }

  /** What a REMOVE answers: how many claims and leaked references are left, the caller's own being gone. */
  lemma RemoveAnswers(s: State, t: nat)
    requires Reachable(s) && t < |s.tasks| && s.tasks[t].pc.RemReduce? && Disciplined(s, t)
    requires Has(s.reg.entries, ByName(s.tasks[t].pc.name))
    ensures var (s1, a) := (StepRemove(s, t), s.tasks[t].vec);
      Release(s.reg, ByName(s.tasks[t].pc.name)).1 == Claims(PartiesOf(s1.tasks), a) + s.leaked[a] >= 0
  {
    var (k, a, s1) := (ByName(s.tasks[t].pc.name), s.tasks[t].vec, StepRemove(s, t));
    var i := Find(s.reg.entries, k);
    ReachableInv(s);
    RefcountOf(s, i);
    ClaimedIsRegistered(s, t, a);
    ReleaseExact(s.reg, k);
    RemoveSums(s, t);
    ExactLedger(s, i);
  }

  // ---- Exactly when the two undisciplined steps of a task go wrong

  /** No refcount is below the number of tasks that use the vector. */
  ghost predicate Covered(s: State) {
    forall a: nat | a != 0 :: RefsAt(s.reg.entries, a) >= Claims(PartiesOf(s.tasks), a)
  }

  /** What a REMOVE does to the sums. */
  lemma RemoveSums(s: State, t: nat)
    requires t < |s.tasks| && s.tasks[t].pc.RemReduce?
    ensures var (s1, es, i) := (StepRemove(s, t), s.reg.entries, Find(s.reg.entries, ByName(s.tasks[t].pc.name)));
      forall a: nat | a != 0 ::
        && RefsAt(s1.reg.entries, a) == RefsAt(es, a) - (if i < |es| && es[i].addr == a then 1 else 0)
        && Claims(PartiesOf(s1.tasks), a) == Claims(PartiesOf(s.tasks), a)
             - (if i < |es| && es[i].refcount > 0 && s.tasks[t].vec == a then 1 else 0)
  {
    var s1 := StepRemove(s, t);
    SheetUpdate(s, s1, t);
    PartyUpdate(PartiesOf(s.tasks), t, PartyOf(s1.tasks[t]));
    var i := Find(s.reg.entries, ByName(s.tasks[t].pc.name));
    if i < |s.reg.entries| {
      EntryBump(s.reg.entries, i, -1);
    }
  }

  /** After a REMOVE no refcount is below the number of its users exactly when the name it passes is not registered, or
      is the name of a NULL list or of the vector the task holds, or a leaked reference makes up for it. */
  lemma RemoveExact(s: State, t: nat)
    requires Reachable(s) && t < |s.tasks| && s.tasks[t].pc.RemReduce?
    ensures var i := Find(s.reg.entries, ByName(s.tasks[t].pc.name));
      Covered(StepRemove(s, t)) <==>
        i == |s.reg.entries|
        || s.reg.entries[i].addr == 0
        || s.reg.entries[i].addr == s.tasks[t].vec
        || s.leaked[s.reg.entries[i].addr] > 0
  {
    ReachableInv(s);
    RemoveSums(s, t);
    var i := Find(s.reg.entries, ByName(s.tasks[t].pc.name));
    if i < |s.reg.entries| && s.reg.entries[i].addr != 0 {
      var a := s.reg.entries[i].addr;
      ExactLedger(s, i);
      assert RefsAt(StepRemove(s, t).reg.entries, a) == RefsAt(s.reg.entries, a) - 1;
      if a == s.tasks[t].vec {
        ClaimedIsRegistered(s, t, a);
      }
    }
  }

  /** What the second read does to them. */
  lemma CopySums(s: State, t: nat)
    requires t < |s.tasks| && s.tasks[t].pc.ClCopy?
    requires s.tasks[t].pc.op.Clone? && s.tasks[t].pc.op.share && !s.tasks[t].pc.op.fails
    ensures var (s1, v, a) := (StepClone(s, t), s.tasks[t].vec, s.tasks[t].pc.va);
      && s1.reg == s.reg
      && forall x: nat | x != 0 ::
           Claims(PartiesOf(s1.tasks), x) == Claims(PartiesOf(s.tasks), x)
             + (if x == v then 1 else 0) - (if x == a then 1 else 0)
  {
    var (s1, mid, child) := (StepClone(s, t), Go(s, t, Idle), Task(s.tasks[t].vec, Idle, s.tasks[t].pc.op.child));
    SheetUpdate(s, mid, t);
    PartyUpdate(SheetOf(s).parties, t, PartyOf(mid.tasks[t]));
    PartyAppend(SheetOf(mid).parties, PartyOf(child));
    assert PartiesOf(s1.tasks) == SheetOf(mid).parties + [PartyOf(child)];
  }

  /** A fork that shares keeps every vector in use covered exactly when the second read of the
      parent's pointer gives no vector, or the one referenced before, or one with a leaked reference. */
  lemma CopyExact(s: State, t: nat)
    requires Reachable(s) && t < |s.tasks| && s.tasks[t].pc.ClCopy?
    requires s.tasks[t].pc.op.Clone? && s.tasks[t].pc.op.share && !s.tasks[t].pc.op.fails
    ensures var (v, a) := (s.tasks[t].vec, s.tasks[t].pc.va);
      Covered(StepClone(s, t)) <==> v == 0 || v == a || s.leaked[v] > 0
  {
    var (b, v) := (SheetOf(s), s.tasks[t].vec);
    ReachableInv(s);
    CopySums(s, t);
    assert v != 0 ==> RefsAt(s.reg.entries, v) == Claims(b.parties, v) + s.leaked[v];
  }

  /** The discipline asks of a REMOVE no more than it has to: as long as nothing was leaked, a REMOVE that finds a
      vector with a list leaves every refcount high enough if and only if it is disciplined. */
  lemma RemoveDisciplineExact(s: State, t: nat)
    requires Reachable(s) && t < |s.tasks| && s.tasks[t].pc.RemReduce? && s.leaked == multiset{}
    requires var i := Find(s.reg.entries, ByName(s.tasks[t].pc.name));
      i < |s.reg.entries| ==> s.reg.entries[i].addr != 0
    ensures Covered(StepRemove(s, t)) <==> Disciplined(s, t)
  {
    RemoveExact(s, t);
  }

  /** The same for the second read of a sharing fork that gives a vector. */
  lemma CopyDisciplineExact(s: State, t: nat)
    requires Reachable(s) && t < |s.tasks| && s.tasks[t].pc.ClCopy? && s.leaked == multiset{} && s.tasks[t].vec != 0
    requires s.tasks[t].pc.op.Clone? && s.tasks[t].pc.op.share && !s.tasks[t].pc.op.fails
    ensures Covered(StepClone(s, t)) <==> Disciplined(s, t)
  {
    CopyExact(s, t);
  }

  /** And of a freed list, that unregister_syscall took it out. Every other step is disciplined. */
  lemma OthersAreDisciplined(s: State, t: nat)
    requires t < |s.tasks|
    ensures s.tasks[t].pc.UnFree? ==> (Disciplined(s, t) <==> s.tasks[t].pc.va == 0 || s.tasks[t].pc.ret == 0)
    ensures !s.tasks[t].pc.RemReduce? && !s.tasks[t].pc.ClCopy? && !s.tasks[t].pc.UnFree? ==> Disciplined(s, t)
    ensures s.tasks[t].pc.ClCopy? && (!s.tasks[t].pc.op.Clone? || !s.tasks[t].pc.op.share || s.tasks[t].pc.op.fails)
        ==> Disciplined(s, t)
  {
  }
}
