/** Every step of the protocol keeps the invariant. */
module Steps {
  import opened Sums
  import opened Registry
  import opened Text
  import opened Bitmap
  import opened Ledger
  import opened Options
  import opened Protocol
  import opened Invariant

  // ---- What a task claims is registered

  /** The entry a positive refcount belongs to is the only one with its address. */
  lemma Counted(b: Sheet, a: nat)
    requires ListsOwned(b) && a != 0 && RefsAt(b.reg.entries, a) > 0
    ensures var (i, es) := (Find(b.reg.entries, ByAddr(a)), b.reg.entries);
      && i < |es| && es[i].refcount == RefsAt(es, a)
      && (forall j | 0 <= j < |es| && es[j].addr == a :: j == i)
    ensures a in b.lists
  {
    var es := b.reg.entries;
    var w := SumWitness(es, (e: Entry) => if e.addr == a then e.refcount else 0);
    SumNonNegative(b.parties, (p: Party) => ListOf(p, a));
    SumAtLeast(es, w, (e: Entry) => if e.addr == a then 1 else 0);
    assert EntriesAt(es, a) <= 1;
    OnlyEntry(es, w, a);
    FindUnique(es, ByAddr(a), w);
  }

  lemma OnlyEntry(es: seq<Entry>, w: nat, a: nat)
    requires w < |es| && es[w].addr == a && EntriesAt(es, a) <= 1
    ensures forall j | 0 <= j < |es| && es[j].addr == a :: j == w
    ensures RefsAt(es, a) == es[w].refcount
  {
    forall j | 0 <= j < |es| && es[j].addr == a ensures j == w {
      if j != w {
        SumAtLeastTwo(es, if j < w then j else w, if j < w then w else j, (e: Entry) => if e.addr == a then 1 else 0);
      }
    }
    var rest := es[..w] + es[w + 1..];
    EntryRemove(es, w);
    assert forall k | 0 <= k < |rest| :: rest[k] == es[if k < w then k else k + 1];
    SumZero(rest, (e: Entry) => if e.addr == a then e.refcount else 0);
  }

  /** What a task points to or carries is registered, referenced and allocated. */
  lemma ClaimedIsRegistered(s: State, t: nat, a: nat)
    requires Balanced(SheetOf(s)) && t < |s.tasks| && a != 0 && Claim(PartyOf(s.tasks[t]), a) > 0
    ensures var (i, es) := (Find(s.reg.entries, ByAddr(a)), s.reg.entries);
      && i < |es| && es[i].refcount == RefsAt(es, a) >= Claim(PartyOf(s.tasks[t]), a)
      && (forall j | 0 <= j < |es| && es[j].addr == a :: j == i)
    ensures a in s.lists
  {
    var b := SheetOf(s);
    SumAtLeast(b.parties, t, (p: Party) => Claim(p, a));
    assert b.parties[t] == PartyOf(s.tasks[t]);
    Counted(b, a);
  }

  // ---- Beginning, waiting, locking

  /** A step between positions that stand for the same. */
  lemma SameStakesKeepInv(s: State, s1: State, t: nat)
    requires Inv(s) && t < |s.tasks| == |s1.tasks| && Locks(s1) && TasksOk(s1)
    requires s1 == s.(tasks := s.tasks[t := s1.tasks[t]], outer := s1.outer, inner := s1.inner)
    requires PartyOf(s1.tasks[t]) == PartyOf(s.tasks[t])
    ensures Inv(s1)
  {
    SheetUpdate(s, s1, t);
    assert SheetOf(s1) == SheetOf(s);
  }

  lemma StartKeepsInv(s: State, t: nat)
    requires Inv(s) && t < |s.tasks| && s.tasks[t].pc.Idle? && s.tasks[t].todo != []
    ensures Inv(StepStart(s, t))
  {
    var s1 := StepStart(s, t);
    assert OpOk(s.tasks[t].todo[0]);
    ControlAfter(s, s1, t);
    SameStakesKeepInv(s, s1, t);
  }

  lemma LockKeepsInv(s: State, t: nat)
    requires Inv(s) && t < |s.tasks|
    requires s.tasks[t].pc.Unlock? || (s.tasks[t].pc.Lock? && s.inner == Free)
    ensures Inv(StepLock(s, t))
  {
    var s1 := StepLock(s, t);
    ControlAfter(s, s1, t);
    SameStakesKeepInv(s, s1, t);
  }

  lemma DispatchNoStake(op: Op)
    ensures StakeOf(Dispatch(op)) == NO_STAKE && PcOk(Dispatch(op))
    ensures HoldsOuter(Dispatch(op)) && !HoldsInner(Dispatch(op))
  {
  }

  lemma EnterKeepsInv(s: State, t: nat)
    requires Inv(s) && t < |s.tasks| && s.tasks[t].pc.EnterIoctl? && s.outer == Free
    ensures Inv(StepIoctl(s, t))
  {
    var s1 := StepIoctl(s, t);
    DispatchNoStake(s.tasks[t].pc.op);
    ControlAfter(s, s1, t);
    SameStakesKeepInv(s, s1, t);
  }

  lemma LeaveKeepsInv(s: State, t: nat)
    requires Inv(s) && t < |s.tasks| && s.tasks[t].pc.LeaveIoctl?
    ensures Inv(StepIoctl(s, t))
  {
    var s1 := StepIoctl(s, t);
    ControlAfter(s, s1, t);
    SameStakesKeepInv(s, s1, t);
  }

  // ---- IOCTL_SET and IOCTL_REMOVE

  lemma SetGetKeepsInv(s: State, t: nat)
    requires Inv(s) && t < |s.tasks| && s.tasks[t].pc.SetGet?
    ensures Inv(StepSet(s, t))
  {
    var s1 := StepSet(s, t);
    ControlAfter(s, s1, t);
    var i := Find(s.reg.entries, ByName(s.tasks[t].pc.name));
    if i < |s.reg.entries| {
      SheetUpdate(s, s1, t);
      Bumped(SheetOf(s), SheetOf(s1), t, i, 1);
    } else {
      SameStakesKeepInv(s, s1, t);
    }
  }

  lemma SetShowText(s: State, t: nat)
    requires Inv(s) && t < |s.tasks| && s.tasks[t].pc.SetShow?
    ensures s.tasks[t].vec != 0 ==> '\n' in Mine(s.reg.entries, s.tasks[t].vec)
  {
    if s.tasks[t].vec != 0 {
      ClaimedIsRegistered(s, t, s.tasks[t].vec);
      RecordHasLineBreak(s.reg.entries[Find(s.reg.entries, ByAddr(s.tasks[t].vec))]);
    }
  }

  lemma SetShowControl(s: State, t: nat)
    requires Locks(s) && TasksOk(s) && t < |s.tasks| && s.tasks[t].pc.SetShow?
    requires s.tasks[t].vec != 0 ==> '\n' in Mine(s.reg.entries, s.tasks[t].vec)
    ensures var s1 := StepSet(s, t); Locks(s1) && TasksOk(s1) && PartyOf(s1.tasks[t]) == PartyOf(s.tasks[t])
  {
    ControlAfter(s, StepSet(s, t), t);
  }

  lemma SetShowKeepsInv(s: State, t: nat)
    requires Inv(s) && t < |s.tasks| && s.tasks[t].pc.SetShow?
    ensures Inv(StepSet(s, t))
  {
    SetShowText(s, t);
    SetShowControl(s, t);
    SameStakesKeepInv(s, StepSet(s, t), t);
  }

  lemma NamesOk(b: Sheet, text: string)
    requires EntriesOk(b) && '\n' in text
    ensures !Has(b.reg.entries, ByName(text))
  {
    forall e | e in b.reg.entries ensures NameOk(e.name) {
      var i :| 0 <= i < |b.reg.entries| && b.reg.entries[i] == e;
      assert EntryOk(b, b.reg.entries[i]);
    }
    RecordIsNoName(b.reg.entries, text);
  }

  lemma SetReduceNothing(s: State, t: nat)
    requires Inv(s) && t < |s.tasks| && s.tasks[t].pc.SetReduce?
    ensures Release(s.reg, ByName(s.tasks[t].pc.text)).0 == s.reg
  {
    assert PcOk(s.tasks[t].pc);
    NamesOk(SheetOf(s), s.tasks[t].pc.text);
  }

  /** The old reference is not dropped: no vector is called like a whole record. */
  lemma SetReduceKeepsInv(s: State, t: nat)
    requires Inv(s) && t < |s.tasks| && s.tasks[t].pc.SetReduce?
    ensures Inv(StepSet(s, t)) && StepSet(s, t).reg == s.reg
  {
    var s1 := StepSet(s, t);
    NamesOk(SheetOf(s), s.tasks[t].pc.text);
    ControlAfter(s, s1, t);
    SameStakesKeepInv(s, s1, t);
  }

  lemma SetPointerControl(s: State, t: nat)
    requires Locks(s) && TasksOk(s) && t < |s.tasks| && (s.tasks[t].pc.SetClear? || s.tasks[t].pc.SetInstall?)
    ensures var (s1, th) := (StepSet(s, t), s.tasks[t]);
      && Locks(s1) && TasksOk(s1)
      && PartyOf(th) == Party(th.vec, Holding(th.pc.va))
      && PartyOf(s1.tasks[t]) == if th.pc.SetClear? then Party(0, Holding(th.pc.va)) else Party(th.pc.va, NO_STAKE)
  {
    ControlAfter(s, StepSet(s, t), t);
  }

  /** Clearing the pointer leaks the reference behind it, and so does installing the carried one over it. */
  lemma PointerClaims(vec: nat, a: nat, l: multiset<nat>)
    ensures forall x: nat | x != 0 ::
      && Claim(Party(0, Holding(a)), x) + Leak(l, vec)[x] == Claim(Party(vec, Holding(a)), x) + l[x]
      && Claim(Party(a, NO_STAKE), x) + Leak(l, vec)[x] == Claim(Party(vec, Holding(a)), x) + l[x]
  {
    LeakCount(l, vec);
  }

  lemma SetPointerKeepsInv(s: State, t: nat)
    requires Inv(s) && t < |s.tasks| && (s.tasks[t].pc.SetClear? || s.tasks[t].pc.SetInstall?)
    ensures Inv(StepSet(s, t))
  {
    var s1 := StepSet(s, t);
    SetPointerControl(s, t);
    SheetUpdate(s, s1, t);
    PointerClaims(s.tasks[t].vec, s.tasks[t].pc.va, s.leaked);
    Reassign(SheetOf(s), SheetOf(s1), t);
  }

  lemma RemReduceControl(s: State, t: nat)
    requires Locks(s) && TasksOk(s) && t < |s.tasks| && s.tasks[t].pc.RemReduce?
    requires var i := Find(s.reg.entries, ByName(s.tasks[t].pc.name));
      i < |s.reg.entries| ==> s.reg.entries[i].refcount > 0
    ensures var (s1, vec) := (StepRemove(s, t), s.tasks[t].vec);
      && Locks(s1) && TasksOk(s1)
      && PartyOf(s.tasks[t]) == Party(vec, NO_STAKE)
      && PartyOf(s1.tasks[t]) == Party(vec,
           if Has(s.reg.entries, ByName(s.tasks[t].pc.name)) then NO_STAKE.(removing := true) else NO_STAKE)
  {
    ControlAfter(s, StepRemove(s, t), t);
  }

  lemma RemReduceKeepsInv(s: State, t: nat)
    requires Inv(s) && t < |s.tasks| && s.tasks[t].pc.RemReduce? && Disciplined(s, t)
    ensures Inv(StepRemove(s, t))
  {
    var s1 := StepRemove(s, t);
    var i := Find(s.reg.entries, ByName(s.tasks[t].pc.name));
    if i < |s.reg.entries| {
      ClaimedIsRegistered(s, t, s.tasks[t].vec);
      RemReduceControl(s, t);
      SheetUpdate(s, s1, t);
      Bumped(SheetOf(s), SheetOf(s1), t, i, -1);
    } else {
      RemReduceControl(s, t);
      SameStakesKeepInv(s, s1, t);
    }
  }

  lemma RemClearKeepsInv(s: State, t: nat)
    requires Inv(s) && t < |s.tasks| && s.tasks[t].pc.RemClear?
    ensures Inv(StepRemove(s, t))
  {
    var s1 := StepRemove(s, t);
    ControlAfter(s, s1, t);
    SheetUpdate(s, s1, t);
    Reassign(SheetOf(s), SheetOf(s1), t);
  }

  lemma ExitControl(s: State, t: nat)
    requires Locks(s) && TasksOk(s) && t < |s.tasks| && s.tasks[t].pc.ExReduce?
    ensures var s1 := StepExit(s, t);
      && Locks(s1) && TasksOk(s1)
      && PartyOf(s.tasks[t]) == Party(s.tasks[t].vec, NO_STAKE) && PartyOf(s1.tasks[t]) == Party(0, NO_STAKE)
  {
    ControlAfter(s, StepExit(s, t), t);
  }

  lemma ExitKeepsInv(s: State, t: nat)
    requires Inv(s) && t < |s.tasks| && s.tasks[t].pc.ExReduce?
    ensures Inv(StepExit(s, t))
  {
    var s1 := StepExit(s, t);
    ExitControl(s, t);
    SheetUpdate(s, s1, t);
    if s.tasks[t].vec != 0 {
      ClaimedIsRegistered(s, t, s.tasks[t].vec);
      Bumped(SheetOf(s), SheetOf(s1), t, Find(s.reg.entries, ByAddr(s.tasks[t].vec)), -1);
    } else {
      Reassign(SheetOf(s), SheetOf(s1), t);
    }
  }

  // ---- IOCTL_CREATE_FROM_BITMAP

  lemma NoMatchNoDynamic(es: seq<Entry>, bitmap: nat)
    requires !Has(es, ByBitmap(bitmap))
    ensures NoDynamic(es, bitmap)
  {
    assert forall j | 0 <= j < |es| :: !Matches(es[j], ByBitmap(bitmap));
  }

  lemma CrCheckControl(s: State, t: nat)
    requires Locks(s) && TasksOk(s) && t < |s.tasks| && s.tasks[t].pc.CrCheck?
    ensures var (s1, vec, b) := (StepCreate(s, t, 0), s.tasks[t].vec, s.tasks[t].pc.bitmap);
      var (r, a) := Acquire(s.reg, ByBitmap(b));
      && Locks(s1) && TasksOk(s1)
      && s1 == s.(tasks := s.tasks[t := s1.tasks[t]], reg := r)
      && PartyOf(s.tasks[t]) == Party(vec, NO_STAKE)
      && PartyOf(s1.tasks[t]) == Party(vec, if a != 0 then Holding(a) else NO_STAKE.(creates := Some(b)))
  {
    ControlAfter(s, StepCreate(s, t, 0), t);
  }

  lemma CrCheckKeepsInv(s: State, t: nat)
    requires Inv(s) && t < |s.tasks| && s.tasks[t].pc.CrCheck?
    ensures Inv(StepCreate(s, t, 0))
  {
    var s1 := StepCreate(s, t, 0);
    var bitmap := s.tasks[t].pc.bitmap;
    CrCheckControl(s, t);
    SheetUpdate(s, s1, t);
    var i := Find(s.reg.entries, ByBitmap(bitmap));
    if i < |s.reg.entries| {
      assert EntryOk(SheetOf(s), s.reg.entries[i]);
      Bumped(SheetOf(s), SheetOf(s1), t, i, 1);
    } else {
      NoMatchNoDynamic(s.reg.entries, bitmap);
      Reassign(SheetOf(s), SheetOf(s1), t);
    }
  }

  lemma CrAdoptControl(s: State, t: nat)
    requires Locks(s) && TasksOk(s) && t < |s.tasks| && s.tasks[t].pc.CrAdopt?
    ensures var (s1, th) := (StepCreate(s, t, 0), s.tasks[t]);
      && Locks(s1) && TasksOk(s1)
      && PartyOf(th) == Party(th.vec, Holding(th.pc.va)) && PartyOf(s1.tasks[t]) == Party(th.pc.va, NO_STAKE)
  {
    ControlAfter(s, StepCreate(s, t, 0), t);
  }

  lemma CrAdoptKeepsInv(s: State, t: nat)
    requires Inv(s) && t < |s.tasks| && s.tasks[t].pc.CrAdopt?
    ensures Inv(StepCreate(s, t, 0))
  {
    var s1 := StepCreate(s, t, 0);
    CrAdoptControl(s, t);
    SheetUpdate(s, s1, t);
    Reassign(SheetOf(s), SheetOf(s1), t);
  }

  lemma CrBuildKeepsInv(s: State, t: nat, spare: nat)
    requires Inv(s) && t < |s.tasks| && s.tasks[t].pc.CrBuild? && spare != 0 && spare !in s.lists
    ensures Inv(StepCreate(s, t, spare))
  {
    var s1 := StepCreate(s, t, spare);
    ControlAfter(s, s1, t);
    SheetUpdate(s, s1, t);
    if Buildable(s.tasks[t].pc.bitmap) {
      Allocated(SheetOf(s), SheetOf(s1), t, spare);
    } else {
      SameStakesKeepInv(s, s1, t);
    }
  }

  lemma CrPinKeepsInv(s: State, t: nat)
    requires Inv(s) && t < |s.tasks| && s.tasks[t].pc.CrPin?
    ensures Inv(StepCreate(s, t, 0))
  {
    var s1 := StepCreate(s, t, 0);
    ControlAfter(s, s1, t);
    SheetUpdate(s, s1, t);
    Pinned(SheetOf(s), SheetOf(s1), t);
  }

  /** Only the task that holds mutexlock can be creating. */
  lemma OneCreator(s: State, t: nat)
    requires Locks(s) && t < |s.tasks| && HoldsOuter(s.tasks[t].pc)
    ensures forall u | 0 <= u < |s.tasks| && u != t :: StakeOf(s.tasks[u].pc).creates == None
  {
    forall u | 0 <= u < |s.tasks| && u != t ensures StakeOf(s.tasks[u].pc).creates == None {
      assert !HoldsOuter(s.tasks[u].pc);
    }
  }

  lemma CrRegisterControl(s: State, t: nat)
    requires Locks(s) && TasksOk(s) && t < |s.tasks| && s.tasks[t].pc.CrRegister?
    ensures var (s1, vec, b, a) := (StepCreate(s, t, 0), s.tasks[t].vec, s.tasks[t].pc.bitmap, s.tasks[t].pc.va);
      && Locks(s1) && TasksOk(s1)
      && PartyOf(s.tasks[t]) == Party(vec, NO_STAKE.(creates := Some(b), list := a, pins := 1))
      && PartyOf(s1.tasks[t]) == Party(vec, NO_STAKE.(carry := a, pending := multiset{a}))
  {
    ControlAfter(s, StepCreate(s, t, 0), t);
  }

  lemma CrRegisterKeepsInv(s: State, t: nat)
    requires Inv(s) && t < |s.tasks| && s.tasks[t].pc.CrRegister?
    ensures Inv(StepCreate(s, t, 0))
  {
    var s1 := StepCreate(s, t, 0);
    CrRegisterControl(s, t);
    SheetUpdate(s, s1, t);
    OneCreator(s, t);
    assert PcOk(s.tasks[t].pc);
    RegisteredDynamic(SheetOf(s), SheetOf(s1), t, s.tasks[t].pc.bitmap, s.tasks[t].pc.va);
  }

  lemma CrInstallKeepsInv(s: State, t: nat)
    requires Inv(s) && t < |s.tasks| && s.tasks[t].pc.CrInstall?
    ensures Inv(StepCreate(s, t, 0))
  {
    var s1 := StepCreate(s, t, 0);
    ControlAfter(s, s1, t);
    SheetUpdate(s, s1, t);
    Installed(SheetOf(s), SheetOf(s1), t, s.tasks[t].pc.va);
  }

  // ---- sys_clone2

  lemma ClRefControl(s: State, t: nat)
    requires Locks(s) && TasksOk(s) && t < |s.tasks| && s.tasks[t].pc.ClRef?
    ensures var s1 := StepClone(s, t);
      && Locks(s1) && TasksOk(s1)
      && PartyOf(s1.tasks[t]) == Party(s.tasks[t].vec, Holding(Acquire(s.reg, ByAddr(s.tasks[t].vec)).1))
  {
    assert PcOk(s.tasks[t].pc);
    ControlAfter(s, StepClone(s, t), t);
  }

  lemma ClRefKeepsInv(s: State, t: nat)
    requires Inv(s) && t < |s.tasks| && s.tasks[t].pc.ClRef?
    ensures Inv(StepClone(s, t))
  {
    var s1 := StepClone(s, t);
    ClRefControl(s, t);
    var i := Find(s.reg.entries, ByAddr(s.tasks[t].vec));
    if i < |s.reg.entries| {
      SheetUpdate(s, s1, t);
      Bumped(SheetOf(s), SheetOf(s1), t, i, 1);
    } else {
      SameStakesKeepInv(s, s1, t);
    }
  }

  lemma ClGetControl(s: State, t: nat)
    requires Locks(s) && TasksOk(s) && t < |s.tasks| && s.tasks[t].pc.ClGet?
    ensures var s1 := StepClone(s, t);
      && Locks(s1) && TasksOk(s1)
      && PartyOf(s1.tasks[t]) == Party(s.tasks[t].vec, Holding(Acquire(s.reg, ByBitmap(s.tasks[t].pc.id)).1))
  {
    ControlAfter(s, StepClone(s, t), t);
  }

  lemma ClGetKeepsInv(s: State, t: nat)
    requires Inv(s) && t < |s.tasks| && s.tasks[t].pc.ClGet?
    ensures Inv(StepClone(s, t))
  {
    var s1 := StepClone(s, t);
    ClGetControl(s, t);
    var i := Find(s.reg.entries, ByBitmap(s.tasks[t].pc.id));
    if i < |s.reg.entries| {
      SheetUpdate(s, s1, t);
      Bumped(SheetOf(s), SheetOf(s1), t, i, 1);
    } else {
      SameStakesKeepInv(s, s1, t);
    }
  }

  lemma ClFindControl(s: State, t: nat)
    requires Locks(s) && TasksOk(s) && t < |s.tasks| && s.tasks[t].pc.ClFind?
    ensures var s1 := StepClone(s, t);
      && Locks(s1) && TasksOk(s1)
      && s1 == s.(tasks := s.tasks[t := s1.tasks[t]])
      && PartyOf(s1.tasks[t]) == PartyOf(s.tasks[t]) == Party(s.tasks[t].vec, NO_STAKE)
  {
    ControlAfter(s, StepClone(s, t), t);
  }

  lemma ClFindKeepsInv(s: State, t: nat)
    requires Inv(s) && t < |s.tasks| && s.tasks[t].pc.ClFind?
    ensures Inv(StepClone(s, t))
  {
    ClFindControl(s, t);
    SameStakesKeepInv(s, StepClone(s, t), t);
  }

  /** Outside both locks. */
  predicate Outside(p: Pc) {
    !HoldsOuter(p) && !HoldsInner(p)
  }

  /** What task t carries becomes nobody's. */
  lemma DropCarry(s: State, t: nat, a: nat, p: Pc) returns (s1: State)
    requires Inv(s) && t < |s.tasks| && StakeOf(s.tasks[t].pc) == Holding(a) && Outside(s.tasks[t].pc)
    requires StakeOf(p) == NO_STAKE && Outside(p) && PcOk(p)
    ensures s1 == Go(s, t, p).(leaked := Leak(s.leaked, a))
    ensures Inv(s1)
  {
    s1 := Go(s, t, p).(leaked := Leak(s.leaked, a));
    ControlAfter(s, s1, t);
    SheetUpdate(s, s1, t);
    Reassign(SheetOf(s), SheetOf(s1), t);
  }

  lemma SpawnControl(s: State, s1: State, v: nat, todo: seq<Op>)
    requires Locks(s) && TasksOk(s) && OpsOk(todo)
    requires s1 == s.(tasks := s.tasks + [Task(v, Idle, todo)], leaked := s1.leaked)
    ensures Locks(s1) && TasksOk(s1)
  {
    assert forall u | 0 <= u < |s.tasks| :: s1.tasks[u] == s.tasks[u];
    assert s1.tasks[|s.tasks|] == Task(v, Idle, todo);
  }

  /** A child appears; the reference behind its pointer was accounted as leaked. */
  lemma SpawnKeepsInv(s: State, s1: State, v: nat, todo: seq<Op>)
    requires Inv(s) && OpsOk(todo)
    requires s1 == s.(tasks := s.tasks + [Task(v, Idle, todo)], leaked := s1.leaked)
    requires Leak(s1.leaked, v) == s.leaked
    ensures Inv(s1)
  {
    SpawnControl(s, s1, v, todo);
    assert PartyOf(Task(v, Idle, todo)) == Party(v, NO_STAKE);
    assert SheetOf(s1).parties == SheetOf(s).parties + [Party(v, NO_STAKE)];
    Spawned(SheetOf(s), SheetOf(s1), v);
  }

  lemma ClCopyKeepsInv(s: State, t: nat)
    requires Inv(s) && t < |s.tasks| && s.tasks[t].pc.ClCopy? && Disciplined(s, t)
    ensures Inv(StepClone(s, t))
  {
    var (op, a) := (s.tasks[t].pc.op, s.tasks[t].pc.va);
    var s1 := StepClone(s, t);
    if op.fails {
      var s2 := DropCarry(s, t, a, Idle);
    } else if op.share {
      var s2 := DropCarry(s, t, a, Idle);
      SpawnKeepsInv(s2, s1, a, op.child);
    } else {
      var s2 := DropCarry(s, t, a, ClFind(|s.tasks|, op.id));
      SpawnKeepsInv(s2, s1, 0, op.child);
    }
  }

  /** After the caller has let go of what it carries, the step is a store of a leaked reference. */
  lemma ClStoreShape(s: State, s2: State, t: nat)
    requires t < |s.tasks| && s.tasks[t].pc.ClStore?
    requires s2 == Go(s, t, Idle).(leaked := Leak(s.leaked, s.tasks[t].pc.va))
    ensures var (c, a, s1) := (s.tasks[t].pc.child, s.tasks[t].pc.va, StepClone(s, t));
      if c < |s.tasks| && c != t && !Exited(s.tasks[c].pc) then
        && s1 == s2.(tasks := s2.tasks[c := s2.tasks[c].(vec := a)], leaked := s1.leaked)
        && if StakeOf(s2.tasks[c].pc).removing then s1.leaked == s2.leaked
           else Leak(s1.leaked, a) == Leak(s2.leaked, s2.tasks[c].vec)
      else s1 == s2
  {
    var c := s.tasks[t].pc.child;
    if c < |s.tasks| {
      assert Removing(s.tasks[c].pc) == StakeOf(s.tasks[c].pc).removing;
    }
  }

  lemma ClStoreKeepsInv(s: State, t: nat)
    requires Inv(s) && t < |s.tasks| && s.tasks[t].pc.ClStore?
    ensures Inv(StepClone(s, t))
  {
    var (c, a) := (s.tasks[t].pc.child, s.tasks[t].pc.va);
    var s2 := DropCarry(s, t, a, Idle);
    ClStoreShape(s, s2, t);
    if c < |s.tasks| && c != t && !Exited(s.tasks[c].pc) {
      StoreKeepsInv(s2, StepClone(s, t), c, a);
    }
  }

  lemma LeakCount(l: multiset<nat>, a: nat)
    ensures forall x :: Leak(l, a)[x] == l[x] + if x == a && a != 0 then 1 else 0
  {
  }

  lemma StoreControl(s: State, s1: State, c: nat, a: nat)
    requires Locks(s) && TasksOk(s) && c < |s.tasks|
    requires s1 == s.(tasks := s.tasks[c := s.tasks[c].(vec := a)], leaked := s1.leaked)
    ensures Locks(s1) && TasksOk(s1)
  {
    assert forall u | 0 <= u < |s.tasks| :: s1.tasks[u].pc == s.tasks[u].pc && s1.tasks[u].todo == s.tasks[u].todo;
  }

  lemma StoreClaims(p: Party, a: nat, l: multiset<nat>, l1: multiset<nat>)
    requires if p.stake.removing then l1 == l else Leak(l1, a) == Leak(l, p.vec)
    ensures forall x: nat | x != 0 :: Claim(p.(vec := a), x) + l1[x] == Claim(p, x) + l[x]
  {
    LeakCount(l1, a);
    LeakCount(l, p.vec);
    forall x: nat | x != 0 ensures Claim(p.(vec := a), x) + l1[x] == Claim(p, x) + l[x] {
      assert Leak(l1, a)[x] == Leak(l, p.vec)[x] || p.stake.removing;
    }
  }

  /** A leaked reference is put behind a task's pointer, unless the task is about to clear it. */
  lemma StoreKeepsInv(s: State, s1: State, c: nat, a: nat)
    requires Inv(s) && c < |s.tasks|
    requires s1 == s.(tasks := s.tasks[c := s.tasks[c].(vec := a)], leaked := s1.leaked)
    requires if StakeOf(s.tasks[c].pc).removing then s1.leaked == s.leaked
             else Leak(s1.leaked, a) == Leak(s.leaked, s.tasks[c].vec)
    ensures Inv(s1)
  {
    StoreControl(s, s1, c, a);
    SheetUpdate(s, s1, c);
    var (b, b1) := (SheetOf(s), SheetOf(s1));
    assert CreationOk(b.reg.entries, b.parties[c].stake.creates);
    StoreClaims(b.parties[c], a, s.leaked, s1.leaked);
    Reassign(b, b1, c);
  }

  // ---- Loading and unloading

  lemma LdBuildKeepsInv(s: State, t: nat, spare: nat)
    requires Inv(s) && t < |s.tasks| && s.tasks[t].pc.LdBuild? && spare != 0 && spare !in s.lists
    ensures Inv(StepLoad(s, t, spare))
  {
    var s1 := StepLoad(s, t, spare);
    ControlAfter(s, s1, t);
    if s.tasks[t].pc.mod in s.loaded {
      SameStakesKeepInv(s, s1, t);
    } else {
      SheetUpdate(s, s1, t);
      Allocated(SheetOf(s), SheetOf(s1), t, spare);
    }
  }

  lemma LdRegisterKeepsInv(s: State, t: nat, spare: nat)
    requires Inv(s) && t < |s.tasks| && s.tasks[t].pc.LdRegister?
    ensures Inv(StepLoad(s, t, spare))
  {
    var s1 := StepLoad(s, t, spare);
    var pc := s.tasks[t].pc;
    ControlAfter(s, s1, t);
    SheetUpdate(s, s1, t);
    RegisteredStatic(SheetOf(s), SheetOf(s1), t, pc.name, pc.bitmap, pc.va, pc.mod);
  }

  lemma UnLoopPending(rest: seq<nat>)
    ensures PcOk(UnLoop(rest)) && !HoldsOuter(UnLoop(rest)) && !HoldsInner(UnLoop(rest))
    ensures StakeOf(UnLoop(rest)) == NO_STAKE.(pending := multiset(rest))
  {
  }

  lemma UnBeginControl(s: State, t: nat)
    requires Locks(s) && TasksOk(s) && t < |s.tasks| && s.tasks[t].pc.UnBegin?
    ensures var (s1, th, m) := (StepUnload(s, t), s.tasks[t], s.tasks[t].pc.mod);
      && Locks(s1) && TasksOk(s1)
      && PartyOf(th) == Party(th.vec, NO_STAKE)
      && PartyOf(s1.tasks[t]) == if MayUnload(s, m)
           then Party(th.vec, NO_STAKE.(pending := multiset(HeadsOf(s.heads, m)))) else PartyOf(th)
  {
    var (s1, m) := (StepUnload(s, t), s.tasks[t].pc.mod);
    if MayUnload(s, m) {
      UnLoopPending(HeadsOf(s.heads, m));
      assert s1.tasks[t].pc == UnLoop(HeadsOf(s.heads, m));
    } else {
      assert s1.tasks[t].pc == Idle;
    }
    ControlAfter(s, s1, t);
  }

  lemma UnBeginKeepsInv(s: State, t: nat)
    requires Inv(s) && t < |s.tasks| && s.tasks[t].pc.UnBegin?
    ensures Inv(StepUnload(s, t))
  {
    var s1 := StepUnload(s, t);
    UnBeginControl(s, t);
    SheetUpdate(s, s1, t);
    if MayUnload(s, s.tasks[t].pc.mod) {
      Unloading(SheetOf(s), SheetOf(s1), t, s.tasks[t].pc.mod);
    } else {
      SameStakesKeepInv(s, s1, t);
    }
  }

  lemma MultisetHead(rest: seq<nat>)
    requires rest != []
    ensures multiset{rest[0]} + multiset(rest[1..]) == multiset(rest)
  {
    assert rest == [rest[0]] + rest[1..];
  }

  lemma UnRemoveNext(a: nat, rest: seq<nat>)
    ensures var q := Lock(UnRemove(a, rest));
      && PcOk(q) && !HoldsOuter(q) && !HoldsInner(q)
      && StakeOf(q) == NO_STAKE.(pending := multiset{a} + multiset(rest))
  {
  }

  lemma UnLoopControl(s: State, t: nat)
    requires Locks(s) && TasksOk(s) && t < |s.tasks| && s.tasks[t].pc.UnLoop?
    ensures var s1 := StepUnload(s, t); Locks(s1) && TasksOk(s1) && PartyOf(s1.tasks[t]) == PartyOf(s.tasks[t])
  {
    var (s1, rest) := (StepUnload(s, t), s.tasks[t].pc.rest);
    if rest == [] {
      assert s1.tasks[t].pc == Idle;
    } else {
      MultisetHead(rest);
      UnRemoveNext(rest[0], rest[1..]);
      assert s1.tasks[t].pc == Lock(UnRemove(rest[0], rest[1..]));
    }
    ControlAfter(s, s1, t);
  }

  lemma UnLoopKeepsInv(s: State, t: nat)
    requires Inv(s) && t < |s.tasks| && s.tasks[t].pc.UnLoop?
    ensures Inv(StepUnload(s, t))
  {
    UnLoopControl(s, t);
    SameStakesKeepInv(s, StepUnload(s, t), t);
  }

  lemma UnRemoveControl(s: State, t: nat)
    requires Locks(s) && TasksOk(s) && t < |s.tasks| && s.tasks[t].pc.UnRemove?
    ensures var (s1, a, rest) := (StepUnload(s, t), s.tasks[t].pc.va, multiset(s.tasks[t].pc.rest));
      && Locks(s1) && TasksOk(s1)
      && PartyOf(s.tasks[t]) == Party(s.tasks[t].vec, NO_STAKE.(pending := multiset{a} + rest))
      && PartyOf(s1.tasks[t]) == Party(s.tasks[t].vec,
           if Unregister(s.reg, a).1 == 0 then NO_STAKE.(list := a, pending := rest)
           else NO_STAKE.(pending := multiset{a} + rest))
      && s1 == s.(tasks := s.tasks[t := s1.tasks[t]], reg := Unregister(s.reg, a).0, inner := s1.inner)
  {
    ControlAfter(s, StepUnload(s, t), t);
  }

  lemma UnRemoveKeepsInv(s: State, t: nat)
    requires Inv(s) && t < |s.tasks| && s.tasks[t].pc.UnRemove?
    ensures Inv(StepUnload(s, t))
  {
    var s1 := StepUnload(s, t);
    UnRemoveControl(s, t);
    if Unregister(s.reg, s.tasks[t].pc.va).1 == 0 {
      SheetUpdate(s, s1, t);
      Unregistered(SheetOf(s), SheetOf(s1), t, Find(s.reg.entries, ByAddr(s.tasks[t].pc.va)));
    } else {
      SameStakesKeepInv(s, s1, t);
    }
  }

  lemma UnFreeControl(s: State, t: nat)
    requires Locks(s) && TasksOk(s) && t < |s.tasks| && s.tasks[t].pc.UnFree? && Disciplined(s, t)
    ensures var (s1, a, rest) := (StepUnload(s, t), s.tasks[t].pc.va, multiset(s.tasks[t].pc.rest));
      && Locks(s1) && TasksOk(s1)
      && (PartyOf(s.tasks[t]) == Party(s.tasks[t].vec, NO_STAKE.(list := a, pending := rest))
          || (a == 0 && PartyOf(s.tasks[t]) == Party(s.tasks[t].vec, NO_STAKE.(pending := multiset{0} + rest))))
      && PartyOf(s1.tasks[t]) == Party(s.tasks[t].vec, NO_STAKE.(pending := rest))
  {
    ControlAfter(s, StepUnload(s, t), t);
  }

  lemma UnFreeKeepsInv(s: State, t: nat)
    requires Inv(s) && t < |s.tasks| && s.tasks[t].pc.UnFree? && Disciplined(s, t)
    ensures Inv(StepUnload(s, t))
  {
    var s1 := StepUnload(s, t);
    UnFreeControl(s, t);
    SheetUpdate(s, s1, t);
    Freed(SheetOf(s), SheetOf(s1), t, s.tasks[t].pc.va);
  }
}
