/** One vector a bitmap: what every step keeps, disciplined or not. A stray REMOVE, a torn fork or a list
    that is freed while in use spoils refcounts and addresses, but not this. */
module Uniqueness {
  import opened Registry
  import opened Text
  import opened Bitmap
  import opened Ledger
  import opened Options
  import opened Protocol
  import opened Invariant
  import opened Steps
  import opened Progress

  predicate VectorsOk(es: seq<Entry>) {
    forall i | 0 <= i < |es| :: VectorOk(es[i])
  }

  predicate AllArgumentsOk(s: State) {
    forall t | 0 <= t < |s.tasks| :: ArgumentsOk(At(s.tasks[t].pc)) && OpsOk(s.tasks[t].todo)
  }

  /** While a task creates a vector nobody has registered one for its bitmap. */
  predicate CreationsOk(s: State) {
    forall t | 0 <= t < |s.tasks| :: CreationOk(s.reg.entries, StakeOf(s.tasks[t].pc).creates)
  }

  predicate Unique(s: State) {
    && Control(s) && AllArgumentsOk(s)
    && VectorsOk(s.reg.entries) && OnePerBitmap(s.reg.entries) && CreationsOk(s)
  }

  // ---- What steps do to the registry

  /** Nothing that a new dynamic vector would break. */
  ghost predicate StillUnique(es: seq<Entry>, es1: seq<Entry>) {
    && (VectorsOk(es) ==> VectorsOk(es1))
    && (OnePerBitmap(es) ==> OnePerBitmap(es1))
    && (forall b | NoDynamic(es, b) :: NoDynamic(es1, b))
  }

  lemma BumpStillUnique(r: Table, i: nat, d: int)
    requires i < |r.entries|
    ensures StillUnique(r.entries, Bump(r, i, d).entries)
  {
  }

  lemma AcquireStillUnique(r: Table, k: Key)
    ensures StillUnique(r.entries, Acquire(r, k).0.entries)
  {
    if Has(r.entries, k) {
      BumpStillUnique(r, Find(r.entries, k), 1);
    }
  }

  lemma ReleaseStillUnique(r: Table, k: Key)
    ensures StillUnique(r.entries, Release(r, k).0.entries)
  {
    if Has(r.entries, k) {
      BumpStillUnique(r, Find(r.entries, k), -1);
    }
  }

  lemma UnregisterStillUnique(r: Table, a: nat)
    ensures StillUnique(r.entries, Unregister(r, a).0.entries)
  {
    var (es, es1, i) := (r.entries, Unregister(r, a).0.entries, Find(r.entries, ByAddr(a)));
    if i < |es| && es[i].refcount <= 0 {
      assert forall k | 0 <= k < |es1| :: es1[k] == es[if k < i then k else k + 1];
    }
  }

  lemma StaticStillUnique(es: seq<Entry>, e: Entry)
    requires VectorOk(e) && e.owner != DYNAMIC
    ensures StillUnique(es, [e] + es)
  {
  }

  // ---- What steps do to the tasks

  /** Task t has moved to a position with arguments in order; other tasks are where they were, and children
      begin. */
  predicate Moves(s: State, s1: State, t: nat) {
    && t < |s.tasks| <= |s1.tasks|
    && ArgumentsOk(At(s1.tasks[t].pc)) && OpsOk(s1.tasks[t].todo)
    && (forall u | 0 <= u < |s.tasks| && u != t ::
          s1.tasks[u].pc == s.tasks[u].pc && s1.tasks[u].todo == s.tasks[u].todo)
    && (forall u | |s.tasks| <= u < |s1.tasks| :: s1.tasks[u].pc == Idle && OpsOk(s1.tasks[u].todo))
  }

  /** Between the check for a vector and the registration of a new one. */
  predicate Creating(p: Pc) {
    var q := At(p);
    q.CrBuild? || q.CrPin? || q.CrRegister?
  }

  lemma OnlyCreatorsCreate(p: Pc)
    requires !Creating(p)
    ensures StakeOf(p).creates == None
  {
  }

  /** And it may have begun to create what nobody has. */
  ghost predicate KeepsUnique(s: State, s1: State, t: nat) {
    && Moves(s, s1, t)
    && StillUnique(s.reg.entries, s1.reg.entries)
    && CreationOk(s1.reg.entries, StakeOf(s1.tasks[t].pc).creates)
  }

  lemma KeptIsUnique(s: State, s1: State, t: nat)
    requires Unique(s) && KeepsUnique(s, s1, t) && Control(s1)
    ensures Unique(s1)
  {
    forall u | 0 <= u < |s1.tasks| ensures CreationOk(s1.reg.entries, StakeOf(s1.tasks[u].pc).creates) {
      if u < |s.tasks| && u != t {
        assert CreationOk(s.reg.entries, StakeOf(s.tasks[u].pc).creates);
      }
    }
  }

  /** What a step may count on about its own task. */
  predicate Ready(s: State, t: nat) {
    && t < |s.tasks| && ShapeOk(s.tasks[t].pc) && ArgumentsOk(At(s.tasks[t].pc)) && OpsOk(s.tasks[t].todo)
    && CreationOk(s.reg.entries, StakeOf(s.tasks[t].pc).creates)
  }

  lemma StartKeepsUnique(s: State, t: nat)
    requires Ready(s, t) && s.tasks[t].pc.Idle? && s.tasks[t].todo != []
    ensures KeepsUnique(s, StepStart(s, t), t)
  {
    assert OpOk(s.tasks[t].todo[0]);
  }

  lemma LockKeepsUnique(s: State, t: nat)
    requires Ready(s, t) && (s.tasks[t].pc.Lock? || s.tasks[t].pc.Unlock?)
    ensures KeepsUnique(s, StepLock(s, t), t)
  {
    var (p, q) := (s.tasks[t].pc, s.tasks[t].pc.next);
    assert ShapeOk(p) && ArgumentsOk(q) && At(q) == q;
  }

  lemma IoctlKeepsUnique(s: State, t: nat)
    requires Ready(s, t) && (s.tasks[t].pc.EnterIoctl? || s.tasks[t].pc.LeaveIoctl?)
    ensures KeepsUnique(s, StepIoctl(s, t), t)
  {
  }

  lemma SetMoves(s: State, t: nat)
    requires Ready(s, t) && InSet(s.tasks[t].pc)
    ensures var s1 := StepSet(s, t); Moves(s, s1, t) && !Creating(s1.tasks[t].pc)
  {
  }

  lemma SetKeepsUnique(s: State, t: nat)
    requires Ready(s, t) && InSet(s.tasks[t].pc)
    ensures KeepsUnique(s, StepSet(s, t), t)
  {
    SetMoves(s, t);
    OnlyCreatorsCreate(StepSet(s, t).tasks[t].pc);
    if s.tasks[t].pc.SetGet? {
      AcquireStillUnique(s.reg, ByName(s.tasks[t].pc.name));
    } else if s.tasks[t].pc.SetReduce? {
      ReleaseStillUnique(s.reg, ByName(s.tasks[t].pc.text));
    }
  }

  lemma RemoveKeepsUnique(s: State, t: nat)
    requires Ready(s, t) && InRemove(s.tasks[t].pc)
    ensures KeepsUnique(s, StepRemove(s, t), t)
  {
    if s.tasks[t].pc.RemReduce? {
      ReleaseStillUnique(s.reg, ByName(s.tasks[t].pc.name));
    }
  }

  /** A task that finds no list for its bitmap finds no vector, or only one with a NULL list. */
  lemma CheckKeepsUnique(s: State, t: nat)
    requires Ready(s, t) && VectorsOk(s.reg.entries) && s.tasks[t].pc.CrCheck?
    ensures KeepsUnique(s, StepCreate(s, t, 0), t)
  {
    var b := s.tasks[t].pc.bitmap;
    AcquireStillUnique(s.reg, ByBitmap(b));
    var i := Find(s.reg.entries, ByBitmap(b));
    if i == |s.reg.entries| {
      NoMatchNoDynamic(s.reg.entries, b);
    } else {
      assert VectorOk(s.reg.entries[i]);
    }
  }

  lemma CreateMoves(s: State, t: nat, spare: nat)
    requires Ready(s, t) && spare != 0 && InCreate(s.tasks[t].pc)
    requires !s.tasks[t].pc.CrCheck? && !s.tasks[t].pc.CrRegister?
    ensures Moves(s, StepCreate(s, t, spare), t)
    ensures StakeOf(StepCreate(s, t, spare).tasks[t].pc).creates in {None, StakeOf(s.tasks[t].pc).creates}
  {
  }

  lemma CreateKeepsUnique(s: State, t: nat, spare: nat)
    requires Ready(s, t) && spare != 0 && InCreate(s.tasks[t].pc)
    requires !s.tasks[t].pc.CrCheck? && !s.tasks[t].pc.CrRegister?
    ensures KeepsUnique(s, StepCreate(s, t, spare), t)
  {
    CreateMoves(s, t, spare);
    assert StepCreate(s, t, spare).reg.entries == s.reg.entries;
  }

  /** The registration itself: since mutexlock is held, no other task is creating anything. */
  lemma RegisterKeepsUnique(s: State, t: nat)
    requires Unique(s) && t < |s.tasks| && s.tasks[t].pc.CrRegister?
    requires Control(StepCreate(s, t, 0))
    ensures Unique(StepCreate(s, t, 0))
  {
    var (s1, p) := (StepCreate(s, t, 0), s.tasks[t].pc);
    var es1 := s1.reg.entries;
    OneCreator(s, t);
    assert CreationOk(s.reg.entries, StakeOf(p).creates);
    assert es1[1..] == s.reg.entries && VectorOk(es1[0]);
    forall u | 0 <= u < |s1.tasks| ensures StakeOf(s1.tasks[u].pc).creates == None {
      if u != t {
        assert s1.tasks[u] == s.tasks[u];
      }
    }
  }

  lemma ForkMoves(s: State, t: nat)
    requires Ready(s, t) && (s.tasks[t].pc.ClRef? || s.tasks[t].pc.ClCopy?)
    ensures var s1 := StepClone(s, t); Moves(s, s1, t) && !Creating(s1.tasks[t].pc)
  {
  }

  lemma FindMoves(s: State, t: nat)
    requires Ready(s, t) && (s.tasks[t].pc.ClFind? || s.tasks[t].pc.ClGet?)
    ensures var s1 := StepClone(s, t); Moves(s, s1, t) && !Creating(s1.tasks[t].pc)
  {
  }

  lemma StoreMoves(s: State, t: nat)
    requires Ready(s, t) && s.tasks[t].pc.ClStore?
    ensures var s1 := StepClone(s, t); Moves(s, s1, t) && !Creating(s1.tasks[t].pc)
  {
  }

  lemma CloneKeepsUnique(s: State, t: nat)
    requires Ready(s, t) && InClone(s.tasks[t].pc)
    ensures KeepsUnique(s, StepClone(s, t), t)
  {
    if s.tasks[t].pc.ClRef? || s.tasks[t].pc.ClCopy? {
      ForkMoves(s, t);
    } else if s.tasks[t].pc.ClFind? || s.tasks[t].pc.ClGet? {
      FindMoves(s, t);
    } else {
      StoreMoves(s, t);
    }
    OnlyCreatorsCreate(StepClone(s, t).tasks[t].pc);
    if s.tasks[t].pc.ClRef? {
      AcquireStillUnique(s.reg, ByAddr(s.tasks[t].vec));
    } else if s.tasks[t].pc.ClGet? {
      AcquireStillUnique(s.reg, ByBitmap(s.tasks[t].pc.id));
    }
  }

  lemma ExitKeepsUnique(s: State, t: nat)
    requires Ready(s, t) && s.tasks[t].pc.ExReduce?
    ensures KeepsUnique(s, StepExit(s, t), t)
  {
    ReleaseStillUnique(s.reg, ByAddr(s.tasks[t].vec));
  }

  lemma LoadKeepsUnique(s: State, t: nat, spare: nat)
    requires Ready(s, t) && spare != 0 && InLoad(s.tasks[t].pc)
    ensures KeepsUnique(s, StepLoad(s, t, spare), t)
  {
    var p := s.tasks[t].pc;
    if p.LdRegister? {
      StaticStillUnique(s.reg.entries, Entry(p.name, p.bitmap, p.va, 0, p.bitmap, p.mod));
    }
  }

  lemma UnloadMoves(s: State, t: nat)
    requires t < |s.tasks| && OpsOk(s.tasks[t].todo) && InUnload(s.tasks[t].pc)
    ensures var s1 := StepUnload(s, t); Moves(s, s1, t) && !Creating(s1.tasks[t].pc)
  {
  }

  lemma UnloadKeepsUnique(s: State, t: nat)
    requires Ready(s, t) && InUnload(s.tasks[t].pc)
    ensures KeepsUnique(s, StepUnload(s, t), t)
  {
    UnloadMoves(s, t);
    OnlyCreatorsCreate(StepUnload(s, t).tasks[t].pc);
    if s.tasks[t].pc.UnRemove? {
      UnregisterStillUnique(s.reg, s.tasks[t].pc.va);
    } else {
      assert StepUnload(s, t).reg.entries == s.reg.entries;
    }
  }

  lemma StepKeepsUnique(s: State, t: nat, spare: nat)
    requires Unique(s) && Enabled(s, t, spare)
    ensures Unique(Step(s, t, spare))
  {
    var p := s.tasks[t].pc;
    assert Ready(s, t);
    StepKeepsControl(s, t, spare);
    if p.CrRegister? {
      RegisterKeepsUnique(s, t);
    } else {
      if p.Idle? {
        StartKeepsUnique(s, t);
      } else if p.Lock? || p.Unlock? {
        LockKeepsUnique(s, t);
      } else if AtLock(p) {
        IoctlKeepsUnique(s, t);
      } else if InSet(p) {
        SetKeepsUnique(s, t);
      } else if InRemove(p) {
        RemoveKeepsUnique(s, t);
      } else if p.CrCheck? {
        CheckKeepsUnique(s, t);
      } else if InCreate(p) {
        CreateKeepsUnique(s, t, spare);
      } else if InClone(p) {
        CloneKeepsUnique(s, t);
      } else if InLoad(p) {
        LoadKeepsUnique(s, t, spare);
      } else if InUnload(p) {
        UnloadKeepsUnique(s, t);
      } else {
        ExitKeepsUnique(s, t);
      }
      KeptIsUnique(s, Step(s, t, spare), t);
    }
  }

  lemma {:induction false} RunKeepsUnique(s: State, sched: seq<Pick>)
    requires Unique(s) && Feasible(s, sched)
    ensures Unique(Exec(s, sched))
    decreases sched
  {
    if sched != [] {
      StepKeepsUnique(s, sched[0].t, sched[0].spare);
      RunKeepsUnique(Step(s, sched[0].t, sched[0].spare), sched[1..]);
    }
  }

  lemma AttainableUnique(s: State)
    requires Attainable(s)
    ensures Unique(s)
  {
    var s0, sched :| Initial(s0) && Feasible(s0, sched) && Exec(s0, sched) == s;
    RunKeepsUnique(s0, sched);
  }

  /** At most one dynamic vector a bitmap, in every interleaving, although the check and the registration
      are two separate list_lock sections. */
  lemma OneVectorPerBitmap(s: State, i: nat, j: nat)
    requires Attainable(s) && i < j < |s.reg.entries|
    requires s.reg.entries[i].owner == DYNAMIC && s.reg.entries[j].owner == DYNAMIC
    requires Buildable(s.reg.entries[i].bitmap)
    ensures s.reg.entries[i].bitmap != s.reg.entries[j].bitmap
  {
    AttainableUnique(s);
  }

  /** Every dynamic vector has an accepted bitmap and is named and numbered by it. */
  lemma DynamicsAreStandard(s: State)
    requires Attainable(s)
    ensures forall i | 0 <= i < |s.reg.entries| && s.reg.entries[i].owner == DYNAMIC ::
              Standard(s.reg.entries[i]) && Accepted(s.reg.entries[i].bitmap)
  {
    AttainableUnique(s);
    forall i | 0 <= i < |s.reg.entries| && s.reg.entries[i].owner == DYNAMIC
      ensures Standard(s.reg.entries[i]) && Accepted(s.reg.entries[i].bitmap)
    {
      assert VectorOk(s.reg.entries[i]);
    }
  }
}
