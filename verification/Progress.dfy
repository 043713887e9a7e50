/** No schedule gets stuck and none goes on for ever, disciplined or not. */
module Progress {
  import opened Sums
  import opened Ledger
  import opened Protocol
  import opened Invariant

  // ---- Locks

  predicate Control(s: State) {
    Locks(s) && forall t | 0 <= t < |s.tasks| :: ShapeOk(s.tasks[t].pc)
  }

  /** Away from the lock and unlock steps a task keeps what it holds, and every other task its position. */
  predicate KeepsLocks(s: State, s1: State, t: nat) {
    && t < |s.tasks| <= |s1.tasks|
    && s1.outer == s.outer && s1.inner == s.inner
    && HoldsOuter(s1.tasks[t].pc) == HoldsOuter(s.tasks[t].pc)
    && HoldsInner(s1.tasks[t].pc) == HoldsInner(s.tasks[t].pc)
    && ShapeOk(s1.tasks[t].pc)
    && (forall u | 0 <= u < |s.tasks| && u != t :: s1.tasks[u].pc == s.tasks[u].pc)
    && (forall u | |s.tasks| <= u < |s1.tasks| :: s1.tasks[u].pc == Idle)
  }

  predicate InSet(p: Pc) { p.SetGet? || p.SetShow? || p.SetReduce? || p.SetClear? || p.SetInstall? }
  predicate InRemove(p: Pc) { p.RemReduce? || p.RemClear? }
  predicate InCreate(p: Pc) { p.CrCheck? || p.CrAdopt? || p.CrBuild? || p.CrPin? || p.CrRegister? || p.CrInstall? }
  predicate InClone(p: Pc) { p.ClRef? || p.ClCopy? || p.ClFind? || p.ClGet? || p.ClStore? }
  predicate InLoad(p: Pc) { p.LdBuild? || p.LdRegister? }
  predicate InUnload(p: Pc) { p.UnBegin? || p.UnLoop? || p.UnRemove? || p.UnFree? }
  predicate AtLock(p: Pc) { p.Lock? || p.Unlock? || p.EnterIoctl? || p.LeaveIoctl? }

  lemma LookUpKeepsLocks(s: State, t: nat)
    requires t < |s.tasks| && (s.tasks[t].pc.SetGet? || s.tasks[t].pc.SetShow?)
    ensures KeepsLocks(s, StepSet(s, t), t)
  {
  }

  lemma SetKeepsLocks(s: State, t: nat)
    requires t < |s.tasks| && InSet(s.tasks[t].pc)
    ensures KeepsLocks(s, StepSet(s, t), t)
  {
    if s.tasks[t].pc.SetGet? || s.tasks[t].pc.SetShow? {
      LookUpKeepsLocks(s, t);
    }
  }

  lemma RemoveKeepsLocks(s: State, t: nat)
    requires t < |s.tasks| && InRemove(s.tasks[t].pc)
    ensures KeepsLocks(s, StepRemove(s, t), t)
  {
  }

  lemma CreateKeepsLocks(s: State, t: nat, spare: nat)
    requires t < |s.tasks| && InCreate(s.tasks[t].pc)
    ensures KeepsLocks(s, StepCreate(s, t, spare), t)
  {
  }

  lemma ForkKeepsLocks(s: State, t: nat)
    requires t < |s.tasks| && (s.tasks[t].pc.ClRef? || s.tasks[t].pc.ClCopy?)
    ensures KeepsLocks(s, StepClone(s, t), t)
  {
  }

  lemma CloneKeepsLocks(s: State, t: nat)
    requires t < |s.tasks| && InClone(s.tasks[t].pc)
    ensures KeepsLocks(s, StepClone(s, t), t)
  {
    if s.tasks[t].pc.ClRef? || s.tasks[t].pc.ClCopy? {
      ForkKeepsLocks(s, t);
    }
  }

  lemma LoadKeepsLocks(s: State, t: nat, spare: nat)
    requires t < |s.tasks| && InLoad(s.tasks[t].pc)
    ensures KeepsLocks(s, StepLoad(s, t, spare), t)
  {
  }

  lemma UnloadKeepsLocks(s: State, t: nat)
    requires t < |s.tasks| && InUnload(s.tasks[t].pc)
    ensures KeepsLocks(s, StepUnload(s, t), t)
  {
  }

  lemma ExitKeepsLocks(s: State, t: nat)
    requires t < |s.tasks| && s.tasks[t].pc.ExReduce?
    ensures KeepsLocks(s, StepExit(s, t), t)
  {
  }

  lemma StartKeepsLocks(s: State, t: nat)
    requires t < |s.tasks| && s.tasks[t].pc.Idle? && s.tasks[t].todo != []
    ensures KeepsLocks(s, StepStart(s, t), t)
  {
  }

  lemma ListLockKeepsControl(s: State, t: nat)
    requires Control(s) && t < |s.tasks|
    requires s.tasks[t].pc.Unlock? || (s.tasks[t].pc.Lock? && s.inner == Free)
    ensures Control(StepLock(s, t))
  {
  }

  lemma MutexLockKeepsControl(s: State, t: nat)
    requires Control(s) && t < |s.tasks|
    requires s.tasks[t].pc.LeaveIoctl? || (s.tasks[t].pc.EnterIoctl? && s.outer == Free)
    ensures Control(StepIoctl(s, t))
  {
  }

  /** Every step, disciplined or not, keeps each lock with the one task that is inside it. */
  lemma StepKeepsControl(s: State, t: nat, spare: nat)
    requires Control(s) && Enabled(s, t, spare)
    ensures Control(Step(s, t, spare))
  {
    var p := s.tasks[t].pc;
    if p.Lock? || p.Unlock? {
      ListLockKeepsControl(s, t);
    } else if AtLock(p) {
      MutexLockKeepsControl(s, t);
    } else {
      if p.Idle? {
        StartKeepsLocks(s, t);
      } else if InSet(p) {
        SetKeepsLocks(s, t);
      } else if InRemove(p) {
        RemoveKeepsLocks(s, t);
      } else if InCreate(p) {
        CreateKeepsLocks(s, t, spare);
      } else if InClone(p) {
        CloneKeepsLocks(s, t);
      } else if InLoad(p) {
        LoadKeepsLocks(s, t, spare);
      } else if InUnload(p) {
        UnloadKeepsLocks(s, t);
      } else {
        ExitKeepsLocks(s, t);
      }
      KeptIsControl(s, Step(s, t, spare), t);
    }
  }

  lemma KeptIsControl(s: State, s1: State, t: nat)
    requires Control(s) && KeepsLocks(s, s1, t)
    ensures Control(s1)
  {
  }

  lemma {:induction false} RunKeepsControl(s: State, sched: seq<Pick>)
    requires Control(s) && Feasible(s, sched)
    ensures Control(Exec(s, sched))
    decreases sched
  {
    if sched != [] {
      StepKeepsControl(s, sched[0].t, sched[0].spare);
      RunKeepsControl(Step(s, sched[0].t, sched[0].spare), sched[1..]);
    }
  }

  /** No two tasks are inside list_lock, or inside mutexlock, at the same time; and a task inside
      list_lock does not wait, so mutexlock is never taken after it. */
  lemma MutualExclusion(s0: State, sched: seq<Pick>, t: nat, u: nat)
    requires Initial(s0) && Feasible(s0, sched)
    requires t < |Exec(s0, sched).tasks| && u < |Exec(s0, sched).tasks| && t != u
    ensures var s := Exec(s0, sched);
      && !(HoldsInner(s.tasks[t].pc) && HoldsInner(s.tasks[u].pc))
      && !(HoldsOuter(s.tasks[t].pc) && HoldsOuter(s.tasks[u].pc))
      && (HoldsInner(s.tasks[t].pc) ==> !s.tasks[t].pc.EnterIoctl? && !s.tasks[t].pc.Lock?)
  {
    RunKeepsControl(s0, sched);
  }

  /** A task that cannot take a step has finished, or waits for a lock that another task is inside of. */
  lemma WaitsExact(s: State, t: nat, spare: nat)
    requires Control(s) && t < |s.tasks| && spare != 0 && spare !in s.lists
    ensures var (p, todo) := (s.tasks[t].pc, s.tasks[t].todo); !Enabled(s, t, spare) <==>
      || p == Gone || (p == Idle && todo == [])
      || (p.EnterIoctl? && exists u | 0 <= u < |s.tasks| && u != t :: HoldsOuter(s.tasks[u].pc))
      || (p.Lock? && exists u | 0 <= u < |s.tasks| && u != t :: HoldsInner(s.tasks[u].pc))
  {
    if s.outer.Held? {
      assert HoldsOuter(s.tasks[s.outer.task].pc);
    }
    if s.inner.Held? {
      assert HoldsInner(s.tasks[s.inner.task].pc);
    }
  }

  /** The list of vectors changes only at the hands of the task that holds list_lock. */
  lemma ListIsLocked(s: State, t: nat, spare: nat)
    requires Control(s) && Enabled(s, t, spare)
    ensures Step(s, t, spare).reg.entries != s.reg.entries ==> s.inner == Held(t)
  {
    var p := s.tasks[t].pc;
    if !HoldsInner(p) {
      assert Step(s, t, spare).reg.entries == s.reg.entries;
    }
  }

  lemma SpareExists(lists: set<nat>) returns (a: nat)
    ensures a != 0 && a !in lists
  {
    a := 1;
    var rest := lists;
    while exists x :: x in rest && x >= a
      invariant a >= 1 && rest <= lists
      invariant forall x | x in lists && x !in rest :: x < a
      decreases rest
    {
      var x :| x in rest && x >= a;
      a := x + 1;
      rest := rest - {x};
    }
  }

  /** Deadlock freedom: while some task is not finished, some task can take a step. */
  lemma NoDeadlock(s0: State, sched: seq<Pick>, w: nat) returns (t: nat, spare: nat)
    requires Initial(s0) && Feasible(s0, sched)
    requires w < |Exec(s0, sched).tasks| && !Finished(Exec(s0, sched).tasks[w])
    ensures Enabled(Exec(s0, sched), t, spare)
  {
    RunKeepsControl(s0, sched);
    var s := Exec(s0, sched);
    spare := SpareExists(s.lists);
    if s.inner.Held? {
      t := s.inner.task;
    } else if s.outer.Held? {
      t := s.outer.task;
    } else {
      t := w;
    }
  }

  // ---- Termination

  /** The longest way on from a position to the end of the system call. */
  function Work(p: Pc): nat {
    (if p.Lock? || p.Unlock? then 1 else 0) + WorkAt(At(p))
  }

  function WorkAt(p: Pc): nat {
    match p
    case Idle => 0
    case Gone => 0
    case Lock(_) => 0
    case Unlock(_) => 0
    case EnterIoctl(op) => if op.Set? then 11 else if op.Remove? then 6 else 17
    case LeaveIoctl => 1
    case SetGet(_) => 9
    case SetShow(_) => 7
    case SetReduce(_, _) => 5
    case SetClear(_) => 3
    case SetInstall(_) => 2
    case RemReduce(_) => 4
    case RemClear => 2
    case CrCheck(_) => 15
    case CrAdopt(_) => 2
    case CrBuild(_) => 13
    case CrPin(_, _) => 12
    case CrRegister(_, _) => 10
    case CrInstall(_) => 8
    case ClRef(op) => 8 + ChildWork(op)
    case ClCopy(op, _) => 6 + ChildWork(op)
    case ClFind(_, _) => 5
    case ClGet(_, _) => 3
    case ClStore(_, _) => 1
    case ExReduce => 2
    case LdBuild(_, _, _) => 10
    case LdRegister(_, _, _, _) => 8
    case UnBegin(_) => 2
    case UnLoop(rest) => 1 + 5 * |rest|
    case UnRemove(_, rest) => 4 + 5 * |rest|
    case UnFree(_, _, rest) => 2 + 5 * |rest|
  }

  function ChildWork(op: Op): nat {
    match op
    case Clone(_, _, _, child) => OpsWork(child)
    case _ => 0
  }

  function OpWork(op: Op): nat {
    match op
    case Set(_) => 12
    case Remove(_) => 7
    case Create(_) => 18
    case Clone(_, _, _, child) => 10 + OpsWork(child)
    case Exit => 4
    case Load(_, _, _) => 11
    case Unload(_) => 3
  }

  function OpsWork(ops: seq<Op>): nat {
    if ops == [] then 0 else OpWork(ops[0]) + OpsWork(ops[1..])
  }

  function TaskWork(t: Task): int { Work(t.pc) + OpsWork(t.todo) }

  /** Steps that are left: those of every task, and those of cleaning up every remembered list. */
  function TotalWork(s: State): int { Sum(s.tasks, TaskWork) + 6 * |s.heads| }

  /** The work of the child that a step has added. */
  function ArrivalWork(s: State, s1: State): int {
    if |s1.tasks| > |s.tasks| then TaskWork(s1.tasks[|s.tasks|]) else 0
  }

  /** The work of all tasks after task t has moved and perhaps a child has appeared. */
  lemma WorkAfter(s: State, s1: State, t: nat)
    requires t < |s.tasks| <= |s1.tasks| <= |s.tasks| + 1
    requires forall u | 0 <= u < |s.tasks| && u != t :: TaskWork(s1.tasks[u]) == TaskWork(s.tasks[u])
    requires TaskWork(s1.tasks[t]) + ArrivalWork(s, s1) + 6 * |s1.heads| < TaskWork(s.tasks[t]) + 6 * |s.heads|
    ensures TotalWork(s1) < TotalWork(s)
  {
    var n := |s.tasks|;
    var same := s1.tasks[..n];
    SumUpdate(s.tasks, t, s1.tasks[t], TaskWork);
    SumAgree(same, s.tasks[t := s1.tasks[t]]);
    if |s1.tasks| > n {
      SumAppend(same, s1.tasks[n], TaskWork);
      assert s1.tasks == same + [s1.tasks[n]];
    } else {
      assert s1.tasks == same;
    }
  }

  lemma {:induction false} SumAgree(ts: seq<Task>, us: seq<Task>)
    requires |ts| == |us| && forall i | 0 <= i < |ts| :: TaskWork(ts[i]) == TaskWork(us[i])
    ensures Sum(ts, TaskWork) == Sum(us, TaskWork)
  {
    if ts != [] {
      SumAgree(ts[1..], us[1..]);
    }
  }

  /** One step is worth at least one unit of work. */
  predicate Spends(s: State, s1: State, t: nat) {
    && t < |s.tasks| <= |s1.tasks| <= |s.tasks| + 1
    && (forall u | 0 <= u < |s.tasks| && u != t ::
          s1.tasks[u].pc == s.tasks[u].pc && s1.tasks[u].todo == s.tasks[u].todo)
    && TaskWork(s1.tasks[t]) + ArrivalWork(s, s1) + 6 * |s1.heads| < TaskWork(s.tasks[t]) + 6 * |s.heads|
  }

  lemma StartSpends(s: State, t: nat)
    requires t < |s.tasks| && s.tasks[t].pc.Idle? && s.tasks[t].todo != []
    ensures Spends(s, StepStart(s, t), t)
  {
    assert Work(Start(s.tasks[t].todo[0])) < OpWork(s.tasks[t].todo[0]);
  }

  lemma LockSpends(s: State, t: nat)
    requires t < |s.tasks| && AtLock(s.tasks[t].pc) && ShapeOk(s.tasks[t].pc)
    ensures Spends(s, if s.tasks[t].pc.Lock? || s.tasks[t].pc.Unlock? then StepLock(s, t) else StepIoctl(s, t), t)
  {
    if s.tasks[t].pc.EnterIoctl? {
      assert Work(Dispatch(s.tasks[t].pc.op)) < Work(s.tasks[t].pc);
    }
  }

  lemma SetSpends(s: State, t: nat)
    requires t < |s.tasks| && InSet(s.tasks[t].pc)
    ensures Spends(s, StepSet(s, t), t)
  {
  }

  lemma RemoveSpends(s: State, t: nat)
    requires t < |s.tasks| && InRemove(s.tasks[t].pc)
    ensures Spends(s, StepRemove(s, t), t)
  {
  }

  lemma CreateSpends(s: State, t: nat, spare: nat)
    requires t < |s.tasks| && InCreate(s.tasks[t].pc)
    ensures Spends(s, StepCreate(s, t, spare), t)
  {
  }

  lemma CopySpends(s: State, t: nat)
    requires t < |s.tasks| && s.tasks[t].pc.ClCopy?
    ensures Spends(s, StepClone(s, t), t)
  {
  }

  lemma StoreSpends(s: State, t: nat)
    requires t < |s.tasks| && s.tasks[t].pc.ClStore?
    ensures Spends(s, StepClone(s, t), t)
  {
    var (s1, c) := (StepClone(s, t), s.tasks[t].pc.child);
    assert s1.tasks[t].pc == Idle && s1.tasks[t].todo == s.tasks[t].todo && |s1.tasks| == |s.tasks|;
    forall u | 0 <= u < |s.tasks| && u != t
      ensures s1.tasks[u].pc == s.tasks[u].pc && s1.tasks[u].todo == s.tasks[u].todo
    {
      assert u != c ==> s1.tasks[u] == s.tasks[u];
    }
  }

  lemma CloneSpends(s: State, t: nat)
    requires t < |s.tasks| && InClone(s.tasks[t].pc) && !s.tasks[t].pc.ClCopy?
    ensures Spends(s, StepClone(s, t), t)
  {
    if s.tasks[t].pc.ClStore? {
      StoreSpends(s, t);
    }
  }

  lemma ExitSpends(s: State, t: nat)
    requires t < |s.tasks| && s.tasks[t].pc.ExReduce?
    ensures Spends(s, StepExit(s, t), t)
  {
  }

  lemma LoadSpends(s: State, t: nat, spare: nat)
    requires t < |s.tasks| && InLoad(s.tasks[t].pc)
    ensures Spends(s, StepLoad(s, t, spare), t)
  {
  }

  lemma UnBeginSpends(s: State, t: nat)
    requires t < |s.tasks| && s.tasks[t].pc.UnBegin?
    ensures Spends(s, StepUnload(s, t), t)
  {
    var (s1, m) := (StepUnload(s, t), s.tasks[t].pc.mod);
    if MayUnload(s, m) {
      var (mine, others) := (HeadsOf(s.heads, m), HeadsOfOthers(s.heads, m));
      assert s1.tasks[t] == s.tasks[t].(pc := UnLoop(mine)) && s1.heads == others;
      assert |s.heads| == |others| + |mine| by {
        HeadsSplit(s.heads, m, 0);
      }
      assert Work(UnLoop(mine)) == 1 + 5 * |mine|;
    }
  }

  lemma CleanupSpends(s: State, t: nat)
    requires t < |s.tasks| && (s.tasks[t].pc.UnLoop? || s.tasks[t].pc.UnRemove? || s.tasks[t].pc.UnFree?)
    ensures Spends(s, StepUnload(s, t), t)
  {
  }

  lemma StepSpends(s: State, t: nat, spare: nat)
    requires Enabled(s, t, spare) && ShapeOk(s.tasks[t].pc)
    ensures TotalWork(Step(s, t, spare)) < TotalWork(s)
  {
    var p := s.tasks[t].pc;
    if p.Idle? {
      StartSpends(s, t);
    } else if AtLock(p) {
      LockSpends(s, t);
    } else if InSet(p) {
      SetSpends(s, t);
    } else if InRemove(p) {
      RemoveSpends(s, t);
    } else if InCreate(p) {
      CreateSpends(s, t, spare);
    } else if p.ClCopy? {
      CopySpends(s, t);
    } else if InClone(p) {
      CloneSpends(s, t);
    } else if InLoad(p) {
      LoadSpends(s, t, spare);
    } else if p.UnBegin? {
      UnBeginSpends(s, t);
    } else if InUnload(p) {
      CleanupSpends(s, t);
    } else {
      ExitSpends(s, t);
    }
    WorkAfter(s, Step(s, t, spare), t);
  }

  lemma {:induction false} RunSpends(s: State, sched: seq<Pick>)
    requires Control(s) && Feasible(s, sched)
    ensures |sched| + TotalWork(Exec(s, sched)) <= TotalWork(s)
    decreases sched
  {
    if sched != [] {
      StepSpends(s, sched[0].t, sched[0].spare);
      StepKeepsControl(s, sched[0].t, sched[0].spare);
      RunSpends(Step(s, sched[0].t, sched[0].spare), sched[1..]);
    }
  }

  /** Termination: no schedule, whatever it interleaves, is longer than the work there was. */
  lemma EveryRunEnds(s0: State, sched: seq<Pick>)
    requires Initial(s0) && Feasible(s0, sched)
    ensures |sched| <= TotalWork(s0)
  {
    RunSpends(s0, sched);
    SumNonNegative(Exec(s0, sched).tasks, TaskWork);
  }
}
