/** The ownership protocol as a state machine. Tasks run system calls; every step is what a task does
    between two points where another task can run, and list_lock and mutexlock are steps of their own.
    Any interleaving of any number of tasks and modules is a schedule of this machine. */
module Protocol {
  import opened Registry
  import opened Text
  import opened Bitmap
  import opened Ledger

  /** What a task asks for, in the order it asks. The child of a clone runs its own list. */
  datatype Op =
    | Set(name: string)
    | Remove(name: string)
    | Create(bitmap: nat)
    | Clone(share: bool, id: nat, fails: bool, child: seq<Op>)
    | Exit
    | Load(mod: nat, name: string, bitmap: nat)
    | Unload(mod: nat)

  /** Where a task is. Lock(p) waits for list_lock and then is at p; Unlock(p) releases it and then
      is at p. Addresses, texts and results are the local variables of the C functions. */
  datatype Pc =
    | Idle
    | Gone
    | Lock(next: Pc)
    | Unlock(next: Pc)
    | EnterIoctl(op: Op)
    | LeaveIoctl
    // IOCTL_SET, ioctl_module.c
    | SetGet(name: string)
    | SetShow(va: nat)
    | SetReduce(va: nat, text: string)
    | SetClear(va: nat)
    | SetInstall(va: nat)
    // IOCTL_REMOVE, ioctl_module.c
    | RemReduce(name: string)
    | RemClear
    // IOCTL_CREATE_FROM_BITMAP, dynamic_vector.c
    | CrCheck(bitmap: nat)
    | CrAdopt(va: nat)
    | CrBuild(bitmap: nat)
    | CrPin(bitmap: nat, va: nat)
    | CrRegister(bitmap: nat, va: nat)
    | CrInstall(va: nat)
    // copy_process and sys_clone2
    | ClRef(op: Op)
    | ClCopy(op: Op, va: nat)
    | ClFind(child: nat, id: nat)
    | ClGet(child: nat, id: nat)
    | ClStore(child: nat, va: nat)
    // task exit
    | ExReduce
    // loading and unloading a module
    | LdBuild(mod: nat, name: string, bitmap: nat)
    | LdRegister(mod: nat, name: string, bitmap: nat, va: nat)
    | UnBegin(mod: nat)
    | UnLoop(rest: seq<nat>)
    | UnRemove(va: nat, rest: seq<nat>)
    | UnFree(va: nat, ret: int, rest: seq<nat>)

  /** A task: its syscall_vector_info, where it is, and what it still wants to do. */
  datatype Task = Task(vec: nat, pc: Pc, todo: seq<Op>)

  datatype Owner = Free | Held(task: nat)

  /** The registry, the modules and the lists are as in Ledger.Sheet; no step reads leaked. */
  datatype State = State(
    reg: Table,
    heads: seq<(nat, nat)>,
    loaded: set<nat>,
    lists: set<nat>,
    tasks: seq<Task>,
    outer: Owner,
    inner: Owner,
    leaked: multiset<nat>)

  // ---- The steps

  function Start(op: Op): Pc {
    match op
    case Set(_) => EnterIoctl(op)
    case Remove(_) => EnterIoctl(op)
    case Create(_) => EnterIoctl(op)
    case Clone(share, _, _, _) => if share then Lock(ClRef(op)) else ClCopy(op, 0)
    case Exit => Lock(ExReduce)
    case Load(m, n, b) => LdBuild(m, n, b)
    case Unload(m) => UnBegin(m)
  }

  /** The first thing done under mutexlock. */
  function Dispatch(op: Op): Pc {
    match op
    case Set(n) => Lock(SetGet(n))
    case Remove(n) => Lock(RemReduce(n))
    case Create(b) => if Accepted(b) then Lock(CrCheck(b)) else LeaveIoctl
    case _ => LeaveIoctl
  }

  predicate Finished(t: Task) {
    t.pc == Gone || (t.pc == Idle && t.todo == [])
  }

  /** Task t can take a step; spare is the address kmalloc would return. */
  predicate Enabled(s: State, t: nat, spare: nat) {
    && t < |s.tasks|
    && !Finished(s.tasks[t])
    && (s.tasks[t].pc.EnterIoctl? ==> s.outer == Free)
    && (s.tasks[t].pc.Lock? ==> s.inner == Free)
    && spare != 0 && spare !in s.lists
  }

  /** Task t is now at p. */
  function Go(s: State, t: nat, p: Pc): State
    requires t < |s.tasks|
  {
    s.(tasks := s.tasks[t := s.tasks[t].(pc := p)])
  }

  /** The position a task is at or, while it waits for or releases list_lock, is about to be at. */
  function At(p: Pc): Pc {
    match p
    case Lock(q) => q
    case Unlock(q) => q
    case _ => p
  }

  /** Between the release of a task's reference and the clearing of its pointer. */
  predicate Removing(p: Pc) {
    At(p) == RemClear
  }

  /** Task t points to a from now on; the reference behind the old pointer is nobody's. */
  function Overwrite(s: State, t: nat, a: nat): State
    requires t < |s.tasks|
  {
    var before := s.tasks[t].vec;
    s.(tasks := s.tasks[t := s.tasks[t].(vec := a)], leaked := Leak(s.leaked, before))
  }

  /** delete_module goes ahead: the module is live and not pinned. The dynamic module also waits
      until no ioctl is inside it, since ioctl_module.c uses its symbols. */
  predicate MayUnload(s: State, m: nat) {
    m in s.reg.pins && s.reg.pins[m] == 0 && (m == DYNAMIC ==> s.outer == Free)
  }

  function Step(s: State, t: nat, spare: nat): State
    requires Enabled(s, t, spare)
  {
    match s.tasks[t].pc
    case Idle => StepStart(s, t)
    case Gone => s
    case Lock(_) => StepLock(s, t)
    case Unlock(_) => StepLock(s, t)
    case EnterIoctl(_) => StepIoctl(s, t)
    case LeaveIoctl => StepIoctl(s, t)
    case SetGet(_) => StepSet(s, t)
    case SetShow(_) => StepSet(s, t)
    case SetReduce(_, _) => StepSet(s, t)
    case SetClear(_) => StepSet(s, t)
    case SetInstall(_) => StepSet(s, t)
    case RemReduce(_) => StepRemove(s, t)
    case RemClear => StepRemove(s, t)
    case ClRef(_) => StepClone(s, t)
    case ClCopy(_, _) => StepClone(s, t)
    case ClFind(_, _) => StepClone(s, t)
    case ClGet(_, _) => StepClone(s, t)
    case ClStore(_, _) => StepClone(s, t)
    case ExReduce => StepExit(s, t)
    case LdBuild(_, _, _) => StepLoad(s, t, spare)
    case LdRegister(_, _, _, _) => StepLoad(s, t, spare)
    case UnBegin(_) => StepUnload(s, t)
    case UnLoop(_) => StepUnload(s, t)
    case UnRemove(_, _) => StepUnload(s, t)
    case UnFree(_, _, _) => StepUnload(s, t)
    case _ => StepCreate(s, t, spare)
  }

  function StepStart(s: State, t: nat): State
    requires t < |s.tasks| && s.tasks[t].todo != []
  {
    var th := s.tasks[t];
    s.(tasks := s.tasks[t := th.(pc := Start(th.todo[0]), todo := th.todo[1..])])
  }

  function StepLock(s: State, t: nat): State
    requires t < |s.tasks|
  {
    match s.tasks[t].pc
    case Lock(p) => Go(s, t, p).(inner := Held(t))
    case Unlock(p) => Go(s, t, p).(inner := Free)
    case _ => s
  }

  function StepIoctl(s: State, t: nat): State
    requires t < |s.tasks|
  {
    match s.tasks[t].pc
    case EnterIoctl(op) =>
      // The device is gone once the dynamic module, and so ioctl_module.c, is unloaded.
      if DYNAMIC !in s.reg.pins then Go(s, t, Idle) else Go(s, t, Dispatch(op)).(outer := Held(t))
    case LeaveIoctl => Go(s, t, Idle).(outer := Free)
    case _ => s
  }

  function StepSet(s: State, t: nat): State
    requires t < |s.tasks|
  {
    var th := s.tasks[t];
    match th.pc
    case SetGet(name) =>
      var (r, a) := Acquire(s.reg, ByName(name));
      Go(s, t, Unlock(if a == 0 then LeaveIoctl else SetShow(a))).(reg := r)
    case SetShow(a) =>
      var text := Mine(s.reg.entries, th.vec);
      if th.vec == 0 || UNASSIGNED <= text then Go(s, t, SetClear(a)) else Go(s, t, Lock(SetReduce(a, text)))
    case SetReduce(a, text) => Go(s, t, Unlock(SetClear(a))).(reg := Release(s.reg, ByName(text)).0)
    case SetClear(a) => Go(Overwrite(s, t, 0), t, SetInstall(a))
    case SetInstall(a) => Go(Overwrite(s, t, a), t, LeaveIoctl)
    case _ => s
  }

  function StepRemove(s: State, t: nat): State
    requires t < |s.tasks|
  {
    var th := s.tasks[t];
    match th.pc
    case RemReduce(name) =>
      var (r, left) := Release(s.reg, ByName(name));
      Go(s, t, Unlock(if left < 0 then LeaveIoctl else RemClear)).(reg := r)
    case RemClear => s.(tasks := s.tasks[t := th.(vec := 0, pc := LeaveIoctl)])
    case _ => s
  }

  function StepCreate(s: State, t: nat, spare: nat): State
    requires t < |s.tasks|
  {
    var th := s.tasks[t];
    match th.pc
    case CrCheck(b) =>
      var (r, a) := Acquire(s.reg, ByBitmap(b));
      Go(s, t, Unlock(if a != 0 then CrAdopt(a) else CrBuild(b))).(reg := r)
    case CrAdopt(a) => Go(Overwrite(s, t, a), t, LeaveIoctl)
    case CrBuild(b) =>
      if Buildable(b) then Go(s, t, CrPin(b, spare)).(lists := s.lists + {spare}) else Go(s, t, CrPin(b, 0))
    case CrPin(b, a) => Go(s, t, Lock(CrRegister(b, a))).(reg := s.reg.(pins := Pin(s.reg.pins, DYNAMIC, 1)))
    case CrRegister(b, a) =>
      Go(s, t, Unlock(CrInstall(a))).(reg := Register(s.reg, DynamicName(b), a, DYNAMIC, b, 1))
    case CrInstall(a) => Go(Overwrite(s, t, a), t, LeaveIoctl).(heads := s.heads + [(DYNAMIC, a)])
    case _ => s
  }

  function StepClone(s: State, t: nat): State
    requires t < |s.tasks|
  {
    var th := s.tasks[t];
    match th.pc
    case ClRef(op) =>
      var (r, a) := Acquire(s.reg, ByAddr(th.vec));
      Go(s, t, Unlock(ClCopy(op, a))).(reg := r)
    case ClCopy(op, a) =>
      if !op.Clone? then Go(s, t, Idle)
      else if op.fails then Go(s, t, Idle).(leaked := Leak(s.leaked, a))
      else if op.share then
        // syscall_vector_info is read again here
        var s1 := Go(s, t, Idle);
        s1.(tasks := s1.tasks + [Task(th.vec, Idle, op.child)],
            leaked := if th.vec == a then s.leaked else Leak(s.leaked, a))
      else
        var s1 := Go(s, t, ClFind(|s.tasks|, op.id));
        s1.(tasks := s1.tasks + [Task(0, Idle, op.child)])
    case ClFind(c, id) => Go(s, t, if c >= |s.tasks| || s.tasks[c].pc == Gone then Idle else Lock(ClGet(c, id)))
    case ClGet(c, id) =>
      var (r, a) := Acquire(s.reg, ByBitmap(id));
      Go(s, t, Unlock(if a == 0 then Idle else ClStore(c, a))).(reg := r)
    case ClStore(c, a) =>
      var s1 := Go(s, t, Idle);
      if c >= |s.tasks| || c == t || Exited(s.tasks[c].pc) then s1.(leaked := Leak(s.leaked, a))
      else if Removing(s.tasks[c].pc) then
        // The child is about to clear its pointer.
        s1.(tasks := s1.tasks[c := s.tasks[c].(vec := a)], leaked := Leak(s.leaked, a))
      else Overwrite(s1, c, a)
    case _ => s
  }

  /** The task has dropped its vector for good. */
  predicate Exited(p: Pc) {
    p == Gone || p == Unlock(Gone)
  }

  function StepExit(s: State, t: nat): State
    requires t < |s.tasks|
  {
    var th := s.tasks[t];
    var r := if th.vec == 0 then s.reg else Release(s.reg, ByAddr(th.vec)).0;
    s.(reg := r, tasks := s.tasks[t := Task(0, Unlock(Gone), [])])
  }

  function StepLoad(s: State, t: nat, spare: nat): State
    requires t < |s.tasks|
  {
    match s.tasks[t].pc
    case LdBuild(m, n, b) =>
      if m in s.loaded then Go(s, t, Idle)
      else Go(s, t, Lock(LdRegister(m, n, b, spare))).(lists := s.lists + {spare}, loaded := s.loaded + {m})
    case LdRegister(m, n, b, a) =>
      var r := Register(s.reg, n, a, m, b, 0);
      Go(s, t, Unlock(Idle)).(reg := r.(pins := r.pins[m := 0]), heads := s.heads + [(m, a)])
    case _ => s
  }

  function StepUnload(s: State, t: nat): State
    requires t < |s.tasks|
  {
    match s.tasks[t].pc
    case UnBegin(m) =>
      if !MayUnload(s, m) then Go(s, t, Idle)
      else Go(s, t, UnLoop(HeadsOf(s.heads, m)))
           .(reg := s.reg.(pins := s.reg.pins - {m}), heads := HeadsOfOthers(s.heads, m))
    case UnLoop(rest) => Go(s, t, if rest == [] then Idle else Lock(UnRemove(rest[0], rest[1..])))
    case UnRemove(a, rest) =>
      var (r, ret) := Unregister(s.reg, a);
      Go(s, t, Unlock(UnFree(a, ret, rest))).(reg := r)
    case UnFree(a, ret, rest) =>
      // the result of unregister_syscall is not looked at
      Go(s, t, UnLoop(rest)).(lists := s.lists - {a})
    case _ => s
  }

  // ---- Runs

  datatype Pick = Pick(t: nat, spare: nat)

  /** Every step of the schedule can be taken. */
  predicate Feasible(s: State, sched: seq<Pick>)
    decreases sched
  {
    sched == [] ||
    (Enabled(s, sched[0].t, sched[0].spare) && Feasible(Step(s, sched[0].t, sched[0].spare), sched[1..]))
  }

  function Exec(s: State, sched: seq<Pick>): State
    requires Feasible(s, sched)
    decreases sched
  {
    if sched == [] then s else Exec(Step(s, sched[0].t, sched[0].spare), sched[1..])
  }

  /** A state that some interleaving leads to, whatever its steps do. */
  ghost predicate Attainable(s: State) {
    exists s0, sched :: Initial(s0) && Feasible(s0, sched) && Exec(s0, sched) == s
  }

  /** Static modules have numbers of their own and names without line breaks. */
  predicate OpOk(op: Op) {
    match op
    case Load(m, n, _) => m != DYNAMIC && NameOk(n)
    case Clone(_, _, _, child) => OpsOk(child)
    case _ => true
  }

  predicate OpsOk(ops: seq<Op>) {
    forall i | 0 <= i < |ops| :: OpOk(ops[i])
  }

  /** The dynamic module is loaded, nothing is registered, and no task has begun. */
  predicate Initial(s: State) {
    && s.reg == Table([], map[DYNAMIC := 0])
    && s.heads == [] && s.loaded == {DYNAMIC} && s.lists == {} && s.leaked == multiset{}
    && s.outer == Free && s.inner == Free
    && forall t | 0 <= t < |s.tasks| :: s.tasks[t].vec == 0 && s.tasks[t].pc == Idle && OpsOk(s.tasks[t].todo)
  }
}
