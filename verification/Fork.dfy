/** copy_process in fork.cpy: what a new task shares with its parent or gets of its own, and how a fork
    that fails half-way gives everything back but the reference on the parent's vector. */
module Fork {
  import opened Options
  import opened Registry

  // ---- The objects

  class Mm {
    var users: int
    constructor (users: int)
      ensures this.users == users
    {
      this.users := users;
    }
  }

  class Sighand {
    var count: int
    constructor (count: int)
      ensures this.count == count
    {
      this.count := count;
    }
  }

  class Signal {
    var threads: int
    var alive: int
    var sigcnt: int
    constructor ()
      ensures threads == alive == sigcnt == 1
    {
      threads, alive, sigcnt := 1, 1, 1;
    }
  }

  class ThreadInfo {
    constructor () {}
  }

  class TaskStruct {
    var stack: ThreadInfo?
    var mm: Mm?
    var sighand: Sighand?
    var signal: Signal?
    var vec: nat

    constructor ()
      ensures stack == null && mm == null && sighand == null && signal == null && vec == 0
    {
      stack, mm, sighand, signal, vec := null, null, null, null, 0;
    }
  }

  // ---- Which fork succeeds

  datatype Flags = Flags(newNs: bool, newUser: bool, newPid: bool, fs: bool, vm: bool, sighand: bool, thread: bool,
                         parent: bool, syscalls: bool)

  /** The places where copy_process can give up, in the order it comes to them. */
  datatype Place =
    | Security
    | TaskAlloc | StackAlloc | ArchDup
    | ProcessLimit | Creds
    | ThreadLimit | Mempolicy | Sched | PerfEvent | Audit | Semundo | Files | Fs
    | SighandAlloc
    | SignalAlloc
    | MmAlloc | MmInit | Mmap | Binfmt
    | Namespaces | Io | Thread | Pid | Cgroup | SignalPending

  /** Everything a fork's course depends on: the flags; the places where a callee fails; the limits;
      whether the caller may exceed its own; whether the new task is an idle task; the parent's
      situation; and the counters. */
  datatype Context = Context(
    flags: Flags,
    fails: set<Place>,
    processLimit: int,
    threadLimit: int,
    privileged: bool,
    idle: bool,
    unkillable: bool,
    otherPidNs: bool,
    binfmt: bool,
    hasMm: bool,
    processes: int,
    threads: int)

  /** The checks on the flags at the beginning. */
  predicate FlagsOk(c: Context) {
    var f := c.flags;
    && !(f.newNs && f.fs)
    && !(f.newUser && f.fs)
    && (f.thread ==> f.sighand)
    && (f.sighand ==> f.vm)
    && !(f.parent && c.unkillable)
    && (f.thread ==> !f.newUser && !f.newPid && !c.otherPidNs)
  }

  /** The six reasons to refuse a set of flags. */
  lemma FlagsExact(c: Context)
    ensures !FlagsOk(c) <==>
      || (c.flags.newNs && c.flags.fs)
      || (c.flags.newUser && c.flags.fs)
      || (c.flags.thread && !c.flags.sighand)
      || (c.flags.sighand && !c.flags.vm)
      || (c.flags.parent && c.unkillable)
      || (c.flags.thread && (c.flags.newUser || c.flags.newPid || c.otherPidNs))
  {
  }

  /** The fork gives up here if it comes here. */
  predicate Stops(c: Context, at: Place) {
    match at
    case ProcessLimit => c.processes >= c.processLimit && !c.privileged
    case ThreadLimit => c.threads >= c.threadLimit
    case SighandAlloc => !c.flags.sighand && at in c.fails
    case SignalAlloc => !c.flags.thread && at in c.fails
    case MmAlloc => c.hasMm && !c.flags.vm && at in c.fails
    case MmInit => c.hasMm && !c.flags.vm && at in c.fails
    case Mmap => c.hasMm && !c.flags.vm && at in c.fails
    case Binfmt => c.hasMm && !c.flags.vm && c.binfmt && at in c.fails
    case Pid => !c.idle && at in c.fails
    case _ => at in c.fails
  }

  function If(c: Context, at: Place, later: Option<Place>): Option<Place> {
    if Stops(c, at) then Some(at) else later
  }

  // Where a fork gives up that has come to a certain place, if it does.

  function FromNamespaces(c: Context): (stop: Option<Place>)
    ensures stop.Some? ==> 20 <= Order(stop.value) && Stops(c, stop.value)
  {
    If(c, Namespaces, If(c, Io, If(c, Thread, If(c, Pid, If(c, Cgroup, If(c, SignalPending, None))))))
  }

  function Memory(c: Context): (stop: Option<Place>)
    ensures stop.Some? ==> 16 <= Order(stop.value) <= 19 && Stops(c, stop.value)
  {
    If(c, MmAlloc, If(c, MmInit, If(c, Mmap, If(c, Binfmt, None))))
  }

  function FromMemory(c: Context): (stop: Option<Place>)
    ensures stop.Some? ==> 16 <= Order(stop.value) && Stops(c, stop.value)
  {
    if Memory(c).Some? then Memory(c) else FromNamespaces(c)
  }

  function FromSignals(c: Context): (stop: Option<Place>)
    ensures stop.Some? ==> 15 <= Order(stop.value) && Stops(c, stop.value)
  {
    If(c, SignalAlloc, FromMemory(c))
  }

  function FromHandlers(c: Context): (stop: Option<Place>)
    ensures stop.Some? ==> 14 <= Order(stop.value) && Stops(c, stop.value)
  {
    If(c, SighandAlloc, FromSignals(c))
  }

  function Setup(c: Context): (stop: Option<Place>)
    ensures stop.Some? ==> 6 <= Order(stop.value) <= 13 && Stops(c, stop.value)
  {
    If(c, ThreadLimit, If(c, Mempolicy, If(c, Sched, If(c, PerfEvent,
    If(c, Audit, If(c, Semundo, If(c, Files, If(c, Fs, None))))))))
  }

  function FromCreds(c: Context): (stop: Option<Place>)
    ensures stop.Some? ==> 4 <= Order(stop.value) && Stops(c, stop.value)
  {
    If(c, ProcessLimit, If(c, Creds, if Setup(c).Some? then Setup(c) else FromHandlers(c)))
  }

  function Dup(c: Context): (stop: Option<Place>)
    ensures stop.Some? ==> 1 <= Order(stop.value) <= 3 && Stops(c, stop.value)
  {
    If(c, TaskAlloc, If(c, StackAlloc, If(c, ArchDup, None)))
  }

  function Course(c: Context): Option<Place> {
    If(c, Security, if Dup(c).Some? then Dup(c) else FromCreds(c))
  }

  /** The position of a place in copy_process. */
  function Order(at: Place): nat {
    match at
    case Security => 0
    case TaskAlloc => 1 case StackAlloc => 2 case ArchDup => 3
    case ProcessLimit => 4 case Creds => 5
    case ThreadLimit => 6 case Mempolicy => 7 case Sched => 8 case PerfEvent => 9
    case Audit => 10 case Semundo => 11 case Files => 12 case Fs => 13
    case SighandAlloc => 14
    case SignalAlloc => 15
    case MmAlloc => 16 case MmInit => 17 case Mmap => 18 case Binfmt => 19
    case Namespaces => 20 case Io => 21 case Thread => 22 case Pid => 23 case Cgroup => 24 case SignalPending => 25
  }

  // ---- Where the failures jump to

  /** The labels at the end of copy_process, from the first to the last. */
  datatype Label =
    | CancelCgroup | FreePid | CleanupIo | CleanupNamespaces | CleanupMm | CleanupSignal | CleanupSighand
    | CleanupFs | CleanupFiles | CleanupSemundo | CleanupAudit | CleanupPerf | CleanupPolicy
    | CleanupThreadgroupLock | CleanupCount | ForkFree | ForkOut

  function Rank(mark: Label): nat {
    match mark
    case CancelCgroup => 0 case FreePid => 1 case CleanupIo => 2 case CleanupNamespaces => 3
    case CleanupMm => 4 case CleanupSignal => 5 case CleanupSighand => 6 case CleanupFs => 7
    case CleanupFiles => 8 case CleanupSemundo => 9 case CleanupAudit => 10 case CleanupPerf => 11
    case CleanupPolicy => 12 case CleanupThreadgroupLock => 13 case CleanupCount => 14
    case ForkFree => 15 case ForkOut => 16
  }

  /** The goto of each place. */
  function JumpsTo(at: Place): Label {
    match at
    case Security => ForkOut
    case TaskAlloc => ForkOut case StackAlloc => ForkOut case ArchDup => ForkOut
    case ProcessLimit => ForkFree case Creds => ForkFree
    case ThreadLimit => CleanupCount
    case Mempolicy => CleanupThreadgroupLock
    case Sched => CleanupPolicy case PerfEvent => CleanupPolicy
    case Audit => CleanupPerf case Semundo => CleanupAudit case Files => CleanupSemundo case Fs => CleanupFiles
    case SighandAlloc => CleanupFs
    case SignalAlloc => CleanupSighand
    case MmAlloc => CleanupSignal case MmInit => CleanupSignal
    case Mmap => CleanupSignal case Binfmt => CleanupSignal
    case Namespaces => CleanupMm case Io => CleanupNamespaces
    case Thread => CleanupIo case Pid => CleanupIo
    case Cgroup => FreePid case SignalPending => CancelCgroup
  }

  /** A fork that gives up here comes past this label, falling through from where it jumped to. */
  predicate Passes(at: Place, mark: Label) {
    Rank(JumpsTo(at)) <= Rank(mark)
  }

  /** The last place of the part that a label undoes. */
  function Undoes(mark: Label): Place
    requires mark != ForkOut
  {
    match mark
    case CancelCgroup => Cgroup case FreePid => Pid case CleanupIo => Io case CleanupNamespaces => Namespaces
    case CleanupMm => Binfmt case CleanupSignal => SignalAlloc case CleanupSighand => SighandAlloc
    case CleanupFs => Fs case CleanupFiles => Files case CleanupSemundo => Semundo case CleanupAudit => Audit
    case CleanupPerf => PerfEvent case CleanupPolicy => Mempolicy case CleanupThreadgroupLock => ThreadLimit
    case CleanupCount => Creds case ForkFree => ArchDup
  }

  /** The labels undo for each place exactly what was done before it: the mm if copy_mm was over, the
      signals if copy_signal was, and so on. */
  lemma LabelsExact(at: Place, mark: Label)
    ensures Passes(at, mark) <==> mark == ForkOut || Order(at) > Order(Undoes(mark))
  {
    match mark
    case CancelCgroup => PidLabels(at);
    case FreePid => PidLabels(at);
    case CleanupIo => IoLabels(at);
    case CleanupNamespaces => IoLabels(at);
    case CleanupMm => MmLabel(at);
    case CleanupSignal => SignalLabel(at);
    case CleanupSighand => SighandLabel(at);
    case CleanupFs => FsLabels(at);
    case CleanupFiles => FsLabels(at);
    case CleanupSemundo => SemundoLabels(at);
    case CleanupAudit => SemundoLabels(at);
    case CleanupPerf => PerfLabels(at);
    case CleanupPolicy => PerfLabels(at);
    case CleanupThreadgroupLock => LockLabel(at);
    case CleanupCount => CountLabel(at);
    case ForkFree => FreeLabel(at);
    case ForkOut =>
  }

  lemma PidLabels(at: Place)
    ensures Passes(at, CancelCgroup) <==> Order(at) > Order(Cgroup)
    ensures Passes(at, FreePid) <==> Order(at) > Order(Pid)
  {
  }

  lemma IoLabels(at: Place)
    ensures Passes(at, CleanupIo) <==> Order(at) > Order(Io)
    ensures Passes(at, CleanupNamespaces) <==> Order(at) > Order(Namespaces)
  {
  }

  lemma FsLabels(at: Place)
    ensures Passes(at, CleanupFs) <==> Order(at) > Order(Fs)
    ensures Passes(at, CleanupFiles) <==> Order(at) > Order(Files)
  {
  }

  lemma SemundoLabels(at: Place)
    ensures Passes(at, CleanupSemundo) <==> Order(at) > Order(Semundo)
    ensures Passes(at, CleanupAudit) <==> Order(at) > Order(Audit)
  {
  }

  lemma PerfLabels(at: Place)
    ensures Passes(at, CleanupPerf) <==> Order(at) > Order(PerfEvent)
    ensures Passes(at, CleanupPolicy) <==> Order(at) > Order(Mempolicy)
  {
  }

  lemma LockLabel(at: Place)
    ensures Passes(at, CleanupThreadgroupLock) <==> Order(at) > Order(ThreadLimit)
  {
  }

  lemma MmLabel(at: Place)
    ensures Passes(at, CleanupMm) <==> Order(at) > Order(Binfmt)
  {
  }

  lemma SignalLabel(at: Place)
    ensures Passes(at, CleanupSignal) <==> Order(at) > Order(SignalAlloc)
  {
  }

  lemma SighandLabel(at: Place)
    ensures Passes(at, CleanupSighand) <==> Order(at) > Order(SighandAlloc)
  {
  }

  lemma CountLabel(at: Place)
    ensures Passes(at, CleanupCount) <==> Order(at) > Order(Creds)
  {
  }

  lemma FreeLabel(at: Place)
    ensures Passes(at, ForkFree) <==> Order(at) > Order(ArchDup)
  {
  }

  /** A fork with acceptable flags succeeds if and only if nothing stops it, and otherwise ends at the
      first place that does. */
  lemma CourseExact(c: Context)
    ensures Course(c) == None <==> forall at :: !Stops(c, at)
    ensures Course(c).Some? ==>
      Stops(c, Course(c).value) && forall at | Order(at) < Order(Course(c).value) :: !Stops(c, at)
  {
    CourseStops(c);
    forall at | Stops(c, at) ensures Course(c).Some? && Order(Course(c).value) <= Order(at) {
      if Order(at) <= 5 {
        EarlyStop(c, at);
      } else if Order(at) <= 13 {
        SetupStop(c, at);
      } else if Order(at) <= 19 {
        MemoryStop(c, at);
      } else {
        LateStop(c, at);
      }
    }
  }

  /** Nothing fails that is called, and the limits leave room. */
  predicate Unhindered(c: Context) {
    && (c.processes < c.processLimit || c.privileged) && c.threads < c.threadLimit
    && c.fails !! {Security, TaskAlloc, StackAlloc, ArchDup, Creds, Mempolicy, Sched, PerfEvent, Audit, Semundo,
                   Files, Fs, Namespaces, Io, Thread, Cgroup, SignalPending}
    && (SighandAlloc in c.fails ==> c.flags.sighand)
    && (SignalAlloc in c.fails ==> c.flags.thread)
    && (MmAlloc in c.fails || MmInit in c.fails || Mmap in c.fails ==> c.flags.vm || !c.hasMm)
    && (Binfmt in c.fails ==> c.flags.vm || !c.hasMm || !c.binfmt)
    && (Pid in c.fails ==> c.idle)
  }

  lemma UnhinderedGoesOn(c: Context, at: Place)
    requires Unhindered(c)
    ensures !Stops(c, at)
  {
  }

  lemma NobodyStops(c: Context)
    requires forall at :: !Stops(c, at)
    ensures Unhindered(c)
  {
    NobodyFails(c);
    assert !Stops(c, ProcessLimit) && !Stops(c, ThreadLimit) && !Stops(c, SighandAlloc) && !Stops(c, SignalAlloc);
    assert !Stops(c, MmAlloc) && !Stops(c, MmInit) && !Stops(c, Mmap) && !Stops(c, Binfmt) && !Stops(c, Pid);
  }

  lemma NobodyFails(c: Context)
    requires forall at :: !Stops(c, at)
    ensures c.fails !! {Security, TaskAlloc, StackAlloc, ArchDup, Creds, Mempolicy, Sched, PerfEvent, Audit, Semundo,
                        Files, Fs, Namespaces, Io, Thread, Cgroup, SignalPending}
  {
    forall at | at in {Security, TaskAlloc, StackAlloc, ArchDup, Creds, Mempolicy, Sched, PerfEvent, Audit, Semundo,
                       Files, Fs, Namespaces, Io, Thread, Cgroup, SignalPending}
      ensures at !in c.fails
    {
      assert !Stops(c, at);
    }
  }

  /** When a fork succeeds. Handlers, signals and the mm are only made for a task that does not share them, the
      executable is only asked for an mm of its own, and an idle task gets no pid. */
  lemma SucceedsExact(c: Context)
    ensures Course(c) == None <==>
      && (c.processes < c.processLimit || c.privileged) && c.threads < c.threadLimit
      && c.fails !! {Security, TaskAlloc, StackAlloc, ArchDup, Creds, Mempolicy, Sched, PerfEvent, Audit, Semundo,
                     Files, Fs, Namespaces, Io, Thread, Cgroup, SignalPending}
      && (SighandAlloc in c.fails ==> c.flags.sighand)
      && (SignalAlloc in c.fails ==> c.flags.thread)
      && (MmAlloc in c.fails || MmInit in c.fails || Mmap in c.fails ==> c.flags.vm || !c.hasMm)
      && (Binfmt in c.fails ==> c.flags.vm || !c.hasMm || !c.binfmt)
      && (Pid in c.fails ==> c.idle)
  {
    CourseExact(c);
    if Course(c) == None {
      NobodyStops(c);
    }
    if Unhindered(c) {
      forall at ensures !Stops(c, at) {
        UnhinderedGoesOn(c, at);
      }
    }
  }

  lemma CourseStops(c: Context)
    ensures Course(c).Some? ==> Stops(c, Course(c).value)
  {
  }

  lemma EarlyStop(c: Context, at: Place)
    requires Stops(c, at) && Order(at) <= 5
    ensures Course(c).Some? && Order(Course(c).value) <= Order(at)
  {
  }

  lemma FromSetup(c: Context, at: Place)
    requires Stops(c, at) && 6 <= Order(at) <= 13
    ensures Setup(c).Some? && Order(Setup(c).value) <= Order(at)
  {
  }

  lemma SetupInCourse(c: Context)
    requires Setup(c).Some?
    ensures Course(c).Some? && Order(Course(c).value) <= Order(Setup(c).value)
  {
  }

  lemma SetupStop(c: Context, at: Place)
    requires Stops(c, at) && 6 <= Order(at) <= 13
    ensures Course(c).Some? && Order(Course(c).value) <= Order(at)
  {
    FromSetup(c, at);
    SetupInCourse(c);
  }

  lemma MemoryStop(c: Context, at: Place)
    requires Stops(c, at) && 14 <= Order(at) <= 19
    ensures Course(c).Some? && Order(Course(c).value) <= Order(at)
  {
    HandlerStop(c, at);
    CourseMiddle(c);
  }

  lemma HandlerStop(c: Context, at: Place)
    requires Stops(c, at) && 14 <= Order(at) <= 19
    ensures FromHandlers(c).Some? && Order(FromHandlers(c).value) <= Order(at)
  {
    if Order(at) >= 16 {
      CopyMmStop(c, at);
    }
  }

  lemma CopyMmStop(c: Context, at: Place)
    requires Stops(c, at) && 16 <= Order(at) <= 19
    ensures Memory(c).Some? && Order(Memory(c).value) <= Order(at)
  {
  }

  lemma CourseMiddle(c: Context)
    ensures Course(c) == FromHandlers(c) || (Course(c).Some? && Order(Course(c).value) < 14)
  {
    assert Setup(c).Some? ==> Order(Setup(c).value) < 14;
    assert Dup(c).Some? ==> Order(Dup(c).value) < 14;
  }

  lemma LateStop(c: Context, at: Place)
    requires Stops(c, at) && 20 <= Order(at)
    ensures Course(c).Some? && Order(Course(c).value) <= Order(at)
  {
    LastStop(c, at);
    CourseEnd(c);
  }

  lemma LastStop(c: Context, at: Place)
    requires Stops(c, at) && 20 <= Order(at)
    ensures FromNamespaces(c).Some? && Order(FromNamespaces(c).value) <= Order(at)
  {
  }

  predicate Earlier(stop: Option<Place>) {
    stop.Some? && Order(stop.value) < 20
  }

  lemma CourseEnd(c: Context)
    ensures Course(c) == FromNamespaces(c) || Earlier(Course(c))
  {
    MemoryEnd(c);
    SetupEnd(c);
    assert FromCreds(c) == FromNamespaces(c) || Earlier(FromCreds(c));
  }

  lemma MemoryEnd(c: Context)
    ensures FromHandlers(c) == FromNamespaces(c) || Earlier(FromHandlers(c))
  {
    assert Memory(c).Some? ==> Earlier(Memory(c));
  }

  lemma SetupEnd(c: Context)
    ensures Setup(c).Some? ==> Earlier(Setup(c))
    ensures Dup(c).Some? ==> Earlier(Dup(c))
  {
  }

  /** What a failed fork keeps is exactly one reference on the parent's vector, if that is registered:
      nothing else differs, and one reduce_ref_count_from_address would give it back. */
  lemma KeptReference(r: Table, vec: nat)
    ensures Acquire(r, ByAddr(vec)).0 == r <==> !Has(r.entries, ByAddr(vec))
    ensures Has(r.entries, ByAddr(vec)) ==> Release(Acquire(r, ByAddr(vec)).0, ByAddr(vec)).0 == r
  {
    if Has(r.entries, ByAddr(vec)) {
      var i := Find(r.entries, ByAddr(vec));
      AcquireThenRelease(r, ByAddr(vec));
      assert Bump(r, i, 1).entries[i].refcount != r.entries[i].refcount;
    }
  }

  // ---- The books

  /** ERR_PTR(-EINVAL) for the flags, the error of the place where the fork gave up, or the new task. */
  datatype Forked = Invalid | Failed(at: Place) | Child(task: TaskStruct)

  /** The counters of the parent and of the system. */
  datatype Books = Books(stacks: int, processes: int, threads: int, users: int, handlers: int,
                         groupThreads: int, groupAlive: int, groupCount: int)

  /** The system: the kernel-stack account, the user's processes, all threads, and what is allocated. */
  class Kernel {
    var stacks: int
    var processes: int
    var threads: int
    /** The vector registry, with the reference counts. */
    var registry: Table
    ghost var mms: set<Mm>
    ghost var handlers: set<Sighand>
    ghost var signals: set<Signal>
    ghost var infos: set<ThreadInfo>
    ghost var tasks: set<TaskStruct>

    /** The parent's objects are allocated and it counts in them. */
    ghost predicate Owns(t: TaskStruct)
      reads this, t, t.mm, t.sighand, t.signal
    {
      && (t.mm != null ==> t.mm in mms && t.mm.users >= 1)
      && t.sighand != null && t.sighand in handlers && t.sighand.count >= 1
      && t.signal != null && t.signal in signals
    }

    ghost function Counters(t: TaskStruct): Books
      requires t.sighand != null && t.signal != null
      reads this, t, t.mm, t.sighand, t.signal
    {
      Books(stacks, processes, threads, if t.mm == null then 0 else t.mm.users, t.sighand.count,
            t.signal.threads, t.signal.alive, t.signal.sigcnt)
    }

    /** The new task's mm and signals are shared or its own, as the flags say, and its own were added. */
    ghost predicate Inside(p: TaskStruct, parent: TaskStruct, c: Context, mms0: set<Mm>, signals0: set<Signal>)
      reads this, p, parent, p.mm, p.signal
    {
      && MmFits(p, parent, c) && SignalFits(p, parent, c)
      && mms == mms0 + (if OwnsMm(c) then {p.mm} else {})
      && signals == signals0 + (if c.flags.thread then {} else {p.signal})
    }

    /** The new task shares or owns what the flags say, and exactly what it owns was added. */
    ghost predicate Linked(p: TaskStruct, parent: TaskStruct, c: Context,
                           mms0: set<Mm>, signals0: set<Signal>, handlers0: set<Sighand>)
      reads this, p, parent, p.mm, p.signal, p.sighand
    {
      && Inside(p, parent, c, mms0, signals0) && SighandFits(p, parent, c)
      && handlers == handlers0 + (if c.flags.sighand then {} else {p.sighand})
    }

    // ---- mm

    /** mmput. */
    method Mmput(mm: Mm)
      requires mm in mms
      modifies this`mms, mm
      ensures mm.users == old(mm.users) - 1
      ensures mms == if mm.users == 0 then old(mms) - {mm} else old(mms)
    {
      mm.users := mm.users - 1;
      if mm.users == 0 {
        mms := mms - {mm};
      }
    }

    /** dup_mm, for a parent that has an mm. */
    method DupMm(oldmm: Mm, c: Context) returns (mm: Mm?)
      requires oldmm in mms && OwnsMm(c)
      modifies this`mms
      ensures mm == null <==> Memory(c).Some?
      ensures mm == null ==> mms == old(mms)
      ensures mm != null ==> fresh(mm) && mm.users == 1 && mms == old(mms) + {mm}
    {
      mm := null;
      if MmAlloc in c.fails {
        return;
      }
      var copy := new Mm(oldmm.users);
      mms := mms + {copy};
      copy.users := 1;
      if MmInit in c.fails {
        mms := mms - {copy};
        return;
      }
      if Mmap in c.fails || (c.binfmt && Binfmt in c.fails) {
        Mmput(copy);
        return;
      }
      mm := copy;
    }

    /** copy_mm. */
    method CopyMm(p: TaskStruct, parent: TaskStruct, c: Context) returns (stop: Option<Place>)
      requires p != parent && Owns(parent) && c.hasMm == (parent.mm != null)
      modifies this`mms, p`mm, MmOf(parent)
      ensures stop == Memory(c)
      ensures stop.Some? ==> p.mm == null && mms == old(mms)
      ensures stop.None? && c.hasMm && c.flags.vm ==> p.mm == parent.mm && mms == old(mms)
      ensures stop.None? && OwnsMm(c) ==>
        p.mm != null && fresh(p.mm) && p.mm.users == 1 && mms == old(mms) + {p.mm}
      ensures !c.hasMm ==> p.mm == null && mms == old(mms)
      ensures c.hasMm ==> parent.mm.users == old(parent.mm.users) + if c.flags.vm then 1 else 0
    {
      stop := Memory(c);
      p.mm := null;
      if parent.mm == null {
        return;
      }
      if c.flags.vm {
        parent.mm.users := parent.mm.users + 1;
        p.mm := parent.mm;
        return;
      }
      p.mm := DupMm(parent.mm, c);
    }

    // ---- signal handlers and signals

    /** copy_sighand. */
    method CopySighand(p: TaskStruct, parent: TaskStruct, c: Context) returns (stop: Option<Place>)
      requires p != parent && Owns(parent) && p.sighand == parent.sighand
      modifies this`handlers, p`sighand, parent.sighand
      ensures stop == If(c, SighandAlloc, None)
      ensures stop.Some? ==> p.sighand == null
      ensures c.flags.sighand ==> p.sighand == parent.sighand
      ensures stop.None? && !c.flags.sighand ==> p.sighand != null && fresh(p.sighand) && p.sighand.count == 1
      ensures handlers == if stop.None? && !c.flags.sighand then old(handlers) + {p.sighand} else old(handlers)
      ensures parent.sighand.count == old(parent.sighand.count) + if c.flags.sighand then 1 else 0
    {
      stop := If(c, SighandAlloc, None);
      if c.flags.sighand {
        parent.sighand.count := parent.sighand.count + 1;
        return;
      }
      if SighandAlloc in c.fails {
        p.sighand := null;
        return;
      }
      p.sighand := new Sighand(1);
      handlers := handlers + {p.sighand};
    }

    /** __cleanup_sighand. */
    method CleanupSighand(sighand: Sighand)
      requires sighand in handlers
      modifies this`handlers, sighand
      ensures sighand.count == old(sighand.count) - 1
      ensures handlers == if sighand.count == 0 then old(handlers) - {sighand} else old(handlers)
    {
      sighand.count := sighand.count - 1;
      if sighand.count == 0 {
        handlers := handlers - {sighand};
      }
    }

    /** copy_signal. */
    method CopySignal(p: TaskStruct, parent: TaskStruct, c: Context) returns (stop: Option<Place>)
      requires p != parent && Owns(parent) && p.signal == parent.signal
      modifies this`signals, p`signal
      ensures stop == If(c, SignalAlloc, None)
      ensures stop.Some? ==> p.signal == null
      ensures c.flags.thread ==> p.signal == parent.signal
      ensures stop.None? && !c.flags.thread ==>
        p.signal != null && fresh(p.signal) && p.signal.threads == p.signal.alive == p.signal.sigcnt == 1
      ensures signals == if stop.None? && !c.flags.thread then old(signals) + {p.signal} else old(signals)
    {
      stop := If(c, SignalAlloc, None);
      if c.flags.thread {
        return;
      }
      if SignalAlloc in c.fails {
        p.signal := null;
        return;
      }
      p.signal := new Signal();
      signals := signals + {p.signal};
    }

    // ---- The ladder: each part undoes what it did when a later part gives up

    /** The last places that can fail, and the moment the task becomes visible. */
    method Finish(parent: TaskStruct, c: Context) returns (stop: Option<Place>)
      requires Owns(parent)
      modifies this`threads, parent.signal
      ensures stop == FromNamespaces(c)
      ensures Counters(parent) == if stop.Some? then old(Counters(parent)) else Visible(old(Counters(parent)), c)
    {
      stop := FromNamespaces(c);
      if stop.None? && !c.idle {
        if c.flags.thread {
          parent.signal.threads := parent.signal.threads + 1;
          parent.signal.alive := parent.signal.alive + 1;
          parent.signal.sigcnt := parent.signal.sigcnt + 1;
        }
        threads := threads + 1;
      }
    }

    /** Once copy_mm has succeeded. */
    method FinishMm(p: TaskStruct, parent: TaskStruct, c: Context, ghost before: set<Mm>) returns (stop: Option<Place>)
      requires p != parent && Owns(parent) && c.hasMm == (parent.mm != null) && MmFits(p, parent, c)
      requires if OwnsMm(c) then p.mm != parent.mm && p.mm !in before && mms == before + {p.mm} else mms == before
      requires c.hasMm && c.flags.vm ==> parent.mm.users >= 2
      modifies this`mms, this`threads, MmOf(p), parent.signal
      ensures stop == FromNamespaces(c)
      ensures stop.None? ==>
        mms == old(mms) && MmFits(p, parent, c) && Counters(parent) == Visible(old(Counters(parent)), c)
      ensures stop.Some? ==> mms == before && WithMm(Counters(parent), c) == old(Counters(parent))
    {
      stop := Finish(parent, c);
      if stop.Some? {
        MmLabel(stop.value);
        if Passes(stop.value, CleanupMm) && p.mm != null {
          Mmput(p.mm);
        }
      }
    }

    /** From copy_mm on. */
    method FromMm(p: TaskStruct, parent: TaskStruct, c: Context) returns (stop: Option<Place>)
      requires p != parent && Owns(parent) && c.hasMm == (parent.mm != null)
      modifies this`mms, this`threads, p`mm, MmOf(parent), parent.signal
      ensures stop == FromMemory(c)
      ensures stop.Some? ==> mms == old(mms) && Counters(parent) == old(Counters(parent))
      ensures stop.None? ==>
        && Counters(parent) == Visible(WithMm(old(Counters(parent)), c), c)
        && MmFits(p, parent, c) && (OwnsMm(c) ==> fresh(p.mm))
        && mms == old(mms) + if OwnsMm(c) then {p.mm} else {}
    {
      ghost var before := mms;
      stop := CopyMm(p, parent, c);
      if stop.None? {
        assert Counters(parent) == WithMm(old(Counters(parent)), c);
        stop := FinishMm(p, parent, c, before);
      }
    }

    /** The new task has its mm and signals and has been counted. */
    twostate predicate MemoryDone(p: TaskStruct, parent: TaskStruct, c: Context)
      requires old(parent.sighand != null && parent.signal != null)
      reads this, p, p.mm, p.signal, parent, parent.mm, parent.sighand, parent.signal
    {
      && parent.sighand != null && parent.signal != null
      && Inside(p, parent, c, old(mms), old(signals)) && InsideIsFresh(p, c)
      && Counters(parent) == Visible(WithMm(old(Counters(parent)), c), c)
    }

    /** From copy_signal on. */
    method FromSignal(p: TaskStruct, parent: TaskStruct, c: Context) returns (stop: Option<Place>)
      requires p != parent && Owns(parent) && c.hasMm == (parent.mm != null) && p.signal == parent.signal
      modifies this`mms, this`signals, this`threads, p`mm, p`signal, MmOf(parent), parent.signal
      ensures stop == FromSignals(c)
      ensures stop.Some? ==> mms == old(mms) && signals == old(signals) && Counters(parent) == old(Counters(parent))
      ensures stop.None? ==> MemoryDone(p, parent, c)
    {
      stop := CopySignal(p, parent, c);
      if stop.None? {
        stop := FromMm(p, parent, c);
      }
      if stop.Some? {
        assert Counters(parent) == old(Counters(parent));
        SignalLabel(stop.value);
        if Passes(stop.value, CleanupSignal) && !c.flags.thread {
          signals := signals - {p.signal};
        }
      }
    }

    /** copy_sighand has succeeded: the new task's handlers are the parent's, counted, or its own, added to
        those there were before. */
    ghost predicate SighandPlaced(p: TaskStruct, parent: TaskStruct, c: Context, before: set<Sighand>)
      reads `handlers, p`sighand, parent`sighand, p.sighand, parent.sighand
    {
      && parent.sighand != null && p.sighand != null
      && if c.flags.sighand then p.sighand == parent.sighand && parent.sighand.count >= 2 && handlers == before
         else p.sighand.count == 1 && p.sighand != parent.sighand && p.sighand !in before
              && handlers == before + {p.sighand}
    }

    /** Once copy_sighand has succeeded. */
    method FinishSighand(p: TaskStruct, parent: TaskStruct, c: Context, ghost before: set<Sighand>)
      returns (stop: Option<Place>)
      requires p != parent && Owns(parent) && c.hasMm == (parent.mm != null)
      requires p.signal == parent.signal && SighandPlaced(p, parent, c, before)
      modifies this`mms, this`signals, this`handlers, this`threads
      modifies p`mm, p`signal, MmOf(parent), parent.signal, p.sighand
      ensures stop == FromSignals(c)
      ensures stop.Some? ==> mms == old(mms) && signals == old(signals) && handlers == before
      ensures stop.Some? ==> WithSighand(Counters(parent), c) == old(Counters(parent))
      ensures stop.None? ==> MemoryDone(p, parent, c)
      ensures stop.None? ==> SighandPlaced(p, parent, c, before)
    {
      stop := FromSignal(p, parent, c);
      if stop.Some? {
        SighandLabel(stop.value);
        if Passes(stop.value, Label.CleanupSighand) {
          UndoSighand(p, parent, c, before);
        }
      }
    }

    /** bad_fork_cleanup_sighand. */
    method UndoSighand(p: TaskStruct, parent: TaskStruct, ghost c: Context, ghost before: set<Sighand>)
      requires p != parent && parent.signal != null && SighandPlaced(p, parent, c, before)
      requires p.sighand in handlers
      modifies this`handlers, p.sighand
      ensures handlers == before && WithSighand(Counters(parent), c) == old(Counters(parent))
    {
      CleanupSighand(p.sighand);
    }

    /** From copy_sighand on. */
    method FromSighand(p: TaskStruct, parent: TaskStruct, c: Context) returns (stop: Option<Place>)
      requires p != parent && Owns(parent) && c.hasMm == (parent.mm != null)
      requires p.signal == parent.signal && p.sighand == parent.sighand
      modifies this`mms, this`signals, this`handlers, this`threads
      modifies p`mm, p`signal, p`sighand, MmOf(parent), parent.signal, parent.sighand
      ensures stop == FromHandlers(c)
      ensures stop.Some? ==> mms == old(mms) && signals == old(signals) && handlers == old(handlers)
      ensures stop.Some? ==> Counters(parent) == old(Counters(parent))
      ensures stop.None? ==> Linked(p, parent, c, old(mms), old(signals), old(handlers)) && NewAreFresh(p, c)
      ensures stop.None? ==> Counters(parent) == Visible(WithMm(WithSighand(old(Counters(parent)), c), c), c)
    {
      ghost var before := handlers;
      stop := CopySighand(p, parent, c);
      if stop.None? {
        assert Owns(parent) && Counters(parent) == WithSighand(old(Counters(parent)), c);
        stop := FinishSighand(p, parent, c, before);
      }
    }

    /** From the check of the thread limit on. */
    method FromThreadLimit(p: TaskStruct, parent: TaskStruct, c: Context) returns (stop: Option<Place>)
      requires p != parent && Owns(parent) && c.hasMm == (parent.mm != null)
      requires p.signal == parent.signal && p.sighand == parent.sighand && c.threads == threads
      modifies this`mms, this`signals, this`handlers, this`threads
      modifies p`mm, p`signal, p`sighand, MmOf(parent), parent.signal, parent.sighand
      ensures stop == if Setup(c).Some? then Setup(c) else FromHandlers(c)
      ensures stop.Some? ==> mms == old(mms) && signals == old(signals) && handlers == old(handlers)
      ensures stop.Some? ==> Counters(parent) == old(Counters(parent))
      ensures stop.None? ==> Linked(p, parent, c, old(mms), old(signals), old(handlers)) && NewAreFresh(p, c)
      ensures stop.None? ==> Counters(parent) == Visible(WithMm(WithSighand(old(Counters(parent)), c), c), c)
    {
      stop := if threads >= c.threadLimit then Some(ThreadLimit) else Setup(c);
      if stop.None? {
        stop := FromSighand(p, parent, c);
      }
    }

    /** Once copy_creds has counted the process. */
    method FromCount(p: TaskStruct, parent: TaskStruct, c: Context) returns (stop: Option<Place>)
      requires p != parent && Owns(parent) && c.hasMm == (parent.mm != null)
      requires p.signal == parent.signal && p.sighand == parent.sighand && c.threads == threads
      modifies this`mms, this`signals, this`handlers, this`threads, this`processes
      modifies p`mm, p`signal, p`sighand, MmOf(parent), parent.signal, parent.sighand
      ensures stop == if Setup(c).Some? then Setup(c) else FromHandlers(c)
      ensures stop.Some? ==> mms == old(mms) && signals == old(signals) && handlers == old(handlers)
      ensures stop.Some? ==> Counters(parent) == old(Counters(parent))
      ensures stop.None? ==> Linked(p, parent, c, old(mms), old(signals), old(handlers)) && NewAreFresh(p, c)
      ensures stop.None? ==> Counters(parent) == Joined(old(Counters(parent)), c)
    {
      processes := processes + 1;
      assert Counters(parent) == old(Counters(parent)).(processes := processes);
      stop := FromThreadLimit(p, parent, c);
      if stop.Some? {
        CountLabel(stop.value);
        if Passes(stop.value, CleanupCount) {
          processes := processes - 1;
        }
      }
    }

    /** From the check of the process limit on. */
    method FromLimit(p: TaskStruct, parent: TaskStruct, c: Context) returns (stop: Option<Place>)
      requires p != parent && Owns(parent) && c.hasMm == (parent.mm != null)
      requires p.signal == parent.signal && p.sighand == parent.sighand
      requires c.processes == processes && c.threads == threads
      modifies this`mms, this`signals, this`handlers, this`threads, this`processes
      modifies p`mm, p`signal, p`sighand, MmOf(parent), parent.signal, parent.sighand
      ensures stop == FromCreds(c)
      ensures stop.Some? ==> mms == old(mms) && signals == old(signals) && handlers == old(handlers)
      ensures stop.Some? ==> Counters(parent) == old(Counters(parent))
      ensures stop.None? ==> Linked(p, parent, c, old(mms), old(signals), old(handlers)) && NewAreFresh(p, c)
      ensures stop.None? ==> Counters(parent) == Joined(old(Counters(parent)), c)
    {
      stop := if processes >= c.processLimit && !c.privileged then Some(ProcessLimit)
              else if Creds in c.fails then Some(Creds) else None;
      if stop.None? {
        stop := FromCount(p, parent, c);
      }
    }

    // ---- The task itself

    /** dup_task_struct. */
    method DupTaskStruct(orig: TaskStruct, c: Context) returns (tsk: TaskStruct?, stop: Option<Place>)
      modifies this`stacks, this`infos, this`tasks
      ensures stop == Dup(c) && (tsk == null <==> stop.Some?)
      ensures tsk == null ==> stacks == old(stacks) && infos == old(infos) && tasks == old(tasks)
      ensures tsk != null ==>
        && fresh(tsk) && tsk.stack != null && fresh(tsk.stack)
        && stacks == old(stacks) + 1 && infos == old(infos) + {tsk.stack} && tasks == old(tasks) + {tsk}
        && tsk.mm == orig.mm && tsk.sighand == orig.sighand && tsk.signal == orig.signal && tsk.vec == orig.vec
    {
      tsk, stop := null, Dup(c);
      if TaskAlloc in c.fails {
        return;
      }
      var t := new TaskStruct();
      tasks := tasks + {t};
      if StackAlloc in c.fails {
        tasks := tasks - {t};
        return;
      }
      var ti := new ThreadInfo();
      infos := infos + {ti};
      if ArchDup in c.fails {
        infos := infos - {ti};
        tasks := tasks - {t};
        return;
      }
      t.mm, t.sighand, t.signal, t.vec := orig.mm, orig.sighand, orig.signal, orig.vec;
      t.stack := ti;
      stacks := stacks + 1;
      tsk := t;
    }

    /** free_task. */
    method FreeTask(tsk: TaskStruct)
      requires tsk in tasks && tsk.stack != null && tsk.stack in infos
      modifies this`stacks, this`infos, this`tasks
      ensures stacks == old(stacks) - 1 && infos == old(infos) - {tsk.stack} && tasks == old(tasks) - {tsk}
    {
      stacks := stacks - 1;
      infos := infos - {tsk.stack};
      tasks := tasks - {tsk};
    }

    /** The vector of the new task: the parent's, with a reference of its own, or none. */
    method CopyVector(p: TaskStruct, parent: TaskStruct, c: Context)
      requires p != parent
      modifies p`vec, this`registry
      ensures p.vec == if c.flags.syscalls then parent.vec else 0
      ensures registry == if c.flags.syscalls then Acquire(old(registry), ByAddr(parent.vec)).0 else old(registry)
    {
      if c.flags.syscalls {
        // increment_ref_count_from_address
        registry := Acquire(registry, ByAddr(parent.vec)).0;
        p.vec := parent.vec;
      } else {
        p.vec := 0;
      }
    }

    /** Once the vector is settled. */
    method FromVector(p: TaskStruct, parent: TaskStruct, c: Context) returns (stop: Option<Place>)
      requires p != parent && Owns(parent) && c.hasMm == (parent.mm != null)
      requires p.signal == parent.signal && p.sighand == parent.sighand
      requires p in tasks && p.stack != null && p.stack in infos
      requires c.processes == processes && c.threads == threads
      modifies this`mms, this`signals, this`handlers, this`threads, this`processes, this`stacks, this`infos, this`tasks
      modifies p`mm, p`signal, p`sighand, MmOf(parent), parent.signal, parent.sighand
      ensures stop == FromCreds(c)
      ensures stop.Some? ==> mms == old(mms) && signals == old(signals) && handlers == old(handlers)
      ensures stop.Some? ==> infos == old(infos) - {p.stack} && tasks == old(tasks) - {p}
      ensures stop.Some? ==> WithStack(Counters(parent)) == old(Counters(parent))
      ensures stop.None? ==> infos == old(infos) && tasks == old(tasks)
      ensures stop.None? ==> Linked(p, parent, c, old(mms), old(signals), old(handlers)) && NewAreFresh(p, c)
      ensures stop.None? ==> Counters(parent) == Joined(old(Counters(parent)), c)
    {
      stop := FromLimit(p, parent, c);
      if stop.Some? {
        FreeLabel(stop.value);
        if Passes(stop.value, ForkFree) {
          FreeTask(p);
        }
      }
    }

    /** dup_task_struct and the choice of the vector. */
    method NewTask(parent: TaskStruct, c: Context) returns (p: TaskStruct?, stop: Option<Place>)
      requires Owns(parent)
      modifies this`stacks, this`infos, this`tasks, this`registry
      ensures stop == Dup(c) && (p == null <==> stop.Some?)
      ensures registry == if p != null && c.flags.syscalls
                          then Acquire(old(registry), ByAddr(parent.vec)).0 else old(registry)
      ensures p == null ==> infos == old(infos) && tasks == old(tasks) && Counters(parent) == old(Counters(parent))
      ensures p != null ==>
        && fresh(p) && p.stack != null && fresh(p.stack)
        && infos == old(infos) + {p.stack} && tasks == old(tasks) + {p}
        && p.sighand == parent.sighand && p.signal == parent.signal
        && p.vec == (if c.flags.syscalls then parent.vec else 0)
        && Counters(parent) == WithStack(old(Counters(parent)))
    {
      p, stop := DupTaskStruct(parent, c);
      if p != null {
        CopyVector(p, parent, c);
      }
    }

    /** Everything but the checks at the beginning. */
    method Duplicate(parent: TaskStruct, c: Context) returns (p: TaskStruct?, stop: Option<Place>)
      requires Owns(parent) && c.hasMm == (parent.mm != null)
      requires c.processes == processes && c.threads == threads
      modifies this, MmOf(parent), parent.signal, parent.sighand
      ensures stop == if Dup(c).Some? then Dup(c) else FromCreds(c)
      ensures registry == if Dup(c).None? && c.flags.syscalls
                          then Acquire(old(registry), ByAddr(parent.vec)).0 else old(registry)
      ensures stop.Some? ==>
        && mms == old(mms) && signals == old(signals) && handlers == old(handlers)
        && infos == old(infos) && tasks == old(tasks)
        && Counters(parent) == old(Counters(parent))
      ensures stop.None? ==>
        && p != null && fresh(p) && p.stack != null && fresh(p.stack)
        && infos == old(infos) + {p.stack} && tasks == old(tasks) + {p}
        && p.vec == (if c.flags.syscalls then parent.vec else 0)
        && Linked(p, parent, c, old(mms), old(signals), old(handlers)) && NewAreFresh(p, c)
        && Counters(parent) == AfterFork(old(Counters(parent)), c)
    {
      p, stop := NewTask(parent, c);
      if stop.None? {
        stop := FromVector(p, parent, c);
      }
    }

    /** copy_process. A fork that fails, wherever, restores every counter of its parent and frees all it
        allocated; the reference on the parent's vector, once taken, is the one thing it keeps. */
    method CopyProcess(parent: TaskStruct, c: Context) returns (r: Forked)
      requires Owns(parent) && c.hasMm == (parent.mm != null)
      requires c.processes == processes && c.threads == threads
      modifies this, MmOf(parent), parent.signal, parent.sighand
      ensures !FlagsOk(c) <==> r.Invalid?
      ensures FlagsOk(c) ==> if Course(c).Some? then r == Failed(Course(c).value) else r.Child?
      ensures registry == if FlagsOk(c) && !Stops(c, Security) && Dup(c).None? && c.flags.syscalls
                          then Acquire(old(registry), ByAddr(parent.vec)).0 else old(registry)
      ensures !r.Child? ==>
        && mms == old(mms) && signals == old(signals) && handlers == old(handlers)
        && infos == old(infos) && tasks == old(tasks)
        && Counters(parent) == old(Counters(parent))
      ensures r.Child? ==>
        && fresh(r.task) && r.task.stack != null && fresh(r.task.stack)
        && infos == old(infos) + {r.task.stack} && tasks == old(tasks) + {r.task}
        && r.task.vec == (if c.flags.syscalls then parent.vec else 0)
        && Linked(r.task, parent, c, old(mms), old(signals), old(handlers)) && NewAreFresh(r.task, c)
        && Counters(parent) == AfterFork(old(Counters(parent)), c)
      ensures r.Child? && c.flags.sighand ==> r.task.sighand == parent.sighand && r.task.mm == parent.mm
      ensures r.Child? && c.flags.thread ==>
        r.task.signal == parent.signal && r.task.sighand == parent.sighand && r.task.mm == parent.mm
      ensures r.Child? ==> (processes <= c.processLimit || c.privileged) && threads <= c.threadLimit
    {
      SucceedsExact(c);
      if !FlagsOk(c) {
        r := Invalid;
        return;
      }
      if Security in c.fails {
        r := Failed(Security);
        return;
      }
      var p, stop := Duplicate(parent, c);
      r := if stop.Some? then Failed(stop.value) else Child(p);
    }
  }

  // ---- What a successful fork leaves

  /** The new task counts as a thread, and in the group it joins; an idle task in neither. */
  function Visible(b: Books, c: Context): Books {
    if c.idle then b
    else if c.flags.thread then
      b.(threads := b.threads + 1, groupThreads := b.groupThreads + 1, groupAlive := b.groupAlive + 1,
         groupCount := b.groupCount + 1)
    else b.(threads := b.threads + 1)
  }

  function WithMm(b: Books, c: Context): Books {
    if c.hasMm && c.flags.vm then b.(users := b.users + 1) else b
  }

  function WithSighand(b: Books, c: Context): Books {
    if c.flags.sighand then b.(handlers := b.handlers + 1) else b
  }

  /** The new task gets an mm of its own. */
  predicate OwnsMm(c: Context) {
    c.hasMm && !c.flags.vm
  }

  ghost predicate MmFits(p: TaskStruct, parent: TaskStruct, c: Context)
    reads p, parent, p.mm
  {
    if OwnsMm(c) then p.mm != null && p.mm.users == 1 else p.mm == parent.mm
  }

  ghost predicate SighandFits(p: TaskStruct, parent: TaskStruct, c: Context)
    reads p, parent, p.sighand
  {
    if c.flags.sighand then p.sighand == parent.sighand else p.sighand != null && p.sighand.count == 1
  }

  ghost predicate SignalFits(p: TaskStruct, parent: TaskStruct, c: Context)
    reads p, parent, p.signal
  {
    if c.flags.thread then p.signal == parent.signal
    else p.signal != null && p.signal.threads == p.signal.alive == p.signal.sigcnt == 1
  }

  function Joined(b: Books, c: Context): Books {
    Visible(WithMm(WithSighand(WithProcess(b), c), c), c)
  }

  /** The books after a fork that succeeded. */
  function AfterFork(b: Books, c: Context): Books {
    Joined(WithStack(b), c)
  }

  function WithStack(b: Books): Books {
    b.(stacks := b.stacks + 1)
  }

  function WithProcess(b: Books): Books {
    b.(processes := b.processes + 1)
  }

  twostate predicate InsideIsFresh(new p: TaskStruct, c: Context)
    reads p
  {
    && (OwnsMm(c) && p.mm != null ==> fresh(p.mm))
    && (!c.flags.thread && p.signal != null ==> fresh(p.signal))
  }

  /** What is the new task's own was not there before. */
  twostate predicate NewAreFresh(new p: TaskStruct, c: Context)
    reads p
  {
    InsideIsFresh(p, c)
    && (!c.flags.sighand && p.sighand != null ==> fresh(p.sighand))
  }

  ghost function MmOf(t: TaskStruct): set<Mm>
    reads t
  {
    if t.mm == null then {} else {t.mm}
  }
}
