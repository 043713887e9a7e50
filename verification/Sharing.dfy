/** What the counters that copy_process raises are for: each is the number of the tasks that share the thing. */
module Sharing {
  import opened Fork

  ghost function SharersOfMm(tasks: set<TaskStruct>, mm: Mm): set<TaskStruct>
    reads tasks
  {
    set t | t in tasks && t.mm == mm
  }

  ghost function SharersOfHandlers(tasks: set<TaskStruct>, sighand: Sighand): set<TaskStruct>
    reads tasks
  {
    set t | t in tasks && t.sighand == sighand
  }

  ghost function Group(tasks: set<TaskStruct>, signal: Signal): set<TaskStruct>
    reads tasks
  {
    set t | t in tasks && t.signal == signal
  }

  /** Every task has what is allocated, and its kernel stack is on the account. */
  ghost predicate Whole(k: Kernel)
    reads k, k.tasks
  {
    && (forall t | t in k.tasks :: t.mm != null ==> t.mm in k.mms)
    && (forall t | t in k.tasks :: t.sighand != null && t.sighand in k.handlers)
    && (forall t | t in k.tasks :: t.signal != null && t.signal in k.signals)
    && Stacked(k)
  }

  ghost predicate Stacked(k: Kernel)
    reads k, k.tasks
  {
    && k.stacks == |k.infos|
    && (forall t | t in k.tasks :: t.stack != null && t.stack in k.infos)
    && (forall t, u | t in k.tasks && u in k.tasks && t.stack == u.stack :: t == u)
  }

  ghost predicate MmsCounted(k: Kernel)
    reads k, k.tasks, k.mms
  {
    forall mm | mm in k.mms :: mm.users == |SharersOfMm(k.tasks, mm)|
  }

  ghost predicate HandlersCounted(k: Kernel)
    reads k, k.tasks, k.handlers
  {
    forall h | h in k.handlers :: h.count == |SharersOfHandlers(k.tasks, h)|
  }

  ghost predicate GroupsCounted(k: Kernel)
    reads k, k.tasks, k.signals
  {
    forall g | g in k.signals :: g.threads == g.alive == g.sigcnt == |Group(k.tasks, g)|
  }

  ghost predicate Counted(k: Kernel)
    reads k, k.tasks, k.mms, k.handlers
  {
    Whole(k) && MmsCounted(k) && HandlersCounted(k)
  }

  /** A task that is there counts for what it has. */
  lemma CountedOwns(k: Kernel, parent: TaskStruct)
    requires Counted(k) && parent in k.tasks
    ensures k.Owns(parent)
  {
    if parent.mm != null {
      assert parent in SharersOfMm(k.tasks, parent.mm);
    }
    assert parent in SharersOfHandlers(k.tasks, parent.sighand);
  }

  // ---- One task more

  /** The tasks there were are as they were, and p is new. */
  twostate predicate OneMore(k: Kernel, new p: TaskStruct)
    reads k, k.tasks
  {
    && k.tasks == old(k.tasks) + {p} && p !in old(k.tasks)
    && forall t | t in old(k.tasks) ::
         t.mm == old(t.mm) && t.sighand == old(t.sighand) && t.signal == old(t.signal) && t.stack == old(t.stack)
  }

  /** The new task has an mm that was there, or one of its own, or none; and the users are counted. */
  twostate predicate MmsJoined(k: Kernel, new p: TaskStruct)
    reads k, p, p.mm, k.mms
  {
    && (p.mm != null && p.mm !in old(k.mms) ==> k.mms == old(k.mms) + {p.mm} && p.mm.users == 1)
    && (!(p.mm != null && p.mm !in old(k.mms)) ==> k.mms == old(k.mms))
    && (forall x | x in old(k.mms) && x in k.mms :: x.users == old(x.users) + if p.mm == x then 1 else 0)
  }

  twostate predicate HandlersJoined(k: Kernel, new p: TaskStruct)
    reads k, p, p.sighand, k.handlers
  {
    && (p.sighand != null && p.sighand !in old(k.handlers) ==>
          k.handlers == old(k.handlers) + {p.sighand} && p.sighand.count == 1)
    && (!(p.sighand != null && p.sighand !in old(k.handlers)) ==> k.handlers == old(k.handlers))
    && (forall x | x in old(k.handlers) && x in k.handlers ::
          x.count == old(x.count) + if p.sighand == x then 1 else 0)
  }

  twostate predicate GroupsJoined(k: Kernel, new p: TaskStruct)
    reads k, p, p.signal, k.signals
  {
    && (p.signal != null && p.signal !in old(k.signals) ==>
          k.signals == old(k.signals) + {p.signal} && p.signal.threads == p.signal.alive == p.signal.sigcnt == 1)
    && (!(p.signal != null && p.signal !in old(k.signals)) ==> k.signals == old(k.signals))
    && (forall x | x in old(k.signals) && x in k.signals ::
          var d := if p.signal == x then 1 else 0;
          x.threads == old(x.threads) + d && x.alive == old(x.alive) + d && x.sigcnt == old(x.sigcnt) + d)
  }

  twostate lemma MmsGrow(k: Kernel, new p: TaskStruct, new mm: Mm)
    requires OneMore(k, p)
    ensures SharersOfMm(k.tasks, mm) == SharersOfMm(old(k.tasks), mm) + if p.mm == mm then {p} else {}
    ensures |SharersOfMm(k.tasks, mm)| == |SharersOfMm(old(k.tasks), mm)| + if p.mm == mm then 1 else 0
  {
    assert SharersOfMm(k.tasks, mm) == SharersOfMm(old(k.tasks), mm) + if p.mm == mm then {p} else {};
  }

  twostate lemma MmsNew(k: Kernel, new p: TaskStruct, new mm: Mm)
    requires old(Whole(k)) && OneMore(k, p) && mm !in old(k.mms)
    ensures SharersOfMm(old(k.tasks), mm) == {}
  {
  }

  twostate lemma MmsOne(k: Kernel, new p: TaskStruct, new mm: Mm)
    requires old(Whole(k)) && old(MmsCounted(k)) && OneMore(k, p) && MmsJoined(k, p)
    requires mm in k.mms
    ensures mm.users == |SharersOfMm(k.tasks, mm)|
  {
    MmsGrow(k, p, mm);
    if mm in old(k.mms) {
      assert SharersOfMm(old(k.tasks), mm) == old(SharersOfMm(k.tasks, mm));
    } else {
      MmsNew(k, p, mm);
    }
  }

  twostate lemma HandlersGrow(k: Kernel, new p: TaskStruct, new h: Sighand)
    requires OneMore(k, p)
    ensures SharersOfHandlers(k.tasks, h) == SharersOfHandlers(old(k.tasks), h) + if p.sighand == h then {p} else {}
    ensures |SharersOfHandlers(k.tasks, h)| == |SharersOfHandlers(old(k.tasks), h)| + if p.sighand == h then 1 else 0
  {
    assert SharersOfHandlers(k.tasks, h) == SharersOfHandlers(old(k.tasks), h) + if p.sighand == h then {p} else {};
  }

  twostate lemma HandlersNew(k: Kernel, new p: TaskStruct, new h: Sighand)
    requires old(Whole(k)) && OneMore(k, p) && h !in old(k.handlers)
    ensures SharersOfHandlers(old(k.tasks), h) == {}
  {
  }

  twostate lemma HandlersOne(k: Kernel, new p: TaskStruct, new h: Sighand)
    requires old(Whole(k)) && old(HandlersCounted(k)) && OneMore(k, p) && HandlersJoined(k, p)
    requires h in k.handlers
    ensures h.count == |SharersOfHandlers(k.tasks, h)|
  {
    HandlersGrow(k, p, h);
    if h in old(k.handlers) {
      assert SharersOfHandlers(old(k.tasks), h) == old(SharersOfHandlers(k.tasks, h));
    } else {
      HandlersNew(k, p, h);
    }
  }

  twostate lemma GroupsGrow(k: Kernel, new p: TaskStruct, new g: Signal)
    requires OneMore(k, p)
    ensures Group(k.tasks, g) == Group(old(k.tasks), g) + if p.signal == g then {p} else {}
    ensures |Group(k.tasks, g)| == |Group(old(k.tasks), g)| + if p.signal == g then 1 else 0
  {
    assert Group(k.tasks, g) == Group(old(k.tasks), g) + if p.signal == g then {p} else {};
  }

  twostate lemma GroupsNew(k: Kernel, new p: TaskStruct, new g: Signal)
    requires old(Whole(k)) && OneMore(k, p) && g !in old(k.signals)
    ensures Group(old(k.tasks), g) == {}
  {
  }

  twostate lemma GroupsOne(k: Kernel, new p: TaskStruct, new g: Signal)
    requires old(Whole(k)) && old(GroupsCounted(k)) && OneMore(k, p) && GroupsJoined(k, p)
    requires g in k.signals
    ensures g.threads == g.alive == g.sigcnt == |Group(k.tasks, g)|
  {
    GroupsGrow(k, p, g);
    if g in old(k.signals) {
      assert Group(old(k.tasks), g) == old(Group(k.tasks, g));
    } else {
      GroupsNew(k, p, g);
    }
  }

  /** What copy_process does to other mms, handlers and groups than the parent's: nothing. */
  twostate predicate OthersKept(k: Kernel, parent: TaskStruct)
    reads k, parent, k.mms, k.handlers, k.signals
  {
    && parent.mm == old(parent.mm) && parent.sighand == old(parent.sighand) && parent.signal == old(parent.signal)
    && (forall x | x in old(k.mms) && x != parent.mm && x in k.mms :: x.users == old(x.users))
    && (forall x | x in old(k.handlers) && x != parent.sighand && x in k.handlers :: x.count == old(x.count))
    && (forall x | x in old(k.signals) && x != parent.signal && x in k.signals ::
          x.threads == old(x.threads) && x.alive == old(x.alive) && x.sigcnt == old(x.sigcnt))
  }

  /** What it says of a child. */
  twostate predicate Forks(k: Kernel, parent: TaskStruct, new p: TaskStruct, c: Context)
    requires old(k.Owns(parent)) && parent.sighand != null && parent.signal != null
    reads k, p, p.mm, p.sighand, p.signal, parent, parent.mm, parent.sighand, parent.signal
  {
    && k.Linked(p, parent, c, old(k.mms), old(k.signals), old(k.handlers)) && NewAreFresh(p, c)
    && k.Counters(parent) == AfterFork(old(k.Counters(parent)), c)
  }

  twostate lemma ForksMms(k: Kernel, new parent: TaskStruct, new p: TaskStruct, new c: Context)
    requires parent in old(k.tasks) && old(k.Owns(parent)) && old(parent.mm != null) == c.hasMm
    requires OthersKept(k, parent) && Forks(k, parent, p, c)
    ensures MmsJoined(k, p)
  {
  }

  twostate lemma ForksHandlers(k: Kernel, new parent: TaskStruct, new p: TaskStruct, new c: Context)
    requires parent in old(k.tasks) && old(k.Owns(parent)) && OthersKept(k, parent) && Forks(k, parent, p, c)
    ensures HandlersJoined(k, p) && p.sighand != null && p.sighand in k.handlers
  {
  }

  twostate lemma ForksGroups(k: Kernel, new parent: TaskStruct, new p: TaskStruct, new c: Context)
    requires parent in old(k.tasks) && old(k.Owns(parent)) && OthersKept(k, parent) && Forks(k, parent, p, c)
    ensures p.signal != null && p.signal in k.signals
    ensures !(c.idle && c.flags.thread) ==> GroupsJoined(k, p)
  {
  }

  twostate lemma MmsStillCounted(k: Kernel, new parent: TaskStruct, new p: TaskStruct, new c: Context)
    requires parent in old(k.tasks) && old(Whole(k)) && old(MmsCounted(k))
    requires old(k.Owns(parent)) && old(parent.mm != null) == c.hasMm
    requires OneMore(k, p) && OthersKept(k, parent) && Forks(k, parent, p, c)
    ensures MmsCounted(k)
  {
    ForksMms(k, parent, p, c);
    forall mm | mm in k.mms ensures mm.users == |SharersOfMm(k.tasks, mm)| {
      MmsOne(k, p, mm);
    }
  }

  twostate lemma HandlersStillCounted(k: Kernel, new parent: TaskStruct, new p: TaskStruct, new c: Context)
    requires parent in old(k.tasks) && old(Whole(k)) && old(HandlersCounted(k))
    requires old(k.Owns(parent)) && old(parent.mm != null) == c.hasMm
    requires OneMore(k, p) && OthersKept(k, parent) && Forks(k, parent, p, c)
    ensures HandlersCounted(k)
  {
    ForksHandlers(k, parent, p, c);
    forall h | h in k.handlers ensures h.count == |SharersOfHandlers(k.tasks, h)| {
      HandlersOne(k, p, h);
    }
  }

  twostate lemma GroupsStillCounted(k: Kernel, new parent: TaskStruct, new p: TaskStruct, new c: Context)
    requires parent in old(k.tasks) && old(Whole(k)) && old(GroupsCounted(k))
    requires old(k.Owns(parent)) && old(parent.mm != null) == c.hasMm
    requires OneMore(k, p) && OthersKept(k, parent) && Forks(k, parent, p, c)
    requires !(c.idle && c.flags.thread)
    ensures GroupsCounted(k)
  {
    ForksGroups(k, parent, p, c);
    forall g | g in k.signals ensures g.threads == g.alive == g.sigcnt == |Group(k.tasks, g)| {
      GroupsOne(k, p, g);
    }
  }

  twostate lemma StackAdded(k: Kernel, new p: TaskStruct)
    requires old(Stacked(k)) && OneMore(k, p) && k.stacks == old(k.stacks) + 1
    requires p.stack != null && p.stack !in old(k.infos) && k.infos == old(k.infos) + {p.stack}
    ensures Stacked(k)
  {
  }

  twostate lemma ChildIsWhole(k: Kernel, new parent: TaskStruct, new p: TaskStruct, new c: Context)
    requires parent in old(k.tasks) && old(Whole(k)) && old(k.Owns(parent)) && old(parent.mm != null) == c.hasMm
    requires OneMore(k, p) && OthersKept(k, parent) && Forks(k, parent, p, c) && Stacked(k)
    ensures Whole(k)
  {
    forall t | t in k.tasks
      ensures (t.mm != null ==> t.mm in k.mms) && t.sighand != null && t.sighand in k.handlers
      ensures t.signal != null && t.signal in k.signals
    {
      assert t in old(k.tasks) || t == p;
    }
  }

  /** A failed fork leaves everything as it was. */
  twostate predicate AsBefore(k: Kernel, parent: TaskStruct)
    requires old(k.Owns(parent)) && parent.sighand != null && parent.signal != null
    reads k, parent, parent.mm, parent.sighand, parent.signal
  {
    && k.mms == old(k.mms) && k.signals == old(k.signals) && k.handlers == old(k.handlers)
    && k.infos == old(k.infos) && k.tasks == old(k.tasks)
    && k.Counters(parent) == old(k.Counters(parent))
  }

  twostate predicate SameTasks(k: Kernel)
    reads k, k.tasks
  {
    forall t | t in old(k.tasks) && t in k.tasks ::
      t.mm == old(t.mm) && t.sighand == old(t.sighand) && t.signal == old(t.signal) && t.stack == old(t.stack)
  }

  twostate lemma FailureIsCounted(k: Kernel, new parent: TaskStruct)
    requires parent in old(k.tasks) && old(Counted(k)) && old(k.Owns(parent))
    requires SameTasks(k) && OthersKept(k, parent) && AsBefore(k, parent)
    ensures Counted(k) && (old(GroupsCounted(k)) ==> GroupsCounted(k))
  {
    forall mm | mm in k.mms ensures SharersOfMm(k.tasks, mm) == old(SharersOfMm(k.tasks, mm)) {
    }
    forall h | h in k.handlers ensures SharersOfHandlers(k.tasks, h) == old(SharersOfHandlers(k.tasks, h)) {
    }
    forall g | g in k.signals ensures Group(k.tasks, g) == old(Group(k.tasks, g)) {
    }
  }

  /** copy_process keeps the counters what they are for, whether it succeeds or not: an mm's users and a
      sighand's count are the numbers of the tasks that have it, and so are the three counters of a thread group
      unless an idle task joins it, which is not counted there. */
  method CountedFork(k: Kernel, parent: TaskStruct, c: Context) returns (r: Forked)
    requires Counted(k) && parent in k.tasks && c.hasMm == (parent.mm != null)
    requires c.processes == k.processes && c.threads == k.threads
    modifies k, MmOf(parent), parent.signal, parent.sighand
    ensures Counted(k) && k.tasks == old(k.tasks) + if r.Child? then {r.task} else {}
    ensures old(GroupsCounted(k)) && !(c.idle && c.flags.thread) ==> GroupsCounted(k)
    ensures k.processes == old(k.processes) + if r.Child? then 1 else 0
    ensures k.threads == old(k.threads) + if r.Child? && !c.idle then 1 else 0
  {
    CountedOwns(k, parent);
    r := k.CopyProcess(parent, c);
    assert OthersKept(k, parent) && SameTasks(k);
    if r.Child? {
      MmsStillCounted(k, parent, r.task, c);
      HandlersStillCounted(k, parent, r.task, c);
      StackAdded(k, r.task);
      ChildIsWhole(k, parent, r.task, c);
      if old(GroupsCounted(k)) && !(c.idle && c.flags.thread) {
        GroupsStillCounted(k, parent, r.task, c);
      }
    } else {
      FailureIsCounted(k, parent);
    }
  }
}
