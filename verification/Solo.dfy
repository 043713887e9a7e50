/** What a system call does when no other task runs meanwhile. */
module Solo {
  import opened Registry
  import opened Text
  import opened Bitmap
  import opened Ledger
  import opened Protocol

  const EINVAL: int := 22

  // ---- The calls as single operations on the registry and the caller's syscall_vector_info

  /** if_assigned_reduce: the count to drop is looked up by the text of the whole record. */
  function IfAssignedReduce(r: Table, vec: nat): Table {
    var text := Mine(r.entries, vec);
    if vec == 0 || UNASSIGNED <= text then r else Release(r, ByName(text)).0
  }

  /** IOCTL_SET: the registry, the caller's vector and the result. */
  function SetVector(r: Table, vec: nat, name: string): (Table, nat, int) {
    var (r1, a) := Acquire(r, ByName(name));
    if a == 0 then (r1, vec, -EINVAL) else (IfAssignedReduce(r1, vec), a, 0)
  }

  /** IOCTL_REMOVE; on success the result is the count left. */
  function RemoveVector(r: Table, vec: nat, name: string): (Table, nat, int) {
    var (r1, left) := Release(r, ByName(name));
    if left < 0 then (r1, vec, -EINVAL) else (r1, 0, left)
  }

  /** IOCTL_CREATE_FROM_BITMAP; list is the address of the list that is built if one has to be. */
  function CreateVector(r: Table, vec: nat, bitmap: nat, list: nat): (Table, nat, int) {
    if !Accepted(bitmap) then (r, vec, -EINVAL)
    else
      var (r1, a) := Acquire(r, ByBitmap(bitmap));
      if a != 0 then (r1, a, a)
      else (Register(r1.(pins := Pin(r1.pins, DYNAMIC, 1)), DynamicName(bitmap), list, DYNAMIC, bitmap, 1), list, list)
  }

  /** Replacing a held vector never drops the old reference, whatever the vectors are called: a record is
      longer than the name in it. If another vector is called like the whole record, and the record does
      not begin like the text for no vector, that one loses a reference instead; no other case changes
      anything, and over names that are not empty and have no line break there is none. */
  lemma ReplaceDropsNothing(r: Table, vec: nat)
    ensures Has(r.entries, ByAddr(vec)) ==>
      var i := Find(r.entries, ByAddr(vec)); IfAssignedReduce(r, vec).entries[i] == r.entries[i]
    ensures IfAssignedReduce(r, vec) != r <==>
      vec != 0 && Has(r.entries, ByName(Mine(r.entries, vec))) && !(UNASSIGNED <= Mine(r.entries, vec))
    ensures (forall e | e in r.entries :: NameOk(e.name)) ==> IfAssignedReduce(r, vec) == r
  {
    var text := Mine(r.entries, vec);
    var i := Find(r.entries, ByName(text));
    if vec != 0 && Has(r.entries, ByAddr(vec)) {
      var e := r.entries[Find(r.entries, ByAddr(vec))];
      assert text == Record(e) && |text| > |e.name|;
    }
    if vec != 0 && Has(r.entries, ByAddr(vec)) {
      RecordHasLineBreak(r.entries[Find(r.entries, ByAddr(vec))]);
    }
    if forall e | e in r.entries :: NameOk(e.name) {
      if '\n' in text {
        RecordIsNoName(r.entries, text);
      } else {
        assert forall j | 0 <= j < |r.entries| :: NameOk(r.entries[j].name);
      }
    }
    if i < |r.entries| {
      assert Bump(r, i, -1).entries[i].refcount != r.entries[i].refcount;
    }
  }

  // ---- The steps of one task, uninterrupted, add up to that

  /** Some schedule leads from s to s1. */
  ghost predicate Leads(s: State, s1: State) {
    exists sched :: Feasible(s, sched) && Exec(s, sched) == s1
  }

  lemma ExecCons(s: State, p: Pick, rest: seq<Pick>, s1: State)
    requires Enabled(s, p.t, p.spare) && s1 == Step(s, p.t, p.spare)
    ensures Feasible(s, [p] + rest) <==> Feasible(s1, rest)
    ensures Feasible(s1, rest) ==> Exec(s, [p] + rest) == Exec(s1, rest)
  {
    assert ([p] + rest)[1..] == rest;
  }

  lemma OneStepLeads(s: State, t: nat, spare: nat)
    requires Enabled(s, t, spare)
    ensures Leads(s, Step(s, t, spare))
  {
    var s1 := Step(s, t, spare);
    assert Feasible(s1, []) && Exec(s1, []) == s1;
    ExecCons(s, Pick(t, spare), [], s1);
  }

  lemma StepBefore(s: State, t: nat, spare: nat, s2: State)
    requires Enabled(s, t, spare) && Leads(Step(s, t, spare), s2)
    ensures Leads(s, s2)
  {
    var s1 := Step(s, t, spare);
    var rest :| Feasible(s1, rest) && Exec(s1, rest) == s2;
    ExecCons(s, Pick(t, spare), rest, s1);
  }

  lemma {:induction false} Extend(s: State, sched: seq<Pick>, s2: State)
    requires Feasible(s, sched) && Leads(Exec(s, sched), s2)
    ensures Leads(s, s2)
    decreases sched
  {
    if sched != [] {
      Extend(Step(s, sched[0].t, sched[0].spare), sched[1..], s2);
      StepBefore(s, sched[0].t, sched[0].spare, s2);
    }
  }

  lemma BothLead(s: State, s1: State, s2: State)
    requires Leads(s, s1) && Leads(s1, s2)
    ensures Leads(s, s2)
  {
    var sched :| Feasible(s, sched) && Exec(s, sched) == s1;
    Extend(s, sched, s2);
  }

  /** The state in which task t is th, and the rest as given. */
  function With(s: State, t: nat, th: Task, r: Table, outer: Owner, inner: Owner): State
    requires t < |s.tasks|
  {
    s.(tasks := s.tasks[t := th], reg := r, outer := outer, inner := inner)
  }

  /** One more step of task t, everything else being as in s. */
  lemma OneMoreLeads(s0: State, t: nat, spare: nat, a: State, b: State)
    requires Leads(s0, a) && Enabled(a, t, spare) && Step(a, t, spare) == b
    ensures Leads(s0, b)
  {
    OneStepLeads(a, t, spare);
    BothLead(s0, a, b);
  }

  /** The first two steps of an ioctl: the request is picked up and mutexlock taken. */
  lemma PassEntry(s: State, t: nat, spare: nat)
    requires t < |s.tasks| && s.tasks[t].pc == Idle && s.tasks[t].todo != [] && IsIoctl(s.tasks[t].todo[0])
    requires s.outer == Free && s.inner == Free && DYNAMIC in s.reg.pins && spare != 0 && spare !in s.lists
    ensures var th := s.tasks[t];
      Leads(s, With(s, t, Task(th.vec, Dispatch(th.todo[0]), th.todo[1..]), s.reg, Held(t), Free))
  {
    var th := s.tasks[t];
    var a := With(s, t, Task(th.vec, EnterIoctl(th.todo[0]), th.todo[1..]), s.reg, Free, Free);
    OneStepLeads(s, t, spare);
    assert StepStart(s, t) == a;
    var b := With(s, t, Task(th.vec, Dispatch(th.todo[0]), th.todo[1..]), s.reg, Held(t), Free);
    assert StepIoctl(a, t) == b;
    OneMoreLeads(s, t, spare, a, b);
  }

  predicate IsIoctl(op: Op) {
    op.Set? || op.Remove? || op.Create?
  }

  /** Once the dynamic module is gone, and the device with it, a request changes nothing. */
  lemma SoloGone(s: State, t: nat, spare: nat)
    requires t < |s.tasks| && s.tasks[t].pc == Idle && s.tasks[t].todo != [] && IsIoctl(s.tasks[t].todo[0])
    requires s.outer == Free && DYNAMIC !in s.reg.pins && spare != 0 && spare !in s.lists
    ensures var th := s.tasks[t]; Leads(s, With(s, t, Task(th.vec, Idle, th.todo[1..]), s.reg, Free, s.inner))
  {
    var th := s.tasks[t];
    var a := With(s, t, Task(th.vec, EnterIoctl(th.todo[0]), th.todo[1..]), s.reg, Free, s.inner);
    OneStepLeads(s, t, spare);
    assert StepStart(s, t) == a;
    var b := With(s, t, Task(th.vec, Idle, th.todo[1..]), s.reg, Free, s.inner);
    assert StepIoctl(a, t) == b;
    OneMoreLeads(s, t, spare, a, b);
  }

  lemma PassLock(s0: State, s: State, t: nat, spare: nat, th: Task, r: Table, o: Owner, q: Pc)
    requires t < |s.tasks| && spare != 0 && spare !in s.lists
    requires Leads(s0, With(s, t, th.(pc := Lock(q)), r, o, Free))
    ensures Leads(s0, With(s, t, th.(pc := q), r, o, Held(t)))
  {
    var a := With(s, t, th.(pc := Lock(q)), r, o, Free);
    var b := With(s, t, th.(pc := q), r, o, Held(t));
    assert StepLock(a, t) == b;
    OneMoreLeads(s0, t, spare, a, b);
  }

  lemma PassUnlock(s0: State, s: State, t: nat, spare: nat, th: Task, r: Table, o: Owner, q: Pc)
    requires t < |s.tasks| && spare != 0 && spare !in s.lists
    requires Leads(s0, With(s, t, th.(pc := Unlock(q)), r, o, Held(t)))
    ensures Leads(s0, With(s, t, th.(pc := q), r, o, Free))
  {
    var a := With(s, t, th.(pc := Unlock(q)), r, o, Held(t));
    var b := With(s, t, th.(pc := q), r, o, Free);
    assert StepLock(a, t) == b;
    OneMoreLeads(s0, t, spare, a, b);
  }

  lemma PassExit(s0: State, s: State, t: nat, spare: nat, th: Task, r: Table)
    requires t < |s.tasks| && spare != 0 && spare !in s.lists
    requires Leads(s0, With(s, t, th.(pc := LeaveIoctl), r, Held(t), Free))
    ensures Leads(s0, With(s, t, th.(pc := Idle), r, Free, Free))
  {
    var a := With(s, t, th.(pc := LeaveIoctl), r, Held(t), Free);
    var b := With(s, t, th.(pc := Idle), r, Free, Free);
    assert StepIoctl(a, t) == b;
    OneMoreLeads(s0, t, spare, a, b);
  }

  // ---- IOCTL_REMOVE

  lemma PassRemReduce(s0: State, s: State, t: nat, spare: nat, th: Task, r: Table, name: string)
    requires t < |s.tasks| && spare != 0 && spare !in s.lists
    requires Leads(s0, With(s, t, th.(pc := RemReduce(name)), r, Held(t), Held(t)))
    ensures Leads(s0, With(s, t,
        th.(pc := Unlock(if Release(r, ByName(name)).1 < 0 then LeaveIoctl else RemClear)),
        Release(r, ByName(name)).0, Held(t), Held(t)))
  {
    var a := With(s, t, th.(pc := RemReduce(name)), r, Held(t), Held(t));
    var b := With(s, t,
        th.(pc := Unlock(if Release(r, ByName(name)).1 < 0 then LeaveIoctl else RemClear)),
        Release(r, ByName(name)).0, Held(t), Held(t));
    assert StepRemove(a, t) == b;
    OneMoreLeads(s0, t, spare, a, b);
  }

  lemma PassRemClear(s0: State, s: State, t: nat, spare: nat, th: Task, r: Table)
    requires t < |s.tasks| && spare != 0 && spare !in s.lists
    requires Leads(s0, With(s, t, th.(pc := RemClear), r, Held(t), Free))
    ensures Leads(s0, With(s, t, th.(vec := 0, pc := LeaveIoctl), r, Held(t), Free))
  {
    var a := With(s, t, th.(pc := RemClear), r, Held(t), Free);
    var b := With(s, t, th.(vec := 0, pc := LeaveIoctl), r, Held(t), Free);
    assert StepRemove(a, t) == b;
    OneMoreLeads(s0, t, spare, a, b);
  }

  /** A REMOVE that is not interrupted is RemoveVector. */
  lemma SoloRemove(s: State, t: nat, spare: nat)
    requires t < |s.tasks| && s.tasks[t].pc == Idle && s.tasks[t].todo != [] && s.tasks[t].todo[0].Remove?
    requires s.outer == Free && s.inner == Free && DYNAMIC in s.reg.pins && spare != 0 && spare !in s.lists
    ensures var th := s.tasks[t];
      var (r1, v1, _) := RemoveVector(s.reg, th.vec, th.todo[0].name);
      Leads(s, With(s, t, Task(v1, Idle, th.todo[1..]), r1, Free, Free))
  {
    var (name, th) := (s.tasks[t].todo[0].name, Task(s.tasks[t].vec, Idle, s.tasks[t].todo[1..]));
    var (r1, left) := Release(s.reg, ByName(name));
    PassEntry(s, t, spare);
    PassLock(s, s, t, spare, th, s.reg, Held(t), RemReduce(name));
    PassRemReduce(s, s, t, spare, th, s.reg, name);
    if left < 0 {
      PassUnlock(s, s, t, spare, th, r1, Held(t), LeaveIoctl);
      PassExit(s, s, t, spare, th, r1);
    } else {
      PassUnlock(s, s, t, spare, th, r1, Held(t), RemClear);
      PassRemClear(s, s, t, spare, th, r1);
      PassExit(s, s, t, spare, th.(vec := 0), r1);
    }
  }

  // ---- IOCTL_SET

  lemma PassSetGet(s0: State, s: State, t: nat, spare: nat, th: Task, r: Table, name: string)
    requires t < |s.tasks| && spare != 0 && spare !in s.lists
    requires Leads(s0, With(s, t, th.(pc := SetGet(name)), r, Held(t), Held(t)))
    ensures Leads(s0, With(s, t,
        th.(pc := Unlock(if Acquire(r, ByName(name)).1 == 0 then LeaveIoctl
          else SetShow(Acquire(r, ByName(name)).1))),
        Acquire(r, ByName(name)).0, Held(t), Held(t)))
  {
    var a := With(s, t, th.(pc := SetGet(name)), r, Held(t), Held(t));
    var b := With(s, t,
        th.(pc := Unlock(if Acquire(r, ByName(name)).1 == 0 then LeaveIoctl
          else SetShow(Acquire(r, ByName(name)).1))),
        Acquire(r, ByName(name)).0, Held(t), Held(t));
    assert StepSet(a, t) == b;
    OneMoreLeads(s0, t, spare, a, b);
  }

  lemma PassSetShow(s0: State, s: State, t: nat, spare: nat, th: Task, r: Table, va: nat)
    requires t < |s.tasks| && spare != 0 && spare !in s.lists
    requires Leads(s0, With(s, t, th.(pc := SetShow(va)), r, Held(t), Free))
    ensures Leads(s0, With(s, t,
        th.(pc := if th.vec == 0 || UNASSIGNED <= Mine(r.entries, th.vec) then SetClear(va)
          else Lock(SetReduce(va, Mine(r.entries, th.vec)))),
        r, Held(t), Free))
  {
    var a := With(s, t, th.(pc := SetShow(va)), r, Held(t), Free);
    var b := With(s, t,
        th.(pc := if th.vec == 0 || UNASSIGNED <= Mine(r.entries, th.vec) then SetClear(va)
          else Lock(SetReduce(va, Mine(r.entries, th.vec)))),
        r, Held(t), Free);
    assert StepSet(a, t) == b;
    OneMoreLeads(s0, t, spare, a, b);
  }

  lemma PassSetReduce(s0: State, s: State, t: nat, spare: nat, th: Task, r: Table, va: nat, text: string)
    requires t < |s.tasks| && spare != 0 && spare !in s.lists
    requires Leads(s0, With(s, t, th.(pc := SetReduce(va, text)), r, Held(t), Held(t)))
    ensures Leads(s0, With(s, t, th.(pc := Unlock(SetClear(va))), Release(r, ByName(text)).0, Held(t), Held(t)))
  {
    var a := With(s, t, th.(pc := SetReduce(va, text)), r, Held(t), Held(t));
    var b := With(s, t, th.(pc := Unlock(SetClear(va))), Release(r, ByName(text)).0, Held(t), Held(t));
    assert StepSet(a, t) == b;
    OneMoreLeads(s0, t, spare, a, b);
  }

  lemma PassSetClear(s0: State, s: State, t: nat, spare: nat, th: Task, r: Table, va: nat)
    requires t < |s.tasks| && spare != 0 && spare !in s.lists
    requires Leads(s0, With(s, t, th.(pc := SetClear(va)), r, Held(t), Free))
    ensures Leads(s0, With(s.(leaked := Leak(s.leaked, th.vec)), t, th.(vec := 0, pc := SetInstall(va)), r, Held(t),
        Free))
  {
    var a := With(s, t, th.(pc := SetClear(va)), r, Held(t), Free);
    var b := With(s.(leaked := Leak(s.leaked, th.vec)), t, th.(vec := 0, pc := SetInstall(va)), r, Held(t), Free);
    assert StepSet(a, t) == b;
    OneMoreLeads(s0, t, spare, a, b);
  }

  lemma PassSetInstall(s0: State, s: State, t: nat, spare: nat, th: Task, r: Table, va: nat)
    requires t < |s.tasks| && spare != 0 && spare !in s.lists
    requires th.vec == 0
    requires Leads(s0, With(s, t, th.(pc := SetInstall(va)), r, Held(t), Free))
    ensures Leads(s0, With(s, t, th.(vec := va, pc := LeaveIoctl), r, Held(t), Free))
  {
    var a := With(s, t, th.(pc := SetInstall(va)), r, Held(t), Free);
    var b := With(s, t, th.(vec := va, pc := LeaveIoctl), r, Held(t), Free);
    assert StepSet(a, t) == b;
    OneMoreLeads(s0, t, spare, a, b);
  }

  /** A SET that is not interrupted is SetVector; the old reference, if any, is leaked. */
  lemma SoloSet(s: State, t: nat, spare: nat)
    requires t < |s.tasks| && s.tasks[t].pc == Idle && s.tasks[t].todo != [] && s.tasks[t].todo[0].Set?
    requires s.outer == Free && s.inner == Free && DYNAMIC in s.reg.pins && spare != 0 && spare !in s.lists
    ensures var th := s.tasks[t];
      var (r1, v1, err) := SetVector(s.reg, th.vec, th.todo[0].name);
      Leads(s, With(s.(leaked := if err == 0 then Leak(s.leaked, th.vec) else s.leaked),
                    t, Task(v1, Idle, th.todo[1..]), r1, Free, Free))
  {
    var (name, th) := (s.tasks[t].todo[0].name, Task(s.tasks[t].vec, Idle, s.tasks[t].todo[1..]));
    var (r1, va) := Acquire(s.reg, ByName(name));
    PassEntry(s, t, spare);
    PassLock(s, s, t, spare, th, s.reg, Held(t), SetGet(name));
    PassSetGet(s, s, t, spare, th, s.reg, name);
    if va == 0 {
      PassUnlock(s, s, t, spare, th, r1, Held(t), LeaveIoctl);
      PassExit(s, s, t, spare, th, r1);
    } else {
      PassUnlock(s, s, t, spare, th, r1, Held(t), SetShow(va));
      SoloSetTail(s, s, t, spare, th, r1, va);
    }
  }

  /** From if_assigned_reduce on. */
  lemma SoloSetTail(s0: State, s: State, t: nat, spare: nat, th: Task, r: Table, va: nat)
    requires t < |s.tasks| && spare != 0 && spare !in s.lists && th.pc == Idle
    requires Leads(s0, With(s, t, th.(pc := SetShow(va)), r, Held(t), Free))
    ensures Leads(s0, With(s.(leaked := Leak(s.leaked, th.vec)), t, th.(vec := va),
                           IfAssignedReduce(r, th.vec), Free, Free))
  {
    var text := Mine(r.entries, th.vec);
    var r1 := IfAssignedReduce(r, th.vec);
    PassSetShow(s0, s, t, spare, th, r, va);
    if th.vec != 0 && !(UNASSIGNED <= text) {
      PassLock(s0, s, t, spare, th, r, Held(t), SetReduce(va, text));
      PassSetReduce(s0, s, t, spare, th, r, va, text);
      PassUnlock(s0, s, t, spare, th, r1, Held(t), SetClear(va));
    }
    PassSetClear(s0, s, t, spare, th, r1, va);
    var s1 := s.(leaked := Leak(s.leaked, th.vec));
    PassSetInstall(s0, s1, t, spare, th.(vec := 0), r1, va);
    PassExit(s0, s1, t, spare, th.(vec := va), r1);
  }

  // ---- IOCTL_CREATE_FROM_BITMAP

  lemma PassCrCheck(s0: State, s: State, t: nat, spare: nat, th: Task, r: Table, bitmap: nat)
    requires t < |s.tasks| && spare != 0 && spare !in s.lists
    requires Leads(s0, With(s, t, th.(pc := CrCheck(bitmap)), r, Held(t), Held(t)))
    ensures Leads(s0, With(s, t,
        th.(pc := Unlock(if Acquire(r, ByBitmap(bitmap)).1 != 0 then CrAdopt(Acquire(r, ByBitmap(bitmap)).1)
          else CrBuild(bitmap))),
        Acquire(r, ByBitmap(bitmap)).0, Held(t), Held(t)))
  {
    var a := With(s, t, th.(pc := CrCheck(bitmap)), r, Held(t), Held(t));
    var b := With(s, t,
        th.(pc := Unlock(if Acquire(r, ByBitmap(bitmap)).1 != 0 then CrAdopt(Acquire(r, ByBitmap(bitmap)).1)
          else CrBuild(bitmap))),
        Acquire(r, ByBitmap(bitmap)).0, Held(t), Held(t));
    assert StepCreate(a, t, spare) == b;
    OneMoreLeads(s0, t, spare, a, b);
  }

  lemma PassCrAdopt(s0: State, s: State, t: nat, spare: nat, th: Task, r: Table, va: nat)
    requires t < |s.tasks| && spare != 0 && spare !in s.lists
    requires Leads(s0, With(s, t, th.(pc := CrAdopt(va)), r, Held(t), Free))
    ensures Leads(s0, With(s.(leaked := Leak(s.leaked, th.vec)), t, th.(vec := va, pc := LeaveIoctl), r, Held(t), Free))
  {
    var a := With(s, t, th.(pc := CrAdopt(va)), r, Held(t), Free);
    var b := With(s.(leaked := Leak(s.leaked, th.vec)), t, th.(vec := va, pc := LeaveIoctl), r, Held(t), Free);
    assert StepCreate(a, t, spare) == b;
    OneMoreLeads(s0, t, spare, a, b);
  }

  lemma PassCrBuild(s0: State, s: State, t: nat, spare: nat, th: Task, r: Table, bitmap: nat)
    requires t < |s.tasks| && spare != 0 && spare !in s.lists
    requires Leads(s0, With(s, t, th.(pc := CrBuild(bitmap)), r, Held(t), Free))
    ensures Leads(s0, With(s.(lists := if Buildable(bitmap) then s.lists + {spare} else s.lists), t,
                    th.(pc := CrPin(bitmap, if Buildable(bitmap) then spare else 0)), r, Held(t), Free))
  {
    var a := With(s, t, th.(pc := CrBuild(bitmap)), r, Held(t), Free);
    var b := With(s.(lists := if Buildable(bitmap) then s.lists + {spare} else s.lists), t,
                    th.(pc := CrPin(bitmap, if Buildable(bitmap) then spare else 0)), r, Held(t), Free);
    assert StepCreate(a, t, spare) == b;
    OneMoreLeads(s0, t, spare, a, b);
  }

  lemma PassCrPin(s0: State, s: State, t: nat, spare: nat, th: Task, r: Table, bitmap: nat, va: nat)
    requires t < |s.tasks| && spare != 0 && spare !in s.lists
    requires Leads(s0, With(s, t, th.(pc := CrPin(bitmap, va)), r, Held(t), Free))
    ensures Leads(s0, With(s, t,
        th.(pc := Lock(CrRegister(bitmap, va))),
        r.(pins := Pin(r.pins, DYNAMIC, 1)), Held(t), Free))
  {
    var a := With(s, t, th.(pc := CrPin(bitmap, va)), r, Held(t), Free);
    var b := With(s, t, th.(pc := Lock(CrRegister(bitmap, va))), r.(pins := Pin(r.pins, DYNAMIC, 1)), Held(t), Free);
    assert StepCreate(a, t, spare) == b;
    OneMoreLeads(s0, t, spare, a, b);
  }

  lemma PassCrRegister(s0: State, s: State, t: nat, spare: nat, th: Task, r: Table, bitmap: nat, va: nat)
    requires t < |s.tasks| && spare != 0 && spare !in s.lists
    requires Leads(s0, With(s, t, th.(pc := CrRegister(bitmap, va)), r, Held(t), Held(t)))
    ensures Leads(s0, With(s, t,
        th.(pc := Unlock(CrInstall(va))),
        Register(r, DynamicName(bitmap), va, DYNAMIC, bitmap, 1), Held(t), Held(t)))
  {
    var a := With(s, t, th.(pc := CrRegister(bitmap, va)), r, Held(t), Held(t));
    var b := With(s, t,
        th.(pc := Unlock(CrInstall(va))),
        Register(r, DynamicName(bitmap), va, DYNAMIC, bitmap, 1), Held(t), Held(t));
    assert StepCreate(a, t, spare) == b;
    OneMoreLeads(s0, t, spare, a, b);
  }

  lemma PassCrInstall(s0: State, s: State, t: nat, spare: nat, th: Task, r: Table, va: nat)
    requires t < |s.tasks| && spare != 0 && spare !in s.lists
    requires Leads(s0, With(s, t, th.(pc := CrInstall(va)), r, Held(t), Free))
    ensures Leads(s0, With(s.(leaked := Leak(s.leaked, th.vec), heads := s.heads + [(DYNAMIC, va)]), t,
                    th.(vec := va, pc := LeaveIoctl), r, Held(t), Free))
  {
    var a := With(s, t, th.(pc := CrInstall(va)), r, Held(t), Free);
    var b := With(s.(leaked := Leak(s.leaked, th.vec), heads := s.heads + [(DYNAMIC, va)]), t,
                    th.(vec := va, pc := LeaveIoctl), r, Held(t), Free);
    assert StepCreate(a, t, spare) == b;
    OneMoreLeads(s0, t, spare, a, b);
  }

  /** Nothing with this bitmap has a list: the builder has to build one. */
  predicate Builds(r: Table, bitmap: nat) {
    Accepted(bitmap) && Acquire(r, ByBitmap(bitmap)).1 == 0
  }

  function ListFor(bitmap: nat, spare: nat): nat {
    if Buildable(bitmap) then spare else 0
  }

  /** A CREATE that is not interrupted is CreateVector; a new list is allocated and remembered
      exactly when one is built, and the old reference is leaked. */
  lemma SoloCreate(s: State, t: nat, spare: nat, spare2: nat)
    requires t < |s.tasks| && s.tasks[t].pc == Idle && s.tasks[t].todo != [] && s.tasks[t].todo[0].Create?
    requires s.outer == Free && s.inner == Free && DYNAMIC in s.reg.pins
    requires spare != 0 && spare2 != 0 && spare !in s.lists && spare2 !in s.lists && spare != spare2
    ensures var (th, bitmap) := (s.tasks[t], s.tasks[t].todo[0].bitmap);
      var va := ListFor(bitmap, spare);
      var (r1, v1, err) := CreateVector(s.reg, th.vec, bitmap, va);
      Leads(s, With(s.(lists := if Builds(s.reg, bitmap) && va != 0 then s.lists + {va} else s.lists,
                       heads := if Builds(s.reg, bitmap) then s.heads + [(DYNAMIC, va)] else s.heads,
                       leaked := if Accepted(bitmap) then Leak(s.leaked, th.vec) else s.leaked),
                    t, Task(v1, Idle, th.todo[1..]), r1, Free, Free))
  {
    var (bitmap, th) := (s.tasks[t].todo[0].bitmap, Task(s.tasks[t].vec, Idle, s.tasks[t].todo[1..]));
    PassEntry(s, t, spare);
    if !Accepted(bitmap) {
      PassExit(s, s, t, spare, th, s.reg);
    } else {
      var (r1, va) := Acquire(s.reg, ByBitmap(bitmap));
      PassLock(s, s, t, spare, th, s.reg, Held(t), CrCheck(bitmap));
      PassCrCheck(s, s, t, spare, th, s.reg, bitmap);
      if va != 0 {
        PassUnlock(s, s, t, spare, th, r1, Held(t), CrAdopt(va));
        PassCrAdopt(s, s, t, spare, th, r1, va);
        PassExit(s, s.(leaked := Leak(s.leaked, th.vec)), t, spare, th.(vec := va), r1);
      } else {
        PassUnlock(s, s, t, spare, th, r1, Held(t), CrBuild(bitmap));
        SoloBuild(s, s, t, spare, spare2, th, r1, bitmap);
      }
    }
  }

  lemma SoloBuild(s0: State, s: State, t: nat, spare: nat, spare2: nat, th: Task, r: Table, bitmap: nat)
    requires t < |s.tasks| && th.pc == Idle
    requires spare != 0 && spare2 != 0 && spare !in s.lists && spare2 !in s.lists && spare != spare2
    requires Leads(s0, With(s, t, th.(pc := CrBuild(bitmap)), r, Held(t), Free))
    ensures var va := ListFor(bitmap, spare);
      Leads(s0, With(s.(lists := if va != 0 then s.lists + {va} else s.lists,
                        heads := s.heads + [(DYNAMIC, va)], leaked := Leak(s.leaked, th.vec)),
                     t, th.(vec := va),
                     Register(r.(pins := Pin(r.pins, DYNAMIC, 1)), DynamicName(bitmap), va, DYNAMIC, bitmap, 1), Free,
                         Free))
  {
    var va := ListFor(bitmap, spare);
    PassCrBuild(s0, s, t, spare, th, r, bitmap);
    var s1 := s.(lists := if Buildable(bitmap) then s.lists + {spare} else s.lists);
    var r1 := r.(pins := Pin(r.pins, DYNAMIC, 1));
    var r2 := Register(r1, DynamicName(bitmap), va, DYNAMIC, bitmap, 1);
    PassCrPin(s0, s1, t, spare2, th, r, bitmap, va);
    PassLock(s0, s1, t, spare2, th, r1, Held(t), CrRegister(bitmap, va));
    PassCrRegister(s0, s1, t, spare2, th, r1, bitmap, va);
    PassUnlock(s0, s1, t, spare2, th, r2, Held(t), CrInstall(va));
    PassCrInstall(s0, s1, t, spare2, th, r2, va);
    var s2 := s1.(leaked := Leak(s1.leaked, th.vec), heads := s1.heads + [(DYNAMIC, va)]);
    PassExit(s0, s2, t, spare2, th.(vec := va), r2);
  }
}
