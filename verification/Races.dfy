/** The runs that go wrong: each breaks the discipline once, and a task ends up pointing to a freed
    list; and the bitmaps for which a vector is registered again and again. */
module Races {
  import opened Registry
  import opened Text
  import opened Bitmap
  import opened Ledger
  import opened Protocol
  import opened Invariant
  import opened Safety
  import opened Solo
  import opened Unload
  import opened Uniqueness

  /** Some interleaving lets a task point to a list that is freed. */
  ghost predicate CanDangle(s: State) {
    exists s1, t: nat :: Leads(s, s1) && t < |s1.tasks| && s1.tasks[t].vec != 0 && s1.tasks[t].vec !in s1.lists
  }

  // ---- Loading and unloading a module with one vector

  lemma SoloLoad(s: State, t: nat, a: nat, b: nat)
    requires t < |s.tasks| && s.tasks[t].pc == Idle && s.tasks[t].todo != [] && s.tasks[t].todo[0].Load?
    requires s.inner == Free && s.tasks[t].todo[0].mod !in s.loaded
    requires a != 0 && a !in s.lists && b != 0 && b !in s.lists && a != b
    ensures var (th, op) := (s.tasks[t], s.tasks[t].todo[0]);
      var r := Register(s.reg, op.name, a, op.mod, op.bitmap, 0);
      Leads(s, With(s.(heads := s.heads + [(op.mod, a)], lists := s.lists + {a}, loaded := s.loaded + {op.mod}),
                    t, Task(th.vec, Idle, th.todo[1..]), r.(pins := r.pins[op.mod := 0]), s.outer, Free))
  {
    var (op, th) := (s.tasks[t].todo[0], Task(s.tasks[t].vec, Idle, s.tasks[t].todo[1..]));
    var (m, n, c) := (op.mod, op.name, op.bitmap);
    var s1 := With(s, t, th.(pc := LdBuild(m, n, c)), s.reg, s.outer, Free);
    assert StepStart(s, t) == s1;
    OneStepLeads(s, t, a);
    var s2 := s.(lists := s.lists + {a}, loaded := s.loaded + {m});
    var s3 := With(s2, t, th.(pc := Lock(LdRegister(m, n, c, a))), s.reg, s.outer, Free);
    assert StepLoad(s1, t, a) == s3;
    OneMoreLeads(s, t, a, s1, s3);
    PassLock(s, s2, t, b, th, s.reg, s.outer, LdRegister(m, n, c, a));
    PassLdRegister(s, s2, t, b, th, s.reg, s.outer, m, n, c, a);
    var r := Register(s.reg, n, a, m, c, 0);
    PassUnlock(s, s2.(heads := s.heads + [(m, a)]), t, b, th, r.(pins := r.pins[m := 0]), s.outer, Idle);
  }

  lemma PassLdRegister(s0: State, s: State, t: nat, spare: nat, th: Task, r: Table, o: Owner,
                       m: nat, n: string, c: nat, a: nat)
    requires t < |s.tasks| && spare != 0 && spare !in s.lists
    requires Leads(s0, With(s, t, th.(pc := LdRegister(m, n, c, a)), r, o, Held(t)))
    ensures var r1 := Register(r, n, a, m, c, 0);
      Leads(s0, With(s.(heads := s.heads + [(m, a)]), t, th.(pc := Unlock(Idle)), r1.(pins := r1.pins[m := 0]), o,
          Held(t)))
  {
    var r1 := Register(r, n, a, m, c, 0);
    var x := With(s, t, th.(pc := LdRegister(m, n, c, a)), r, o, Held(t));
    var y := With(s.(heads := s.heads + [(m, a)]), t, th.(pc := Unlock(Idle)), r1.(pins := r1.pins[m := 0]), o,
        Held(t));
    assert StepLoad(x, t, spare) == y;
    OneMoreLeads(s0, t, spare, x, y);
  }

  /** The cleanup loop over one list: it is freed whatever unregister_syscall says. */
  lemma SoloCleanup(s: State, t: nat, spare: nat, a: nat)
    requires t < |s.tasks| && s.tasks[t].pc == UnLoop([a]) && s.inner == Free && spare != 0 && spare !in s.lists
    ensures Leads(s, With(s.(lists := s.lists - {a}), t, s.tasks[t].(pc := Idle), Unregister(s.reg, a).0, s.outer,
        Free))
  {
    assert Feasible(s, []) && Exec(s, []) == s;
    assert s == With(s, t, s.tasks[t].(pc := UnLoop([a])), s.reg, s.outer, Free);
    PassCleanup(s, s, t, spare, s.tasks[t], s.reg, s.outer, [a]);
    assert [a][1..] == [] && Sweeping.Swept(s.reg, [a]) == Unregister(s.reg, a).0;
    assert ListsAfter(s.lists, [a]) == s.lists - {a};
  }

  // ---- A REMOVE of a vector that another task holds

  function Before(tasks: seq<Task>): State {
    State(Table([], map[DYNAMIC := 0]), [], {DYNAMIC}, {}, tasks, Free, Free, multiset{})
  }

  function VectorA(refcount: int): Entry {
    Entry("A", 1, 7, refcount, 1, 5)
  }

  /** Module 5 has registered vector "A" at address 7. */
  function Loaded(refcount: int, tasks: seq<Task>): State {
    State(Table([VectorA(refcount)], map[DYNAMIC := 0, 5 := refcount]), [(5, 7)], {DYNAMIC, 5}, {7}, tasks, Free, Free,
        multiset{})
  }

  /** The module is loaded. */
  lemma LoadA(s: State, t: nat, rest: seq<Op>)
    requires s == Before(s.tasks) && t < |s.tasks| && s.tasks[t] == Task(0, Idle, [Load(5, "A", 1)] + rest)
    ensures Leads(s, Loaded(0, s.tasks[t := Task(0, Idle, rest)]))
  {
    SoloLoad(s, t, 7, 8);
    assert ([Load(5, "A", 1)] + rest)[1..] == rest;
    assert s.heads + [(5, 7)] == [(5, 7)] && s.lists + {7} == {7};
    assert [VectorA(0)] + s.reg.entries == [VectorA(0)];
    assert s.reg.pins[5 := 0] == map[DYNAMIC := 0, 5 := 0];
  }

  /** A task takes the vector, by itself. */
  lemma SetA(s: State, t: nat)
    requires s.outer == Free && s.inner == Free && DYNAMIC in s.reg.pins && s.lists == {7} && s.leaked == multiset{}
    requires s.reg.entries == [VectorA(0)] && t < |s.tasks| && s.tasks[t] == Task(0, Idle, [Set("A")])
    ensures Leads(s, s.(reg := Table([VectorA(1)], Pin(s.reg.pins, 5, 1)), tasks := s.tasks[t := Task(7, Idle, [])]))
  {
    SoloSet(s, t, 8);
    assert [Set("A")][1..] == [];
    assert Find(s.reg.entries, ByName("A")) == 0;
    assert s.reg.entries[0 := VectorA(1)] == [VectorA(1)];
  }

  /** A task that does not hold the vector removes it by name. */
  lemma RemoveA(s: State, t: nat, rest: seq<Op>)
    requires s == Loaded(1, s.tasks) && t < |s.tasks| && s.tasks[t] == Task(0, Idle, [Remove("A")] + rest)
    ensures Leads(s, Loaded(0, s.tasks[t := Task(0, Idle, rest)]))
  {
    SoloRemove(s, t, 8);
    assert ([Remove("A")] + rest)[1..] == rest;
    assert Find(s.reg.entries, ByName("A")) == 0;
    assert s.reg.entries[0 := VectorA(0)] == [VectorA(0)];
    assert Pin(s.reg.pins, 5, -1) == map[DYNAMIC := 0, 5 := 0];
  }

  /** The module goes away and its list is freed. */
  lemma UnloadA(s: State, t: nat) returns (s1: State)
    requires s == Loaded(0, s.tasks) && t < |s.tasks| && s.tasks[t] == Task(0, Idle, [Unload(5)])
    ensures Leads(s, s1) && s1.lists == {} && |s1.tasks| == |s.tasks|
    ensures forall u | 0 <= u < |s.tasks| && u != t :: s1.tasks[u] == s.tasks[u]
  {
    var s2 := BeginA(s, t, []);
    assert s2.tasks[t] == Task(0, UnLoop([7]), []);
    SoloCleanup(s2, t, 8, 7);
    s1 := With(s2.(lists := s2.lists - {7}), t, s2.tasks[t].(pc := Idle), Unregister(s2.reg, 7).0, Free, Free);
    BothLead(s, s2, s1);
  }

  /** The unload is under way: the pin count was zero. */
  lemma BeginA(s: State, t: nat, rest: seq<Op>) returns (s1: State)
    requires s == Loaded(0, s.tasks) && t < |s.tasks| && s.tasks[t] == Task(0, Idle, [Unload(5)] + rest)
    ensures s1 == s.(reg := Table([VectorA(0)], map[DYNAMIC := 0]), heads := [],
        tasks := s.tasks[t := Task(0, UnLoop([7]), rest)])
    ensures Leads(s, s1)
  {
    s1 := s.(reg := Table([VectorA(0)], map[DYNAMIC := 0]), heads := [],
        tasks := s.tasks[t := Task(0, UnLoop([7]), rest)]);
    SoloBegin(s, t, 8);
    assert ([Unload(5)] + rest)[1..] == rest;
    assert HeadsOf(s.heads, 5) == [7] && HeadsOfOthers(s.heads, 5) == [];
    assert s.reg.pins - {5} == map[DYNAMIC := 0];
  }

  /** From a registered vector that the first task wants and the second removes. */
  lemma StrayRemoveTail(s: State) returns (s1: State)
    requires s == Loaded(0, [Task(0, Idle, [Set("A")]), Task(0, Idle, [Remove("A")] + [Unload(5)])])
    ensures Leads(s, s1) && s1.lists == {} && |s1.tasks| == 2 && s1.tasks[0].vec == 7
  {
    SetA(s, 0);
    var s2 := Loaded(1, s.tasks[0 := Task(7, Idle, [])]);
    assert s2.reg.pins == Pin(s.reg.pins, 5, 1);
    RemoveA(s2, 1, [Unload(5)]);
    var s3 := Loaded(0, s2.tasks[1 := Task(0, Idle, [Unload(5)])]);
    BothLead(s, s2, s3);
    s1 := UnloadA(s3, 1);
    BothLead(s, s3, s1);
  }

  /** The first task loads the module and holds its vector; the second removes the vector by name
      without holding it, and unloads the module. */
  lemma StrayRemove() returns (s: State)
    ensures Initial(s) && CanDangle(s)
  {
    var (first, second) := ([Load(5, "A", 1)] + [Set("A")], [Remove("A")] + [Unload(5)]);
    s := Before([Task(0, Idle, first), Task(0, Idle, second)]);
    assert OpsOk(first) && OpsOk(second);
    LoadA(s, 0, [Set("A")]);
    var s1 := Loaded(0, [Task(0, Idle, [Set("A")]), Task(0, Idle, second)]);
    assert s.tasks[0 := Task(0, Idle, [Set("A")])] == s1.tasks;
    var s2 := StrayRemoveTail(s1);
    BothLead(s, s1, s2);
  }

  // ---- Cleanup that frees a list whose vector is in use again

  lemma ForcedFreeTail(s: State) returns (s1: State)
    requires s == Loaded(0, [Task(0, Idle, [Unload(5)] + []), Task(0, Idle, [Set("A")])])
    ensures Leads(s, s1) && s1.lists == {} && |s1.tasks| == 2 && s1.tasks[1].vec == 7
  {
    var s2 := BeginA(s, 0, []);
    SetA(s2, 1);
    var s3 := s2.(reg := Table([VectorA(1)], Pin(s2.reg.pins, 5, 1)), tasks := s2.tasks[1 := Task(7, Idle, [])]);
    BothLead(s, s2, s3);
    SoloCleanup(s3, 0, 8, 7);
    s1 := With(s3.(lists := s3.lists - {7}), 0, s3.tasks[0].(pc := Idle), Unregister(s3.reg, 7).0, Free, Free);
    BothLead(s, s3, s1);
  }

  /** Between the pin check of an unload and the cleanup, another task takes the vector; cleanup is
      told that it is in use and frees the list all the same. */
  lemma ForcedFree() returns (s: State)
    ensures Initial(s) && CanDangle(s)
  {
    var (first, second) := ([Load(5, "A", 1)] + ([Unload(5)] + []), [Set("A")]);
    s := Before([Task(0, Idle, first), Task(0, Idle, second)]);
    assert OpsOk(first) && OpsOk(second);
    LoadA(s, 0, [Unload(5)] + []);
    var s1 := Loaded(0, [Task(0, Idle, [Unload(5)] + []), Task(0, Idle, second)]);
    assert s.tasks[0 := Task(0, Idle, [Unload(5)] + [])] == s1.tasks;
    var s2 := ForcedFreeTail(s1);
    BothLead(s, s1, s2);
  }

  // ---- Runs that cannot break the discipline

  /** Calls that nothing is asked of. */
  predicate TameOp(op: Op) {
    op.Set? || op.Create? || op.Load? || op.Exit?
  }

  predicate TameTask(th: Task) {
    && (forall i | 0 <= i < |th.todo| :: TameOp(th.todo[i]))
    && var p := At(th.pc);
       && !p.RemReduce? && !p.RemClear? && !p.ClRef? && !p.ClCopy? && !p.ClFind? && !p.ClGet? && !p.ClStore?
       && !p.UnBegin? && !p.UnLoop? && !p.UnRemove? && !p.UnFree? && !p.Lock? && !p.Unlock?
       && (p.EnterIoctl? ==> TameOp(p.op))
  }

  predicate Tame(s: State) {
    forall t | 0 <= t < |s.tasks| :: TameTask(s.tasks[t])
  }

  lemma TameLocks(s: State, t: nat)
    requires t < |s.tasks| && TameTask(s.tasks[t])
    ensures s.tasks[t].pc.Idle? && s.tasks[t].todo != [] ==> TameTask(StepStart(s, t).tasks[t])
    ensures TameTask(StepLock(s, t).tasks[t])
    ensures TameTask(StepIoctl(s, t).tasks[t])
  {
    if s.tasks[t].pc.Idle? && s.tasks[t].todo != [] {
      assert TameOp(s.tasks[t].todo[0]);
    }
  }

  lemma TameSet(s: State, t: nat)
    requires t < |s.tasks| && TameTask(s.tasks[t])
    ensures TameTask(StepSet(s, t).tasks[t])
  {
  }

  lemma TameCreate(s: State, t: nat, spare: nat)
    requires t < |s.tasks| && TameTask(s.tasks[t])
    ensures TameTask(StepCreate(s, t, spare).tasks[t])
  {
  }

  lemma TameRest(s: State, t: nat, spare: nat)
    requires t < |s.tasks| && TameTask(s.tasks[t])
    ensures TameTask(StepLoad(s, t, spare).tasks[t]) && TameTask(StepExit(s, t).tasks[t])
  {
  }

  lemma TameMoves(s: State, t: nat, spare: nat)
    requires Enabled(s, t, spare) && TameTask(s.tasks[t])
    ensures var s1 := Step(s, t, spare); s1.tasks == s.tasks[t := s1.tasks[t]]
  {
  }

  lemma TameStep(s: State, t: nat, spare: nat)
    requires Tame(s) && Enabled(s, t, spare)
    ensures Disciplined(s, t) && Tame(Step(s, t, spare))
  {
    var s1 := Step(s, t, spare);
    TameMoves(s, t, spare);
    assert TameTask(s1.tasks[t]) by {
      TameLocks(s, t);
      TameSet(s, t);
      TameCreate(s, t, spare);
      TameRest(s, t, spare);
    }
  }

  lemma {:induction false} TameLegal(s: State, sched: seq<Pick>)
    requires Tame(s) && Feasible(s, sched)
    ensures Legal(s, sched)
    decreases sched
  {
    if sched != [] {
      TameStep(s, sched[0].t, sched[0].spare);
      TameLegal(Step(s, sched[0].t, sched[0].spare), sched[1..]);
    }
  }

  // ---- A SET that replaces a vector

  const SET_TWICE: seq<Op> := [Set("A"), Set("A")]

  lemma LoadThenSet(s: State) returns (s1: State)
    requires s == Before([Task(0, Idle, [Load(5, "A", 1)] + SET_TWICE)])
    ensures s1 == Loaded(0, [Task(0, Idle, SET_TWICE)]) && Leads(s, s1)
  {
    LoadA(s, 0, SET_TWICE);
    s1 := Loaded(0, [Task(0, Idle, SET_TWICE)]);
    assert s.tasks[0 := Task(0, Idle, SET_TWICE)] == s1.tasks;
  }

  lemma SetTwice(s: State) returns (s1: State)
    requires s == Loaded(0, [Task(0, Idle, SET_TWICE)])
    ensures s1 == Loaded(2, [Task(7, Idle, [])]).(leaked := multiset{7}) && Leads(s, s1)
  {
    var b := FirstSet(s);
    s1 := SecondSet(b);
    BothLead(s, b, s1);
  }

  /** A task that holds vector A sets it again: one holder, two references, and one of them is leaked. */
  lemma ReplaceLeaks() returns (s1: State)
    ensures Reachable(s1) && |s1.tasks| == 1 && s1.tasks[0] == Task(7, Idle, [])
    ensures s1.reg.entries == [VectorA(2)] && s1.leaked[7] == 1
  {
    var s := Before([Task(0, Idle, [Load(5, "A", 1)] + SET_TWICE)]);
    var a := LoadThenSet(s);
    s1 := SetTwice(a);
    BothLead(s, a, s1);
    assert Initial(s) && Tame(s);
    TameReaches(s, s1);
  }

  lemma TameReaches(s: State, s1: State)
    requires Initial(s) && Tame(s) && Leads(s, s1)
    ensures Reachable(s1)
  {
    var sched :| Feasible(s, sched) && Exec(s, sched) == s1;
    TameLegal(s, sched);
  }

  lemma FirstSet(s: State) returns (s1: State)
    requires s == Loaded(0, [Task(0, Idle, [Set("A"), Set("A")])])
    ensures s1 == Loaded(1, [Task(7, Idle, [Set("A")])]) && Leads(s, s1)
  {
    SoloSet(s, 0, 8);
    s1 := Loaded(1, [Task(7, Idle, [Set("A")])]);
    assert [Set("A"), Set("A")][1..] == [Set("A")];
    assert Find(s.reg.entries, ByName("A")) == 0;
    assert s.reg.entries[0 := VectorA(1)] == [VectorA(1)];
    assert s.reg.pins[5 := 1] == s1.reg.pins;
  }

  lemma SecondSet(s: State) returns (s1: State)
    requires s == Loaded(1, [Task(7, Idle, [Set("A")])])
    ensures s1 == Loaded(2, [Task(7, Idle, [])]).(leaked := multiset{7}) && Leads(s, s1)
  {
    SoloSet(s, 0, 8);
    s1 := Loaded(2, [Task(7, Idle, [])]).(leaked := multiset{7});
    assert [Set("A")][1..] == [];
    assert Find(s.reg.entries, ByName("A")) == 0;
    var r := Bump(s.reg, 0, 1);
    assert r.entries == [VectorA(2)] && r.pins == s1.reg.pins;
    ReplaceDropsNothing(r, 7);
    assert NameOk("A");
  }

  // ---- A fork whose two reads of the parent's pointer differ

  const SHARE: Op := Clone(true, 0, false, [])
  const SPAWN: Op := Clone(false, 1, false, [SHARE, Exit])

  const PARENT: Task := Task(0, Idle, [Unload(5)])
  const CHILD: Task := Task(0, Idle, [Exit])

  /** The parent forks. */
  lemma ForkA(s: State) returns (s1: State)
    requires s == Loaded(0, [Task(0, Idle, [SPAWN, Unload(5)])])
    ensures Leads(s, s1)
    ensures s1 == Loaded(0, [PARENT.(pc := Lock(ClGet(1, 1))), CHILD.(todo := [SHARE, Exit])])
  {
    var child := CHILD.(todo := [SHARE, Exit]);
    assert [SPAWN, Unload(5)][1..] == [Unload(5)];
    var a := s.(tasks := [PARENT.(pc := ClCopy(SPAWN, 0))]);
    assert StepStart(s, 0) == a;
    OneStepLeads(s, 0, 8);
    var b := s.(tasks := [PARENT.(pc := ClFind(1, 1)), child]);
    assert StepClone(a, 0) == b;
    OneMoreLeads(s, 0, 8, a, b);
    s1 := s.(tasks := [PARENT.(pc := Lock(ClGet(1, 1))), child]);
    assert StepClone(b, 0) == s1;
    OneMoreLeads(s, 0, 8, b, s1);
  }

  /** It looks the child's vector up by its bitmap. */
  lemma LookUpA(s: State, child: Task) returns (s1: State)
    requires s == Loaded(0, [PARENT.(pc := Lock(ClGet(1, 1))), child])
    ensures Leads(s, s1) && s1 == Loaded(1, [PARENT.(pc := ClStore(1, 7)), child])
  {
    var a := s.(tasks := [PARENT.(pc := ClGet(1, 1)), child], inner := Held(0));
    assert StepLock(s, 0) == a;
    OneStepLeads(s, 0, 8);
    var b := Loaded(1, [PARENT.(pc := Unlock(ClStore(1, 7))), child]).(inner := Held(0));
    assert StepClone(a, 0) == b by {
      assert Find(a.reg.entries, ByBitmap(1)) == 0;
      assert a.reg.entries[0 := VectorA(1)] == [VectorA(1)];
    }
    OneMoreLeads(s, 0, 8, a, b);
    s1 := Loaded(1, [PARENT.(pc := ClStore(1, 7)), child]);
    assert StepLock(b, 0) == s1;
    OneMoreLeads(s, 0, 8, b, s1);
  }

  /** Meanwhile the child forks too. */
  lemma ChildForks(s: State) returns (s1: State)
    requires s == Loaded(1, [PARENT.(pc := ClStore(1, 7)), CHILD.(todo := [SHARE, Exit])])
    ensures Leads(s, s1) && s1
        == Loaded(1, [PARENT.(pc := ClStore(1, 7)), CHILD.(pc := ClRef(SHARE))]).(inner := Held(1))
  {
    var p := PARENT.(pc := ClStore(1, 7));
    assert [SHARE, Exit][1..] == [Exit];
    var a := s.(tasks := [p, CHILD.(pc := Lock(ClRef(SHARE)))]);
    assert StepStart(s, 1) == a;
    OneStepLeads(s, 1, 8);
    s1 := s.(tasks := [p, CHILD.(pc := ClRef(SHARE))], inner := Held(1));
    assert StepLock(a, 1) == s1;
    OneMoreLeads(s, 1, 8, a, s1);
  }

  /** It has no vector yet, so it takes no reference. */
  lemma ChildRefs(s: State) returns (s1: State)
    requires s == Loaded(1, [PARENT.(pc := ClStore(1, 7)), CHILD.(pc := ClRef(SHARE))]).(inner := Held(1))
    ensures Leads(s, s1) && s1 == Loaded(1, [PARENT.(pc := ClStore(1, 7)), CHILD.(pc := ClCopy(SHARE, 0))])
  {
    var p := PARENT.(pc := ClStore(1, 7));
    var c := s.(tasks := [p, CHILD.(pc := Unlock(ClCopy(SHARE, 0)))]);
    assert StepClone(s, 1) == c by {
      assert Find(s.reg.entries, ByAddr(0)) == 1;
    }
    OneStepLeads(s, 1, 8);
    s1 := s.(tasks := [p, CHILD.(pc := ClCopy(SHARE, 0))], inner := Free);
    assert StepLock(c, 1) == s1;
    OneMoreLeads(s, 1, 8, c, s1);
  }

  /** The parent stores the vector between the child's two reads. */
  lemma StoreBetween(s: State) returns (s1: State)
    requires s == Loaded(1, [PARENT.(pc := ClStore(1, 7)), CHILD.(pc := ClCopy(SHARE, 0))])
    ensures Leads(s, s1) && s1 == Loaded(1, [PARENT, CHILD.(vec := 7), Task(7, Idle, [])])
  {
    var a := s.(tasks := [PARENT, CHILD.(vec := 7, pc := ClCopy(SHARE, 0))]);
    assert StepClone(s, 0) == a;
    OneStepLeads(s, 0, 8);
    s1 := s.(tasks := [PARENT, CHILD.(vec := 7), Task(7, Idle, [])]);
    assert StepClone(a, 1) == s1;
    OneMoreLeads(s, 1, 8, a, s1);
  }

  /** The child exits and drops the only reference. */
  lemma ChildExits(s: State, last: Task) returns (s1: State)
    requires s == Loaded(1, [PARENT, CHILD.(vec := 7), last])
    ensures Leads(s, s1) && s1 == Loaded(0, [PARENT, Task(0, Gone, []), last])
  {
    var b := ChildLocks(s, last);
    var c := Loaded(0, [PARENT, Task(0, Unlock(Gone), []), last]).(inner := Held(1));
    assert StepExit(b, 1) == c by {
      assert Find(b.reg.entries, ByAddr(7)) == 0;
      assert b.reg.entries[0 := VectorA(0)] == [VectorA(0)];
    }
    OneMoreLeads(s, 1, 8, b, c);
    s1 := Loaded(0, [PARENT, Task(0, Gone, []), last]);
    assert StepLock(c, 1) == s1;
    OneMoreLeads(s, 1, 8, c, s1);
  }

  lemma ChildLocks(s: State, last: Task) returns (s1: State)
    requires s == Loaded(1, [PARENT, CHILD.(vec := 7), last])
    ensures Leads(s, s1) && s1 == s.(tasks := [PARENT, Task(7, ExReduce, []), last], inner := Held(1))
  {
    assert [Exit][1..] == [];
    var a := s.(tasks := [PARENT, Task(7, Lock(ExReduce), []), last]);
    assert StepStart(s, 1) == a;
    OneStepLeads(s, 1, 8);
    s1 := s.(tasks := [PARENT, Task(7, ExReduce, []), last], inner := Held(1));
    assert StepLock(a, 1) == s1;
    OneMoreLeads(s, 1, 8, a, s1);
  }

  lemma TornOpsOk(ops: seq<Op>)
    requires ops == [Load(5, "A", 1)] + [SPAWN, Unload(5)]
    ensures OpsOk(ops)
  {
    assert NameOk("A");
    forall i | 0 <= i < |SPAWN.child| ensures OpOk(SPAWN.child[i]) {
      assert SPAWN.child[i] == SHARE || SPAWN.child[i] == Exit;
    }
    assert OpOk(SPAWN);
    forall i | 0 <= i < |ops| ensures OpOk(ops[i]) {
      assert ops[i] == Load(5, "A", 1) || ops[i] == SPAWN || ops[i] == Unload(5);
    }
  }

  /** A task forks a child that is to get a vector; before the vector is stored, the child itself
      forks with sharing. Its own child ends up with a pointer nobody has counted. */
  lemma TornFork() returns (s: State)
    ensures Initial(s) && CanDangle(s)
  {
    var ops := [Load(5, "A", 1)] + [SPAWN, Unload(5)];
    s := Before([Task(0, Idle, ops)]);
    TornOpsOk(ops);
    LoadA(s, 0, [SPAWN, Unload(5)]);
    var s1 := Loaded(0, [Task(0, Idle, [SPAWN, Unload(5)])]);
    assert s.tasks[0 := Task(0, Idle, [SPAWN, Unload(5)])] == s1.tasks;
    var s2 := TornForkHead(s1);
    BothLead(s, s1, s2);
    var s3 := TornForkMiddle(s2);
    BothLead(s, s2, s3);
    var s4 := TornForkTail(s3);
    BothLead(s, s3, s4);
  }

  lemma TornForkHead(s: State) returns (s1: State)
    requires s == Loaded(0, [Task(0, Idle, [SPAWN, Unload(5)])])
    ensures Leads(s, s1) && s1 == Loaded(1, [PARENT.(pc := ClStore(1, 7)), CHILD.(todo := [SHARE, Exit])])
  {
    var a := ForkA(s);
    s1 := LookUpA(a, CHILD.(todo := [SHARE, Exit]));
    BothLead(s, a, s1);
  }

  lemma TornForkMiddle(s: State) returns (s1: State)
    requires s == Loaded(1, [PARENT.(pc := ClStore(1, 7)), CHILD.(todo := [SHARE, Exit])])
    ensures Leads(s, s1) && s1 == Loaded(1, [PARENT, CHILD.(vec := 7), Task(7, Idle, [])])
  {
    var a := ChildForks(s);
    var b := ChildRefs(a);
    BothLead(s, a, b);
    s1 := StoreBetween(b);
    BothLead(s, b, s1);
  }

  lemma TornForkTail(s: State) returns (s1: State)
    requires s == Loaded(1, [PARENT, CHILD.(vec := 7), Task(7, Idle, [])])
    ensures Leads(s, s1) && s1.lists == {} && |s1.tasks| == 3 && s1.tasks[2].vec == 7
  {
    var a := ChildExits(s, Task(7, Idle, []));
    s1 := UnloadA(a, 0);
    BothLead(s, a, s1);
  }

  // ---- Bitmaps with nothing to build

  /** The vectors of the dynamic module that have this bitmap. */
  function DynamicOf(es: seq<Entry>, bitmap: nat): seq<Entry> {
    if es == [] then []
    else (if es[0].owner == DYNAMIC && es[0].bitmap == bitmap then [es[0]] else []) + DynamicOf(es[1..], bitmap)
  }

  lemma {:induction false} AtMostOne(es: seq<Entry>, bitmap: nat)
    requires OnePerBitmap(es) && Buildable(bitmap)
    ensures |DynamicOf(es, bitmap)| <= 1
    ensures NoDynamic(es, bitmap) ==> DynamicOf(es, bitmap) == []
  {
    if es != [] {
      AtMostOne(es[1..], bitmap);
      if es[0].owner == DYNAMIC && es[0].bitmap == bitmap {
        assert NoDynamic(es[1..], bitmap);
      }
    }
  }

  /** A vector with a NULL list. */
  function NullVector(bitmap: nat, refcount: int): Entry {
    Entry(DynamicName(bitmap), bitmap, 0, refcount, bitmap, DYNAMIC)
  }

  function NullState(bitmap: nat, es: seq<Entry>, pins: int, n: nat, todo: seq<Op>): State {
    Before([Task(0, Idle, todo)]).(reg := Table(es, map[DYNAMIC := pins]), heads := seq(n, _ => (DYNAMIC, 0)))
  }

  lemma FirstCreate(bitmap: nat)
    requires Accepted(bitmap) && !Buildable(bitmap)
    ensures Leads(NullState(bitmap, [], 0, 0, [Create(bitmap), Create(bitmap)]),
                  NullState(bitmap, [NullVector(bitmap, 1)], 1, 1, [Create(bitmap)]))
  {
    var s := NullState(bitmap, [], 0, 0, [Create(bitmap), Create(bitmap)]);
    SoloCreate(s, 0, 7, 8);
    assert [Create(bitmap), Create(bitmap)][1..] == [Create(bitmap)];
    assert [NullVector(bitmap, 1)] + [] == [NullVector(bitmap, 1)];
    assert s.heads + [(DYNAMIC, 0)] == NullState(bitmap, [], 0, 1, []).heads;
  }

  lemma SecondCreate(bitmap: nat)
    requires Accepted(bitmap) && !Buildable(bitmap)
    ensures Leads(NullState(bitmap, [NullVector(bitmap, 1)], 1, 1, [Create(bitmap)]),
                  NullState(bitmap, [NullVector(bitmap, 1)] + [NullVector(bitmap, 2)], 3, 2, []))
  {
    var s := NullState(bitmap, [NullVector(bitmap, 1)], 1, 1, [Create(bitmap)]);
    SoloCreate(s, 0, 7, 8);
    assert [Create(bitmap)][1..] == [];
    assert Find(s.reg.entries, ByBitmap(bitmap)) == 0;
    assert s.reg.entries[0 := NullVector(bitmap, 2)] == [NullVector(bitmap, 2)];
    assert s.heads + [(DYNAMIC, 0)] == NullState(bitmap, [], 0, 2, []).heads;
  }

  /** Two CREATEs by one task, one after the other. */
  lemma CreateTwice(bitmap: nat) returns (s1: State)
    requires Accepted(bitmap) && !Buildable(bitmap)
    ensures Reachable(s1) && |DynamicOf(s1.reg.entries, bitmap)| == 2
  {
    var s := NullState(bitmap, [], 0, 0, [Create(bitmap), Create(bitmap)]);
    s1 := NullState(bitmap, [NullVector(bitmap, 1)] + [NullVector(bitmap, 2)], 3, 2, []);
    FirstCreate(bitmap);
    SecondCreate(bitmap);
    BothLead(s, NullState(bitmap, [NullVector(bitmap, 1)], 1, 1, [Create(bitmap)]), s1);
    TameReaches(s, s1);
    TwoNullVectors(bitmap);
  }

  lemma TwoNullVectors(bitmap: nat)
    ensures |DynamicOf([NullVector(bitmap, 1)] + [NullVector(bitmap, 2)], bitmap)| == 2
  {
    assert ([NullVector(bitmap, 1)] + [NullVector(bitmap, 2)])[1..] == [NullVector(bitmap, 2)];
    assert [NullVector(bitmap, 2)][1..] == [];
    assert DynamicOf([NullVector(bitmap, 2)], bitmap) == [NullVector(bitmap, 2)];
  }

  /** Once per bitmap, exactly: in every run at most one dynamic vector has a given accepted bitmap if and
      only if the bitmap sets a flag that the builder looks at; and without one, disciplined runs fail too. */
  lemma OncePerBitmapExact(bitmap: nat)
    requires Accepted(bitmap)
    ensures (forall s | Attainable(s) :: |DynamicOf(s.reg.entries, bitmap)| <= 1) <==> Buildable(bitmap)
    ensures (forall s | Reachable(s) :: |DynamicOf(s.reg.entries, bitmap)| <= 1) <==> Buildable(bitmap)
  {
    forall s | Reachable(s) ensures Attainable(s) {
      ReachableIsAttainable(s);
    }
    if Buildable(bitmap) {
      forall s | Attainable(s) ensures |DynamicOf(s.reg.entries, bitmap)| <= 1 {
        AttainableUnique(s);
        AtMostOne(s.reg.entries, bitmap);
      }
    } else {
      var s1 := CreateTwice(bitmap);
    }
  }
}
