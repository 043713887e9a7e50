/** What a clone and an exit do when no other task runs meanwhile. */
module SoloClone {
  import opened Registry
  import opened Ledger
  import opened Protocol
  import opened Safety
  import opened Solo
  import Inheritance = Clone

  /** An exit that is not interrupted drops the task's reference by address and ends it. */
  lemma SoloExit(s: State, t: nat, spare: nat)
    requires t < |s.tasks| && s.tasks[t].pc == Idle && s.tasks[t].todo != [] && s.tasks[t].todo[0].Exit?
    requires s.inner == Free && spare != 0 && spare !in s.lists
    ensures var r := if s.tasks[t].vec == 0 then s.reg else Release(s.reg, ByAddr(s.tasks[t].vec)).0;
      Leads(s, With(s, t, Task(0, Gone, []), r, s.outer, Free))
  {
    var th := Task(s.tasks[t].vec, Idle, s.tasks[t].todo[1..]);
    var a := With(s, t, th.(pc := Lock(ExReduce)), s.reg, s.outer, Free);
    assert StepStart(s, t) == a;
    OneStepLeads(s, t, spare);
    PassLock(s, s, t, spare, th, s.reg, s.outer, ExReduce);
    var r := if th.vec == 0 then s.reg else Release(s.reg, ByAddr(th.vec)).0;
    var b := With(s, t, th.(pc := ExReduce), s.reg, s.outer, Held(t));
    var c := With(s, t, Task(0, Unlock(Gone), []), r, s.outer, Held(t));
    assert StepExit(b, t) == c;
    OneMoreLeads(s, t, spare, b, c);
    PassUnlock(s, s, t, spare, Task(0, Idle, []), r, s.outer, Gone);
  }

  /** The state with one task more. */
  function Plus(s: State, child: Task): State {
    s.(tasks := s.tasks + [child])
  }

  /** A clone that is not interrupted and does not fail gives the child the vector that Cloned says,
      with the reference that goes with it, and leaks nothing. */
  lemma SoloClone(s: State, t: nat, spare: nat)
    requires t < |s.tasks| && s.tasks[t].pc == Idle && s.tasks[t].todo != []
    requires s.tasks[t].todo[0].Clone? && !s.tasks[t].todo[0].fails
    requires s.inner == Free && spare != 0 && spare !in s.lists
    ensures var (th, op) := (s.tasks[t], s.tasks[t].todo[0]);
      var (r, v) := Inheritance.Cloned(s.reg, th.vec, op.share, op.id);
      Leads(s, With(Plus(s, Task(v, Idle, op.child)), t, Task(th.vec, Idle, th.todo[1..]), r, s.outer, Free))
  {
    if s.tasks[t].todo[0].share {
      SoloShare(s, t, spare);
    } else {
      SoloLookUp(s, t, spare);
    }
  }

  /** A clone that is not interrupted and fails makes no child; one that shares keeps the reference it took. */
  lemma SoloFailedClone(s: State, t: nat, spare: nat)
    requires t < |s.tasks| && s.tasks[t].pc == Idle && s.tasks[t].todo != []
    requires s.tasks[t].todo[0].Clone? && s.tasks[t].todo[0].fails
    requires s.inner == Free && spare != 0 && spare !in s.lists
    ensures var (th, op) := (s.tasks[t], s.tasks[t].todo[0]);
      var (r, a) := if op.share then Acquire(s.reg, ByAddr(th.vec)) else (s.reg, 0);
      Leads(s, With(s.(leaked := Leak(s.leaked, a)), t, Task(th.vec, Idle, th.todo[1..]), r, s.outer, Free))
  {
    var (op, th) := (s.tasks[t].todo[0], Task(s.tasks[t].vec, Idle, s.tasks[t].todo[1..]));
    OneStepLeads(s, t, spare);
    if op.share {
      var (r, a) := Acquire(s.reg, ByAddr(th.vec));
      assert StepStart(s, t) == With(s, t, th.(pc := Lock(ClRef(op))), s.reg, s.outer, Free);
      PassLock(s, s, t, spare, th, s.reg, s.outer, ClRef(op));
      PassClRef(s, s, t, spare, th, op);
      PassUnlock(s, s, t, spare, th, r, s.outer, ClCopy(op, a));
      PassClFails(s, s, t, spare, th, r, op, a);
    } else {
      assert StepStart(s, t) == With(s, t, th.(pc := ClCopy(op, 0)), s.reg, s.outer, Free);
      PassClFails(s, s, t, spare, th, s.reg, op, 0);
    }
  }

  lemma PassClFails(s0: State, s: State, t: nat, spare: nat, th: Task, r: Table, op: Op, va: nat)
    requires t < |s.tasks| && spare != 0 && spare !in s.lists && op.Clone? && op.fails
    requires Leads(s0, With(s, t, th.(pc := ClCopy(op, va)), r, s.outer, Free))
    ensures Leads(s0, With(s.(leaked := Leak(s.leaked, va)), t, th.(pc := Idle), r, s.outer, Free))
  {
    var a := With(s, t, th.(pc := ClCopy(op, va)), r, s.outer, Free);
    var b := With(s.(leaked := Leak(s.leaked, va)), t, th.(pc := Idle), r, s.outer, Free);
    assert StepClone(a, t) == b;
    OneMoreLeads(s0, t, spare, a, b);
  }

  lemma SoloShare(s: State, t: nat, spare: nat)
    requires t < |s.tasks| && s.tasks[t].pc == Idle && s.tasks[t].todo != []
    requires s.tasks[t].todo[0].Clone? && !s.tasks[t].todo[0].fails && s.tasks[t].todo[0].share
    requires s.inner == Free && spare != 0 && spare !in s.lists
    ensures var (th, op) := (s.tasks[t], s.tasks[t].todo[0]);
      Leads(s, With(Plus(s, Task(th.vec, Idle, op.child)), t, Task(th.vec, Idle, th.todo[1..]),
                    Acquire(s.reg, ByAddr(th.vec)).0, s.outer, Free))
  {
    var (op, th) := (s.tasks[t].todo[0], Task(s.tasks[t].vec, Idle, s.tasks[t].todo[1..]));
    var (r, a) := Acquire(s.reg, ByAddr(th.vec));
    assert StepStart(s, t) == With(s, t, th.(pc := Lock(ClRef(op))), s.reg, s.outer, Free);
    OneStepLeads(s, t, spare);
    PassLock(s, s, t, spare, th, s.reg, s.outer, ClRef(op));
    PassClRef(s, s, t, spare, th, op);
    PassUnlock(s, s, t, spare, th, r, s.outer, ClCopy(op, a));
    PassClCopy(s, s, t, spare, th, r, op, a, Idle, th.vec);
  }

  lemma PassClRef(s0: State, s: State, t: nat, spare: nat, th: Task, op: Op)
    requires t < |s.tasks| && spare != 0 && spare !in s.lists
    requires Leads(s0, With(s, t, th.(pc := ClRef(op)), s.reg, s.outer, Held(t)))
    ensures var (r, a) := Acquire(s.reg, ByAddr(th.vec));
      Leads(s0, With(s, t, th.(pc := Unlock(ClCopy(op, a))), r, s.outer, Held(t)))
  {
    var (r, va) := Acquire(s.reg, ByAddr(th.vec));
    var a := With(s, t, th.(pc := ClRef(op)), s.reg, s.outer, Held(t));
    var b := With(s, t, th.(pc := Unlock(ClCopy(op, va))), r, s.outer, Held(t));
    assert StepClone(a, t) == b;
    OneMoreLeads(s0, t, spare, a, b);
  }

  lemma PassClCopy(s0: State, s: State, t: nat, spare: nat, th: Task, r: Table, op: Op, va: nat, next: Pc, v: nat)
    requires t < |s.tasks| && spare != 0 && spare !in s.lists && op.Clone? && !op.fails
    requires if op.share then next == Idle && v == th.vec && (va == 0 || va == th.vec)
             else next == ClFind(|s.tasks|, op.id) && v == 0
    requires Leads(s0, With(s, t, th.(pc := ClCopy(op, va)), r, s.outer, Free))
    ensures Leads(s0, With(Plus(s, Task(v, Idle, op.child)), t, th.(pc := next), r, s.outer, Free))
  {
    var a := With(s, t, th.(pc := ClCopy(op, va)), r, s.outer, Free);
    var b := With(Plus(s, Task(v, Idle, op.child)), t, th.(pc := next), r, s.outer, Free);
    assert b.tasks == s.tasks[t := th.(pc := next)] + [Task(v, Idle, op.child)];
    assert StepClone(a, t) == b;
    OneMoreLeads(s0, t, spare, a, b);
  }

  lemma SoloLookUp(s: State, t: nat, spare: nat)
    requires t < |s.tasks| && s.tasks[t].pc == Idle && s.tasks[t].todo != []
    requires s.tasks[t].todo[0].Clone? && !s.tasks[t].todo[0].fails && !s.tasks[t].todo[0].share
    requires s.inner == Free && spare != 0 && spare !in s.lists
    ensures var (th, op) := (s.tasks[t], s.tasks[t].todo[0]);
      var (r, v) := Acquire(s.reg, ByBitmap(op.id));
      Leads(s, With(Plus(s, Task(v, Idle, op.child)), t, Task(th.vec, Idle, th.todo[1..]), r, s.outer, Free))
  {
    var (op, th, c) := (s.tasks[t].todo[0], Task(s.tasks[t].vec, Idle, s.tasks[t].todo[1..]), |s.tasks|);
    assert StepStart(s, t) == With(s, t, th.(pc := ClCopy(op, 0)), s.reg, s.outer, Free);
    OneStepLeads(s, t, spare);
    PassClCopy(s, s, t, spare, th, s.reg, op, 0, ClFind(c, op.id), 0);
    var s1 := Plus(s, Task(0, Idle, op.child));
    var a := With(s1, t, th.(pc := ClFind(c, op.id)), s.reg, s.outer, Free);
    var b := With(s1, t, th.(pc := Lock(ClGet(c, op.id))), s.reg, s.outer, Free);
    assert StepClone(a, t) == b;
    OneMoreLeads(s, t, spare, a, b);
    PassLock(s, s1, t, spare, th, s.reg, s.outer, ClGet(c, op.id));
    PassClGet(s, s1, t, spare, th, c, op.id);
    var (r, v) := Acquire(s.reg, ByBitmap(op.id));
    PassUnlock(s, s1, t, spare, th, r, s.outer, if v == 0 then Idle else ClStore(c, v));
    if v != 0 {
      PassClStore(s, s, t, spare, th, r, op.child, v);
    }
  }

  /** When pid_task does not find the child any more, nothing is looked up for it. */
  lemma SoloChildGone(s: State, t: nat, spare: nat)
    requires t < |s.tasks| && s.tasks[t].pc.ClFind? && s.tasks[t].pc.child < |s.tasks|
    requires s.tasks[s.tasks[t].pc.child].pc == Gone && spare != 0 && spare !in s.lists
    ensures Leads(s, With(s, t, s.tasks[t].(pc := Idle), s.reg, s.outer, s.inner))
  {
    OneStepLeads(s, t, spare);
    assert Step(s, t, spare) == With(s, t, s.tasks[t].(pc := Idle), s.reg, s.outer, s.inner);
  }

  lemma PassClGet(s0: State, s: State, t: nat, spare: nat, th: Task, c: nat, id: nat)
    requires t < |s.tasks| && spare != 0 && spare !in s.lists
    requires Leads(s0, With(s, t, th.(pc := ClGet(c, id)), s.reg, s.outer, Held(t)))
    ensures var (r, v) := Acquire(s.reg, ByBitmap(id));
      Leads(s0, With(s, t, th.(pc := Unlock(if v == 0 then Idle else ClStore(c, v))), r, s.outer, Held(t)))
  {
    var (r, v) := Acquire(s.reg, ByBitmap(id));
    var a := With(s, t, th.(pc := ClGet(c, id)), s.reg, s.outer, Held(t));
    var b := With(s, t, th.(pc := Unlock(if v == 0 then Idle else ClStore(c, v))), r, s.outer, Held(t));
    assert StepClone(a, t) == b;
    OneMoreLeads(s0, t, spare, a, b);
  }

  lemma PassClStore(s0: State, s: State, t: nat, spare: nat, th: Task, r: Table, todo: seq<Op>, v: nat)
    requires t < |s.tasks| && spare != 0 && spare !in s.lists
    requires Leads(s0, With(Plus(s, Task(0, Idle, todo)), t, th.(pc := ClStore(|s.tasks|, v)), r, s.outer, Free))
    ensures Leads(s0, With(Plus(s, Task(v, Idle, todo)), t, th.(pc := Idle), r, s.outer, Free))
  {
    var a := With(Plus(s, Task(0, Idle, todo)), t, th.(pc := ClStore(|s.tasks|, v)), r, s.outer, Free);
    var b := With(Plus(s, Task(v, Idle, todo)), t, th.(pc := Idle), r, s.outer, Free);
    assert StepClone(a, t).tasks == b.tasks;
    assert StepClone(a, t) == b;
    OneMoreLeads(s0, t, spare, a, b);
  }

  /** In every reachable state only NULL lists share an address, and what a task uses is registered. */
  lemma ReachableIsRegistered(s: State, t: nat)
    requires Reachable(s) && t < |s.tasks| && (s.tasks[t].vec == 0 || Uses(s, t, s.tasks[t].vec))
    ensures Inheritance.OnePerAddress(s.reg.entries) && Inheritance.Registered(s.reg.entries, s.tasks[t].vec)
  {
    var es := s.reg.entries;
    forall i, j | 0 <= i < j < |es| && es[i].addr == es[j].addr ensures es[i].addr == 0 {
      if es[i].addr != 0 {
        NoListLost(s, es[i].addr);
      }
    }
    if s.tasks[t].vec != 0 {
      NoDanglingVector(s, t, s.tasks[t].vec);
    }
  }

  /** So from every reachable state, over any tree of uninterrupted clones, every task has the vector it
      should, and the refcount of each vector goes up by the number of new tasks that hold it. */
  lemma GrowFromReachable(s: State, t: nat, ts: seq<Inheritance.Tree>)
    requires Reachable(s) && t < |s.tasks| && (s.tasks[t].vec == 0 || Uses(s, t, s.tasks[t].vec))
    ensures var (r1, vs) := Inheritance.Grow(s.reg, s.tasks[t].vec, ts);
      && vs == Inheritance.Inherited(s.reg.entries, s.tasks[t].vec, ts)
      && Inheritance.RaisedBy(s.reg, r1, vs)
  {
    ReachableIsRegistered(s, t);
    Inheritance.GrowExact(s.reg, s.tasks[t].vec, ts);
  }
}
