/** Where the leaked references come from: the exact ledger over a whole run. */
module Leaks {
  import opened Ledger
  import opened Protocol
  import opened Invariant
  import opened Safety

  datatype Cause =
    | Replacement   // a pointer to the vector is overwritten
    | FailedFork    // a fork fails after taking the reference
    | LostStore     // the child a vector was looked up for exits, or gives up its vector, before the store
    | SecondRead    // a sharing fork finds another pointer the second time

  /** The child can still take a vector. */
  predicate Receives(s: State, t: nat, c: nat) {
    c < |s.tasks| && c != t && !Exited(s.tasks[c].pc) && !Removing(s.tasks[c].pc)
  }

  /** How many references on a the next step of task t leaks for this cause. */
  function LeakedBy(cause: Cause, s: State, t: nat, a: nat): nat
    requires t < |s.tasks|
  {
    var (p, vec) := (s.tasks[t].pc, s.tasks[t].vec);
    match cause
    case Replacement =>
      if (p.SetClear? || p.SetInstall? || p.CrAdopt? || p.CrInstall?) && vec == a then 1
      else if p.ClStore? && Receives(s, t, p.child) && s.tasks[p.child].vec == a then 1
      else 0
    case FailedFork => if p.ClCopy? && p.op.Clone? && p.op.fails && p.va == a then 1 else 0
    case LostStore => if p.ClStore? && !Receives(s, t, p.child) && p.va == a then 1 else 0
    case SecondRead =>
      if p.ClCopy? && p.op.Clone? && !p.op.fails && p.op.share && p.va == a && vec != a then 1 else 0
  }

  function LeakedInStep(s: State, t: nat, a: nat): nat
    requires t < |s.tasks|
  {
    LeakedBy(Replacement, s, t, a) + LeakedBy(FailedFork, s, t, a) + LeakedBy(LostStore, s, t, a)
      + LeakedBy(SecondRead, s, t, a)
  }

  /** How many a whole run leaks for this cause. */
  function LeakedIn(cause: Cause, s: State, sched: seq<Pick>, a: nat): nat
    requires Feasible(s, sched)
    decreases sched
  {
    if sched == [] then 0
    else
      var later := LeakedIn(cause, Step(s, sched[0].t, sched[0].spare), sched[1..], a);
      LeakedBy(cause, s, sched[0].t, a) + later
  }

  lemma IoctlLeaks(s: State, t: nat, spare: nat, a: nat)
    requires t < |s.tasks| && a != 0
    ensures var p := s.tasks[t].pc;
      && (p.SetGet? || p.SetShow? || p.SetReduce? || p.SetClear? || p.SetInstall? ==>
            StepSet(s, t).leaked[a] == s.leaked[a] + LeakedInStep(s, t, a))
      && (p.CrCheck? || p.CrAdopt? || p.CrBuild? || p.CrPin? || p.CrRegister? || p.CrInstall? ==>
            StepCreate(s, t, spare).leaked[a] == s.leaked[a] + LeakedInStep(s, t, a))
  {
  }

  lemma CloneLeaks(s: State, t: nat, a: nat)
    requires t < |s.tasks| && a != 0
    requires var p := s.tasks[t].pc; p.ClRef? || p.ClCopy? || p.ClFind? || p.ClGet? || p.ClStore?
    ensures StepClone(s, t).leaked[a] == s.leaked[a] + LeakedInStep(s, t, a)
  {
  }

  /** Nothing but these four causes leaks a reference, and each leaks one. */
  lemma StepLeaks(s: State, t: nat, spare: nat, a: nat)
    requires Enabled(s, t, spare) && a != 0
    ensures Step(s, t, spare).leaked[a] == s.leaked[a] + LeakedInStep(s, t, a)
  {
    var p := s.tasks[t].pc;
    if p.ClRef? || p.ClCopy? || p.ClFind? || p.ClGet? || p.ClStore? {
      CloneLeaks(s, t, a);
    } else {
      IoctlLeaks(s, t, spare, a);
    }
  }

  // Each cause by what the step does.

  /** A pointer to the vector, in use, is overwritten. */
  lemma ReplacementExact(s: State, t: nat, spare: nat, a: nat)
    requires Enabled(s, t, spare) && a != 0 && LeakedBy(Replacement, s, t, a) > 0
    ensures !s.tasks[t].pc.ClCopy? && |Step(s, t, spare).tasks| == |s.tasks|
    ensures exists u | 0 <= u < |s.tasks| :: s.tasks[u].vec == a && Uses(s, u, a)
  {
    if s.tasks[t].pc.ClStore? {
      assert Uses(s, s.tasks[t].pc.child, a);
    } else {
      assert Uses(s, t, a);
    }
  }

  /** A fork that holds the reference makes no task, or one with another vector. */
  lemma ForkLeakExact(s: State, t: nat, spare: nat, a: nat)
    requires Enabled(s, t, spare) && a != 0
    ensures var (p, s1) := (s.tasks[t].pc, Step(s, t, spare));
      && (LeakedBy(FailedFork, s, t, a) > 0 <==>
            p.ClCopy? && p.op.Clone? && p.va == a && |s1.tasks| == |s.tasks|)
      && (LeakedBy(SecondRead, s, t, a) > 0 <==>
            p.ClCopy? && p.op.Clone? && p.op.share && p.va == a && |s1.tasks| > |s.tasks|
            && s1.tasks[|s.tasks|].vec != a)
  {
  }

  /** A store gives the vector to nobody who did not have it. */
  lemma LostStoreExact(s: State, t: nat, spare: nat, a: nat)
    requires Enabled(s, t, spare) && a != 0 && LeakedBy(LostStore, s, t, a) > 0
    ensures s.tasks[t].pc.ClStore? && s.tasks[t].pc.va == a
    ensures |Step(s, t, spare).tasks| == |s.tasks|
    ensures forall u | 0 <= u < |s.tasks| && Uses(Step(s, t, spare), u, a) :: Uses(s, u, a)
  {
  }

  lemma {:induction false} RunLeaks(s: State, sched: seq<Pick>, a: nat)
    requires Feasible(s, sched) && a != 0
    ensures Exec(s, sched).leaked[a] == s.leaked[a]
      + LeakedIn(Replacement, s, sched, a) + LeakedIn(FailedFork, s, sched, a)
      + LeakedIn(LostStore, s, sched, a) + LeakedIn(SecondRead, s, sched, a)
    decreases sched
  {
    if sched != [] {
      StepLeaks(s, sched[0].t, sched[0].spare, a);
      RunLeaks(Step(s, sched[0].t, sched[0].spare), sched[1..], a);
    }
  }

  lemma {:induction false} NoSecondReads(s: State, sched: seq<Pick>, a: nat)
    requires Legal(s, sched) && Feasible(s, sched)
    ensures LeakedIn(SecondRead, s, sched, a) == 0
    decreases sched
  {
    if sched != [] {
      NoSecondReads(Step(s, sched[0].t, sched[0].spare), sched[1..], a);
    }
  }

  /** The ledger of a run: at its end the refcount of a vector is the number of tasks that point to it
      and of references they carry, plus how often in the run it was replaced while held, a fork failed
      with a reference on it, and a reference found no child. */
  lemma LedgerOfRun(s0: State, sched: seq<Pick>, i: nat)
    requires Initial(s0) && Legal(s0, sched) && Feasible(s0, sched)
    requires i < |Exec(s0, sched).reg.entries| && Exec(s0, sched).reg.entries[i].addr != 0
    ensures var s := Exec(s0, sched); var (e, a) := (s.reg.entries[i], s.reg.entries[i].addr);
      e.refcount == Claims(PartiesOf(s.tasks), a) + LeakedIn(Replacement, s0, sched, a)
                    + LeakedIn(FailedFork, s0, sched, a) + LeakedIn(LostStore, s0, sched, a)
  {
    var s := Exec(s0, sched);
    ExactLedger(s, i);
    RunLeaks(s0, sched, s.reg.entries[i].addr);
    NoSecondReads(s0, sched, s.reg.entries[i].addr);
  }
}
