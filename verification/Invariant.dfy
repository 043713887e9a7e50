/** What each position of the protocol stands for, and the invariant of the machine. */
module Invariant {
  import opened Registry
  import opened Text
  import opened Bitmap
  import opened Ledger
  import opened Options
  import opened Protocol

  function Holding(a: nat): Stake {
    NO_STAKE.(carry := a)
  }

  function StakeOf(p: Pc): Stake {
    match At(p)
    case SetShow(a) => Holding(a)
    case SetReduce(a, _) => Holding(a)
    case SetClear(a) => Holding(a)
    case SetInstall(a) => Holding(a)
    case RemClear => NO_STAKE.(removing := true)
    case CrAdopt(a) => Holding(a)
    case CrBuild(b) => NO_STAKE.(creates := Some(b))
    case CrPin(b, a) => NO_STAKE.(creates := Some(b), list := a)
    case CrRegister(b, a) => NO_STAKE.(creates := Some(b), list := a, pins := 1)
    case CrInstall(a) => NO_STAKE.(carry := a, pending := multiset{a})
    case ClCopy(_, a) => Holding(a)
    case ClStore(_, a) => Holding(a)
    case LdRegister(m, _, _, a) => NO_STAKE.(loads := Some(m), list := a)
    case UnLoop(rest) => NO_STAKE.(pending := multiset(rest))
    case UnRemove(a, rest) => NO_STAKE.(pending := multiset{a} + multiset(rest))
    case UnFree(a, ret, rest) =>
      if ret == 0 then NO_STAKE.(list := a, pending := multiset(rest))
      else NO_STAKE.(pending := multiset{a} + multiset(rest))
    case _ => NO_STAKE
  }

  function PartyOf(t: Task): Party {
    Party(t.vec, StakeOf(t.pc))
  }

  function PartiesOf(ts: seq<Task>): (ps: seq<Party>)
    ensures |ps| == |ts|
    ensures forall i | 0 <= i < |ts| :: ps[i] == PartyOf(ts[i])
  {
    if ts == [] then [] else [PartyOf(ts[0])] + PartiesOf(ts[1..])
  }

  /** The books of a state. */
  function SheetOf(s: State): Sheet {
    Sheet(s.reg, s.heads, s.loaded, s.lists, PartiesOf(s.tasks), s.leaked)
  }

  /** Inside a list_lock section. */
  predicate Critical(p: Pc) {
    match p
    case SetGet(_) => true
    case SetReduce(_, _) => true
    case RemReduce(_) => true
    case CrCheck(_) => true
    case CrRegister(_, _) => true
    case ClRef(_) => true
    case ClGet(_, _) => true
    case ExReduce => true
    case LdRegister(_, _, _, _) => true
    case UnRemove(_, _) => true
    case _ => false
  }

  predicate HoldsInner(p: Pc) {
    p.Unlock? || Critical(p)
  }

  predicate HoldsOuter(p: Pc) {
    match At(p)
    case LeaveIoctl => true
    case SetGet(_) => true
    case SetShow(_) => true
    case SetReduce(_, _) => true
    case SetClear(_) => true
    case SetInstall(_) => true
    case RemReduce(_) => true
    case RemClear => true
    case CrCheck(_) => true
    case CrAdopt(_) => true
    case CrBuild(_) => true
    case CrPin(_, _) => true
    case CrRegister(_, _) => true
    case CrInstall(_) => true
    case _ => false
  }

  /** list_lock is waited for only to enter a critical section, and is waited for by nobody inside one. */
  predicate ShapeOk(p: Pc) {
    && (p.Lock? ==> Critical(p.next))
    && (p.Unlock? ==> !HoldsInner(p.next) && !p.next.Lock?)
  }

  /** What the local variables of each position satisfy. */
  predicate PcOk(p: Pc) {
    ShapeOk(p) && LocalsOk(At(p))
  }

  predicate LocalsOk(p: Pc) {
    ArgumentsOk(p) && (p.SetReduce? ==> '\n' in p.text)
  }

  /** What they satisfy in every run, disciplined or not. */
  predicate ArgumentsOk(p: Pc) {
    match p
    case CrCheck(b) => Accepted(b)
    case CrBuild(b) => Accepted(b)
    case CrPin(b, a) => Accepted(b) && (a != 0 <==> Buildable(b))
    case CrRegister(b, a) => Accepted(b) && (a != 0 <==> Buildable(b))
    case ClRef(op) => OpOk(op) && op.Clone? && op.share
    case ClCopy(op, a) => OpOk(op) && op.Clone? && (a != 0 ==> op.share)
    case LdBuild(m, n, _) => m != DYNAMIC && NameOk(n)
    case LdRegister(m, n, _, a) => m != DYNAMIC && NameOk(n) && a != 0
    case _ => true
  }

  // ---- The invariant

  /** Each lock is held by the one task that is between taking and releasing it. */
  predicate Locks(s: State) {
    && (forall t | 0 <= t < |s.tasks| :: HoldsOuter(s.tasks[t].pc) <==> s.outer == Held(t))
    && (forall t | 0 <= t < |s.tasks| :: HoldsInner(s.tasks[t].pc) <==> s.inner == Held(t))
    && (s.outer.Held? ==> s.outer.task < |s.tasks|)
    && (s.inner.Held? ==> s.inner.task < |s.tasks|)
  }

  predicate TasksOk(s: State) {
    forall t | 0 <= t < |s.tasks| :: PcOk(s.tasks[t].pc) && OpsOk(s.tasks[t].todo)
  }

  ghost predicate Inv(s: State) {
    Locks(s) && TasksOk(s) && Balanced(SheetOf(s))
  }

  /** Three steps go wrong unless the right thing happened before: a REMOVE names the vector the task
      holds; a fork that shares reads the same pointer twice; cleanup frees what it unregistered. */
  predicate Disciplined(s: State, t: nat)
    requires t < |s.tasks|
  {
    var th := s.tasks[t];
    match th.pc
    case RemReduce(name) =>
      var i := Find(s.reg.entries, ByName(name));
      i < |s.reg.entries| ==> th.vec != 0 && s.reg.entries[i].addr == th.vec
    case ClCopy(op, a) => op.Clone? && op.share && !op.fails ==> th.vec == a
    case UnFree(a, ret, _) => a != 0 ==> ret == 0
    case _ => true
  }

  // ---- Two views of one change

  lemma SheetUpdate(s: State, s1: State, t: nat)
    requires t < |s.tasks| == |s1.tasks| && s1.tasks == s.tasks[t := s1.tasks[t]]
    ensures OneParty(SheetOf(s), SheetOf(s1), t)
    ensures SheetOf(s).parties[t] == PartyOf(s.tasks[t]) && SheetOf(s1).parties[t] == PartyOf(s1.tasks[t])
    ensures forall u | 0 <= u < |s.tasks| :: SheetOf(s).parties[u] == PartyOf(s.tasks[u])
  {
  }

  /** A lock after a step of task t that was, and now is, inside it or not. */
  function LockAfter(l: Owner, before: bool, after: bool, t: nat): Owner {
    if after then Held(t) else if before then Free else l
  }

  /** The two locks of the step's result are held by whoever should. */
  lemma ControlAfter(s: State, s1: State, t: nat)
    requires Locks(s) && TasksOk(s) && t < |s.tasks| == |s1.tasks| && s1.tasks == s.tasks[t := s1.tasks[t]]
    requires PcOk(s1.tasks[t].pc) && OpsOk(s1.tasks[t].todo)
    requires s1.outer == LockAfter(s.outer, HoldsOuter(s.tasks[t].pc), HoldsOuter(s1.tasks[t].pc), t)
    requires s1.inner == LockAfter(s.inner, HoldsInner(s.tasks[t].pc), HoldsInner(s1.tasks[t].pc), t)
    requires HoldsOuter(s1.tasks[t].pc) ==> HoldsOuter(s.tasks[t].pc) || s.outer == Free
    requires HoldsInner(s1.tasks[t].pc) ==> HoldsInner(s.tasks[t].pc) || s.inner == Free
    ensures Locks(s1) && TasksOk(s1)
  {
  }
}
