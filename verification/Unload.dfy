/** An unload that may go ahead does: what its steps add up to, and that it leaves nothing of the module. */
module Unload {
  import opened Options
  import opened Registry
  import opened Sums
  import opened Text
  import opened Ledger
  import opened Protocol
  import opened Invariant
  import opened Progress
  import opened Safety
  import opened Guards
  import opened Solo
  import Events = DynamicRuns
  import Sweeping = DynamicModule

  // ---- What the module remembers

  lemma {:induction false} HeadsOfExact(heads: seq<(nat, nat)>, m: nat, a: nat)
    ensures multiset(HeadsOf(heads, m))[a] == multiset(heads)[(m, a)]
  {
    if heads != [] {
      HeadsOfExact(heads[1..], m, a);
      assert heads == [heads[0]] + heads[1..];
    }
  }

  lemma {:induction false} HeadsOfOthersExact(heads: seq<(nat, nat)>, m: nat, h: (nat, nat))
    ensures multiset(HeadsOfOthers(heads, m))[h] == if h.0 == m then 0 else multiset(heads)[h]
  {
    if heads != [] {
      HeadsOfOthersExact(heads[1..], m, h);
      assert heads == [heads[0]] + heads[1..];
    }
  }

  // ---- The steps of one task, uninterrupted

  /** The allocated lists when these have been freed. */
  function ListsAfter(lists: set<nat>, rest: seq<nat>): set<nat> {
    if rest == [] then lists else ListsAfter(lists - {rest[0]}, rest[1..])
  }

  lemma {:induction false} ListsAfterExact(lists: set<nat>, rest: seq<nat>, a: nat)
    ensures a in ListsAfter(lists, rest) <==> a in lists && a !in rest
  {
    if rest != [] {
      ListsAfterExact(lists - {rest[0]}, rest[1..], a);
      assert rest == [rest[0]] + rest[1..];
    }
  }

  lemma PassRemove(s0: State, s: State, t: nat, spare: nat, th: Task, r: Table, o: Owner, a: nat, rest: seq<nat>)
    requires t < |s.tasks| && spare != 0 && spare !in s.lists
    requires Leads(s0, With(s, t, th.(pc := UnRemove(a, rest)), r, o, Held(t)))
    ensures var (r1, ret) := Unregister(r, a);
      Leads(s0, With(s, t, th.(pc := Unlock(UnFree(a, ret, rest))), r1, o, Held(t)))
  {
    var (r1, ret) := Unregister(r, a);
    var x := With(s, t, th.(pc := UnRemove(a, rest)), r, o, Held(t));
    var y := With(s, t, th.(pc := Unlock(UnFree(a, ret, rest))), r1, o, Held(t));
    assert StepUnload(x, t) == y;
    OneMoreLeads(s0, t, spare, x, y);
  }

  lemma PassFree(s0: State, s: State, t: nat, spare: nat, th: Task, r: Table, o: Owner, a: nat, ret: int,
                 rest: seq<nat>)
    requires t < |s.tasks| && spare != 0 && spare !in s.lists
    requires Leads(s0, With(s, t, th.(pc := UnFree(a, ret, rest)), r, o, Free))
    ensures Leads(s0, With(s.(lists := s.lists - {a}), t, th.(pc := UnLoop(rest)), r, o, Free))
  {
    var x := With(s, t, th.(pc := UnFree(a, ret, rest)), r, o, Free);
    var y := With(s.(lists := s.lists - {a}), t, th.(pc := UnLoop(rest)), r, o, Free);
    assert StepUnload(x, t) == y;
    OneMoreLeads(s0, t, spare, x, y);
  }

  lemma PassLoop(s0: State, s: State, t: nat, spare: nat, th: Task, r: Table, o: Owner, rest: seq<nat>)
    requires t < |s.tasks| && spare != 0 && spare !in s.lists
    requires Leads(s0, With(s, t, th.(pc := UnLoop(rest)), r, o, Free))
    ensures Leads(s0, With(s, t,
        th.(pc := if rest == [] then Idle else Lock(UnRemove(rest[0], rest[1..]))), r, o, Free))
  {
    var x := With(s, t, th.(pc := UnLoop(rest)), r, o, Free);
    var y := With(s, t, th.(pc := if rest == [] then Idle else Lock(UnRemove(rest[0], rest[1..]))), r, o, Free);
    assert StepUnload(x, t) == y;
    OneMoreLeads(s0, t, spare, x, y);
  }

  /** The cleanup loop: every list is unregistered and freed, whatever unregister_syscall says. */
  lemma {:induction false} PassCleanup(s0: State, s: State, t: nat, spare: nat, th: Task, r: Table, o: Owner,
                                       rest: seq<nat>)
    requires t < |s.tasks| && spare != 0 && spare !in s.lists
    requires Leads(s0, With(s, t, th.(pc := UnLoop(rest)), r, o, Free))
    ensures Leads(s0, With(s.(lists := ListsAfter(s.lists, rest)), t, th.(pc := Idle), Sweeping.Swept(r, rest), o,
                           Free))
    decreases |rest|
  {
    PassLoop(s0, s, t, spare, th, r, o, rest);
    if rest != [] {
      var (a, later) := (rest[0], rest[1..]);
      var (r1, ret) := Unregister(r, a);
      PassLock(s0, s, t, spare, th, r, o, UnRemove(a, later));
      PassRemove(s0, s, t, spare, th, r, o, a, later);
      PassUnlock(s0, s, t, spare, th, r1, o, UnFree(a, ret, later));
      PassFree(s0, s, t, spare, th, r1, o, a, ret, later);
      PassCleanup(s0, s.(lists := s.lists - {a}), t, spare, th, r1, o, later);
    }
  }

  /** The first two steps: the module is gone from the list of modules, and its cleanup begins. */
  lemma SoloBegin(s: State, t: nat, spare: nat)
    requires t < |s.tasks| && s.tasks[t].pc == Idle && s.tasks[t].todo != [] && s.tasks[t].todo[0].Unload?
    requires var m := s.tasks[t].todo[0].mod; m in s.reg.pins && s.reg.pins[m] == 0
    requires (s.tasks[t].todo[0].mod == DYNAMIC ==> s.outer == Free) && spare != 0 && spare !in s.lists
    ensures var (th, m) := (s.tasks[t], s.tasks[t].todo[0].mod);
      Leads(s, With(s.(heads := HeadsOfOthers(s.heads, m)), t, Task(th.vec, UnLoop(HeadsOf(s.heads, m)), th.todo[1..]),
                    s.reg.(pins := s.reg.pins - {m}), s.outer, s.inner))
  {
    var (th, m) := (s.tasks[t], s.tasks[t].todo[0].mod);
    var s1 := With(s, t, Task(th.vec, UnBegin(m), th.todo[1..]), s.reg, s.outer, s.inner);
    assert StepStart(s, t) == s1;
    OneStepLeads(s, t, spare);
    var s2 := With(s.(heads := HeadsOfOthers(s.heads, m)), t, Task(th.vec, UnLoop(HeadsOf(s.heads, m)), th.todo[1..]),
                   s.reg.(pins := s.reg.pins - {m}), s.outer, s.inner);
    assert StepUnload(s1, t) == s2;
    OneMoreLeads(s, t, spare, s1, s2);
  }

  /** An unload of a module that is loaded and not pinned, while nobody is inside an ioctl if it is the dynamic
      module: the module goes, and each list it remembers is unregistered and freed, in order. */
  lemma SoloUnload(s: State, t: nat, spare: nat)
    requires t < |s.tasks| && s.tasks[t].pc == Idle && s.tasks[t].todo != [] && s.tasks[t].todo[0].Unload?
    requires var m := s.tasks[t].todo[0].mod; m in s.reg.pins && s.reg.pins[m] == 0
    requires (s.tasks[t].todo[0].mod == DYNAMIC ==> s.outer == Free) && s.inner == Free
    requires spare != 0 && spare !in s.lists
    ensures var (th, m) := (s.tasks[t], s.tasks[t].todo[0].mod); var gone := HeadsOf(s.heads, m);
      Leads(s, With(s.(heads := HeadsOfOthers(s.heads, m), lists := ListsAfter(s.lists, gone)), t,
                    Task(th.vec, Idle, th.todo[1..]),
                    Sweeping.Swept(s.reg.(pins := s.reg.pins - {m}), gone), s.outer, Free))
  {
    var (th, m) := (s.tasks[t], s.tasks[t].todo[0].mod);
    SoloBegin(s, t, spare);
    PassCleanup(s, s.(heads := HeadsOfOthers(s.heads, m)), t, spare, Task(th.vec, Idle, th.todo[1..]),
                s.reg.(pins := s.reg.pins - {m}), s.outer, HeadsOf(s.heads, m));
  }

  /** An unload of a module that is not loaded, is pinned, or is the dynamic one with an ioctl inside, changes
      nothing. */
  lemma SoloRefused(s: State, t: nat, spare: nat)
    requires t < |s.tasks| && s.tasks[t].pc == Idle && s.tasks[t].todo != [] && s.tasks[t].todo[0].Unload?
    requires var m := s.tasks[t].todo[0].mod; m in s.reg.pins ==> s.reg.pins[m] != 0 || (m == 0 && s.outer != Free)
    requires spare != 0 && spare !in s.lists
    ensures Leads(s, With(s, t, Task(s.tasks[t].vec, Idle, s.tasks[t].todo[1..]), s.reg, s.outer, s.inner))
  {
    var (th, m) := (s.tasks[t], s.tasks[t].todo[0].mod);
    var s1 := With(s, t, Task(th.vec, UnBegin(m), th.todo[1..]), s.reg, s.outer, s.inner);
    assert StepStart(s, t) == s1;
    OneStepLeads(s, t, spare);
    var s2 := With(s, t, Task(th.vec, Idle, th.todo[1..]), s.reg, s.outer, s.inner);
    assert StepUnload(s1, t) == s2;
    OneMoreLeads(s, t, spare, s1, s2);
  }

  // ---- What is remembered covers what is registered

  /** The list that the task inside mutexlock has registered and not remembered yet. */
  function Installing(s: State): Option<nat> {
    if s.outer.Held? && s.outer.task < |s.tasks| && At(s.tasks[s.outer.task].pc).CrInstall?
    then Some(At(s.tasks[s.outer.task].pc).va) else None
  }

  /** How often the vectors of module m at address a are remembered. */
  function Remembered(heads: seq<(nat, nat)>, installing: Option<nat>, m: nat, a: nat): nat {
    multiset(heads)[(m, a)] + if m == DYNAMIC && installing == Some(a) then 1 else 0
  }

  /** Each vector of a module that is loaded is remembered, as often as there are vectors at its address. */
  ghost predicate Covers(es: seq<Entry>, heads: seq<(nat, nat)>, installing: Option<nat>, pins: set<nat>) {
    forall m, a: nat | m in pins :: Sweeping.CountAt(es, m, a) <= Remembered(heads, installing, m, a)
  }

  /** Only the dynamic module has vectors with a NULL list. */
  predicate NullsAreDynamic(es: seq<Entry>, heads: seq<(nat, nat)>) {
    && (forall i | 0 <= i < |es| && es[i].addr == 0 :: es[i].owner == DYNAMIC)
    && (forall k | 0 <= k < |heads| && heads[k].1 == 0 :: heads[k].0 == DYNAMIC)
  }

  ghost predicate Tended(s: State) {
    && NullsAreDynamic(s.reg.entries, s.heads)
    && HeadsOwned(s.reg, s.heads)
    && (Installing(s).Some? && Installing(s).value != 0 ==> OwnedBy(s.reg, Installing(s).value, DYNAMIC))
    && Covers(s.reg.entries, s.heads, Installing(s), s.reg.pins.Keys)
  }

  /** No vector more than before. */
  ghost predicate NoMore(es: seq<Entry>, es1: seq<Entry>) {
    && Owners(es1) <= Owners(es)
    && forall m, a: nat :: Sweeping.CountAt(es1, m, a) <= Sweeping.CountAt(es, m, a)
  }

  lemma NoMoreKeepsTended(s: State, s1: State)
    requires Tended(s) && NoMore(s.reg.entries, s1.reg.entries)
    requires s1.heads == s.heads && s1.reg.pins.Keys <= s.reg.pins.Keys && Installing(s1) == Installing(s)
    ensures Tended(s1)
  {
    forall i | 0 <= i < |s1.reg.entries| && s1.reg.entries[i].addr == 0 ensures s1.reg.entries[i].owner == DYNAMIC {
      assert (0, s1.reg.entries[i].owner) in Owners(s1.reg.entries);
    }
  }

  lemma BumpNoMore(r: Table, i: nat, d: int)
    requires i < |r.entries|
    ensures NoMore(r.entries, Bump(r, i, d).entries) && Bump(r, i, d).pins.Keys == r.pins.Keys
  {
    var es1 := Bump(r, i, d).entries;
    forall m: nat, a: nat ensures Sweeping.CountAt(es1, m, a) <= Sweeping.CountAt(r.entries, m, a) {
      Sweeping.CountAtBumped(r.entries, i, r.entries[i].refcount + d, m, a);
    }
    assert forall k | 0 <= k < |es1| :: es1[k].addr == r.entries[k].addr && es1[k].owner == r.entries[k].owner;
  }

  lemma AcquireNoMore(r: Table, k: Key)
    ensures NoMore(r.entries, Acquire(r, k).0.entries) && Acquire(r, k).0.pins.Keys == r.pins.Keys
  {
    if Has(r.entries, k) {
      BumpNoMore(r, Find(r.entries, k), 1);
    }
  }

  lemma ReleaseNoMore(r: Table, k: Key)
    ensures NoMore(r.entries, Release(r, k).0.entries) && Release(r, k).0.pins.Keys == r.pins.Keys
  {
    if Has(r.entries, k) {
      BumpNoMore(r, Find(r.entries, k), -1);
    }
  }

  lemma UnregisterNoMore(r: Table, a: nat)
    ensures NoMore(r.entries, Unregister(r, a).0.entries) && Unregister(r, a).0.pins == r.pins
  {
    var (es, es1, i) := (r.entries, Unregister(r, a).0.entries, Find(r.entries, ByAddr(a)));
    if i < |es| && es[i].refcount <= 0 {
      assert forall k | 0 <= k < |es1| :: es1[k] == es[if k < i then k else k + 1];
      forall m: nat, b: nat ensures Sweeping.CountAt(es1, m, b) <= Sweeping.CountAt(es, m, b) {
        Sweeping.CountAtRemoved(es, i, m, b);
      }
    }
  }

  /** Away from its locks a task that neither comes to nor leaves the place where a list is remembered does not
      change what is being installed. */
  lemma SameInstalling(s: State, s1: State, t: nat)
    requires Locks(s) && KeepsLocks(s, s1, t)
    requires !At(s.tasks[t].pc).CrInstall? && !At(s1.tasks[t].pc).CrInstall?
    ensures Installing(s1) == Installing(s)
  {
  }

  // ---- Every step keeps that

  /** A step that adds no vector, remembers none and unloads nothing. */
  lemma QuietKeepsTended(s: State, s1: State, t: nat)
    requires Inv(s) && Tended(s) && KeepsLocks(s, s1, t)
    requires !At(s.tasks[t].pc).CrInstall? && !At(s1.tasks[t].pc).CrInstall?
    requires NoMore(s.reg.entries, s1.reg.entries) && s1.heads == s.heads && s1.reg.pins.Keys == s.reg.pins.Keys
    ensures Tended(s1)
  {
    SameInstalling(s, s1, t);
    NoMoreKeepsTended(s, s1);
  }

  lemma SetKeepsTended(s: State, t: nat)
    requires Inv(s) && Tended(s) && t < |s.tasks| && InSet(s.tasks[t].pc)
    ensures Tended(StepSet(s, t))
  {
    var s1 := StepSet(s, t);
    SetKeepsLocks(s, t);
    SetShape(s, t);
    QuietKeepsTended(s, s1, t);
  }

  lemma SetShape(s: State, t: nat)
    requires t < |s.tasks| && InSet(s.tasks[t].pc)
    ensures var s1 := StepSet(s, t);
      && NoMore(s.reg.entries, s1.reg.entries) && s1.heads == s.heads && s1.reg.pins.Keys == s.reg.pins.Keys
      && !At(s1.tasks[t].pc).CrInstall?
  {
    if s.tasks[t].pc.SetGet? {
      AcquireNoMore(s.reg, ByName(s.tasks[t].pc.name));
    } else if s.tasks[t].pc.SetReduce? {
      ReleaseNoMore(s.reg, ByName(s.tasks[t].pc.text));
    }
  }

  lemma RemoveKeepsTended(s: State, t: nat)
    requires Inv(s) && Tended(s) && t < |s.tasks| && InRemove(s.tasks[t].pc)
    ensures Tended(StepRemove(s, t))
  {
    RemoveKeepsLocks(s, t);
    if s.tasks[t].pc.RemReduce? {
      ReleaseNoMore(s.reg, ByName(s.tasks[t].pc.name));
    }
    QuietKeepsTended(s, StepRemove(s, t), t);
  }

  lemma CreateRestKeepsTended(s: State, t: nat, spare: nat)
    requires Inv(s) && Tended(s) && t < |s.tasks| && InCreate(s.tasks[t].pc)
    requires !s.tasks[t].pc.CrRegister? && !s.tasks[t].pc.CrInstall?
    ensures Tended(StepCreate(s, t, spare))
  {
    CreateKeepsLocks(s, t, spare);
    if s.tasks[t].pc.CrCheck? {
      AcquireNoMore(s.reg, ByBitmap(s.tasks[t].pc.bitmap));
    }
    QuietKeepsTended(s, StepCreate(s, t, spare), t);
  }

  lemma CloneKeepsTended(s: State, t: nat)
    requires Inv(s) && Tended(s) && t < |s.tasks| && InClone(s.tasks[t].pc)
    ensures Tended(StepClone(s, t))
  {
    CloneKeepsLocks(s, t);
    CloneShape(s, t);
    QuietKeepsTended(s, StepClone(s, t), t);
  }

  lemma CloneShape(s: State, t: nat)
    requires t < |s.tasks| && InClone(s.tasks[t].pc)
    ensures var s1 := StepClone(s, t);
      && NoMore(s.reg.entries, s1.reg.entries) && s1.heads == s.heads && s1.reg.pins.Keys == s.reg.pins.Keys
      && t < |s1.tasks| && !At(s1.tasks[t].pc).CrInstall?
  {
    if s.tasks[t].pc.ClRef? {
      AcquireNoMore(s.reg, ByAddr(s.tasks[t].vec));
    } else if s.tasks[t].pc.ClGet? {
      AcquireNoMore(s.reg, ByBitmap(s.tasks[t].pc.id));
    }
  }

  lemma ExitKeepsTended(s: State, t: nat)
    requires Inv(s) && Tended(s) && t < |s.tasks| && s.tasks[t].pc.ExReduce?
    ensures Tended(StepExit(s, t))
  {
    ExitKeepsLocks(s, t);
    ReleaseNoMore(s.reg, ByAddr(s.tasks[t].vec));
    QuietKeepsTended(s, StepExit(s, t), t);
  }

  lemma StartKeepsTended(s: State, t: nat)
    requires Inv(s) && Tended(s) && t < |s.tasks| && s.tasks[t].pc.Idle? && s.tasks[t].todo != []
    ensures Tended(StepStart(s, t))
  {
    StartKeepsLocks(s, t);
    QuietKeepsTended(s, StepStart(s, t), t);
  }

  lemma LockKeepsTended(s: State, t: nat)
    requires Inv(s) && Tended(s) && t < |s.tasks| && (s.tasks[t].pc.Lock? || s.tasks[t].pc.Unlock?)
    ensures Tended(StepLock(s, t))
  {
    var s1 := StepLock(s, t);
    assert PcOk(s.tasks[t].pc);
    assert At(s1.tasks[t].pc) == At(s.tasks[t].pc) && s1.outer == s.outer;
    NoMoreKeepsTended(s, s1);
  }

  lemma IoctlKeepsTended(s: State, t: nat)
    requires Inv(s) && Tended(s) && t < |s.tasks|
    requires s.tasks[t].pc.LeaveIoctl? || (s.tasks[t].pc.EnterIoctl? && s.outer == Free)
    ensures Tended(StepIoctl(s, t))
  {
    var s1 := StepIoctl(s, t);
    assert Installing(s) == None && Installing(s1) == None;
    NoMoreKeepsTended(s, s1);
  }

  lemma UnRemoveKeepsTended(s: State, t: nat)
    requires Inv(s) && Tended(s) && t < |s.tasks| && InUnload(s.tasks[t].pc) && !s.tasks[t].pc.UnBegin?
    ensures Tended(StepUnload(s, t))
  {
    UnloadKeepsLocks(s, t);
    if s.tasks[t].pc.UnRemove? {
      UnregisterNoMore(s.reg, s.tasks[t].pc.va);
    }
    QuietKeepsTended(s, StepUnload(s, t), t);
  }

  lemma UnBeginKeepsTended(s: State, t: nat)
    requires Inv(s) && Tended(s) && t < |s.tasks| && s.tasks[t].pc.UnBegin?
    ensures Tended(StepUnload(s, t))
  {
    var (s1, m) := (StepUnload(s, t), s.tasks[t].pc.mod);
    UnloadKeepsLocks(s, t);
    SameInstalling(s, s1, t);
    if MayUnload(s, m) {
      HeadsDoomed(s.reg, s1.reg, s.heads, m);
      forall k | 0 <= k < |s1.heads| && s1.heads[k].1 == 0 ensures s1.heads[k].0 == DYNAMIC {
        HeadsOfOthersAt(s.heads, m, s1.heads[k]);
      }
      forall k, a: nat | k in s1.reg.pins
        ensures Sweeping.CountAt(s1.reg.entries, k, a) <= Remembered(s1.heads, Installing(s1), k, a)
      {
        HeadsOfOthersExact(s.heads, m, (k, a));
        assert Sweeping.CountAt(s.reg.entries, k, a) <= Remembered(s.heads, Installing(s), k, a);
      }
    } else {
      NoMoreKeepsTended(s, s1);
    }
  }

  lemma StillOwned(r: Table, r1: Table, e: Entry, a: nat, m: nat)
    requires OwnedBy(r, a, m) && e.addr != a
    requires Owners(r1.entries) == Owners(r.entries) + {(e.addr, e.owner)}
    ensures OwnedBy(r1, a, m)
  {
  }

  lemma HeadsStillOwned(r: Table, r1: Table, e: Entry, heads: seq<(nat, nat)>)
    requires HeadsOwned(r, heads)
    requires forall k | 0 <= k < |heads| && heads[k].1 != 0 :: heads[k].1 != e.addr
    requires Owners(r1.entries) == Owners(r.entries) + {(e.addr, e.owner)}
    ensures HeadsOwned(r1, heads)
  {
    forall k | 0 <= k < |heads| && heads[k].1 != 0 ensures OwnedBy(r1, heads[k].1, heads[k].0) {
      StillOwned(r, r1, e, heads[k].1, heads[k].0);
    }
  }

  lemma RememberedElsewhere(s: State, a: nat)
    requires Inv(s) && (a == 0 || !Has(s.reg.entries, ByAddr(a)))
    ensures forall k | 0 <= k < |s.heads| && s.heads[k].1 != 0 :: s.heads[k].1 != a
    ensures Installing(s).Some? && Installing(s).value != 0 ==> Installing(s).value != a
  {
    if a != 0 {
      NowhereRemembered(s, a);
    }
    if Installing(s).Some? && Installing(s).value != 0 {
      assert Installing(s).value in StakeOf(s.tasks[s.outer.task].pc).pending;
    }
  }

  /** A new vector where no list is remembered is nobody else's. */
  lemma NewOwned(s: State, r1: Table, e: Entry)
    requires Inv(s) && Tended(s) && r1.entries == [e] + s.reg.entries
    requires e.addr == 0 || !Has(s.reg.entries, ByAddr(e.addr))
    ensures HeadsOwned(r1, s.heads)
    ensures Installing(s).Some? && Installing(s).value != 0 ==> OwnedBy(r1, Installing(s).value, DYNAMIC)
  {
    PrependOwners(e, s.reg.entries);
    RememberedElsewhere(s, e.addr);
    HeadsStillOwned(s.reg, r1, e, s.heads);
    if Installing(s).Some? && Installing(s).value != 0 {
      StillOwned(s.reg, r1, e, Installing(s).value, DYNAMIC);
    }
  }

  lemma CrRegisterShape(s: State, t: nat)
    requires Inv(s) && t < |s.tasks| && s.tasks[t].pc.CrRegister?
    ensures var (s1, b, a) := (StepCreate(s, t, 0), s.tasks[t].pc.bitmap, s.tasks[t].pc.va);
      && Installing(s) == None && Installing(s1) == Some(a)
      && s1.reg == Register(s.reg, DynamicName(b), a, DYNAMIC, b, 1) && s1.heads == s.heads
      && (a != 0 ==> !Has(s.reg.entries, ByAddr(a)))
  {
    assert HoldsOuter(s.tasks[t].pc) && s.outer == Held(t);
    if s.tasks[t].pc.va != 0 {
      ListHeldIsUnregistered(s, t, s.tasks[t].pc.va);
    }
  }

  /** What is registered is being installed now. */
  lemma RegisteredCovers(es: seq<Entry>, e: Entry, heads: seq<(nat, nat)>, pins: set<nat>)
    requires Covers(es, heads, None, pins) && e.owner == DYNAMIC
    ensures Covers([e] + es, heads, Some(e.addr), pins)
  {
    assert ([e] + es)[1..] == es;
    forall m, b: nat | m in pins ensures Sweeping.CountAt([e] + es, m, b) <= Remembered(heads, Some(e.addr), m, b) {
      assert Sweeping.CountAt(es, m, b) <= Remembered(heads, None, m, b);
    }
  }

  lemma CrRegisterKeepsTended(s: State, t: nat)
    requires Inv(s) && Tended(s) && t < |s.tasks| && s.tasks[t].pc.CrRegister?
    ensures Tended(StepCreate(s, t, 0))
  {
    var (s1, a) := (StepCreate(s, t, 0), s.tasks[t].pc.va);
    var e := s1.reg.entries[0];
    CrRegisterShape(s, t);
    RegisteredCovers(s.reg.entries, e, s.heads, s.reg.pins.Keys);
    NewOwned(s, s1.reg, e);
    PrependOwners(e, s.reg.entries);
    if a != 0 {
      NowhereRemembered(s, a);
    }
  }

  lemma CrInstallShape(s: State, t: nat)
    requires Inv(s) && t < |s.tasks| && s.tasks[t].pc.CrInstall?
    ensures var (s1, a) := (StepCreate(s, t, 0), s.tasks[t].pc.va);
      && Installing(s) == Some(a) && Installing(s1) == None
      && s1.reg == s.reg && s1.heads == s.heads + [(DYNAMIC, a)]
  {
    assert HoldsOuter(s.tasks[t].pc) && s.outer == Held(t);
  }

  /** What was being installed is remembered now. */
  lemma InstalledCovers(es: seq<Entry>, heads: seq<(nat, nat)>, a: nat, pins: set<nat>)
    requires Covers(es, heads, Some(a), pins)
    ensures Covers(es, heads + [(DYNAMIC, a)], None, pins)
  {
    forall m, b: nat | m in pins
      ensures Sweeping.CountAt(es, m, b) <= Remembered(heads + [(DYNAMIC, a)], None, m, b)
    {
      assert Sweeping.CountAt(es, m, b) <= Remembered(heads, Some(a), m, b);
      assert multiset(heads + [(DYNAMIC, a)])[(m, b)] == multiset(heads)[(m, b)] + if (m, b) == (0, a) then 1 else 0;
    }
  }

  lemma CrInstallKeepsTended(s: State, t: nat)
    requires Inv(s) && Tended(s) && t < |s.tasks| && s.tasks[t].pc.CrInstall?
    ensures Tended(StepCreate(s, t, 0))
  {
    CrInstallShape(s, t);
    InstalledCovers(s.reg.entries, s.heads, s.tasks[t].pc.va, s.reg.pins.Keys);
  }

  lemma LdBuildKeepsTended(s: State, t: nat, spare: nat)
    requires Inv(s) && Tended(s) && t < |s.tasks| && s.tasks[t].pc.LdBuild?
    ensures Tended(StepLoad(s, t, spare))
  {
    LoadKeepsLocks(s, t, spare);
    QuietKeepsTended(s, StepLoad(s, t, spare), t);
  }

  lemma {:induction false} NoneAt(es: seq<Entry>, m: nat, a: nat)
    requires NotOwned(es, m)
    ensures Sweeping.CountAt(es, m, a) == 0
  {
    if es != [] {
      NoneAt(es[1..], m, a);
    }
  }

  lemma LdRegisterShape(s: State, t: nat, spare: nat)
    requires Inv(s) && t < |s.tasks| && s.tasks[t].pc.LdRegister?
    ensures var (s1, a, m) := (StepLoad(s, t, spare), s.tasks[t].pc.va, s.tasks[t].pc.mod);
      && s1.reg.entries != [] && s1.reg.entries == [s1.reg.entries[0]] + s.reg.entries
      && s1.reg.entries[0].addr == a != 0 && s1.reg.entries[0].owner == m != DYNAMIC
      && s1.heads == s.heads + [(m, a)] && Installing(s1) == Installing(s) && !Has(s.reg.entries, ByAddr(a))
  {
    LoadKeepsLocks(s, t, spare);
    SameInstalling(s, StepLoad(s, t, spare), t);
    LoadingOwnsNothing(s, t);
    ListHeldIsUnregistered(s, t, s.tasks[t].pc.va);
  }

  /** A vector at an address of its own and the memory of its list fit in. */
  lemma LoadedFits(r1: Table, es: seq<Entry>, e: Entry, heads: seq<(nat, nat)>)
    requires r1.entries == [e] + es && e.addr != 0 && forall o | o in Owners(es) :: o.0 != e.addr
    requires NullsAreDynamic(es, heads) && HeadsOwned(r1, heads)
    ensures NullsAreDynamic(r1.entries, heads + [(e.owner, e.addr)])
    ensures HeadsOwned(r1, heads + [(e.owner, e.addr)])
  {
    PrependOwners(e, es);
    assert OwnedBy(r1, e.addr, e.owner);
  }

  lemma LdRegisterKeepsTended(s: State, t: nat, spare: nat)
    requires Inv(s) && Tended(s) && t < |s.tasks| && s.tasks[t].pc.LdRegister?
    ensures Tended(StepLoad(s, t, spare))
  {
    var s1 := StepLoad(s, t, spare);
    var e := s1.reg.entries[0];
    LdRegisterShape(s, t, spare);
    NewOwned(s, s1.reg, e);
    NowhereRemembered(s, e.addr);
    LoadedFits(s1.reg, s.reg.entries, e, s.heads);
    LdRegisterCovers(s, t, spare);
  }

  lemma LoadingOwnsNothing(s: State, t: nat)
    requires Inv(s) && t < |s.tasks| && s.tasks[t].pc.LdRegister?
    ensures NotOwned(s.reg.entries, s.tasks[t].pc.mod) && s.tasks[t].pc.va != 0 && s.tasks[t].pc.mod != DYNAMIC
  {
    var b := SheetOf(s);
    assert PcOk(s.tasks[t].pc);
    assert b.parties[t] == PartyOf(s.tasks[t]) && LoadOk(b, b.parties[t].stake.loads);
  }

  lemma LdRegisterCovers(s: State, t: nat, spare: nat)
    requires Inv(s) && Tended(s) && t < |s.tasks| && s.tasks[t].pc.LdRegister?
    ensures var s1 := StepLoad(s, t, spare); Covers(s1.reg.entries, s1.heads, Installing(s), s1.reg.pins.Keys)
  {
    var (s1, es, a, m) := (StepLoad(s, t, spare), s.reg.entries, s.tasks[t].pc.va, s.tasks[t].pc.mod);
    LoadingOwnsNothing(s, t);
    assert s1.reg.entries[1..] == es && s1.reg.entries[0].owner == m && s1.reg.entries[0].addr == a;
    forall k, b: nat | k in s1.reg.pins
      ensures Sweeping.CountAt(s1.reg.entries, k, b) <= Remembered(s1.heads, Installing(s), k, b)
    {
      assert multiset(s1.heads)[(k, b)] == multiset(s.heads)[(k, b)] + if (k, b) == (m, a) then 1 else 0;
      if k == m {
        NoneAt(es, m, b);
      } else {
        assert Sweeping.CountAt(es, k, b) <= Remembered(s.heads, Installing(s), k, b);
      }
    }
  }

  lemma StepKeepsTended(s: State, t: nat, spare: nat)
    requires Inv(s) && Tended(s) && Enabled(s, t, spare)
    ensures Tended(Step(s, t, spare))
  {
    var p := s.tasks[t].pc;
    if p.Idle? {
      StartKeepsTended(s, t);
    } else if p.Lock? || p.Unlock? {
      LockKeepsTended(s, t);
    } else if AtLock(p) {
      IoctlKeepsTended(s, t);
    } else if InSet(p) {
      SetKeepsTended(s, t);
    } else if InRemove(p) {
      RemoveKeepsTended(s, t);
    } else if p.CrRegister? {
      CrRegisterKeepsTended(s, t);
    } else if p.CrInstall? {
      CrInstallKeepsTended(s, t);
    } else if InCreate(p) {
      CreateRestKeepsTended(s, t, spare);
    } else if InClone(p) {
      CloneKeepsTended(s, t);
    } else if p.LdBuild? {
      LdBuildKeepsTended(s, t, spare);
    } else if p.LdRegister? {
      LdRegisterKeepsTended(s, t, spare);
    } else if p.UnBegin? {
      UnBeginKeepsTended(s, t);
    } else if InUnload(p) {
      UnRemoveKeepsTended(s, t);
    } else {
      ExitKeepsTended(s, t);
    }
  }

  lemma {:induction false} RunKeepsTended(s: State, sched: seq<Pick>)
    requires Inv(s) && Tended(s) && Legal(s, sched) && Feasible(s, sched)
    ensures Tended(Exec(s, sched))
    decreases sched
  {
    if sched != [] {
      StepKeepsTended(s, sched[0].t, sched[0].spare);
      StepKeepsInv(s, sched[0].t, sched[0].spare);
      RunKeepsTended(Step(s, sched[0].t, sched[0].spare), sched[1..]);
    }
  }

  lemma ReachableTended(s: State)
    requires Reachable(s)
    ensures Tended(s)
  {
    var s0, sched :| Initial(s0) && Legal(s0, sched) && Feasible(s0, sched) && Exec(s0, sched) == s;
    InitialInv(s0);
    RunKeepsTended(s0, sched);
  }

  // ---- What an unload leaves

  /** Module m is loaded and not pinned, and if it is the dynamic one nobody is inside an ioctl. */
  predicate Loose(s: State, m: nat) {
    m in s.reg.pins && s.reg.pins[m] == 0 && (m == DYNAMIC ==> s.outer == Free)
  }

  /** The cleanup loop knows all of the module's vectors, and nobody else's. */
  lemma LooseIsTracked(s: State, m: nat)
    requires Reachable(s) && Loose(s, m)
    ensures Sweeping.Tracks(s.reg.entries, m, HeadsOf(s.heads, m))
  {
    var (es, gone) := (s.reg.entries, HeadsOf(s.heads, m));
    ReachableInv(s);
    ReachableTended(s);
    assert m == DYNAMIC ==> Installing(s) == None;
    forall a: nat ensures Sweeping.CountAt(es, m, a) <= multiset(gone)[a] {
      HeadsOfExact(s.heads, m, a);
      assert Sweeping.CountAt(es, m, a) <= Remembered(s.heads, Installing(s), m, a);
    }
    forall e | e in es && e.owner == m ensures e.addr in gone {
      Sweeping.CountAtPositive(es, m, e.addr);
    }
    forall e | e in es && e.addr in gone ensures e.owner == m {
      GoneIsOwn(s, m, e);
    }
  }

  lemma GoneIsOwn(s: State, m: nat, e: Entry)
    requires Inv(s) && Tended(s) && e in s.reg.entries && e.addr in HeadsOf(s.heads, m)
    ensures e.owner == m
  {
    var i :| 0 <= i < |s.reg.entries| && s.reg.entries[i] == e;
    HeadsOfAt(s.heads, m, e.addr);
    var k :| 0 <= k < |s.heads| && s.heads[k] == (m, e.addr);
    if e.addr != 0 {
      assert OwnedBy(s.reg, s.heads[k].1, s.heads[k].0);
      assert (e.addr, e.owner) in Owners(s.reg.entries);
    }
  }

  function OthersOf(es: seq<Entry>, m: nat): seq<Entry> {
    if es == [] then []
    else (if es[0].owner == m then [] else [es[0]]) + OthersOf(es[1..], m)
  }

  lemma {:induction false} SurvivorsAreOthers(es: seq<Entry>, m: nat, stuck: set<nat>)
    requires forall i | 0 <= i < |es| && es[i].owner == m :: es[i].refcount <= 0 && es[i].addr !in stuck
    ensures Sweeping.Left(es, m, stuck) == OthersOf(es, m)
  {
    if es != [] {
      SurvivorsAreOthers(es[1..], m, stuck);
    }
  }

  /** An unload that may go ahead, from any reachable state, with nobody in between: the module is gone, with all
      of its vectors and lists and nothing else, and it is remembered nowhere; every other vector is where it was,
      with the references it had. */
  lemma UnloadLeavesNothing(s: State, t: nat, spare: nat) returns (s1: State)
    requires Reachable(s) && t < |s.tasks| && s.tasks[t].pc == Idle && s.tasks[t].todo != []
    requires s.tasks[t].todo[0].Unload? && s.inner == Free && spare != 0 && spare !in s.lists
    requires var m := s.tasks[t].todo[0].mod; m in s.reg.pins && s.reg.pins[m] == 0 && (m == 0 ==> s.outer == Free)
    ensures Leads(s, s1)
    ensures s1.tasks == s.tasks[t := Task(s.tasks[t].vec, Idle, s.tasks[t].todo[1..])]
    ensures var m := s.tasks[t].todo[0].mod;
      && s1.reg == Table(OthersOf(s.reg.entries, m), s.reg.pins - {m})
      && (forall a :: a in s1.lists <==> a in s.lists && (m, a) !in s.heads)
      && (forall h :: multiset(s1.heads)[h] == if h.0 == m then 0 else multiset(s.heads)[h])
  {
    var m := s.tasks[t].todo[0].mod;
    var (gone, r) := (HeadsOf(s.heads, m), s.reg.(pins := s.reg.pins - {m}));
    SoloUnload(s, t, spare);
    s1 := With(s.(heads := HeadsOfOthers(s.heads, m), lists := ListsAfter(s.lists, gone)), t,
               Task(s.tasks[t].vec, Idle, s.tasks[t].todo[1..]), Sweeping.Swept(r, gone), s.outer, Free);
    UnloadedRegistry(s, m);
    forall a: nat ensures a in s1.lists <==> a in s.lists && (m, a) !in s.heads {
      ListsAfterExact(s.lists, gone, a);
      HeadsOfExact(s.heads, m, a);
    }
    forall h ensures multiset(s1.heads)[h] == if h.0 == m then 0 else multiset(s.heads)[h] {
      HeadsOfOthersExact(s.heads, m, h);
    }
  }

  lemma UnloadedRegistry(s: State, m: nat)
    requires Reachable(s) && Loose(s, m)
    ensures var r := s.reg.(pins := s.reg.pins - {m});
      Sweeping.Swept(r, HeadsOf(s.heads, m)) == r.(entries := OthersOf(r.entries, m))
  {
    ReachableInv(s);
    LooseIsTracked(s, m);
    UnpinnedIsUnreferenced(s, m);
    Sweeping.SweepExact(s.reg.(pins := s.reg.pins - {m}), m, HeadsOf(s.heads, m));
    SurvivorsAreOthers(s.reg.entries, m, {});
  }

  // ---- The events of DynamicRuns

  lemma NoHeadsAt(heads: seq<(nat, nat)>, a: nat)
    ensures HeadsAt(heads, a) >= 0
    ensures HeadsAt(heads, a) == 0 ==> forall k | 0 <= k < |heads| :: heads[k].1 != a
  {
    SumNonNegative(heads, (h: (nat, nat)) => if h.1 == a then 1 else 0);
    if HeadsAt(heads, a) == 0 {
      forall k | 0 <= k < |heads| ensures heads[k].1 != a {
        SumAtLeast(heads, k, (h: (nat, nat)) => if h.1 == a then 1 else 0);
      }
    }
  }

  lemma PendingsAt(ps: seq<Party>, t: nat, a: nat)
    requires t < |ps| && a in ps[t].stake.pending
    ensures Pendings(ps, a) >= 1 && ListsHeld(ps, a) >= 0
  {
    SumAtLeast(ps, t, (p: Party) => Pending(p, a));
    SumNonNegative(ps, (p: Party) => ListOf(p, a));
  }

  lemma PendingIsNoHead(s: State, t: nat, a: nat)
    requires Inv(s) && t < |s.tasks| && a != 0 && a in StakeOf(s.tasks[t].pc).pending
    ensures forall k | 0 <= k < |s.heads| :: s.heads[k].1 != a
  {
    var (ps, es) := (PartiesOf(s.tasks), s.reg.entries);
    assert ps[t] == PartyOf(s.tasks[t]);
    PendingsAt(ps, t, a);
    NoHeadsAt(s.heads, a);
    assert EntriesAt(es, a) + ListsHeld(ps, a) == if a in s.lists then 1 else 0;
    assert EntriesAt(es, a) == HeadsAt(s.heads, a) + Pendings(ps, a);
  }

  lemma HeadElsewhere(heads: seq<(nat, nat)>, m: nat, a: nat)
    requires forall k | 0 <= k < |heads| :: heads[k].1 != a
    ensures a !in HeadsOf(heads, m)
  {
    HeadsOfAt(heads, m, a);
  }

  lemma CreationIsPossible(s: State, t: nat)
    requires Inv(s) && NullsAreDynamic(s.reg.entries, s.heads) && t < |s.tasks| && s.tasks[t].pc.CrRegister?
    ensures Events.NobodyElseAt(s.reg.entries, s.tasks[t].pc.va)
  {
    var a := s.tasks[t].pc.va;
    if a != 0 {
      ListHeldIsUnregistered(s, t, a);
      assert forall i | 0 <= i < |s.reg.entries| :: !Matches(s.reg.entries[i], ByAddr(a));
    }
  }

  lemma LoadIsPossible(s: State, t: nat)
    requires Inv(s) && t < |s.tasks| && s.tasks[t].pc.LdRegister?
    ensures s.tasks[t].pc.mod != 0 && s.tasks[t].pc.va !in HeadsOf(s.heads, 0)
  {
    LoadingOwnsNothing(s, t);
    ListHeldIsUnregistered(s, t, s.tasks[t].pc.va);
    NowhereRemembered(s, s.tasks[t].pc.va);
    HeadElsewhere(s.heads, 0, s.tasks[t].pc.va);
  }

  lemma UnregistrationIsPossible(s: State, t: nat)
    requires Inv(s) && t < |s.tasks| && s.tasks[t].pc.UnRemove? && s.tasks[t].pc.va != 0
    ensures s.tasks[t].pc.va !in HeadsOf(s.heads, 0)
  {
    var p := s.tasks[t].pc;
    assert StakeOf(p).pending == multiset{p.va} + multiset(p.rest) && p.va in multiset{p.va};
    PendingIsNoHead(s, t, p.va);
    HeadElsewhere(s.heads, 0, p.va);
  }

  /** What the tasks of a reachable state are about to do to the list of vectors are possible events of DynamicRuns,
      where list_heads is what the dynamic module remembers. */
  lemma EventsArePossible(s: State, p: Pc)
    requires Reachable(s) && exists t | 0 <= t < |s.tasks| :: s.tasks[t].pc == p
    ensures var (r, heads) := (s.reg, HeadsOf(s.heads, 0));
      && (p.CrRegister? ==> Events.Possible(r, heads, Events.Created(p.bitmap, p.va, true)))
      && (p.LdRegister? ==>
            Events.Possible(r, heads, Events.Loaded(Entry(p.name, p.bitmap, p.va, 0, p.bitmap, p.mod))))
      && (p.UnRemove? && p.va != 0 ==> Events.Possible(r, heads, Events.Unloaded(p.va)))
  {
    var t :| 0 <= t < |s.tasks| && s.tasks[t].pc == p;
    ReachableInv(s);
    if p.CrRegister? {
      ReachableTended(s);
      CreationIsPossible(s, t);
    } else if p.LdRegister? {
      LoadIsPossible(s, t);
    } else if p.UnRemove? && p.va != 0 {
      UnregistrationIsPossible(s, t);
    }
  }

  /** And what they then do to it is what After makes of these events, and of a count for the other searches. */
  lemma EventsAreSteps(s: State, t: nat, k: Key)
    requires t < |s.tasks|
    ensures var (heads, p) := (HeadsOf(s.heads, 0), s.tasks[t].pc); p.CrRegister? ==>
      StepCreate(s, t, 0).reg.entries
      == Events.After(s.reg, heads, Events.Created(p.bitmap, p.va, true)).0.entries
    ensures var (heads, p) := (HeadsOf(s.heads, 0), s.tasks[t].pc); p.LdRegister? ==>
      StepLoad(s, t, 0).reg.entries
      == Events.After(s.reg, heads, Events.Loaded(Entry(p.name, p.bitmap, p.va, 0, p.bitmap, p.mod))).0.entries
    ensures var (heads, p) := (HeadsOf(s.heads, 0), s.tasks[t].pc); p.UnRemove? ==>
      StepUnload(s, t).reg == Events.After(s.reg, heads, Events.Unloaded(p.va)).0
    ensures var (heads, i) := (HeadsOf(s.heads, 0), Find(s.reg.entries, k)); i < |s.reg.entries| ==>
      && Acquire(s.reg, k).0 == Events.After(s.reg, heads, Events.Counted(i, 1)).0
      && Release(s.reg, k).0 == Events.After(s.reg, heads, Events.Counted(i, -1)).0
  {
  }
}
