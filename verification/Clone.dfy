/** sys_clone2: the vector a child starts with, and what a whole tree of clones does to the registry. */
module Clone {
  import opened Registry
  import opened Ledger
  import Fork

  /** The vector of the child, and the reference that is taken for it. */
  function Cloned(r: Table, vec: nat, share: bool, id: nat): (Table, nat) {
    if share then (Acquire(r, ByAddr(vec)).0, vec) else Acquire(r, ByBitmap(id))
  }

  /** The registry after a fork that failed: a sharing fork has taken its reference if it came as far as
      having a new task. */
  function Kept(r: Table, vec: nat, c: Fork.Context): Table {
    if Fork.FlagsOk(c) && !Fork.Stops(c, Fork.Security) && Fork.Dup(c).None? && c.flags.syscalls
    then Acquire(r, ByAddr(vec)).0 else r
  }

  /** What a failed fork leaves behind: it has taken a reference and a pin, for nobody, if and only if it shares
      the vector, its flags are accepted, it had a new task, and the parent's vector is registered. */
  lemma KeptMoved(r: Table, vec: nat, c: Fork.Context)
    ensures var i := Find(r.entries, ByAddr(vec));
      if Fork.FlagsOk(c) && c.fails !! {Fork.Security, Fork.TaskAlloc, Fork.StackAlloc, Fork.ArchDup}
         && c.flags.syscalls && i < |r.entries|
      then Moved(r, Kept(r, vec, c), i, 1) else Kept(r, vec, c) == r
  {
    AcquireExact(r, ByAddr(vec));
  }

  /** sys_clone2: a fork and, unless the child shares, a look-up by id. Both happen to the same
      registry. A fork that fails looks nothing up, nor does one whose child pid_task does not find any more. */
  method SysClone2(k: Fork.Kernel, parent: Fork.TaskStruct, c: Fork.Context, id: nat, found: bool)
    returns (r: Fork.Forked)
    requires k.Owns(parent) && c.hasMm == (parent.mm != null)
    requires c.processes == k.processes && c.threads == k.threads
    modifies k, Fork.MmOf(parent), parent.signal, parent.sighand
    ensures r.Child? <==> Fork.FlagsOk(c) && Fork.Course(c).None?
    ensures r.Child? ==>
      fresh(r.task) && (k.registry, r.task.vec) ==
        if found || c.flags.syscalls then Cloned(old(k.registry), parent.vec, c.flags.syscalls, id)
        else (old(k.registry), 0)
    ensures !r.Child? ==> k.Counters(parent) == old(k.Counters(parent)) && k.tasks == old(k.tasks)
    ensures !r.Child? ==> k.registry == Kept(old(k.registry), parent.vec, c)
  {
    r := k.CopyProcess(parent, c);
    if r.Child? && found && !c.flags.syscalls {
      var (reg, ret) := Acquire(k.registry, ByBitmap(id));
      k.registry := reg;
      if ret != 0 {
        r.task.vec := ret;
      }
    }
  }

  // ---- Trees of clones

  /** A clone, and the clones its child makes one after the other. */
  datatype Tree = Tree(share: bool, id: nat, children: seq<Tree>)

  /** The clones of a task with this vector, and theirs: the registry afterwards and the vectors of all
      new tasks, a child before its own children. */
  function Grow(r: Table, vec: nat, ts: seq<Tree>): (Table, seq<nat>)
    decreases ts
  {
    if ts == [] then (r, [])
    else
      var (r1, v) := Cloned(r, vec, ts[0].share, ts[0].id);
      var (r2, below) := Grow(r1, v, ts[0].children);
      var (r3, beside) := Grow(r2, vec, ts[1..]);
      (r3, [v] + below + beside)
  }

  /** The first vector with this bitmap, or none. */
  function Named(es: seq<Entry>, id: nat): nat {
    var i := Find(es, ByBitmap(id));
    if i < |es| then es[i].addr else 0
  }

  /** Which vector every new task should have, with no look at reference counts. */
  function Inherited(es: seq<Entry>, vec: nat, ts: seq<Tree>): seq<nat>
    decreases ts
  {
    if ts == [] then []
    else
      var v := if ts[0].share then vec else Named(es, ts[0].id);
      [v] + Inherited(es, v, ts[0].children) + Inherited(es, vec, ts[1..])
  }

  function Holders(vs: seq<nat>, a: nat): nat {
    if vs == [] then 0 else (if vs[0] == a then 1 else 0) + Holders(vs[1..], a)
  }

  lemma {:induction false} HoldersConcat(vs: seq<nat>, ws: seq<nat>, a: nat)
    ensures Holders(vs + ws, a) == Holders(vs, a) + Holders(ws, a)
  {
    if vs == [] {
      assert vs + ws == ws;
    } else {
      assert (vs + ws)[1..] == vs[1..] + ws;
      HoldersConcat(vs[1..], ws, a);
    }
  }

  /** Only NULL lists can share an address. */
  predicate OnePerAddress(es: seq<Entry>) {
    forall i, j | 0 <= i < j < |es| && es[i].addr == es[j].addr :: es[i].addr == 0
  }

  predicate Registered(es: seq<Entry>, vec: nat) {
    vec == 0 || Has(es, ByAddr(vec))
  }

  /** The same vectors, with other reference counts. */
  predicate SameVectors(es: seq<Entry>, es1: seq<Entry>) {
    |es1| == |es| && forall i | 0 <= i < |es| :: es1[i] == es[i].(refcount := es1[i].refcount)
  }

  /** From r to r1, the refcount of every vector went up by the number of the new tasks that hold it,
      and the pins of every module by as much as the refcounts of its vectors. */
  ghost predicate RaisedBy(r: Table, r1: Table, vs: seq<nat>) {
    && SameVectors(r.entries, r1.entries)
    && (forall i | 0 <= i < |r.entries| && r.entries[i].addr != 0 ::
          r1.entries[i].refcount == r.entries[i].refcount + Holders(vs, r.entries[i].addr))
    && r1.pins.Keys == r.pins.Keys
    && (forall m | m in r.pins :: r1.pins[m] - RefsOfModule(r1.entries, m) == r.pins[m] - RefsOfModule(r.entries, m))
  }

  lemma SameFind(es: seq<Entry>, es1: seq<Entry>, k: Key)
    requires SameVectors(es, es1)
    ensures Find(es1, k) == Find(es, k)
  {
    var i := Find(es, k);
    if i < |es| {
      FindUnique(es1, k, i);
    } else {
      assert forall j | 0 <= j < |es1| :: Matches(es1[j], k) == Matches(es[j], k);
    }
  }

  lemma RaisedTwice(r: Table, r1: Table, r2: Table, vs: seq<nat>, ws: seq<nat>)
    requires RaisedBy(r, r1, vs) && RaisedBy(r1, r2, ws)
    ensures RaisedBy(r, r2, vs + ws)
  {
    forall i | 0 <= i < |r.entries| && r.entries[i].addr != 0
      ensures r2.entries[i].refcount == r.entries[i].refcount + Holders(vs + ws, r.entries[i].addr)
    {
      HoldersConcat(vs, ws, r.entries[i].addr);
    }
  }

  lemma RaisedOnce(r: Table, i: nat)
    requires i < |r.entries| && OnePerAddress(r.entries)
    ensures RaisedBy(r, Bump(r, i, 1), [r.entries[i].addr])
  {
    EntryBump(r.entries, i, 1);
  }

  /** A child gets the vector it should, and exactly that vector's refcount rises, by one. */
  lemma ClonedExact(r: Table, vec: nat, share: bool, id: nat)
    requires OnePerAddress(r.entries) && Registered(r.entries, vec)
    ensures var (r1, v) := Cloned(r, vec, share, id);
      && v == (if share then vec else Named(r.entries, id))
      && Registered(r.entries, v) && RaisedBy(r, r1, [v])
  {
    var i := Find(r.entries, if share then ByAddr(vec) else ByBitmap(id));
    if i < |r.entries| {
      RaisedOnce(r, i);
      FoundByAddress(r.entries, i);
    }
  }

  lemma FoundByAddress(es: seq<Entry>, i: nat)
    requires i < |es|
    ensures Has(es, ByAddr(es[i].addr))
  {
    assert Matches(es[i], ByAddr(es[i].addr));
  }

  /** Over any tree of clones every task has the vector it should, and the refcount of each vector
      goes up by the number of new tasks that hold it. */
  lemma {:induction false} GrowExact(r: Table, vec: nat, ts: seq<Tree>)
    requires OnePerAddress(r.entries) && Registered(r.entries, vec)
    ensures var (r1, vs) := Grow(r, vec, ts); vs == Inherited(r.entries, vec, ts) && RaisedBy(r, r1, vs)
    decreases ts
  {
    if ts != [] {
      var (r1, v) := Cloned(r, vec, ts[0].share, ts[0].id);
      ClonedExact(r, vec, ts[0].share, ts[0].id);
      StillFound(r.entries, r1.entries, v);
      GrowExact(r1, v, ts[0].children);
      InheritedSame(r.entries, r1.entries, v, ts[0].children);
      var (r2, below) := Grow(r1, v, ts[0].children);
      RaisedTwice(r, r1, r2, [v], below);
      StillFound(r.entries, r2.entries, vec);
      GrowExact(r2, vec, ts[1..]);
      InheritedSame(r.entries, r2.entries, vec, ts[1..]);
      var (r3, beside) := Grow(r2, vec, ts[1..]);
      RaisedTwice(r, r2, r3, [v] + below, beside);
    }
  }

  lemma StillFound(es: seq<Entry>, es1: seq<Entry>, vec: nat)
    requires SameVectors(es, es1) && OnePerAddress(es) && Registered(es, vec)
    ensures OnePerAddress(es1) && Registered(es1, vec)
  {
    SameFind(es, es1, ByAddr(vec));
  }

  lemma {:induction false} InheritedSame(es: seq<Entry>, es1: seq<Entry>, vec: nat, ts: seq<Tree>)
    requires SameVectors(es, es1)
    ensures Inherited(es1, vec, ts) == Inherited(es, vec, ts)
    decreases ts
  {
    if ts != [] {
      SameFind(es, es1, ByBitmap(ts[0].id));
      var v := if ts[0].share then vec else Named(es, ts[0].id);
      InheritedSame(es, es1, v, ts[0].children);
      InheritedSame(es, es1, vec, ts[1..]);
    }
  }
}
