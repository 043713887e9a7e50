/** ioctl_module.c: custom_ioctl, under mutexlock from its first statement to its last. */
module Ioctl {
  import opened Registry
  import opened Text
  import opened Bitmap
  import opened DynamicModule
  import Display
  import Fork
  import Solo
  import VectorList

  /** Which allocations succeed (the buffer, the name or bitmap, and the buffer for the old record) and
      whether the argument can be copied from user space and the reply to it. */
  datatype Luck = Luck(buf: bool, argument: bool, copy: bool, record: bool, reply: bool)

  /** The six requests, ShowFor with the task that has the given pid, and any other number. */
  datatype Request =
    | Set(name: string)
    | Remove(name: string)
    | Create(bitmap: nat)
    | ShowAll
    | ShowMine
    | ShowFor(other: Fork.TaskStruct)
    | Unknown

  /** add_vector_from_bitmap on the registry and the caller's vector; list is the address of the list
      that is built if one has to be. */
  function Created(r: Table, vec: nat, bitmap: nat, list: nat, al: Allocs): (Table, nat, int) {
    var (r1, a) := Acquire(r, ByBitmap(bitmap));
    if a != 0 then (r1, a, a)
    else if !al.temp || !al.prefix then (r1, vec, 0)
    else (Announced(r1, bitmap, list, al.vector), list, list)
  }

  function Setting(r: Table, vec: nat, name: string, luck: Luck): (Table, nat, int) {
    if !luck.argument then (r, vec, -VectorList.ENOMEM)
    else if !luck.copy then (r, vec, -Solo.EINVAL)
    else
      var (r1, a) := Acquire(r, ByName(name));
      if a == 0 then (r1, vec, -Solo.EINVAL)
      else (if luck.record then Solo.IfAssignedReduce(r1, vec) else r1, a, 0)
  }

  function Removing(r: Table, vec: nat, name: string, luck: Luck): (Table, nat, int) {
    if !luck.argument then (r, vec, -VectorList.ENOMEM)
    else if !luck.copy then (r, vec, -Solo.EINVAL)
    else Solo.RemoveVector(r, vec, name)
  }

  function Creating(r: Table, vec: nat, bitmap: nat, luck: Luck, list: nat, al: Allocs): (Table, nat, int) {
    if !luck.copy || !Accepted(bitmap) then (r, vec, -Solo.EINVAL) else Created(r, vec, bitmap, list, al)
  }

  /** What a call does to the registry and the caller's vector, and what it returns. */
  function Outcome(r: Table, vec: nat, req: Request, luck: Luck, list: nat, al: Allocs): (Table, nat, int) {
    if !luck.buf then (r, vec, -VectorList.ENOMEM)
    else match req
      case Set(n) => Setting(r, vec, n, luck)
      case Remove(n) => Removing(r, vec, n, luck)
      case Create(b) => Creating(r, vec, b, luck, list, al)
      case ShowAll => (r, vec, if luck.reply then 0 else -EFAULT)
      case ShowMine => (r, vec, if luck.reply then 0 else -EFAULT)
      case ShowFor(_) => (r, vec, if !luck.copy then -Solo.EINVAL else if luck.reply then 0 else -EFAULT)
      case Unknown => (r, vec, -Solo.EINVAL)
  }

  /** What a call leaves in the user's buffer, where shown is the vector it asks about. */
  function Reply(r: Table, req: Request, shown: nat, luck: Luck): string {
    if !luck.buf || !luck.reply then ""
    else match req
      case ShowAll => Display.Answer(r.entries)
      case ShowMine => Mine(r.entries, shown)
      case ShowFor(_) => if luck.copy then Mine(r.entries, shown) else ""
      case _ => ""
  }

  /** A request that only looks changes nothing. */
  predicate Looks(req: Request) {
    req.ShowAll? || req.ShowMine? || req.ShowFor?
  }

  /** With enough memory and readable arguments these are the operations that the uninterrupted steps
      of the protocol add up to. */
  lemma OutcomeIsSolo(r: Table, vec: nat, req: Request, list: nat, al: Allocs)
    requires al.temp && al.prefix && al.vector
    ensures var got := Outcome(r, vec, req, Luck(true, true, true, true, true), list, al);
      match req
      case Set(n) => got == Solo.SetVector(r, vec, n)
      case Remove(n) => got == Solo.RemoveVector(r, vec, n)
      case Create(b) => got == Solo.CreateVector(r, vec, b, list)
      case Unknown => got == (r, vec, -Solo.EINVAL)
      case _ => got == (r, vec, 0)
  {
  }

  // ---- What the answers mean

  /** The search by name finds a vector with a list. */
  predicate Finds(r: Table, name: string) {
    Has(r.entries, ByName(name)) && r.entries[Find(r.entries, ByName(name))].addr != 0
  }

  /** The vector of this name has more references than the one a REMOVE drops, or just that. */
  predicate Drops(r: Table, name: string) {
    Has(r.entries, ByName(name)) && r.entries[Find(r.entries, ByName(name))].refcount > 0
  }

  /** -ENOMEM: no memory for the buffer or the argument. */
  lemma NoMemoryExact(r: Table, vec: nat, req: Request, luck: Luck, list: nat, al: Allocs)
    ensures Outcome(r, vec, req, luck, list, al).2 == -12 <==>
      !luck.buf || ((req.Set? || req.Remove?) && !luck.argument)
  {
  }

  /** -EFAULT: the reply cannot be copied to user space. */
  lemma NoReplyExact(r: Table, vec: nat, req: Request, luck: Luck, list: nat, al: Allocs)
    ensures Outcome(r, vec, req, luck, list, al).2 == -14 <==>
      luck.buf && !luck.reply && (req.ShowAll? || req.ShowMine? || (req.ShowFor? && luck.copy))
  {
  }

  /** -EINVAL: an unknown request, an argument that cannot be read, a name that leads to no list or to no
      reference, or a bitmap that is not accepted. */
  lemma InvalidExact(r: Table, vec: nat, req: Request, luck: Luck, list: nat, al: Allocs)
    ensures Outcome(r, vec, req, luck, list, al).2 == -22 <==> luck.buf && match req
      case Set(n) => luck.argument && (!luck.copy || !Finds(r, n))
      case Remove(n) => luck.argument && (!luck.copy || !Drops(r, n))
      case Create(b) => !luck.copy || !Accepted(b)
      case ShowAll => false
      case ShowMine => false
      case ShowFor(_) => !luck.copy
      case Unknown => true
  {
  }

  /** There is no other error. */
  lemma ErrorsExact(r: Table, vec: nat, req: Request, luck: Luck, list: nat, al: Allocs)
    ensures var err := Outcome(r, vec, req, luck, list, al).2; err < 0 ==> err == -12 || err == -14 || err == -22
  {
  }

  /** A call that fails leaves the caller's vector, and the registry unless it got as far as a search by name that
      found something: a SET then keeps a reference on a NULL list, a REMOVE has counted below zero. */
  lemma FailureKeeps(r: Table, vec: nat, req: Request, luck: Luck, list: nat, al: Allocs)
    requires Outcome(r, vec, req, luck, list, al).2 < 0
    ensures var (r1, v1, _) := Outcome(r, vec, req, luck, list, al);
      && v1 == vec
      && (r1 == r <==> !(luck.buf && luck.argument && luck.copy
                         && (req.Set? || req.Remove?) && Has(r.entries, ByName(req.name))))
  {
    if (req.Set? || req.Remove?) && Has(r.entries, ByName(req.name)) {
      var i := Find(r.entries, ByName(req.name));
      AcquireExact(r, ByName(req.name));
      ReleaseExact(r, ByName(req.name));
    }
  }

  /** A SET that succeeds points the caller to the vector of that name and counts one reference on it; over names
      that survive being printed it changes nothing else. */
  lemma SetExact(r: Table, vec: nat, name: string, luck: Luck, list: nat, al: Allocs)
    requires Outcome(r, vec, Set(name), luck, list, al).2 >= 0
    ensures var (r1, v1, err) := Outcome(r, vec, Set(name), luck, list, al); var i := Find(r.entries, ByName(name));
      && err == 0 && i < |r.entries| && v1 == r.entries[i].addr != 0
      && ((forall e | e in r.entries :: NameOk(e.name)) ==> Moved(r, r1, i, 1))
  {
    var i := Find(r.entries, ByName(name));
    var r1 := Acquire(r, ByName(name)).0;
    AcquireExact(r, ByName(name));
    if forall e | e in r.entries :: NameOk(e.name) {
      forall e | e in r1.entries ensures NameOk(e.name) {
        var k :| 0 <= k < |r1.entries| && r1.entries[k] == e;
        assert r.entries[k] in r.entries && e.name == r.entries[k].name;
      }
      Solo.ReplaceDropsNothing(r1, vec);
    }
  }

  /** A REMOVE that succeeds clears the caller's pointer, drops one reference on the vector of that name, whoever
      holds it, and answers how many are left. */
  lemma RemoveExact(r: Table, vec: nat, name: string, luck: Luck, list: nat, al: Allocs)
    requires Outcome(r, vec, Remove(name), luck, list, al).2 >= 0
    ensures var (r1, v1, err) := Outcome(r, vec, Remove(name), luck, list, al);
      var i := Find(r.entries, ByName(name));
      && i < |r.entries| && v1 == 0 && Moved(r, r1, i, -1)
      && err == r1.entries[i].refcount == r.entries[i].refcount - 1
  {
    ReleaseExact(r, ByName(name));
  }

  /** A CREATE that succeeds answers the address the caller then points to: that of the vector with this bitmap,
      which gets one more reference, or of the new list, registered first with one reference if there was memory
      for that; the module is pinned for it either way. Without memory for the name the answer is 0 and the
      caller's pointer stays. */
  lemma CreateExact(r: Table, vec: nat, bitmap: nat, luck: Luck, list: nat, al: Allocs)
    requires Outcome(r, vec, Create(bitmap), luck, list, al).2 >= 0
    ensures var (r1, v1, err) := Outcome(r, vec, Create(bitmap), luck, list, al);
      var i := Find(r.entries, ByBitmap(bitmap)); var r0 := Acquire(r, ByBitmap(bitmap)).0;
      if i < |r.entries| && r.entries[i].addr != 0 then err == v1 == r.entries[i].addr && Moved(r, r1, i, 1)
      else if !al.temp || !al.prefix then err == 0 && v1 == vec && r1 == r0
      else
        && err == v1 == list && r1.pins.Keys == r0.pins.Keys
        && (forall m | m in r1.pins :: r1.pins[m] == r0.pins[m] + if m == 0 then 1 else 0)
        && r1.entries == (if al.vector then [Entry("Vector" + Decimal(bitmap), bitmap, list, 1, bitmap, 0)] else [])
                         + r0.entries
  {
    AcquireExact(r, ByBitmap(bitmap));
    var r0 := Acquire(r, ByBitmap(bitmap)).0;
    if Acquire(r, ByBitmap(bitmap)).1 == 0 && al.temp && al.prefix {
      assert Creating(r, vec, bitmap, luck, list, al) == (Announced(r0, bitmap, list, al.vector), list, list);
    }
  }

  /** What a request that looks brings back: everything there is, or the slice of it that belongs to a vector. */
  lemma ReplyExact(r: Table, req: Request, shown: nat, luck: Luck)
    ensures Reply(r, req, shown, luck) != "" ==> luck.buf && luck.reply && Looks(req)
    ensures luck.buf && luck.reply && req.ShowAll? ==>
      Reply(r, req, shown, luck) == if r.entries == [] then "no vectors present" else Listing(r.entries)
    ensures luck.buf && luck.reply && (req.ShowMine? || (req.ShowFor? && luck.copy)) ==>
      var (text, i) := (Reply(r, req, shown, luck), Find(r.entries, ByAddr(shown)));
      if shown == 0 then text == "vector not assigned"
      else if i == |r.entries| then text == ""
      else Listing(r.entries) == Listing(r.entries[..i]) + text + Listing(r.entries[i + 1..])
  {
    if shown != 0 && Has(r.entries, ByAddr(shown)) {
      Display.MineIsSlice(r.entries, shown);
    }
  }

  lemma RecordAfterAcquire(r: Table, k: Key, vec: nat)
    ensures Mine(Acquire(r, k).0.entries, vec) == Mine(r.entries, vec)
    ensures MineFits(r.entries, vec) ==> MineFits(Acquire(r, k).0.entries, vec)
  {
    var i := Find(r.entries, k);
    if i < |r.entries| {
      var e := r.entries[i];
      FindAfterUpdate(r.entries, ByAddr(vec), i, e.(refcount := e.refcount + 1));
    }
  }

  class IoctlModule {
    const dynamic: DynamicModule
    const registry: VectorList.VectorList
    /** mutexlock. */
    var locked: bool

    constructor (dynamic: DynamicModule)
      ensures this.dynamic == dynamic && registry == dynamic.registry && !locked
    {
      this.dynamic, registry := dynamic, dynamic.registry;
      locked := false;
    }

    /** The record of the task's vector fits the buffers it is printed to. */
    ghost predicate RecordFits(vec: nat)
      reads registry
    {
      && MineFits(registry.entries, vec)
      && |Mine(registry.entries, vec)| < BUF_LEN && '\0' !in Mine(registry.entries, vec)
    }

    /** What show_my_vector leaves in a cleared buffer, read as a string. */
    method RecordOf(vec: nat) returns (text: string)
      requires registry.Valid() && RecordFits(vec)
      ensures text == Mine(registry.entries, vec)
    {
      var buf := new char[BUF_LEN](_ => '\0');
      ghost var zero := buf[..];
      var _ := registry.ShowMyVector(buf, vec);
      Display.CStringOfPadded(Mine(registry.entries, vec), zero[|Mine(registry.entries, vec)|..]);
      text := Display.CString(buf[..]);
    }

    /** if_assigned_reduce. */
    method IfAssignedReduce(task: Fork.TaskStruct, kzalloc: bool)
      requires registry.Valid() && RecordFits(task.vec)
      modifies registry, registry.vectors
      ensures registry.Valid() && registry.vectors == old(registry.vectors)
      ensures registry.View()
           == if kzalloc then Solo.IfAssignedReduce(old(registry.View()), task.vec) else old(registry.View())
    {
      if task.vec != 0 && kzalloc {
        var text := RecordOf(task.vec);
        if !(UNASSIGNED <= text) {
          var _ := registry.Reduce(ByName(text));
        }
      }
    }

    /** IOCTL_SET, once the buffer is there. */
    method SetVector(task: Fork.TaskStruct, name: string, luck: Luck) returns (err: int)
      requires registry.Valid() && RecordFits(task.vec)
      modifies task, registry, registry.vectors
      ensures registry.Valid() && registry.vectors == old(registry.vectors)
      ensures (registry.View(), task.vec, err)
           == Setting(old(registry.View()), old(task.vec), name, luck)
    {
      if !luck.argument {
        err := -VectorList.ENOMEM;
        return;
      }
      if !luck.copy {
        err := -Solo.EINVAL;
        return;
      }
      RecordAfterAcquire(registry.View(), ByName(name), task.vec);
      var va := registry.GetVectorAddress(name);
      if va == 0 {
        err := -Solo.EINVAL;
        return;
      }
      IfAssignedReduce(task, luck.record);
      err := 0;
      task.vec := 0;
      task.vec := va;
    }

    /** IOCTL_REMOVE, once the buffer is there. */
    method RemoveVector(task: Fork.TaskStruct, name: string, luck: Luck) returns (err: int)
      requires registry.Valid()
      modifies task, registry, registry.vectors
      ensures registry.Valid() && registry.vectors == old(registry.vectors)
      ensures (registry.View(), task.vec, err)
           == Removing(old(registry.View()), old(task.vec), name, luck)
    {
      if !luck.argument {
        err := -VectorList.ENOMEM;
        return;
      }
      if !luck.copy {
        err := -Solo.EINVAL;
        return;
      }
      err := registry.Reduce(ByName(name));
      if err < 0 {
        err := -Solo.EINVAL;
        return;
      }
      task.vec := 0;
    }

    /** If a list will be built, list_heads has a slot for it. */
    ghost predicate HasSlot(req: Request, luck: Luck, al: Allocs)
      reads registry, dynamic
    {
      req.Create? && luck.buf && luck.copy && Accepted(req.bitmap) && Builds(registry.View(), req.bitmap, al)
      ==> dynamic.i < MAX_LISTS
    }

    /** IOCTL_CREATE_FROM_BITMAP, once the buffer is there. */
    method CreateVector(task: Fork.TaskStruct, bitmap: nat, luck: Luck, al: Allocs) returns (err: int, ghost list: nat)
      requires dynamic.Valid() && registry == dynamic.registry
      requires luck.buf && HasSlot(Create(bitmap), luck, al)
      requires |al.kmalloc| == |BUILD_ORDER| && Answers(al.kmalloc)
      requires forall j | 0 <= j < |al.kmalloc| :: dynamic.builder.Spare(al.kmalloc[j])
      modifies task, dynamic, dynamic.builder, dynamic.listHeads, registry, registry.head, registry.vectors
      ensures dynamic.Valid()
      ensures (registry.View(), task.vec, err)
           == Creating(old(registry.View()), old(task.vec), bitmap, luck, list, al)
    {
      list := 0;
      if !luck.copy || !Accepted(bitmap) {
        err := -Solo.EINVAL;
        return;
      }
      err := dynamic.AddVectorFromBitmap(bitmap, task, al);
      list := task.vec;
    }

    /** What is printed fits the buffers it is printed to. */
    ghost predicate TextFits(task: Fork.TaskStruct, req: Request)
      reads task, registry, if req.ShowFor? then {req.other} else {}
    {
      && (req.Set? || req.ShowMine? ==> RecordFits(task.vec))
      && (req.ShowFor? ==> RecordFits(req.other.vec))
      && (req.ShowAll? ==> ListFits())
    }

    ghost predicate ListFits()
      reads registry
    {
      && NumbersFit(registry.entries)
      && |Listing(registry.entries)| < BUF_LEN && '\0' !in Listing(registry.entries)
    }

    /** IOCTL_SHOW_ALL, IOCTL_SHOW_MINE and IOCTL_VECTOR_FOR_PID, once the buffer is there. */
    method Show(task: Fork.TaskStruct, req: Request, luck: Luck) returns (err: int, reply: string)
      requires registry.Valid() && TextFits(task, req) && Looks(req) && luck.buf
      ensures (registry.View(), task.vec, err)
           == Outcome(registry.View(), task.vec, req, luck, 0, Allocs(true, true, true, []))
      ensures reply == Reply(registry.View(), req, if req.ShowFor? then req.other.vec else task.vec, luck)
    {
      err, reply := 0, "";
      if req.ShowFor? && !luck.copy {
        err := -Solo.EINVAL;
        return;
      }
      var text;
      if req.ShowAll? {
        var buf := Display.IoctlShowAll(registry);
        text := Display.CString(buf[..]);
      } else {
        text := RecordOf(if req.ShowFor? then req.other.vec else task.vec);
      }
      if luck.reply {
        reply := text;
      } else {
        err := -EFAULT;
      }
    }

    /** The switch of custom_ioctl. */
    method Dispatch(task: Fork.TaskStruct, req: Request, luck: Luck, al: Allocs)
      returns (err: int, reply: string, ghost list: nat)
      requires luck.buf && dynamic.Valid() && registry == dynamic.registry && HasSlot(req, luck, al)
      requires TextFits(task, req)
      requires |al.kmalloc| == |BUILD_ORDER| && Answers(al.kmalloc)
      requires forall j | 0 <= j < |al.kmalloc| :: dynamic.builder.Spare(al.kmalloc[j])
      modifies task, dynamic, dynamic.builder, dynamic.listHeads, registry, registry.head, registry.vectors
      ensures dynamic.Valid()
      ensures (registry.View(), task.vec, err)
           == Outcome(old(registry.View()), old(task.vec), req, luck, list, al)
      ensures reply == Reply(old(registry.View()), req, if req.ShowFor? then old(req.other.vec) else old(task.vec),
          luck)
    {
      list, reply := 0, "";
      if Looks(req) {
        err, reply := Show(task, req, luck);
        return;
      }
      match req
      case Set(name) =>
        err := SetVector(task, name, luck);
        assert dynamic.Settled();
      case Remove(name) =>
        err := RemoveVector(task, name, luck);
        assert dynamic.Settled();
      case Create(bitmap) =>
        err, list := CreateVector(task, bitmap, luck, al);
      case _ =>
        err := -Solo.EINVAL;
    }

    /** What custom_ioctl does while it holds mutexlock. */
    method Serve(task: Fork.TaskStruct, req: Request, luck: Luck, al: Allocs)
      returns (err: int, reply: string, ghost list: nat)
      requires dynamic.Valid() && registry == dynamic.registry && HasSlot(req, luck, al)
      requires TextFits(task, req)
      requires |al.kmalloc| == |BUILD_ORDER| && Answers(al.kmalloc)
      requires forall j | 0 <= j < |al.kmalloc| :: dynamic.builder.Spare(al.kmalloc[j])
      modifies task, dynamic, dynamic.builder, dynamic.listHeads, registry, registry.head, registry.vectors
      ensures dynamic.Valid()
      ensures (registry.View(), task.vec, err)
           == Outcome(old(registry.View()), old(task.vec), req, luck, list, al)
      ensures reply == Reply(old(registry.View()), req, if req.ShowFor? then old(req.other.vec) else old(task.vec),
          luck)
    {
      if luck.buf {
        err, reply, list := Dispatch(task, req, luck, al);
      } else {
        err, reply, list := -VectorList.ENOMEM, "", 0;
      }
    }

    /** custom_ioctl: mutexlock is free before and after, on every path. */
    method CustomIoctl(task: Fork.TaskStruct, req: Request, luck: Luck, al: Allocs)
      returns (err: int, reply: string, ghost list: nat)
      requires !locked && dynamic.Valid() && registry == dynamic.registry && HasSlot(req, luck, al)
      requires TextFits(task, req)
      requires |al.kmalloc| == |BUILD_ORDER| && Answers(al.kmalloc)
      requires forall j | 0 <= j < |al.kmalloc| :: dynamic.builder.Spare(al.kmalloc[j])
      modifies this`locked, task, dynamic, dynamic.builder, dynamic.listHeads, registry, registry.head, registry.vectors
      ensures !locked && dynamic.Valid()
      ensures (registry.View(), task.vec, err)
           == Outcome(old(registry.View()), old(task.vec), req, luck, list, al)
      ensures reply == Reply(old(registry.View()), req, if req.ShowFor? then old(req.other.vec) else old(task.vec),
          luck)
    {
      locked := true;
      err, reply, list := Serve(task, req, luck, al);
      locked := false;
    }
  }
}
