/** The lists of overrides on the heap: nodes that kmalloc hands out, linked one behind the other, and
    kfree takes back. dynamic_vector.c and the static modules build and delete them the same way. */
module OverrideList {
  import opened Bitmap
  import VectorList

  /** struct overriddenSyscall, at an address. */
  class Node {
    const syscall: Override
    const addr: nat
    var next: Node?

    constructor (syscall: Override, addr: nat)
      ensures this.syscall == syscall && this.addr == addr && next == null
    {
      this.syscall, this.addr := syscall, addr;
      next := null;
    }
  }

  function AddrOf(n: Node?): nat {
    if n == null then 0 else n.addr
  }

  /** The address of a list's first node. */
  function HeadAddr(nodes: seq<Node>): nat {
    if nodes == [] then 0 else nodes[0].addr
  }

  /** The node at a position; past the last one is NULL. */
  ghost function NodeAt(nodes: seq<Node>, k: nat): Node? {
    if k < |nodes| then nodes[k] else null
  }

  /** From head one comes to exactly these nodes, each once, and then to NULL. */
  ghost predicate Chain(head: Node?, nodes: seq<Node>)
    reads nodes
  {
    && (forall j, k | 0 <= j < k < |nodes| :: nodes[j] != nodes[k])
    && head == NodeAt(nodes, 0)
    && (forall k | 0 <= k < |nodes| :: nodes[k].next == NodeAt(nodes, k + 1))
  }

  /** What the nodes override. */
  function Overrides(nodes: seq<Node>): seq<Override> {
    if nodes == [] then [] else [nodes[0].syscall] + Overrides(nodes[1..])
  }

  lemma {:induction false} OverridesAppend(nodes: seq<Node>, n: Node)
    ensures Overrides(nodes + [n]) == Overrides(nodes) + [n.syscall]
  {
    if nodes == [] {
      assert (nodes + [n])[1..] == [];
    } else {
      assert (nodes + [n])[1..] == nodes[1..] + [n];
      OverridesAppend(nodes[1..], n);
    }
  }

  function NodeSet(nodes: seq<Node>): set<Node> {
    set n | n in nodes
  }

  /** One module's memory: the nodes it holds, and the list it is building. Every access to a node
      asks that kfree has not had it. */
  class Builder {
    var listHead: Node?
    ghost var live: set<Node>
    ghost var building: seq<Node>

    constructor ()
      ensures Valid() && live == {} && building == []
    {
      listHead, live, building := null, {}, [];
    }

    ghost predicate Valid()
      reads this, live
    {
      && (forall n | n in building :: n in live)
      && Chain(listHead, building)
      && Addressed()
    }

    /** listHead = NULL, when the list is somebody else's. */
    method Reset()
      requires Valid()
      modifies `listHead, `building
      ensures Valid() && building == [] && listHead == null
    {
      listHead, building := null, [];
    }

    /** No two live nodes share an address, and none is at NULL. */
    ghost predicate Addressed()
      reads this
    {
      && (forall n | n in live :: n.addr != 0)
      && (forall m, n | m in live && n in live && m.addr == n.addr :: m == n)
    }

    /** kmalloc can return a: NULL, or the address of nothing that is live. */
    ghost predicate Spare(a: nat)
      reads this
    {
      forall n | n in live :: n.addr != a
    }

    function Next(n: Node): Node?
      requires n in live
      reads this, n
    {
      n.next
    }

    ghost method Kfree(n: Node)
      requires n in live
      modifies this`live
      ensures live == old(live) - {n}
    {
      live := live - {n};
    }

    /** add_syscall_to_vector: one node more, behind all others; kmalloc is what kmalloc returns. */
    method AddSyscall(o: Override, kmalloc: nat) returns (ret: int)
      requires Valid() && Spare(kmalloc)
      modifies this, building
      ensures Valid()
      ensures ret == if kmalloc == 0 then -VectorList.ENOMEM else 0
      ensures kmalloc == 0 ==> live == old(live) && building == old(building)
      ensures kmalloc != 0 ==>
        && |building| > 0 && building == old(building) + [building[|building| - 1]]
        && var n := building[|building| - 1];
           fresh(n) && n.syscall == o && n.addr == kmalloc && live == old(live) + {n}
    {
      ret := 0;
      if kmalloc == 0 {
        ret := -VectorList.ENOMEM;
        return;
      }
      var syscall := new Node(o, kmalloc);
      live := live + {syscall};
      if listHead == null {
        listHead := syscall;
        building := [syscall];
        return;
      }
      var temp: Node := listHead;
      ghost var k := 0;
      while Next(temp) != null
        invariant 0 <= k < |building| && temp == building[k]
        decreases |building| - k
      {
        temp := Next(temp);
        k := k + 1;
      }
      temp.next := syscall;
      building := building + [syscall];
    }

    /** delete_vector. */
    method DeleteVector(head: Node?, ghost nodes: seq<Node>)
      requires Chain(head, nodes) && forall n | n in nodes :: n in live
      modifies this`live
      ensures live == old(live) - NodeSet(nodes)
    {
      if head == null {
        return;
      }
      var newHead: Node := head;
      ghost var k := 0;
      while Next(newHead) != null
        invariant 0 <= k < |nodes| && newHead == nodes[k]
        invariant live == old(live) - NodeSet(nodes[..k])
        decreases |nodes| - k
      {
        var temp := newHead;
        newHead := Next(newHead);
        Kfree(temp);
        assert nodes[..k + 1] == nodes[..k] + [nodes[k]];
        k := k + 1;
      }
      Kfree(newHead);
      assert nodes == nodes[..k] + [nodes[k]];
    }
  }

  // ---- What is built when allocations fail

  /** The candidates whose flag is set and whose node could be allocated. */
  function Kept(bitmap: nat, candidates: seq<Override>, kmalloc: seq<nat>): seq<Override>
    requires |kmalloc| == |candidates|
  {
    if candidates == [] then []
    else
      var rest := Kept(bitmap, candidates[1..], kmalloc[1..]);
      if IsSet(bitmap, candidates[0].flag) && kmalloc[0] != 0 then [candidates[0]] + rest else rest
  }

  /** No allocation that is asked for fails. */
  predicate AllAllocated(bitmap: nat, candidates: seq<Override>, kmalloc: seq<nat>)
    requires |kmalloc| == |candidates|
  {
    candidates != [] ==>
      && (IsSet(bitmap, candidates[0].flag) ==> kmalloc[0] != 0)
      && AllAllocated(bitmap, candidates[1..], kmalloc[1..])
  }

  lemma {:induction false} KeptAtMost(bitmap: nat, candidates: seq<Override>, kmalloc: seq<nat>)
    requires |kmalloc| == |candidates| && forall k | 0 <= k < |candidates| :: candidates[k].flag > 0
    ensures Decoded(Kept(bitmap, candidates, kmalloc)) <= Decoded(Chosen(bitmap, candidates))
    ensures Decoded(Kept(bitmap, candidates, kmalloc)) == Decoded(Chosen(bitmap, candidates))
       <==> AllAllocated(bitmap, candidates, kmalloc)
    ensures AllAllocated(bitmap, candidates, kmalloc)
       ==> Kept(bitmap, candidates, kmalloc) == Chosen(bitmap, candidates)
  {
    if candidates != [] {
      KeptAtMost(bitmap, candidates[1..], kmalloc[1..]);
      DecodedOne(candidates[0], Kept(bitmap, candidates[1..], kmalloc[1..]));
      DecodedOne(candidates[0], Chosen(bitmap, candidates[1..]));
    }
  }

  lemma DecodedOne(o: Override, rest: seq<Override>)
    ensures Decoded([o] + rest) == o.flag + Decoded(rest)
  {
    assert ([o] + rest)[1..] == rest;
  }

  /** add_vector_from_bitmap never notices a failed allocation, since the result it tests is unsigned:
      the list it installs stands for the whole bitmap if and only if none failed. */
  lemma KeptExact(bitmap: nat, kmalloc: seq<nat>)
    requires |kmalloc| == |BUILD_ORDER|
    ensures Decoded(Kept(bitmap, BUILD_ORDER, kmalloc)) == And(bitmap, BUILT_FLAGS)
       <==> AllAllocated(bitmap, BUILD_ORDER, kmalloc)
    ensures AllAllocated(bitmap, BUILD_ORDER, kmalloc) ==> Kept(bitmap, BUILD_ORDER, kmalloc) == Built(bitmap)
  {
    KeptAtMost(bitmap, BUILD_ORDER, kmalloc);
    BuiltDecodes(bitmap);
  }

  /** Bitmap 1 and no memory for its only node: what is installed stands for less. */
  lemma KeptFails(kmalloc: seq<nat>)
    requires |kmalloc| == |BUILD_ORDER| && kmalloc[0] == 0
    ensures And(1, BUILT_FLAGS) == 1 && Decoded(Kept(1, BUILD_ORDER, kmalloc)) == 0
  {
    KeptAtMost(1, BUILD_ORDER, kmalloc);
    BuiltDecodes(1);
    AndStep(1, BUILT_FLAGS);
    AndStep(1, READ_OVERRIDE);
  }
}
