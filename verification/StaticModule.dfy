/** vector1_module.c and vector2_module.c: a module with one vector, built and registered when the
    module is loaded and taken down when it goes. The list of overrides is a parameter here. */
module StaticModule {
  import opened Registry
  import opened Text
  import opened Bitmap
  import opened OverrideList
  import opened DynamicModule
  import VectorList

  class StaticModule {
    const builder: Builder
    const registry: VectorList.VectorList
    const name: string
    const bitmap: nat
    const owner: nat

    /** The module's memory is the list it has, or is building. */
    ghost predicate Valid()
      reads this, builder, builder.live, registry, registry.head, registry.vectors
    {
      && builder.Valid() && builder.live == NodeSet(builder.building)
      && registry.Valid()
    }

    constructor (registry: VectorList.VectorList, name: string, bitmap: nat, owner: nat)
      requires registry.Valid()
      ensures Valid() && builder.building == [] && fresh(builder) && this.registry == registry
      ensures this.name == name && this.bitmap == bitmap && this.owner == owner
    {
      builder := new Builder();
      this.registry, this.name, this.bitmap, this.owner := registry, name, bitmap, owner;
    }

    /** delete_vector. */
    method DeleteVector()
      requires Valid()
      modifies builder
      ensures Valid() && builder.live == {} && builder.building == []
    {
      if builder.listHead == null {
        return;
      }
      builder.DeleteVector(builder.listHead, builder.building);
      builder.listHead := null;
      builder.building := [];
    }

    /** The first k overrides are in the list. */
    ghost predicate Added(overrides: seq<Override>, kmalloc: seq<nat>, k: nat)
      requires k <= |overrides| == |kmalloc|
      reads this, builder, builder.live
    {
      && builder.Valid() && builder.live == NodeSet(builder.building)
      && Overrides(builder.building) == overrides[..k]
      && (forall j | k <= j < |kmalloc| :: builder.Spare(kmalloc[j]))
    }

    method AddNext(overrides: seq<Override>, kmalloc: seq<nat>, k: nat) returns (ret: int)
      requires k < |overrides| == |kmalloc| && Answers(kmalloc) && Added(overrides, kmalloc, k)
      modifies builder, builder.building
      ensures ret == if kmalloc[k] == 0 then -VectorList.ENOMEM else 0
      ensures builder.Valid() && builder.live == NodeSet(builder.building)
      ensures ret == 0 ==> Added(overrides, kmalloc, k + 1)
      ensures old(builder.building) <= builder.building
      ensures forall j | |old(builder.building)| <= j < |builder.building| :: fresh(builder.building[j])
    {
      ghost var before := builder.building;
      ret := builder.AddSyscall(overrides[k], kmalloc[k]);
      if kmalloc[k] != 0 {
        OverridesAppend(before, builder.building[|before|]);
        assert overrides[..k + 1] == overrides[..k] + [overrides[k]];
      }
    }

    /** The calls to add_syscall_to_vector, up to the first that fails. */
    method AddAll(overrides: seq<Override>, kmalloc: seq<nat>) returns (ret: int)
      requires Valid() && builder.building == []
      requires |kmalloc| == |overrides| && Answers(kmalloc)
      modifies builder
      ensures Valid()
      ensures ret == if 0 in kmalloc then -VectorList.ENOMEM else 0
      ensures 0 !in kmalloc ==> Overrides(builder.building) == overrides
    {
      ret := 0;
      for k := 0 to |overrides|
        invariant Added(overrides, kmalloc, k) && 0 !in kmalloc[..k] && ret == 0
        invariant forall j | 0 <= j < |builder.building| :: fresh(builder.building[j])
      {
        ret := AddNext(overrides, kmalloc, k);
        if ret < 0 {
          return;
        }
      }
      assert overrides[..|overrides|] == overrides && kmalloc[..|kmalloc|] == kmalloc;
    }

    /** initVector: either the complete list is registered, or nothing is left of it; only when the
        registration itself finds no memory does the list stay behind, unregistered and never freed. */
    method InitVector(overrides: seq<Override>, kmalloc: seq<nat>, kzalloc: bool) returns (ret: int)
      requires Valid() && builder.building == []
      requires |kmalloc| == |overrides| && Answers(kmalloc)
      modifies builder, registry, registry.head, registry.vectors
      ensures Valid() && forall v | v in registry.vectors :: v in old(registry.vectors) || fresh(v)
      ensures ret == if 0 !in kmalloc && kzalloc then 0 else -VectorList.ENOMEM
      ensures registry.View() == if ret == 0
        then Register(old(registry.View()), name, HeadAddr(builder.building), owner, bitmap, 0)
        else old(registry.View())
      ensures if 0 in kmalloc then builder.live == {} && builder.listHead == null
              else Overrides(builder.building) == overrides
    {
      ret := AddAll(overrides, kmalloc);
      assert registry.Valid();
      if ret < 0 {
        DeleteVector();
        return;
      }
      ret := registry.AddVectorAddress(name, AddrOf(builder.listHead), owner, bitmap, 0, kzalloc);
    }

    /** cleanup_override: the list is freed whatever unregister_syscall says. */
    method CleanupOverride()
      requires Valid()
      modifies builder, registry, registry.head, registry.vectors
      ensures Valid() && builder.live == {}
      ensures registry.View() == Unregister(old(registry.View()), HeadAddr(old(builder.building))).0
    {
      var _ := registry.RemoveVectorAddress(AddrOf(builder.listHead));
      if builder.listHead != null {
        DeleteVector();
      }
    }

    /** Loading and, before anybody has used the vector, unloading leaves the registry as it was, with
        or without memory; what stays behind is the list if and only if its registration failed. */
    method LoadAndUnload(overrides: seq<Override>, kmalloc: seq<nat>, kzalloc: bool)
      requires Valid() && builder.building == []
      requires overrides != [] && |kmalloc| == |overrides| && Answers(kmalloc)
      modifies builder, registry, registry.head, registry.vectors
      ensures registry.Valid() && registry.View() == old(registry.View())
      ensures builder.live != {} <==> 0 !in kmalloc && !kzalloc
    {
      ghost var before := registry.View();
      var ret := InitVector(overrides, kmalloc, kzalloc);
      if ret == 0 {
        ghost var va := HeadAddr(builder.building);
        assert forall j | 0 <= j < |registry.vectors| ::
            registry.vectors[j] in old(registry.vectors) || fresh(registry.vectors[j]);
        CleanupOverride();
        assert registry.View() == before by {
          RegisterThenUnregister(before, name, va, owner, bitmap);
        }
      } else if 0 !in kmalloc {
        assert builder.building[0] in builder.live;
      }
    }
  }

  /** A module with one override, memory for its node and none for its registration: the list stays. */
  method LeftBehind(registry: VectorList.VectorList) returns (m: StaticModule)
    requires registry.Valid()
    modifies registry, registry.head, registry.vectors
    ensures registry.Valid() && registry.View() == old(registry.View()) && m.builder.live != {}
  {
    m := new StaticModule(registry, "Vector1", 1, 5);
    var kmalloc := [9];
    assert 0 !in kmalloc;
    m.LoadAndUnload([Override(Read, READ_OVERRIDE)], kmalloc, false);
  }

  // ---- The two modules

  const VECTOR1: seq<Override> := [
    Override(Link, LINK_OVERRIDE), Override(Unlink, UNLINK_OVERRIDE), Override(Read, READ_OVERRIDE),
    Override(Open, OPEN_OVERRIDE), Override(Write, WRITE_OVERRIDE)
  ]
  const BITMAP1: nat := READ_OVERRIDE + WRITE_OVERRIDE + OPEN_OVERRIDE + LINK_OVERRIDE + UNLINK_OVERRIDE
  const NAME1: string := "Vector55"

  const VECTOR2: seq<Override> := [
    Override(Mkdir, MKDIR_OVERRIDE), Override(Rmdir, RMDIR_OVERRIDE), Override(Write, WRITE_LOGGED),
    Override(Open, OPEN_BLOCKED), Override(Close, CLOSE_OVERRIDE)
  ]
  const BITMAP2: nat := MKDIR_OVERRIDE + RMDIR_OVERRIDE + WRITE_LOGGED + OPEN_BLOCKED + CLOSE_OVERRIDE
  const NAME2: string := "Vector968"

  /** The vectors of both modules are named and decode like those the bitmap builder makes. */
  lemma StaticVectorsDecode()
    ensures NAME1 == DynamicName(BITMAP1) && Decoded(VECTOR1) == BITMAP1 && DistinctSyscalls(VECTOR1)
    ensures NAME2 == DynamicName(BITMAP2) && Decoded(VECTOR2) == BITMAP2 && DistinctSyscalls(VECTOR2)
  {
    StaticNames();
    DecodedFive(VECTOR1);
    DecodedFive(VECTOR2);
  }

  lemma StaticNames()
    ensures NAME1 == DynamicName(BITMAP1) && NAME2 == DynamicName(BITMAP2)
  {
    assert Decimal(5) == "5" && Decimal(55) == "55";
    assert Decimal(9) == "9" && Decimal(96) == "96" && Decimal(968) == "968";
  }

  lemma DecodedFive(list: seq<Override>)
    requires |list| == 5
    ensures Decoded(list) == list[0].flag + list[1].flag + list[2].flag + list[3].flag + list[4].flag
  {
    assert list == [list[0]] + ([list[1]] + ([list[2]] + ([list[3]] + ([list[4]] + []))));
    DecodedOne(list[0], [list[1]] + ([list[2]] + ([list[3]] + ([list[4]] + []))));
    DecodedOne(list[1], [list[2]] + ([list[3]] + ([list[4]] + [])));
    DecodedOne(list[2], [list[3]] + ([list[4]] + []));
    DecodedOne(list[3], [list[4]] + []);
    DecodedOne(list[4], []);
  }
}
