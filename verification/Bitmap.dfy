/** Override bitmaps: which are accepted, and the list of overrides each of them stands for. */
module Bitmap {

  /** Bitwise and of two unsigned numbers. */
  function And(a: nat, b: nat): nat {
    if a == 0 || b == 0 then 0 else 2 * And(a / 2, b / 2) + (if a % 2 == 1 && b % 2 == 1 then 1 else 0)
  }

  const READ_OVERRIDE: nat := 1
  const WRITE_OVERRIDE: nat := 2
  const OPEN_OVERRIDE: nat := 4
  const CLOSE_OVERRIDE: nat := 8
  const UNLINK_OVERRIDE: nat := 16
  const LINK_OVERRIDE: nat := 32
  const MKDIR_OVERRIDE: nat := 64
  const RMDIR_OVERRIDE: nat := 128
  const WRITE_LOGGED: nat := 256
  const OPEN_BLOCKED: nat := 512

  /** Every flag the bitmap builder looks at; MKDIR_OVERRIDE and RMDIR_OVERRIDE are not among them. */
  const BUILT_FLAGS: nat := 831

  predicate IsSet(bitmap: nat, flag: nat) {
    And(bitmap, flag) != 0
  }

  /** validate_bitmap returns 0. */
  predicate Accepted(bitmap: nat) {
    && !(IsSet(bitmap, WRITE_OVERRIDE) && IsSet(bitmap, WRITE_LOGGED))
    && !(IsSet(bitmap, OPEN_OVERRIDE) && IsSet(bitmap, OPEN_BLOCKED))
    && bitmap <= 1023
  }

  /** The list built for this bitmap is not NULL. */
  predicate Buildable(bitmap: nat) {
    And(bitmap, BUILT_FLAGS) != 0
  }

  /** System call numbers and the functions that override them; a function is named by its flag. */
  datatype Syscall = Read | Write | Open | Close | Link | Unlink | Mkdir | Rmdir
  datatype Override = Override(nr: Syscall, flag: nat)

  /** The calls to add_syscall_to_vector, in the order the builder makes them. */
  const BUILD_ORDER: seq<Override> := [
    Override(Read, READ_OVERRIDE), Override(Write, WRITE_OVERRIDE), Override(Open, OPEN_OVERRIDE),
    Override(Close, CLOSE_OVERRIDE), Override(Link, LINK_OVERRIDE), Override(Unlink, UNLINK_OVERRIDE),
    Override(Write, WRITE_LOGGED), Override(Open, OPEN_BLOCKED)
  ]

  /** Those of the candidates whose flag is set. */
  function Chosen(bitmap: nat, candidates: seq<Override>): seq<Override> {
    if candidates == [] then []
    else if IsSet(bitmap, candidates[0].flag) then [candidates[0]] + Chosen(bitmap, candidates[1..])
    else Chosen(bitmap, candidates[1..])
  }

  /** The override list of a bitmap. */
  function Built(bitmap: nat): seq<Override> {
    Chosen(bitmap, BUILD_ORDER)
  }

  /** The flags a list of overrides stands for. */
  function Decoded(list: seq<Override>): nat {
    if list == [] then 0 else list[0].flag + Decoded(list[1..])
  }

  predicate DistinctSyscalls(list: seq<Override>) {
    forall i, j | 0 <= i < j < |list| :: list[i].nr != list[j].nr
  }

  function Pow2(k: nat): nat {
    if k == 0 then 1 else 2 * Pow2(k - 1)
  }

  lemma AndStep(a: nat, b: nat)
    ensures And(a, b) == 2 * And(a / 2, b / 2) + (if a % 2 == 1 && b % 2 == 1 then 1 else 0)
  {
    assert And(a / 2, 0) == 0 && And(0, b / 2) == 0;
  }

  /** A one-bit flag is there or not. */
  lemma {:induction false} AndFlag(a: nat, k: nat)
    ensures And(a, Pow2(k)) == 0 || And(a, Pow2(k)) == Pow2(k)
  {
    AndStep(a, Pow2(k));
    if k > 0 {
      AndFlag(a / 2, k - 1);
      assert Pow2(k) == 2 * Pow2(k - 1) && Pow2(k) / 2 == Pow2(k - 1);
    } else {
      assert And(a / 2, 0) == 0;
    }
  }

  lemma {:induction false} AndSplit(a: nat, m: nat, n: nat)
    requires And(m, n) == 0
    ensures And(a, m + n) == And(a, m) + And(a, n)
    decreases m + n
  {
    if m > 0 || n > 0 {
      AndStep(m, n);
      assert (m + n) / 2 == m / 2 + n / 2 && (m + n) % 2 == m % 2 + n % 2;
      AndSplit(a / 2, m / 2, n / 2);
      AndStep(a, m);
      AndStep(a, n);
      AndStep(a, m + n);
    }
  }

  function MaskOf(candidates: seq<Override>): nat {
    if candidates == [] then 0 else candidates[0].flag + MaskOf(candidates[1..])
  }

  ghost predicate OneBit(flag: nat) {
    exists k: nat :: flag == Pow2(k)
  }

  /** Every flag is one bit, and no bit is used twice. */
  ghost predicate OneBitEach(candidates: seq<Override>) {
    candidates != [] ==>
      && OneBit(candidates[0].flag)
      && And(candidates[0].flag, MaskOf(candidates[1..])) == 0
      && OneBitEach(candidates[1..])
  }

  lemma {:induction false} DecodedChosen(bitmap: nat, candidates: seq<Override>)
    requires OneBitEach(candidates)
    ensures Decoded(Chosen(bitmap, candidates)) == And(bitmap, MaskOf(candidates))
  {
    if candidates == [] {
      assert And(bitmap, 0) == 0;
    } else {
      DecodedChosen(bitmap, candidates[1..]);
      AndSplit(bitmap, candidates[0].flag, MaskOf(candidates[1..]));
      var k: nat :| candidates[0].flag == Pow2(k);
      AndFlag(bitmap, k);
      var rest := Chosen(bitmap, candidates[1..]);
      assert ([candidates[0]] + rest)[1..] == rest;
    }
  }

  lemma BuildOrderOneBitEach()
    ensures OneBitEach(BUILD_ORDER) && MaskOf(BUILD_ORDER) == BUILT_FLAGS
  {
    assert MaskOf(BUILD_ORDER[8..]) == 0;
    OneBits();
    Mask(7, 512, 0); Mask(6, 256, 512); Mask(5, 16, 768); Mask(4, 32, 784);
    Mask(3, 8, 816); Mask(2, 4, 824); Mask(1, 2, 828); Mask(0, 1, 830);
  }

  lemma OneBits()
    ensures OneBit(1) && OneBit(2) && OneBit(4) && OneBit(8) && OneBit(16) && OneBit(32) && OneBit(256) && OneBit(512)
  {
    assert Pow2(0) == 1 && Pow2(1) == 2 && Pow2(2) == 4 && Pow2(3) == 8 && Pow2(4) == 16 && Pow2(5) == 32;
    assert Pow2(6) == 64 && Pow2(7) == 128 && Pow2(8) == 256 && Pow2(9) == 512;
  }

  lemma Mask(k: nat, flag: nat, rest: nat)
    requires k < |BUILD_ORDER| && BUILD_ORDER[k].flag == flag
    requires MaskOf(BUILD_ORDER[k + 1..]) == rest
    requires OneBitEach(BUILD_ORDER[k + 1..])
    requires And(flag, rest) == 0
    requires OneBit(flag)
    ensures MaskOf(BUILD_ORDER[k..]) == flag + rest
    ensures OneBitEach(BUILD_ORDER[k..])
  {
    assert BUILD_ORDER[k..][1..] == BUILD_ORDER[k + 1..];
  }

  /** The list decodes back to the flags of the bitmap that the builder looks at. */
  lemma BuiltDecodes(bitmap: nat)
    ensures Decoded(Built(bitmap)) == And(bitmap, BUILT_FLAGS)
    ensures Built(bitmap) != [] <==> Buildable(bitmap)
  {
    BuildOrderOneBitEach();
    DecodedChosen(bitmap, BUILD_ORDER);
    ChosenFlags(bitmap, BUILD_ORDER);
  }

  lemma {:induction false} ChosenFlags(bitmap: nat, candidates: seq<Override>)
    ensures Chosen(bitmap, candidates) != [] ==> IsSet(bitmap, Chosen(bitmap, candidates)[0].flag)
    ensures (forall o | o in candidates :: o.flag > 0) && Chosen(bitmap, candidates) != []
            ==> Decoded(Chosen(bitmap, candidates)) > 0
  {
    if candidates != [] {
      ChosenFlags(bitmap, candidates[1..]);
      assert candidates[0] in candidates;
    }
  }

  /** Every two chosen overrides come from two candidates in the same order, both set. */
  lemma {:induction false} ChosenOrigin(bitmap: nat, candidates: seq<Override>, i: nat, j: nat) returns (p: nat, q: nat)
    requires i < j < |Chosen(bitmap, candidates)|
    ensures p < q < |candidates|
    ensures Chosen(bitmap, candidates)[i] == candidates[p] && Chosen(bitmap, candidates)[j] == candidates[q]
    ensures IsSet(bitmap, candidates[p].flag) && IsSet(bitmap, candidates[q].flag)
  {
    if !IsSet(bitmap, candidates[0].flag) {
      p, q := ChosenOrigin(bitmap, candidates[1..], i, j);
      p, q := p + 1, q + 1;
    } else if i > 0 {
      p, q := ChosenOrigin(bitmap, candidates[1..], i - 1, j - 1);
      p, q := p + 1, q + 1;
    } else {
      q := ChosenOne(bitmap, candidates[1..], j - 1);
      p, q := 0, q + 1;
    }
  }

  lemma {:induction false} ChosenOne(bitmap: nat, candidates: seq<Override>, j: nat) returns (q: nat)
    requires j < |Chosen(bitmap, candidates)|
    ensures q < |candidates| && Chosen(bitmap, candidates)[j] == candidates[q] && IsSet(bitmap, candidates[q].flag)
  {
    if !IsSet(bitmap, candidates[0].flag) {
      q := ChosenOne(bitmap, candidates[1..], j);
      q := q + 1;
    } else if j > 0 {
      q := ChosenOne(bitmap, candidates[1..], j - 1);
      q := q + 1;
    } else {
      q := 0;
    }
  }

  /** A list overrides each system call once exactly when the bitmap sets at most one flavour of
      write and one of open, which is what validate_bitmap checks before the range. */
  lemma BuiltDistinct(bitmap: nat)
    ensures DistinctSyscalls(Built(bitmap))
       <==> && !(IsSet(bitmap, WRITE_OVERRIDE) && IsSet(bitmap, WRITE_LOGGED))
            && !(IsSet(bitmap, OPEN_OVERRIDE) && IsSet(bitmap, OPEN_BLOCKED))
    ensures Accepted(bitmap) <==> bitmap <= 1023 && DistinctSyscalls(Built(bitmap))
  {
    var list := Built(bitmap);
    if i: nat, j: nat :| i < j < |list| && list[i].nr == list[j].nr {
      var p, q := ChosenOrigin(bitmap, BUILD_ORDER, i, j);
      assert (p == 1 && q == 6) || (p == 2 && q == 7);
    }
    if IsSet(bitmap, WRITE_OVERRIDE) && IsSet(bitmap, WRITE_LOGGED) {
      BothChosen(bitmap, BUILD_ORDER, 1, 6);
    }
    if IsSet(bitmap, OPEN_OVERRIDE) && IsSet(bitmap, OPEN_BLOCKED) {
      BothChosen(bitmap, BUILD_ORDER, 2, 7);
    }
  }

  /** Two candidates that are both set appear one after the other. */
  lemma {:induction false} BothChosen(bitmap: nat, candidates: seq<Override>, p: nat, q: nat)
    requires p < q < |candidates|
    requires IsSet(bitmap, candidates[p].flag) && IsSet(bitmap, candidates[q].flag)
    ensures exists i, j :: 0 <= i < j < |Chosen(bitmap, candidates)|
              && Chosen(bitmap, candidates)[i] == candidates[p] && Chosen(bitmap, candidates)[j] == candidates[q]
  {
    var list := Chosen(bitmap, candidates);
    if p > 0 {
      BothChosen(bitmap, candidates[1..], p - 1, q - 1);
      var rest := Chosen(bitmap, candidates[1..]);
      var i, j :| 0 <= i < j < |rest| && rest[i] == candidates[p] && rest[j] == candidates[q];
      var d := |list| - |rest|;
      assert list[i + d] == candidates[p] && list[j + d] == candidates[q];
    } else {
      var j := IsChosen(bitmap, candidates[1..], q - 1);
      assert list[0] == candidates[p] && list[j + 1] == candidates[q];
    }
  }

  lemma {:induction false} IsChosen(bitmap: nat, candidates: seq<Override>, q: nat) returns (j: nat)
    requires q < |candidates| && IsSet(bitmap, candidates[q].flag)
    ensures j < |Chosen(bitmap, candidates)| && Chosen(bitmap, candidates)[j] == candidates[q]
  {
    if q == 0 {
      j := 0;
    } else {
      j := IsChosen(bitmap, candidates[1..], q - 1);
      j := if IsSet(bitmap, candidates[0].flag) then j + 1 else j;
    }
  }
}
