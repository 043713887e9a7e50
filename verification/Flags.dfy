/** What the bits of a bitmap mean, in numbers: which system call each of them overrides in the lists that are
    built, and which of them the client prints. */
module Flags {
  import opened Bitmap
  import opened Counting
  import opened Display
  import opened StaticModule
  import opened Text

  /** overridden_syscalls.h, with the system call that each function is for. */
  predicate Replaces(o: Override) {
    || o == Override(Read, 1) || o == Override(Write, 2) || o == Override(Open, 4) || o == Override(Close, 8)
    || o == Override(Unlink, 16) || o == Override(Link, 32) || o == Override(Mkdir, 64) || o == Override(Rmdir, 128)
    || o == Override(Write, 256) || o == Override(Open, 512)
  }

  // ---- The lists

  lemma {:induction false} ChosenContains(bitmap: nat, candidates: seq<Override>, o: Override)
    ensures o in Chosen(bitmap, candidates) <==> o in candidates && IsSet(bitmap, o.flag)
  {
    if candidates != [] {
      ChosenContains(bitmap, candidates[1..], o);
      assert candidates == [candidates[0]] + candidates[1..];
    }
  }

  /** The list of a bitmap has, for each flag that is set but the two for directories, the override that the
      flag is for, and nothing else. */
  lemma BuiltContains(bitmap: nat, o: Override)
    ensures o in Built(bitmap) <==> Replaces(o) && o.flag != 64 && o.flag != 128 && And(bitmap, o.flag) != 0
  {
    ChosenContains(bitmap, BUILD_ORDER, o);
    assert o in BUILD_ORDER <==> Replaces(o) && o.flag != 64 && o.flag != 128;
  }

  /** The turn in which the builder and the client come to a flag. */
  function Turn(f: nat): nat {
    if f == 1 then 0 else if f == 2 then 1 else if f == 4 then 2 else if f == 8 then 3 else if f == 32 then 4
    else if f == 16 then 5 else if f == 64 then 6 else if f == 128 then 7 else if f == 256 then 8 else 9
  }

  predicate NodesInTurn(list: seq<Override>) {
    forall i, j | 0 <= i < j < |list| :: Turn(list[i].flag) < Turn(list[j].flag)
  }

  lemma {:induction false} ChosenInTurn(bitmap: nat, candidates: seq<Override>)
    requires NodesInTurn(candidates)
    ensures NodesInTurn(Chosen(bitmap, candidates))
  {
    if candidates != [] {
      var rest := Chosen(bitmap, candidates[1..]);
      ChosenInTurn(bitmap, candidates[1..]);
      forall j | 0 <= j < |rest| ensures Turn(candidates[0].flag) < Turn(rest[j].flag) {
        ChosenContains(bitmap, candidates[1..], rest[j]);
        var k :| 0 <= k < |candidates[1..]| && candidates[1..][k] == rest[j];
        assert candidates[k + 1] == rest[j];
      }
    }
  }

  /** The nodes come in the order in which the builder looks at the flags, so each at most once. */
  lemma BuiltInTurn(bitmap: nat)
    ensures NodesInTurn(Built(bitmap))
  {
    ChosenInTurn(bitmap, BUILD_ORDER);
  }

  ghost predicate Overridden(list: seq<Override>, call: Syscall) {
    exists o :: o in list && o.nr == call
  }

  lemma OverriddenBy(bitmap: nat, call: Syscall, f: nat, g: nat)
    requires Replaces(Override(call, f)) && Replaces(Override(call, g)) && f !in {64, 128} && g !in {64, 128}
    requires forall o | Replaces(o) && o.nr == call :: o.flag == f || o.flag == g
    ensures Overridden(Built(bitmap), call) <==> And(bitmap, f) != 0 || And(bitmap, g) != 0
  {
    BuiltContains(bitmap, Override(call, f));
    BuiltContains(bitmap, Override(call, g));
    if o :| o in Built(bitmap) && o.nr == call {
      BuiltContains(bitmap, o);
    }
  }

  lemma NeverOverridden(bitmap: nat, call: Syscall)
    requires call == Mkdir || call == Rmdir
    ensures !Overridden(Built(bitmap), call)
  {
    if o :| o in Built(bitmap) && o.nr == call {
      BuiltContains(bitmap, o);
    }
  }

  /** Which system calls a created vector overrides. */
  lemma BuiltOverrides(bitmap: nat)
    ensures Overridden(Built(bitmap), Read) <==> And(bitmap, 1) != 0
    ensures Overridden(Built(bitmap), Write) <==> And(bitmap, 2) != 0 || And(bitmap, 256) != 0
    ensures Overridden(Built(bitmap), Open) <==> And(bitmap, 4) != 0 || And(bitmap, 512) != 0
    ensures Overridden(Built(bitmap), Close) <==> And(bitmap, 8) != 0
    ensures Overridden(Built(bitmap), Unlink) <==> And(bitmap, 16) != 0
    ensures Overridden(Built(bitmap), Link) <==> And(bitmap, 32) != 0
    ensures !Overridden(Built(bitmap), Mkdir) && !Overridden(Built(bitmap), Rmdir)
  {
    OverriddenBy(bitmap, Read, 1, 1);
    OverriddenBy(bitmap, Write, 2, 256);
    OverriddenBy(bitmap, Open, 4, 512);
    OverriddenBy(bitmap, Close, 8, 8);
    OverriddenBy(bitmap, Unlink, 16, 16);
    OverriddenBy(bitmap, Link, 32, 32);
    NeverOverridden(bitmap, Mkdir);
    NeverOverridden(bitmap, Rmdir);
  }

  lemma FlagIsBit(n: nat, k: nat, f: nat)
    requires f == Pow2(k)
    ensures And(n, f) != 0 <==> Bit(n, k)
  {
    BitIsSet(n, k);
  }

  lemma FlagsAreBits(n: nat)
    ensures (And(n, 1) != 0 <==> Bit(n, 0)) && (And(n, 2) != 0 <==> Bit(n, 1)) && (And(n, 4) != 0 <==> Bit(n, 2))
    ensures (And(n, 8) != 0 <==> Bit(n, 3)) && (And(n, 16) != 0 <==> Bit(n, 4)) && (And(n, 32) != 0 <==> Bit(n, 5))
    ensures (And(n, 256) != 0 <==> Bit(n, 8)) && (And(n, 512) != 0 <==> Bit(n, 9))
  {
    FlagIsBit(n, 0, 1); FlagIsBit(n, 1, 2); FlagIsBit(n, 2, 4); FlagIsBit(n, 3, 8);
    FlagIsBit(n, 4, 16); FlagIsBit(n, 5, 32); FlagIsBit(n, 8, 256); FlagIsBit(n, 9, 512);
  }

  lemma BitsOf55()
    ensures Bit(55, 0) && Bit(55, 1) && Bit(55, 2) && !Bit(55, 3) && Bit(55, 4) && Bit(55, 5)
    ensures !Bit(55, 8) && !Bit(55, 9)
  {
  }

  lemma BitsOf968()
    ensures !Bit(968, 0) && !Bit(968, 1) && !Bit(968, 2) && Bit(968, 3) && !Bit(968, 4) && !Bit(968, 5)
    ensures Bit(968, 8) && Bit(968, 9)
  {
  }

  /** vector1_module has what the builder would make of its bitmap, in another order. */
  lemma Vector1Overrides(o: Override)
    ensures BITMAP1 == 55 && (o in VECTOR1 <==> o in Built(55))
    ensures |VECTOR1| == 5 && forall k | 0 <= k < 5 :: VECTOR1[k].flag == [32, 16, 1, 4, 2][k]
  {
    BuiltContains(55, o);
    FlagsAreBits(55);
    BitsOf55();
  }

  /** vector2_module has that, and the two directory calls besides. */
  lemma Vector2Overrides(o: Override)
    ensures BITMAP2 == 968
    ensures |VECTOR2| == 5 && forall k | 0 <= k < 5 :: VECTOR2[k].flag == [64, 128, 256, 512, 8][k]
    ensures o in VECTOR2 <==> o in Built(968) || o == Override(Mkdir, 64) || o == Override(Rmdir, 128)
  {
    BuiltContains(968, o);
    FlagsAreBits(968);
    BitsOf968();
  }

  // ---- The printed flags

  lemma {:induction false} TestedContains(n: int, flags: seq<nat>, f: nat)
    ensures f in Tested(n, flags) <==> f in flags && Tests(n, f)
  {
    if flags != [] {
      TestedContains(n, flags[1..], f);
      assert flags == [flags[0]] + flags[1..];
    }
  }

  predicate InTurn(flags: seq<nat>) {
    forall i, j | 0 <= i < j < |flags| :: Turn(flags[i]) < Turn(flags[j])
  }

  lemma {:induction false} TestedInTurn(n: int, flags: seq<nat>)
    requires InTurn(flags)
    ensures InTurn(Tested(n, flags))
  {
    if flags != [] {
      var rest := Tested(n, flags[1..]);
      TestedInTurn(n, flags[1..]);
      forall j | 0 <= j < |rest| ensures Turn(flags[0]) < Turn(rest[j]) {
        TestedContains(n, flags[1..], rest[j]);
        var k :| 0 <= k < |flags[1..]| && flags[1..][k] == rest[j];
        assert flags[k + 1] == rest[j];
      }
    }
  }

  function SumOf(flags: seq<nat>): nat {
    if flags == [] then 0 else flags[0] + SumOf(flags[1..])
  }

  /** Every flag is one bit, and no bit is used twice. */
  ghost predicate Apart(flags: seq<nat>) {
    flags != [] ==> OneBit(flags[0]) && And(flags[0], SumOf(flags[1..])) == 0 && Apart(flags[1..])
  }

  lemma {:induction false} TestedSum(n: nat, flags: seq<nat>)
    requires Apart(flags)
    ensures SumOf(Tested(n, flags)) == And(n, SumOf(flags))
  {
    if flags == [] {
      assert And(n, 0) == 0;
    } else {
      var (f, rest) := (flags[0], flags[1..]);
      TestedSum(n, rest);
      AndSplit(n, f, SumOf(rest));
      var k: nat :| f == Pow2(k);
      AndFlag(n, k);
      if Tests(n, f) {
        assert Tested(n, flags) == [f] + Tested(n, rest) && ([f] + Tested(n, rest))[1..] == Tested(n, rest);
      } else {
        assert Tested(n, flags) == Tested(n, rest);
      }
    }
  }

  lemma ApartFrom(k: nat, f: nat, rest: nat)
    requires k < |FLAGS| && FLAGS[k] == f && SumOf(FLAGS[k + 1..]) == rest && Apart(FLAGS[k + 1..])
    requires OneBit(f) && And(f, rest) == 0
    ensures SumOf(FLAGS[k..]) == f + rest && Apart(FLAGS[k..])
  {
    assert FLAGS[k..][1..] == FLAGS[k + 1..];
  }

  lemma TopFlagsApart()
    ensures Apart(FLAGS[8..]) && SumOf(FLAGS[8..]) == 768
  {
    OneBits();
    assert FLAGS[10..] == [];
    ApartFrom(9, 512, 0); ApartFrom(8, 256, 512);
  }

  lemma DirectoryBits()
    ensures OneBit(64) && OneBit(128)
  {
    assert Pow2(6) == 64 && Pow2(7) == 128;
  }

  lemma DirectoryFlagsApart()
    ensures Apart(FLAGS[6..]) && SumOf(FLAGS[6..]) == 960
  {
    DirectoryBits();
    TopFlagsApart();
    ApartFrom(7, 128, 768); ApartFrom(6, 64, 896);
  }

  lemma HighFlagsApart()
    ensures Apart(FLAGS[5..]) && SumOf(FLAGS[5..]) == 976
  {
    OneBits();
    DirectoryFlagsApart();
    ApartFrom(5, 16, 960);
  }

  lemma FlagsApart()
    ensures Apart(FLAGS) && SumOf(FLAGS) == 1023
  {
    OneBits();
    HighFlagsApart();
    ApartFrom(4, 32, 976); ApartFrom(3, 8, 1008); ApartFrom(2, 4, 1016); ApartFrom(1, 2, 1020);
    ApartFrom(0, 1, 1022);
    assert FLAGS[0..] == FLAGS;
  }

  predicate KnownFlag(f: nat) {
    f in {1, 2, 4, 8, 16, 32, 64, 128, 256, 512}
  }

  /** What the client prints for a bitmap: exactly the flags that are set, each once and in
      turn; within the range that is accepted they add up to the bitmap. */
  lemma PrintedFlags(n: nat)
    ensures forall f :: f in Tested(n, FLAGS) <==> KnownFlag(f) && And(n, f) != 0
    ensures InTurn(Tested(n, FLAGS))
    ensures n <= 1023 ==> SumOf(Tested(n, FLAGS)) == n
  {
    forall f ensures f in Tested(n, FLAGS) <==> KnownFlag(f) && And(n, f) != 0 {
      TestedContains(n, FLAGS, f);
      assert f in FLAGS <==> KnownFlag(f);
    }
    TestedInTurn(n, FLAGS);
    FlagsApart();
    TestedSum(n, FLAGS);
    if n <= 1023 {
      assert Pow2(10) == 1024;
      AllBits(n, 10);
    }
  }

  /** They are the flags of the list that is built for the bitmap if and only if the bitmap has neither of the
      two for directories. */
  lemma PrintedIsBuilt(n: nat)
    ensures (forall f :: f in Tested(n, FLAGS) <==> exists o :: o in Built(n) && o.flag == f)
       <==> And(n, 64) == 0 && And(n, 128) == 0
  {
    PrintedFlags(n);
    forall f ensures (exists o :: o in Built(n) && o.flag == f) <==> KnownFlag(f) && f !in {64, 128} && And(n, f) != 0 {
      FlagOfBuilt(n, f);
    }
    assert KnownFlag(64) && KnownFlag(128);
  }

  lemma FlagOfBuilt(n: nat, f: nat)
    ensures (exists o :: o in Built(n) && o.flag == f) <==> KnownFlag(f) && f !in {64, 128} && And(n, f) != 0
  {
    if o :| o in Built(n) && o.flag == f {
      BuiltContains(n, o);
    }
    if KnownFlag(f) && f !in {64, 128} && And(n, f) != 0 {
      var o := Override(CallOf(f), f);
      BuiltContains(n, o);
    }
  }

  function CallOf(f: nat): (call: Syscall)
    requires KnownFlag(f)
    ensures Replaces(Override(call, f))
  {
    if f == 1 then Read else if f == 2 || f == 256 then Write else if f == 4 || f == 512 then Open
    else if f == 8 then Close else if f == 16 then Unlink else if f == 32 then Link else if f == 64 then Mkdir
    else Rmdir
  }

  // ---- Negative numbers

  lemma {:induction false} Complement(x: nat, k: nat, j: nat)
    requires j < k && x < Pow2(k)
    ensures And(Pow2(k) - 1 - x, Pow2(j)) == 0 <==> And(x, Pow2(j)) != 0
  {
    var (y, p) := (Pow2(k) - 1 - x, Pow2(k - 1));
    AndStep(x, Pow2(j));
    AndStep(y, Pow2(j));
    if j > 0 {
      Complement(x / 2, k - 1, j - 1);
      assert y / 2 == p - 1 - x / 2 && Pow2(j) / 2 == Pow2(j - 1) && Pow2(j) % 2 == 0;
    } else {
      assert And(x / 2, 0) == 0 && And(y / 2, 0) == 0 && y % 2 == 1 - x % 2;
    }
  }

  /** A bit of a negative int is that of its two's complement in 32 bits. */
  lemma NegativeFlag(n: int, j: nat)
    requires -0x8000_0000 <= n < 0 && j < 32
    ensures Tests(n, Pow2(j)) <==> And(n + 0x1_0000_0000, Pow2(j)) != 0
  {
    assert Pow2(8) == 256 && Pow2(16) == 65536;
    PowAdd(16, 16);
    Complement(n + 0x1_0000_0000, 32, j);
  }

  lemma {:induction false} PowAdd(a: nat, b: nat)
    ensures Pow2(a + b) == Pow2(a) * Pow2(b)
  {
    if b > 0 {
      PowAdd(a, b - 1);
    }
  }

  // ---- The numbers the client reads

  predicate Blank(s: string) {
    forall i | 0 <= i < |s| :: s[i] == ' ' || s[i] == '\t' || s[i] == '\r' || s[i] == '\n'
  }

  lemma {:induction false} DigitsCounted(s: string, rest: string)
    requires Digits(s) && (rest == "" || !IsDigit(rest[0]))
    ensures DigitCount(s + rest) == |s|
  {
    if s == "" {
      assert s + rest == rest;
    } else {
      assert (s + rest)[1..] == s[1..] + rest;
      DigitsCounted(s[1..], rest);
    }
  }

  lemma LeadingDecimal(n: nat, rest: string)
    requires rest == "" || !IsDigit(rest[0])
    ensures Leading(Decimal(n) + rest) == n
  {
    DigitsCounted(Decimal(n), rest);
    assert (Decimal(n) + rest)[..|Decimal(n)|] == Decimal(n);
    DecimalRoundTrip(n);
  }

  /** What the digits come after, and what strtol makes of the number then. */
  function Signed(sign: string, n: nat): int {
    if sign == "-" then -(n as int) else n
  }

  /** strtol: blanks are skipped, then a sign counts, and the number ends where its digits do. */
  lemma {:induction false} StrtolReads(blanks: string, sign: string, n: nat, rest: string)
    requires Blank(blanks) && (sign == "" || sign == "-" || sign == "+") && (rest == "" || !IsDigit(rest[0]))
    ensures Strtol(blanks + (sign + (Decimal(n) + rest))) == Signed(sign, n)
  {
    var number := Decimal(n) + rest;
    var text := sign + number;
    if blanks == "" {
      LeadingDecimal(n, rest);
      assert blanks + text == text && IsDigit(number[0]);
      assert sign != "" ==> text[1..] == number;
      assert sign == "" ==> text == number;
    } else {
      assert (blanks + text)[1..] == blanks[1..] + text;
      StrtolReads(blanks[1..], sign, n, rest);
    }
  }
}
