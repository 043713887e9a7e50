/** How many dynamic vectors there can be: 572 bitmaps are accepted and have a list. */
module Counting {
  import opened Registry
  import opened Text
  import opened Bitmap
  import opened Ledger
  import opened Protocol
  import opened Uniqueness

  // ---- Bits

  /** Bit k of a number. */
  predicate Bit(b: nat, k: nat) {
    if k == 0 then b % 2 == 1 else Bit(b / 2, k - 1)
  }

  lemma {:induction false} BitIsSet(b: nat, k: nat)
    ensures IsSet(b, Pow2(k)) <==> Bit(b, k)
  {
    AndStep(b, Pow2(k));
    if k > 0 {
      BitIsSet(b / 2, k - 1);
      assert Pow2(k) / 2 == Pow2(k - 1);
    } else {
      assert And(b / 2, 0) == 0;
    }
  }

  lemma FlagBits(b: nat)
    ensures IsSet(b, WRITE_OVERRIDE) <==> Bit(b, 1)
    ensures IsSet(b, OPEN_OVERRIDE) <==> Bit(b, 2)
    ensures IsSet(b, WRITE_LOGGED) <==> Bit(b, 8)
    ensures IsSet(b, OPEN_BLOCKED) <==> Bit(b, 9)
  {
    assert Pow2(1) == 2 && Pow2(2) == 4 && Pow2(3) == 8 && Pow2(4) == 16 && Pow2(5) == 32;
    assert Pow2(6) == 64 && Pow2(7) == 128 && Pow2(8) == 256 && Pow2(9) == 512;
    BitIsSet(b, 1);
    BitIsSet(b, 2);
    BitIsSet(b, 8);
    BitIsSet(b, 9);
  }

  lemma LowBits(q: nat, k: nat)
    requires k < 8
    ensures Bit(8 * q + k, 1) <==> (k / 2) % 2 == 1
    ensures Bit(8 * q + k, 2) <==> k / 4 == 1
  {
    var (b, x, y) := (8 * q + k, 4 * q + k / 2, 2 * q + k / 4);
    Halves(q, k);
    assert Bit(b, 1) == Bit(x, 0);
    assert Bit(b, 2) == Bit(x, 1) == Bit(y, 0);
  }

  lemma ThirdHalf(q: nat, k: nat, j: nat)
    requires k < 8
    ensures Bit(8 * q + k, j + 3) == Bit(q, j)
  {
    var (b, x, y) := (8 * q + k, 4 * q + k / 2, 2 * q + k / 4);
    Halves(q, k);
    assert Bit(b, j + 3) == Bit(x, j + 2);
    assert Bit(x, j + 2) == Bit(y, j + 1);
    assert Bit(y, j + 1) == Bit(q, j);
  }

  lemma BlockBits(q: nat, k: nat)
    requires k < 8
    ensures Bit(8 * q + k, 1) <==> (k / 2) % 2 == 1
    ensures Bit(8 * q + k, 2) <==> k / 4 == 1
    ensures Bit(8 * q + k, 8) <==> (q / 32) % 2 == 1
    ensures Bit(8 * q + k, 9) <==> (q / 64) % 2 == 1
  {
    LowBits(q, k);
    ThirdHalf(q, k, 5);
    ThirdHalf(q, k, 6);
    HighBits(q);
  }

  lemma Halves(q: nat, k: nat)
    requires k < 8
    ensures (8 * q + k) / 2 == 4 * q + k / 2 && (4 * q + k / 2) / 2 == 2 * q + k / 4 && (2 * q + k / 4) / 2 == q
    ensures (4 * q + k / 2) % 2 == (k / 2) % 2 && (2 * q + k / 4) % 2 == k / 4
  {
  }

  lemma HighBits(q: nat)
    ensures Bit(q, 5) <==> (q / 32) % 2 == 1
    ensures Bit(q, 6) <==> (q / 64) % 2 == 1
  {
    var (a, b, c, d, e, f) := (q / 2, q / 4, q / 8, q / 16, q / 32, q / 64);
    assert a / 2 == b && b / 2 == c && c / 2 == d && d / 2 == e && e / 2 == f;
    assert Bit(q, 5) == Bit(a, 4) == Bit(b, 3) == Bit(c, 2) == Bit(d, 1) == Bit(e, 0);
    assert Bit(q, 6) == Bit(a, 5) == Bit(b, 4) == Bit(c, 3) == Bit(d, 2) == Bit(e, 1) == Bit(f, 0);
  }

  // ---- Counting bitmaps

  function One(p: bool): nat {
    if p then 1 else 0
  }

  /** How many bitmaps below n are accepted. */
  function AcceptedBelow(n: nat): nat {
    if n == 0 then 0 else AcceptedBelow(n - 1) + One(Accepted(n - 1))
  }

  /** How many of them have a list. */
  function BuildableBelow(n: nat): nat {
    if n == 0 then 0 else BuildableBelow(n - 1) + One(Accepted(n - 1) && Buildable(n - 1))
  }

  /** How many in a block of eight are accepted: all, half of them or a quarter. */
  function InBlock(q: nat): nat {
    (if (q / 32) % 2 == 1 && (q / 64) % 2 == 1 then 2 else if (q / 32) % 2 == 1 || (q / 64) % 2 == 1 then 4 else 8)
  }

  /** Bitmap 8 q + k is accepted. */
  predicate Fits(q: nat, k: nat) {
    !((k / 2) % 2 == 1 && (q / 32) % 2 == 1) && !(k / 4 == 1 && (q / 64) % 2 == 1)
  }

  lemma AcceptedInBlock(q: nat, k: nat)
    requires q < 128 && k < 8
    ensures One(Accepted(8 * q + k)) == One(Fits(q, k))
  {
    FlagBits(8 * q + k);
    BlockBits(q, k);
  }

  lemma FitsInBlock(q: nat)
    ensures One(Fits(q, 0)) + One(Fits(q, 1)) + One(Fits(q, 2)) + One(Fits(q, 3))
      + One(Fits(q, 4)) + One(Fits(q, 5)) + One(Fits(q, 6)) + One(Fits(q, 7)) == InBlock(q)
  {
  }

  lemma EightMoreBelow(b: nat)
    ensures AcceptedBelow(b + 8) == AcceptedBelow(b)
      + One(Accepted(b)) + One(Accepted(b + 1)) + One(Accepted(b + 2)) + One(Accepted(b + 3))
      + One(Accepted(b + 4)) + One(Accepted(b + 5)) + One(Accepted(b + 6)) + One(Accepted(b + 7))
  {
    assert AcceptedBelow(b + 2) == AcceptedBelow(b) + One(Accepted(b)) + One(Accepted(b + 1));
    assert AcceptedBelow(b + 4) == AcceptedBelow(b + 2) + One(Accepted(b + 2)) + One(Accepted(b + 3));
    assert AcceptedBelow(b + 6) == AcceptedBelow(b + 4) + One(Accepted(b + 4)) + One(Accepted(b + 5));
  }

  lemma BlockOfEight(q: nat)
    requires q < 128
    ensures AcceptedBelow(8 * q + 8) == AcceptedBelow(8 * q) + InBlock(q)
  {
    EightMoreBelow(8 * q);
    FitsInBlock(q);
    AcceptedInBlock(q, 0); AcceptedInBlock(q, 1); AcceptedInBlock(q, 2); AcceptedInBlock(q, 3);
    AcceptedInBlock(q, 4); AcceptedInBlock(q, 5); AcceptedInBlock(q, 6); AcceptedInBlock(q, 7);
  }

  function Total(q: nat): nat {
    if q <= 32 then 8 * q
    else if q <= 64 then 256 + 4 * (q - 32)
    else if q <= 96 then 384 + 4 * (q - 64)
    else 512 + 2 * (q - 96)
  }

  lemma TotalNext(q: nat)
    requires q < 128
    ensures Total(q + 1) == Total(q) + InBlock(q)
  {
    if q < 32 {
      assert q / 32 == 0 && q / 64 == 0;
    } else if q < 64 {
      assert q / 32 == 1 && q / 64 == 0;
    } else if q < 96 {
      assert q / 32 == 2 && q / 64 == 1;
    } else {
      assert q / 32 == 3 && q / 64 == 1;
    }
  }

  lemma {:induction false} WholeBlocks(q: nat)
    requires q <= 128
    ensures AcceptedBelow(8 * q) == Total(q)
  {
    if q > 0 {
      var p: nat := q - 1;
      WholeBlocks(p);
      BlockOfEight(p);
      TotalNext(p);
      assert 8 * p + 8 == 8 * q;
    }
  }

  /** The accepted bitmaps without a list are 0, 64, 128 and 192. */
  lemma NoList(b: nat)
    requires b < 1024
    ensures Accepted(b) && !Buildable(b) <==> b == 0 || b == 64 || b == 128 || b == 192
  {
    if b == 0 || b == 64 || b == 128 || b == 192 {
      assert And(64, 831) == 0 && And(64, 2) == 0 && And(64, 4) == 0;
      assert And(128, 831) == 0 && And(128, 2) == 0 && And(128, 4) == 0;
      assert And(192, 831) == 0 && And(192, 2) == 0 && And(192, 4) == 0;
    } else if !Buildable(b) {
      TwoFlags(b);
    }
  }

  lemma TwoFlags(b: nat)
    requires b < 1024 && And(b, 831) == 0
    ensures b == 0 || b == 64 || b == 128 || b == 192
  {
    assert Pow2(6) == 64 && Pow2(7) == 128 && Pow2(10) == 1024;
    Masks();
    AllBits(b, 10);
    AndSplit(b, 831, 192);
    AndSplit(b, 64, 128);
    AndFlag(b, 6);
    AndFlag(b, 7);
  }

  lemma Masks()
    ensures And(831, 192) == 0 && And(64, 128) == 0
  {
    AndStep(831, 192); AndStep(415, 96); AndStep(207, 48); AndStep(103, 24);
    AndStep(51, 12); AndStep(25, 6); AndStep(12, 3); AndStep(6, 1);
    AndStep(64, 128); AndStep(32, 64); AndStep(16, 32); AndStep(8, 16); AndStep(4, 8); AndStep(2, 4); AndStep(1, 2);
  }

  lemma {:induction false} AllBits(b: nat, k: nat)
    requires b < Pow2(k)
    ensures And(b, Pow2(k) - 1) == b
  {
    if k > 0 {
      var p := Pow2(k - 1);
      AllBits(b / 2, k - 1);
      AndStep(b, 2 * p - 1);
      assert (2 * p - 1) / 2 == p - 1 && (2 * p - 1) % 2 == 1;
    }
  }

  lemma {:induction false} NoLists(n: nat)
    requires n <= 1024
    ensures AcceptedBelow(n) == BuildableBelow(n) + One(n > 0) + One(n > 64) + One(n > 128) + One(n > 192)
  {
    if n > 0 {
      NoLists(n - 1);
      NoList(n - 1);
    }
  }

  /** 576 bitmaps are accepted and 572 of them have a list. */
  lemma FiveHundredSeventyTwo(n: nat)
    requires n == 1024
    ensures AcceptedBelow(n) == 576 && BuildableBelow(n) == 572
  {
    WholeBlocks(128);
    NoLists(n);
  }

  // ---- Counting vectors

  function BuildableSet(n: nat): set<nat> {
    set b: nat | b < n && Accepted(b) && Buildable(b)
  }

  lemma {:induction false} BuildableSetSize(n: nat)
    ensures |BuildableSet(n)| == BuildableBelow(n)
  {
    if n > 0 {
      BuildableSetSize(n - 1);
      assert BuildableSet(n)
          == BuildableSet(n - 1) + if Accepted(n - 1) && Buildable(n - 1) then {n - 1} else {};
    }
  }

  lemma {:induction false} SubsetSize(a: set<nat>, b: set<nat>)
    requires a <= b
    ensures |a| <= |b|
  {
    if a != {} {
      var x :| x in a;
      SubsetSize(a - {x}, b - {x});
    }
  }

  /** A dynamic vector with a list. */
  predicate Listed(e: Entry) {
    e.owner == DYNAMIC && Buildable(e.bitmap)
  }

  function DynamicBitmaps(es: seq<Entry>): seq<nat> {
    if es == [] then []
    else if Listed(es[0]) then [es[0].bitmap] + DynamicBitmaps(es[1..])
    else DynamicBitmaps(es[1..])
  }

  lemma {:induction false} BitmapAt(es: seq<Entry>, j: nat) returns (i: nat)
    requires j < |DynamicBitmaps(es)|
    ensures i < |es| && Listed(es[i]) && es[i].bitmap == DynamicBitmaps(es)[j]
  {
    if Listed(es[0]) && j == 0 {
      i := 0;
    } else {
      i := BitmapAt(es[1..], if Listed(es[0]) then j - 1 else j);
      i := i + 1;
    }
  }

  /** These are the bitmaps of the dynamic vectors that have a list. */
  lemma {:induction false} DynamicBitmapsExact(es: seq<Entry>, b: nat)
    ensures b in DynamicBitmaps(es) <==> And(b, 831) != 0 && exists e :: e in es && e.owner == 0 && e.bitmap == b
  {
    if es != [] {
      DynamicBitmapsExact(es[1..], b);
      assert es == [es[0]] + es[1..];
    }
  }

  function Elements(s: seq<nat>): set<nat> {
    set b | b in s
  }

  /** The bitmaps are different and accepted, so there are no more than that. */
  lemma {:induction false} BitmapsDistinct(es: seq<Entry>)
    requires OnePerBitmap(es)
    ensures |DynamicBitmaps(es)| == |Elements(DynamicBitmaps(es))|
  {
    if es != [] {
      var (rest, later) := (es[1..], DynamicBitmaps(es[1..]));
      assert forall i | 0 <= i < |rest| :: rest[i] == es[i + 1];
      BitmapsDistinct(rest);
      if Listed(es[0]) {
        forall j | 0 <= j < |later| ensures later[j] != es[0].bitmap {
          var i := BitmapAt(rest, j);
          assert es[i + 1] == rest[i];
        }
        assert es[0].bitmap !in Elements(later);
        assert Elements([es[0].bitmap] + later) == {es[0].bitmap} + Elements(later);
      }
    }
  }

  lemma BitmapsBounded(es: seq<Entry>, n: nat)
    requires OnePerBitmap(es) && forall i | 0 <= i < |es| && es[i].owner == DYNAMIC :: Accepted(es[i].bitmap)
    requires n == 1024
    ensures |DynamicBitmaps(es)| <= 572
  {
    var found := Elements(DynamicBitmaps(es));
    forall b | b in found ensures b in BuildableSet(n) {
      var j :| 0 <= j < |DynamicBitmaps(es)| && DynamicBitmaps(es)[j] == b;
      var i := BitmapAt(es, j);
    }
    BitmapsDistinct(es);
    SubsetSize(found, BuildableSet(n));
    BuildableSetSize(n);
    FiveHundredSeventyTwo(n);
  }

  /** In every interleaving the dynamic module has at most 572 vectors with a list, all of them under
      bitmaps that are accepted, and all named and numbered by these. */
  lemma AtMost572(s: State)
    requires Attainable(s)
    ensures |DynamicBitmaps(s.reg.entries)| <= 572
    ensures forall i | 0 <= i < |s.reg.entries| && s.reg.entries[i].owner == DYNAMIC ::
              Standard(s.reg.entries[i]) && Accepted(s.reg.entries[i].bitmap)
  {
    AttainableUnique(s);
    DynamicsAreStandard(s);
    BitmapsBounded(s.reg.entries, 1024);
  }

  /** So as long as the static vectors are named and numbered like that too, as those of both modules are,
      twelve vectors are always printed into the 256 bytes of the ioctl. */
  lemma TwelveAreShown(s: State)
    requires Attainable(s) && |s.reg.entries| <= 12
    requires forall i | 0 <= i < |s.reg.entries| && s.reg.entries[i].owner != DYNAMIC :: Standard(s.reg.entries[i])
    ensures NumbersFit(s.reg.entries) && |Listing(s.reg.entries)| < BUF_LEN
  {
    AtMost572(s);
    ListingBound(s.reg.entries);
    TwelveFit(s.reg.entries);
  }
}
