/** The text form of the registry: three lines an entry, numbers in decimal. */
module Text {
  import opened Registry

  predicate IsDigit(c: char) {
    '0' <= c <= '9'
  }

  predicate Digits(s: string) {
    forall i | 0 <= i < |s| :: IsDigit(s[i])
  }

  function Digit(n: nat): (c: char)
    requires n < 10
    ensures IsDigit(c) && c as int - '0' as int == n
  {
    ('0' as int + n) as char
  }

  /** What sprintf prints for "%lu", and for "%d" below 2^31. */
  function Decimal(n: nat): (s: string)
    ensures s != "" && Digits(s)
  {
    if n < 10 then [Digit(n)] else Decimal(n / 10) + [Digit(n % 10)]
  }

  /** The number a digit string denotes. */
  function Value(s: string): (n: nat)
    requires Digits(s)
  {
    if s == "" then 0 else 10 * Value(s[..|s| - 1]) + (s[|s| - 1] as int - '0' as int)
  }

  lemma {:induction false} DecimalRoundTrip(n: nat)
    ensures Value(Decimal(n)) == n
  {
    if n < 10 {
      assert Decimal(n)[..0] == "";
    } else {
      DecimalRoundTrip(n / 10);
      assert Decimal(n)[..|Decimal(n)| - 1] == Decimal(n / 10);
    }
  }

  lemma DecimalInjective(m: nat, n: nat)
    ensures Decimal(m) == Decimal(n) <==> m == n
  {
    DecimalRoundTrip(m);
    DecimalRoundTrip(n);
  }

  /** At most four digits are printed for a bitmap within the range that is accepted. */
  lemma DecimalShort(n: nat)
    requires n <= 1023
    ensures |Decimal(n)| <= 4
  {
    assert |Decimal(n / 1000)| == 1;
    assert |Decimal(n / 100)| <= 2;
    assert |Decimal(n / 10)| <= 3;
  }

  const LF: string := "\n"
  const UNASSIGNED: string := "vector not assigned"
  const NONE_PRESENT: string := "no vectors present"

  /** A name that survives being printed on a line of its own. */
  predicate NameOk(name: string) {
    name != "" && '\n' !in name
  }

  function Record(e: Entry): string {
    e.name + LF + Decimal(e.id) + LF + Decimal(e.bitmap) + LF
  }

  /** What show_all_vectors prints. */
  function Listing(es: seq<Entry>): string {
    if es == [] then "" else Record(es[0]) + Listing(es[1..])
  }

  lemma {:induction false} ListingSnoc(es: seq<Entry>, e: Entry)
    ensures Listing(es + [e]) == Listing(es) + Record(e)
  {
    if es == [] {
      assert [e][1..] == [];
    } else {
      assert (es + [e])[1..] == es[1..] + [e];
      ListingSnoc(es[1..], e);
    }
  }

  lemma {:induction false} ListingConcat(es: seq<Entry>, fs: seq<Entry>)
    ensures Listing(es + fs) == Listing(es) + Listing(fs)
  {
    if es == [] {
      assert es + fs == fs;
    } else {
      assert (es + fs)[1..] == es[1..] + fs;
      ListingConcat(es[1..], fs);
    }
  }

  lemma ListingPrefix(es: seq<Entry>, n: nat)
    requires n <= |es|
    ensures |Listing(es[..n])| <= |Listing(es)|
  {
    ListingConcat(es[..n], es[n..]);
    assert es == es[..n] + es[n..];
  }

  lemma ListingNext(es: seq<Entry>, i: nat)
    requires i < |es|
    ensures Listing(es[..i + 1]) == Listing(es[..i]) + Record(es[i])
    ensures |Listing(es[..i + 1])| <= |Listing(es)|
  {
    assert es[..i + 1] == es[..i] + [es[i]];
    ListingSnoc(es[..i], es[i]);
    ListingPrefix(es, i + 1);
  }

  /** Every number fits the array of eight characters that sprintf prints it to. */
  predicate NumbersFit(es: seq<Entry>) {
    forall i | 0 <= i < |es| :: NumberFits(es[i])
  }

  predicate NumberFits(e: Entry) {
    |Decimal(e.id)| < 8 && |Decimal(e.bitmap)| < 8
  }

  /** Those of the entry that show_my_vector prints do. */
  predicate MineFits(es: seq<Entry>, vec: nat) {
    vec != 0 && Has(es, ByAddr(vec)) ==> NumberFits(es[Find(es, ByAddr(vec))])
  }

  /** What show_my_vector leaves in a cleared buffer. */
  function Mine(es: seq<Entry>, vec: nat): string {
    if vec == 0 then UNASSIGNED
    else if Has(es, ByAddr(vec)) then Record(es[Find(es, ByAddr(vec))]) else ""
  }

  /** The name the bitmap builder gives a vector. */
  function DynamicName(bitmap: nat): (s: string)
    ensures NameOk(s)
  {
    "Vector" + Decimal(bitmap)
  }

  lemma DynamicNameInjective(m: nat, n: nat)
    ensures DynamicName(m) == DynamicName(n) <==> m == n
  {
    assert DynamicName(m)[6..] == Decimal(m) && DynamicName(n)[6..] == Decimal(n);
    DecimalInjective(m, n);
  }

  /** Name and bitmap are interchangeable keys while every entry carries the builder's name. */
  lemma {:induction false} NameAndBitmapAgree(es: seq<Entry>, b: nat)
    requires forall e | e in es :: e.name == DynamicName(e.bitmap)
    ensures Find(es, ByName(DynamicName(b))) == Find(es, ByBitmap(b))
  {
    if es != [] {
      assert es[0] in es;
      DynamicNameInjective(es[0].bitmap, b);
      NameAndBitmapAgree(es[1..], b);
    }
  }

  lemma SameEffectByNameOrBitmap(r: Table, b: nat)
    requires forall e | e in r.entries :: e.name == DynamicName(e.bitmap)
    ensures Acquire(r, ByName(DynamicName(b))) == Acquire(r, ByBitmap(b))
    ensures Release(r, ByName(DynamicName(b))) == Release(r, ByBitmap(b))
  {
    NameAndBitmapAgree(r.entries, b);
  }

  /** if_assigned_reduce looks for an entry whose name is a whole record, so over names without line
      breaks it never releases anything. */
  lemma RecordIsNoName(es: seq<Entry>, text: string)
    requires forall e | e in es :: NameOk(e.name)
    requires '\n' in text
    ensures !Has(es, ByName(text))
  {
    assert forall i | 0 <= i < |es| :: NameOk(es[i].name);
  }

  lemma RecordHasLineBreak(e: Entry)
    ensures '\n' in Record(e)
  {
    assert Record(e)[|e.name|] == '\n';
  }

  /** Entries as the kernel modules register them: named by an accepted bitmap. */
  predicate Standard(e: Entry) {
    e.bitmap <= 1023 && e.id == e.bitmap && e.name == DynamicName(e.bitmap)
  }

  lemma {:induction false} ListingBound(es: seq<Entry>)
    requires forall i | 0 <= i < |es| :: Standard(es[i])
    ensures |Listing(es)| <= 21 * |es|
    ensures NumbersFit(es)
  {
    if es != [] {
      DecimalShort(es[0].bitmap);
      assert forall i | 0 <= i < |es[1..]| :: Standard(es[1..][i]);
      ListingBound(es[1..]);
      assert forall i | 0 <= i < |es| :: i > 0 ==> es[i] == es[1..][i - 1];
    }
  }

  const BUF_LEN: nat := 256

  /** Twelve standard entries always fit the buffer of the ioctl with room for its end mark. */
  lemma TwelveFit(es: seq<Entry>)
    requires |es| <= 12 && forall i | 0 <= i < |es| :: Standard(es[i])
    ensures |Listing(es)| < BUF_LEN
  {
    ListingBound(es);
  }

  /** Twelve is the most that is always safe. */
  lemma ThirteenMayNotFit() returns (es: seq<Entry>)
    ensures |es| == 13 && (forall i | 0 <= i < |es| :: Standard(es[i]))
    ensures |Listing(es)| > BUF_LEN
  {
    var e := Entry(DynamicName(1023), 1023, 1, 0, 1023, 0);
    es := seq(13, _ => e);
    assert |Decimal(10)| == 2;
    assert |Decimal(102)| == 3;
    assert |Decimal(1023)| == 4;
    ListingOfCopies(e, 13);
  }

  lemma {:induction false} ListingOfCopies(e: Entry, n: nat)
    ensures |Listing(seq(n, _ => e))| == n * |Record(e)|
  {
    if n > 0 {
      var rest := seq(n - 1, _ => e);
      ListingOfCopies(e, n - 1);
      assert seq(n, _ => e) == [e] + rest;
      assert ([e] + rest)[1..] == rest;
      assert n * |Record(e)| == (n - 1) * |Record(e)| + |Record(e)|;
    }
  }
}
