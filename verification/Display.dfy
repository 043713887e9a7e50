/** display_vectors of the demo client, which takes the registry text apart again. */
module Display {
  import opened Registry
  import opened Text
  import opened Bitmap
  import VectorList

  // ---- strtok on line breaks

  /** The first position of a character, or the length. */
  function IndexOf(s: string, c: char): (k: nat)
    ensures k <= |s| && (forall i | 0 <= i < k :: s[i] != c) && (k < |s| ==> s[k] == c)
  {
    if s == "" || s[0] == c then 0 else 1 + IndexOf(s[1..], c)
  }

  lemma {:induction false} IndexOfUnique(s: string, c: char, k: nat)
    requires k <= |s| && (forall i | 0 <= i < k :: s[i] != c) && (k < |s| ==> s[k] == c)
    ensures IndexOf(s, c) == k
  {
    if k > 0 {
      IndexOfUnique(s[1..], c, k - 1);
    }
  }

  /** What repeated strtok calls return: the lines, without the empty ones. */
  function Tokens(s: string): seq<string> {
    if s == "" then []
    else if s[0] == '\n' then Tokens(s[1..])
    else var k := IndexOf(s, '\n'); [s[..k]] + Tokens(s[if k < |s| then k + 1 else k..])
  }

  lemma {:induction false} TokensAreNames(s: string)
    ensures forall i | 0 <= i < |Tokens(s)| :: NameOk(Tokens(s)[i])
    decreases |s|
  {
    if s != "" {
      var k := IndexOf(s, '\n');
      TokensAreNames(if s[0] == '\n' then s[1..] else s[if k < |s| then k + 1 else k..]);
    }
  }

  lemma TokensOfLine(line: string, rest: string)
    requires NameOk(line)
    ensures Tokens(line + LF + rest) == [line] + Tokens(rest)
  {
    var s := line + LF + rest;
    IndexOfUnique(s, '\n', |line|);
    assert s[..|line|] == line && s[|line| + 1..] == rest;
  }

  // ---- What is printed

  /** The number strtol reads: blanks, a sign, and digits up to the first other character. */
  function Strtol(s: string): int {
    if s == "" then 0
    else if s[0] in " \t\r\n" then Strtol(s[1..])
    else if s[0] == '-' then -(Leading(s[1..]) as int)
    else if s[0] == '+' then Leading(s[1..])
    else Leading(s)
  }

  function DigitCount(s: string): (k: nat)
    ensures k <= |s| && Digits(s[..k]) && (k < |s| ==> !IsDigit(s[k]))
  {
    if s == "" || !IsDigit(s[0]) then 0 else 1 + DigitCount(s[1..])
  }

  function Leading(s: string): nat {
    Value(s[..DigitCount(s)])
  }

  lemma StrtolDecimal(n: nat)
    ensures Strtol(Decimal(n)) == n
  {
    var s := Decimal(n);
    assert IsDigit(s[0]);
    var k := DigitCount(s);
    assert k == |s|;
    assert s[..k] == s;
    DecimalRoundTrip(n);
  }

  /** bitmap & flag on a two's complement int. */
  predicate Tests(n: int, flag: nat) {
    if n >= 0 then And(n, flag) != 0 else And(-n - 1, flag) == 0
  }

  const FLAGS: seq<nat> := [READ_OVERRIDE, WRITE_OVERRIDE, OPEN_OVERRIDE, CLOSE_OVERRIDE, LINK_OVERRIDE,
                            UNLINK_OVERRIDE, MKDIR_OVERRIDE, RMDIR_OVERRIDE, WRITE_LOGGED, OPEN_BLOCKED]

  function Tested(n: int, flags: seq<nat>): seq<nat> {
    if flags == [] then []
    else (if Tests(n, flags[0]) then [flags[0]] else []) + Tested(n, flags[1..])
  }

  /** One printed item: the name line, the id line, or the bitmap with a line for each flag. */
  datatype Item = Name(text: string) | Id(text: string) | Bits(bitmap: int, flags: seq<nat>)

  /** The i-th token, counted from 1, printed. */
  function Shown(i: nat, token: string): Item {
    if i % 3 == 0 then Bits(Strtol(token), Tested(Strtol(token), FLAGS))
    else if i % 3 == 1 then Name(token)
    else Id(token)
  }

  function ShownFrom(i: nat, tokens: seq<string>): seq<Item>
    decreases tokens
  {
    if tokens == [] then [] else [Shown(i, tokens[0])] + ShownFrom(i + 1, tokens[1..])
  }

  /** What display_vectors prints for a text. */
  function Displayed(text: string): seq<Item> {
    ShownFrom(1, Tokens(text))
  }

  /** What it should print for the registry. */
  function Expected(es: seq<Entry>): seq<Item> {
    if es == [] then []
    else [Name(es[0].name), Id(Decimal(es[0].id)), Bits(es[0].bitmap, Tested(es[0].bitmap, FLAGS))] + Expected(es[1..])
  }

  // ---- The round trip

  lemma DigitsAreNames(n: nat)
    ensures NameOk(Decimal(n))
  {
    var s := Decimal(n);
    assert forall i | 0 <= i < |s| :: IsDigit(s[i]);
  }

  lemma RecordTokens(e: Entry, rest: string)
    requires NameOk(e.name)
    ensures Tokens(Record(e) + rest) == [e.name] + ([Decimal(e.id)] + ([Decimal(e.bitmap)] + Tokens(rest)))
  {
    var line3 := Decimal(e.bitmap) + LF + rest;
    var line2 := Decimal(e.id) + LF + line3;
    DigitsAreNames(e.id);
    DigitsAreNames(e.bitmap);
    assert Record(e) + rest == e.name + LF + line2;
    TokensOfLine(e.name, line2);
    TokensOfLine(Decimal(e.id), line3);
    TokensOfLine(Decimal(e.bitmap), rest);
  }

  lemma {:induction false} ListingTokens(es: seq<Entry>, i: nat)
    requires (forall e | e in es :: NameOk(e.name)) && i % 3 == 1
    ensures ShownFrom(i, Tokens(Listing(es))) == Expected(es)
    decreases |es|
  {
    if es != [] {
      var e := es[0];
      var rest := Listing(es[1..]);
      assert e in es;
      RecordTokens(e, rest);
      ShownRecord(i, e);
      ListingTokens(es[1..], i + 3);
      ShownThree(i, e.name, Decimal(e.id), Decimal(e.bitmap), Tokens(rest));
      assert Tokens(Listing(es)) == [e.name] + ([Decimal(e.id)] + ([Decimal(e.bitmap)] + Tokens(rest)));
    }
  }

  lemma ShownThree(i: nat, a: string, b: string, c: string, rest: seq<string>)
    ensures ShownFrom(i, [a] + ([b] + ([c] + rest)))
         == [Shown(i, a), Shown(i + 1, b), Shown(i + 2, c)] + ShownFrom(i + 3, rest)
  {
    var t2 := [c] + rest;
    var t1 := [b] + t2;
    assert ([a] + t1)[1..] == t1 && t1[1..] == t2 && t2[1..] == rest;
    assert ShownFrom(i + 2, t2) == [Shown(i + 2, c)] + ShownFrom(i + 3, rest);
    assert ShownFrom(i + 1, t1) == [Shown(i + 1, b)] + ShownFrom(i + 2, t2);
    assert ShownFrom(i, [a] + t1) == [Shown(i, a)] + ShownFrom(i + 1, t1);
  }

  lemma ShownRecord(i: nat, e: Entry)
    requires i % 3 == 1
    ensures Shown(i, e.name) == Name(e.name) && Shown(i + 1, Decimal(e.id)) == Id(Decimal(e.id))
    ensures Shown(i + 2, Decimal(e.bitmap)) == Bits(e.bitmap, Tested(e.bitmap, FLAGS))
  {
    StrtolDecimal(e.bitmap);
  }

  lemma {:induction false} ShownAt(i: nat, tokens: seq<string>, k: nat)
    ensures |ShownFrom(i, tokens)| == |tokens|
    ensures k < |tokens| ==> ShownFrom(i, tokens)[k] == Shown(i + k, tokens[k])
    decreases |tokens|
  {
    if tokens != [] {
      ShownAt(i + 1, tokens[1..], if k > 0 then k - 1 else 0);
    }
  }

  lemma {:induction false} ExpectedAt(es: seq<Entry>, k: nat)
    requires k < |es|
    ensures 3 * k < |Expected(es)| && Expected(es)[3 * k] == Name(es[k].name)
  {
    if k > 0 {
      ExpectedAt(es[1..], k - 1);
    }
  }

  /** The client gets exactly the names, ids and bitmaps of the registry, in order, if and only if
      every name is a line of its own: not empty and without a line break. */
  lemma RoundTripExact(es: seq<Entry>)
    ensures Displayed(Listing(es)) == Expected(es) <==> forall e | e in es :: NameOk(e.name)
  {
    if forall e | e in es :: NameOk(e.name) {
      ListingTokens(es, 1);
    }
    if Displayed(Listing(es)) == Expected(es) {
      var tokens := Tokens(Listing(es));
      TokensAreNames(Listing(es));
      forall e | e in es ensures NameOk(e.name) {
        var k :| 0 <= k < |es| && es[k] == e;
        ExpectedAt(es, k);
        ShownAt(1, tokens, 3 * k);
        assert NameOk(tokens[3 * k]);
      }
    }
  }

  /** The three lines of one vector are its name, its id, and its bitmap with the flags. */
  lemma OneShown(e: Entry)
    requires NameOk(e.name)
    ensures Displayed(e.name + "\n" + Decimal(e.id) + "\n" + Decimal(e.bitmap) + "\n")
         == [Name(e.name), Id(Decimal(e.id)), Bits(e.bitmap, Tested(e.bitmap, FLAGS))]
  {
    RoundTripExact([e]);
    assert Listing([e]) == Record(e) && Expected([e])
        == [Name(e.name), Id(Decimal(e.id)), Bits(e.bitmap, Tested(e.bitmap, FLAGS))];
  }

  /** show_my_vector of a registered address prints that entry's slice of the same text. */
  lemma MineIsSlice(es: seq<Entry>, vec: nat)
    requires vec != 0 && Has(es, ByAddr(vec))
    ensures var i := Find(es, ByAddr(vec));
      Listing(es) == Listing(es[..i]) + Mine(es, vec) + Listing(es[i + 1..])
  {
    var i := Find(es, ByAddr(vec));
    var (before, e, after) := (es[..i], es[i], es[i + 1..]);
    calc {
      Listing(es);
    ==  { assert es == before + [e] + after; }
      Listing(before + [e] + after);
    ==  { ListingConcat(before + [e], after); }
      Listing(before + [e]) + Listing(after);
    ==  { ListingSnoc(before, e); }
      Listing(before) + Record(e) + Listing(after);
    }
  }

  // ---- The client's loop

  /** The C string in a buffer: what comes before the first NUL. */
  function CString(s: string): string {
    s[..IndexOf(s, '\0')]
  }

  lemma {:induction false} TokensSkip(s: string, p: nat)
    requires p <= |s| && forall i | 0 <= i < p :: s[i] == '\n'
    ensures Tokens(s) == Tokens(s[p..])
  {
    if p > 0 {
      TokensSkip(s[1..], p - 1);
      assert s[1..][p - 1..] == s[p..];
    } else {
      assert s[0..] == s;
    }
  }

  lemma TokenAt(t: string, k: nat, token: string, rest: string)
    requires 0 < k <= |t| && (forall i | 0 <= i < k :: t[i] != '\n') && (k < |t| ==> t[k] == '\n')
    requires token == t[..k] && rest == if k < |t| then t[k + 1..] else t[k..]
    ensures Tokens(t) == [token] + Tokens(rest)
  {
    IndexOfUnique(t, '\n', k);
  }

  /** Where the run of characters ends that are, or are not, line breaks; end is an end mark. */
  method Span(buf: array<char>, from: nat, ghost end: nat, breaks: bool) returns (p: nat)
    requires from <= end < buf.Length && buf[end] == '\0' && forall i | from <= i < end :: buf[i] != '\0'
    ensures from <= p <= end
    ensures forall i | from <= i < p :: (buf[i] == '\n') == breaks
    ensures p < end ==> (buf[p] == '\n') != breaks
  {
    p := from;
    while buf[p] != '\0' && (buf[p] == '\n') == breaks
      invariant from <= p <= end
      invariant forall i | from <= i < p :: (buf[i] == '\n') == breaks
      decreases end - p
    {
      p := p + 1;
    }
  }

  lemma SliceOfSlice(c: string, from: nat, p: nat, q: nat, end: nat)
    requires from <= p <= q <= end <= |c|
    ensures c[from..end][p - from..q - from] == c[p..q]
  {
    var s := c[from..end][p - from..q - from];
    assert |s| == q - p;
    forall i | 0 <= i < q - p ensures s[i] == c[p..q][i] {
      assert s[i] == c[from..end][p - from + i] == c[p + i];
    }
  }

  /** The line breaks of c from `from` to p are skipped, and the token ends at q. */
  lemma TokenBetween(c: string, from: nat, p: nat, q: nat, end: nat)
    requires from <= p < q <= end <= |c|
    requires forall i | from <= i < p :: c[i] == '\n'
    requires forall i | p <= i < q :: c[i] != '\n'
    requires q < end ==> c[q] == '\n'
    ensures Tokens(c[from..end]) == [c[p..q]] + Tokens(c[if q < end then q + 1 else q..end])
  {
    var next := if q < end then q + 1 else q;
    calc {
      Tokens(c[from..end]);
    ==  { TokensSkip(c[from..end], p - from); SliceOfSlice(c, from, p, end, end); }
      Tokens(c[p..end]);
    ==  { SliceOfSlice(c, p, p, q, end); SliceOfSlice(c, p, next, end, end);
          TokenAt(c[p..end], q - p, c[p..q], c[next..end]); }
      [c[p..q]] + Tokens(c[next..end]);
    }
  }

  lemma NoToken(c: string, from: nat, end: nat)
    requires from <= end <= |c|
    requires forall i | from <= i < end :: c[i] == '\n'
    ensures Tokens(c[from..end]) == []
  {
    TokensSkip(c[from..end], end - from);
  }

  /** The buffer has the characters of c from a position on. */
  ghost predicate Intact(buf: array<char>, c: string, from: nat)
    reads buf
  {
    buf.Length == |c| && forall j | from <= j < |c| :: buf[j] == c[j]
  }

  /** One strtok call: from where the last one stopped, up to the end mark at position end. The line
      break after the token is overwritten with a NUL; c is what was in the buffer at first. */
  method Strtok(buf: array<char>, from: nat, ghost c: string, ghost end: nat) returns (found: bool, token: string,
      next: nat)
    requires from <= end < |c| && c[end] == '\0' && (forall i | from <= i < end :: c[i] != '\0') && Intact(buf, c, from)
    modifies buf
    ensures from <= next <= end && (found ==> from < next) && Intact(buf, c, next)
    ensures Tokens(c[from..end]) == if found then [token] + Tokens(c[next..end]) else []
  {
    var p := Span(buf, from, end, true);
    found, token, next := false, "", p;
    if buf[p] == '\0' {
      NoToken(c, from, end);
      return;
    }
    var q := Span(buf, p, end, false);
    TokenBetween(c, from, p, q, end);
    found, token, next := true, buf[p..q], if buf[q] == '\n' then q + 1 else q;
    assert token == c[p..q];
    if buf[q] == '\n' {
      buf[q] := '\0';
    }
  }

  lemma ShownNext(out: seq<Item>, i: nat, token: string, rest: seq<string>)
    ensures out + ShownFrom(i, [token] + rest) == out + [Shown(i, token)] + ShownFrom(i + 1, rest)
  {
    assert ([token] + rest)[1..] == rest;
  }

  /** display_vectors: what it prints is Displayed of the text in the buffer. */
  method DisplayVectors(buf: array<char>) returns (out: seq<Item>)
    requires '\0' in buf[..]
    modifies buf
    ensures out == Displayed(old(CString(buf[..])))
  {
    ghost var (c, end) := (buf[..], IndexOf(buf[..], '\0'));
    ghost var text := c[0..end];
    out := [];
    var i := 1;
    var found, token, next := Strtok(buf, 0, c, end);
    while found
      invariant next <= end && Intact(buf, c, next)
      invariant ShownFrom(1, Tokens(text)) == out + ShownFrom(i, if found then [token] + Tokens(c[next..end]) else [])
      decreases found, end - next
    {
      ShownNext(out, i, token, Tokens(c[next..end]));
      out := out + [Shown(i, token)];
      i := i + 1;
      found, token, next := Strtok(buf, next, c, end);
    }
  }

  /** A text in front of NULs. */
  lemma CStringOfPadded(text: string, pad: string)
    requires '\0' !in text && pad != "" && pad[0] == '\0'
    ensures '\0' in text + pad && CString(text + pad) == text
  {
    var s := text + pad;
    assert s[|text|] == '\0';
    assert forall i | 0 <= i < |text| :: s[i] == text[i];
    IndexOfUnique(s, '\0', |text|);
  }

  /** What IOCTL_SHOW_ALL answers. */
  function Answer(es: seq<Entry>): string {
    if es == [] then NONE_PRESENT else Listing(es)
  }

  /** A cleared buffer of 256 bytes after show_all_vectors. */
  method Listed(list: VectorList.VectorList) returns (buf: array<char>, ret: nat, ghost pad: string)
    requires list.Valid() && NumbersFit(list.entries) && |Listing(list.entries)| < BUF_LEN
    ensures fresh(buf) && ret == |Listing(list.entries)|
    ensures buf[..] == Listing(list.entries) + pad && |pad| == BUF_LEN - ret
    ensures forall i | 0 <= i < |pad| :: pad[i] == '\0'
  {
    buf := new char[BUF_LEN](_ => '\0');
    ghost var zero := buf[..];
    ret := list.ShowAllVectors(buf);
    pad := zero[ret..];
  }

  /** memcpy of a text into a cleared buffer. */
  method Overlay(buf: array<char>, text: string)
    requires |text| < buf.Length && '\0' !in text && buf[|text|] == '\0'
    modifies buf
    ensures '\0' in buf[..] && CString(buf[..]) == text
  {
    ghost var pad := buf[|text|..];
    VectorList.Memcpy(buf, 0, text);
    CStringOfPadded(text, pad);
    assert buf[..] == text + pad;
  }

  /** IOCTL_SHOW_ALL, kernel side: the answer in a cleared buffer of 256 bytes. */
  method IoctlShowAll(list: VectorList.VectorList) returns (buf: array<char>)
    requires list.Valid() && NumbersFit(list.entries)
    requires |Listing(list.entries)| < BUF_LEN && '\0' !in Listing(list.entries)
    ensures fresh(buf) && '\0' in buf[..] && CString(buf[..]) == Answer(list.entries)
  {
    var ret;
    ghost var pad;
    buf, ret, pad := Listed(list);
    CStringOfPadded(Listing(list.entries), pad);
    if ret == 0 {
      assert buf[..] == pad;
      Overlay(buf, NONE_PRESENT);
    }
  }

  /** From the registry to what the user reads. */
  method ShowAll(list: VectorList.VectorList) returns (out: seq<Item>)
    requires list.Valid() && NumbersFit(list.entries) && forall e | e in list.entries :: NameOk(e.name)
    requires |Listing(list.entries)| < BUF_LEN && '\0' !in Listing(list.entries)
    ensures out == if list.entries == [] then [Name(NONE_PRESENT)] else Expected(list.entries)
  {
    ghost var es := list.entries;
    var buf := IoctlShowAll(list);
    AnswerShown(es);
    out := DisplayVectors(buf);
  }

  lemma AnswerShown(es: seq<Entry>)
    requires forall e | e in es :: NameOk(e.name)
    ensures Displayed(Answer(es)) == if es == [] then [Name(NONE_PRESENT)] else Expected(es)
  {
    if es == [] {
      OneToken(NONE_PRESENT);
    } else {
      RoundTripExact(es);
    }
  }

  lemma OneToken(s: string)
    requires NameOk(s)
    ensures Displayed(s) == [Name(s)]
  {
    IndexOfUnique(s, '\n', |s|);
    assert s[..|s|] == s && s[|s|..] == "";
    assert Tokens(s) == [s] + Tokens("");
    assert [s][1..] == [];
    assert ShownFrom(1, [s]) == [Shown(1, s)] + ShownFrom(2, []);
  }
}
