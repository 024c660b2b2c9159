/**
 What version tags and dates are compared by: numerals are read as numbers, tags as lists of numbers,
 and both orders are the numeric ones.
*/
module VersionOrder {
  import opened Wrappers
  import opened ReleaseLog
  import Text

  function DigitOf(d: nat): char
    requires d < 10
  {
    ('0' as int + d) as char
  }

  /** The decimal numeral of a number. */
  function Decimal(n: nat): (s: string)
    ensures s != "" && forall i | 0 <= i < |s| :: '0' <= s[i] <= '9'
  {
    if n < 10 then [DigitOf(n)] else Decimal(n / 10) + [DigitOf(n % 10)]
  }

  lemma NumeralsAreDigits(s: string)
    requires forall i | 0 <= i < |s| :: '0' <= s[i] <= '9'
    ensures AllDigits(s)
  {}

  /** Reading a numeral gives its number. */
  lemma {:induction false} NumberOfDecimal(n: nat)
    ensures AllDigits(Decimal(n)) && NumberOf(Decimal(n)) == n
  {
    NumeralsAreDigits(Decimal(n));
    if n >= 10 {
      NumberOfDecimal(n / 10);
      var s := Decimal(n);
      assert s[..|s| - 1] == Decimal(n / 10) && s[|s| - 1] == DigitOf(n % 10);
    } else {
      assert Decimal(n)[..0] == "";
    }
  }

  // ---------------------------------------------------------------- the order of lists of numbers

  /** `a` is the same list as `b`, a shorter part of it, or smaller where they first differ. */
  ghost predicate ListLe(a: seq<int>, b: seq<int>) {
    || (|a| <= |b| && a == b[..|a|])
    || exists i :: 0 <= i < |a| && i < |b| && a[..i] == b[..i] && a[i] < b[i]
  }

  lemma {:induction false} LexIsListOrder(a: seq<int>, b: seq<int>)
    ensures LexLe(a, b) <==> ListLe(a, b)
  {
    if a != [] && b != [] && a[0] == b[0] {
      LexIsListOrder(a[1..], b[1..]);
      if ListLe(a, b) {
        TailsInOrder(a, b);
      }
      if ListLe(a[1..], b[1..]) {
        HeadsInOrder(a, b);
      }
    } else if a != [] && b != [] {
      HeadsDecide(a, b);
    } else if a == [] {
      assert a == b[..0];
    }
  }

  lemma HeadsDecide(a: seq<int>, b: seq<int>)
    requires a != [] && b != [] && a[0] != b[0]
    ensures ListLe(a, b) <==> a[0] < b[0]
  {
    if a[0] < b[0] {
      assert a[..0] == b[..0] && a[0] < b[0];
    }
    forall i | 0 < i < |a| && i < |b|
      ensures a[..i] != b[..i]
    {
      assert a[..i][0] != b[..i][0];
    }
  }

  lemma TailsInOrder(a: seq<int>, b: seq<int>)
    requires a != [] && b != [] && a[0] == b[0] && ListLe(a, b)
    ensures ListLe(a[1..], b[1..])
  {
    if |a| <= |b| && a == b[..|a|] {
      assert a[1..] == b[1..][..|a| - 1];
    } else {
      var i :| 0 <= i < |a| && i < |b| && a[..i] == b[..i] && a[i] < b[i];
      assert a[1..][..i - 1] == a[..i][1..] == b[..i][1..] == b[1..][..i - 1];
      assert a[1..][i - 1] < b[1..][i - 1];
    }
  }

  lemma HeadsInOrder(a: seq<int>, b: seq<int>)
    requires a != [] && b != [] && a[0] == b[0] && ListLe(a[1..], b[1..])
    ensures ListLe(a, b)
  {
    if |a[1..]| <= |b[1..]| && a[1..] == b[1..][..|a[1..]|] {
      assert a == [a[0]] + a[1..] && b[..|a|] == [b[0]] + b[1..][..|a| - 1];
    } else {
      var i :| 0 <= i < |a[1..]| && i < |b[1..]| && a[1..][..i] == b[1..][..i] && a[1..][i] < b[1..][i];
      assert a[..i + 1] == [a[0]] + a[1..][..i] && b[..i + 1] == [b[0]] + b[1..][..i];
      assert a[i + 1] < b[i + 1];
    }
  }

  // ---------------------------------------------------------------- tags

  /** What follows a number in a segment: nothing, or something set off by a hyphen or a plus sign. */
  predicate IsSuffix(s: string) {
    (s == "" || s[0] == '-' || s[0] == '+') && '.' !in s
  }

  /** The segments of a tag: each numeral with its suffix. */
  function Segments(ns: seq<nat>, suffixes: seq<string>): seq<string>
    requires |ns| == |suffixes|
  {
    seq(|ns|, i requires 0 <= i < |ns| => Decimal(ns[i]) + suffixes[i])
  }

  /** Letters v, then the segments between dots. */
  function Tag(v: string, ns: seq<nat>, suffixes: seq<string>): string
    requires |ns| == |suffixes|
  {
    v + Text.Join(".", Segments(ns, suffixes))
  }

  /** Letters v only; suffixes only; and no numeral longer than `int` accepts. */
  ghost predicate ProperTag(v: string, ns: seq<nat>, suffixes: seq<string>) {
    && ns != [] && |ns| == |suffixes|
    && (forall i | 0 <= i < |v| :: v[i] == 'v' || v[i] == 'V')
    && (forall i | 0 <= i < |ns| :: IsSuffix(suffixes[i]) && |Decimal(ns[i])| <= 4300)
  }

  lemma {:induction false} FirstPieceStops(p: string, s: string, c: char)
    requires c !in p && (s == "" || s[0] == c)
    ensures Text.Split(p + s, c)[0] == p
  {
    if p == "" {
      assert p + s == s;
    } else {
      FirstPieceStops(p[1..], s, c);
      assert (p + s)[1..] == p[1..] + s;
      assert p == [p[0]] + p[1..];
    }
  }

  lemma {:induction false} FirstPieceOfLonger(p: string, s: string, c: char)
    requires c !in p
    ensures Text.Split(p + s, c)[0] == p + Text.Split(s, c)[0]
  {
    if p == "" {
      assert p + s == s && p + Text.Split(s, c)[0] == Text.Split(s, c)[0];
    } else {
      FirstPieceOfLonger(p[1..], s, c);
      assert (p + s)[1..] == p[1..] + s;
      assert p == [p[0]] + p[1..];
    }
  }

  /** The number of a segment is what comes before the first hyphen or plus sign. */
  lemma NumeralOfSegment(p: string, s: string)
    requires (forall i | 0 <= i < |p| :: '0' <= p[i] <= '9') && IsSuffix(s)
    ensures NumericPart(p + s) == p
  {
    assert '-' !in p && '+' !in p;
    if s == "" || s[0] == '-' {
      FirstPieceStops(p, s, '-');
      FirstPieceStops(p, "", '+');
      assert p + "" == p;
    } else {
      var rest := Text.Split(s, '-')[0];
      FirstPieceOfLonger(p, s, '-');
      assert rest != "" && rest[0] == '+';
      FirstPieceStops(p, rest, '+');
    }
  }

  /** The segment is read as this number. */
  ghost predicate HasNumber(segment: string, n: nat) {
    var part := NumericPart(segment);
    part != "" && AllDigits(part) && |part| <= 4300 && NumberOf(part) == n
  }

  lemma SegmentHasNumber(n: nat, suffix: string)
    requires IsSuffix(suffix) && |Decimal(n)| <= 4300
    ensures HasNumber(Decimal(n) + suffix, n)
  {
    NumeralOfSegment(Decimal(n), suffix);
    NumberOfDecimal(n);
  }

  lemma {:induction false} NumbersParse(segments: seq<string>, ns: seq<nat>)
    requires |segments| == |ns| && forall i | 0 <= i < |ns| :: HasNumber(segments[i], ns[i])
    ensures ParseSegments(segments) == Some(ns)
  {
    if ns != [] {
      var n := |ns| - 1;
      NumbersParse(segments[..n], ns[..n]);
      assert HasNumber(segments[n], ns[n]);
      assert ns == ns[..n] + [ns[n]];
    }
  }

  lemma SegmentsParse(ns: seq<nat>, suffixes: seq<string>)
    requires |ns| == |suffixes|
    requires forall i | 0 <= i < |ns| :: IsSuffix(suffixes[i]) && |Decimal(ns[i])| <= 4300
    ensures ParseSegments(Segments(ns, suffixes)) == Some(ns)
  {
    forall i | 0 <= i < |ns|
      ensures HasNumber(Segments(ns, suffixes)[i], ns[i])
    {
      SegmentHasNumber(ns[i], suffixes[i]);
    }
    NumbersParse(Segments(ns, suffixes), ns);
  }

  lemma {:induction false} LettersAreDropped(v: string, s: string)
    requires (forall i | 0 <= i < |v| :: v[i] == 'v' || v[i] == 'V') && (s == "" || (s[0] != 'v' && s[0] != 'V'))
    ensures WithoutV(v + s) == s
  {
    if v == "" {
      assert v + s == s;
    } else {
      LettersAreDropped(v[1..], s);
      assert (v + s)[1..] == v[1..] + s;
    }
  }

  lemma {:induction false} JoinStarts(parts: seq<string>)
    requires parts != [] && parts[0] != ""
    ensures Text.Join(".", parts) != "" && Text.Join(".", parts)[0] == parts[0][0]
  {
    if |parts| > 1 {
      JoinStarts(parts[..|parts| - 1]);
    }
  }

  /** A tag of dotted numerals, with or without suffixes, is read as the list of its numbers. */
  lemma TagIsItsNumbers(v: string, ns: seq<nat>, suffixes: seq<string>)
    requires ProperTag(v, ns, suffixes)
    ensures ParseVersion(Tag(v, ns, suffixes)) == Some(ns)
  {
    var parts := Segments(ns, suffixes);
    forall p | p in parts
      ensures '.' !in p
    {
      var i :| 0 <= i < |parts| && parts[i] == p;
    }
    assert parts[0][0] == Decimal(ns[0])[0];
    JoinStarts(parts);
    LettersAreDropped(v, Text.Join(".", parts));
    assert "." == ['.'];
    Text.SplitUndoesJoin(parts, '.');
    SegmentsParse(ns, suffixes);
  }

  /** Two such tags are in order, the first not older, exactly when their numbers are. */
  lemma TagsCompareByNumbers(v: string, ns: seq<nat>, suffixes: seq<string>,
                             w: string, ms: seq<nat>, others: seq<string>)
    requires ProperTag(v, ns, suffixes) && ProperTag(w, ms, others)
    ensures NotOlder(Tag(v, ns, suffixes), Tag(w, ms, others)) <==> ListLe(ms, ns)
  {
    TagIsItsNumbers(v, ns, suffixes);
    TagIsItsNumbers(w, ms, others);
    LexIsListOrder(ms, ns);
  }

  /** What a segment's number is read from: the part before the first hyphen or plus sign. */
  lemma NumericPartStops(segment: string)
    ensures var p := NumericPart(segment);
            && p <= segment && '-' !in p && '+' !in p
            && (p == segment || segment[|p|] == '-' || segment[|p|] == '+')
  {
    var q := Text.Split(segment, '-')[0];
    FirstPieceIsPrefix(segment, '-');
    FirstPieceIsPrefix(q, '+');
    assert q in Text.Split(segment, '-') && NumericPart(segment) in Text.Split(q, '+');
  }

  lemma {:induction false} FirstPieceIsPrefix(s: string, c: char)
    ensures var p := Text.Split(s, c)[0];
            p <= s && c !in p && (p == s || s[|p|] == c)
  {
    if s != "" && s[0] != c {
      FirstPieceIsPrefix(s[1..], c);
    }
  }

  /** A tag is refused exactly if a segment has no number, or something else than digits, or too many of them. */
  lemma {:induction false} SegmentsFailIff(segments: seq<string>)
    ensures ParseSegments(segments).None? <==>
            exists s :: s in segments && (NumericPart(s) == "" || |NumericPart(s)| > 4300
                                          || exists i :: 0 <= i < |NumericPart(s)| && !IsDigit(NumericPart(s)[i]))
  {
    if segments != [] {
      var n := |segments| - 1;
      SegmentsFailIff(segments[..n]);
      assert segments == segments[..n] + [segments[n]];
    }
  }

  // ---------------------------------------------------------------- dates

  /** The numeral of a number with leading zeros to this width. */
  function Padded(n: nat, width: nat): (s: string)
    ensures |s| == width && forall i | 0 <= i < |s| :: '0' <= s[i] <= '9'
  {
    if width == 0 then "" else Padded(n / 10, width - 1) + [DigitOf(n % 10)]
  }

  function Power(width: nat): (p: nat)
    ensures p > 0
  {
    if width == 0 then 1 else 10 * Power(width - 1)
  }

  function Date(y: nat, m: nat, d: nat): string {
    Padded(y, 4) + "-" + Padded(m, 2) + "-" + Padded(d, 2)
  }

  lemma DatesAreDates(y: nat, m: nat, d: nat)
    ensures IsDateHeading(Date(y, m, d))
  {
    var h := Date(y, m, d);
    assert h[..4] == Padded(y, 4) && h[5..7] == Padded(m, 2) && h[8..] == Padded(d, 2);
    NumeralsAreDigits(h[..4]);
    NumeralsAreDigits(h[5..7]);
    NumeralsAreDigits(h[8..]);
  }

  lemma {:induction false} LexOfSum(a: seq<int>, b: seq<int>, x: seq<int>, y: seq<int>)
    requires |a| == |b|
    ensures LexLe(a + x, b + y) <==> if a == b then LexLe(x, y) else LexLe(a, b)
  {
    if a == [] {
      assert a + x == x && b + y == y;
    } else {
      assert (a + x)[1..] == a[1..] + x && (b + y)[1..] == b[1..] + y;
      LexOfSum(a[1..], b[1..], x, y);
      assert a == [a[0]] + a[1..] && b == [b[0]] + b[1..];
    }
  }

  lemma CodesOfSum(s: string, t: string)
    ensures Codes(s + t) == Codes(s) + Codes(t)
  {}

  lemma {:induction false} PaddedCompares(n: nat, m: nat, width: nat)
    requires n < Power(width) && m < Power(width)
    ensures LexLe(Codes(Padded(n, width)), Codes(Padded(m, width))) <==> n <= m
    ensures Codes(Padded(n, width)) == Codes(Padded(m, width)) <==> n == m
  {
    if width > 0 {
      PaddedCompares(n / 10, m / 10, width - 1);
      var a, b := Padded(n / 10, width - 1), Padded(m / 10, width - 1);
      var x, y := [DigitOf(n % 10)], [DigitOf(m % 10)];
      CodesOfSum(a, x);
      CodesOfSum(b, y);
      LexOfSum(Codes(a), Codes(b), Codes(x), Codes(y));
      LastDigitCompares(n % 10, m % 10);
      if Codes(Padded(n, width)) == Codes(Padded(m, width)) {
        assert (Codes(a) + Codes(x))[..width - 1] == (Codes(b) + Codes(y))[..width - 1];
        assert Codes(a) == Codes(b);
        assert (Codes(a) + Codes(x))[width - 1] == (Codes(b) + Codes(y))[width - 1];
      }
    }
  }

  lemma LastDigitCompares(i: nat, j: nat)
    requires i < 10 && j < 10
    ensures LexLe(Codes([DigitOf(i)]), Codes([DigitOf(j)])) <==> i <= j
    ensures Codes([DigitOf(i)])[0] == '0' as int + i && Codes([DigitOf(j)])[0] == '0' as int + j
  {
    assert Codes([DigitOf(i)])[1..] == [] && Codes([DigitOf(j)])[1..] == [];
  }

  /** Two dates are in order, the first not earlier, exactly when year, month and day are. */
  lemma DatesCompareByNumbers(y: nat, m: nat, d: nat, y': nat, m': nat, d': nat)
    requires y < 10000 && y' < 10000 && m < 100 && m' < 100 && d < 100 && d' < 100
    ensures NotEarlier(Date(y, m, d), Date(y', m', d')) <==>
            y' < y || (y' == y && (m' < m || (m' == m && d' <= d)))
  {
    PowersOfTen();
    var a, b := Padded(y', 4), Padded(y, 4);
    var p, q := Padded(m', 2), Padded(m, 2);
    var r, s := Padded(d', 2), Padded(d, 2);
    PaddedCompares(y', y, 4);
    PaddedCompares(m', m, 2);
    PaddedCompares(d', d, 2);
    DateCodes(a, p, r);
    DateCodes(b, q, s);
    var hyphen := Codes("-");
    LexOfSum(Codes(a), Codes(b), hyphen + (Codes(p) + (hyphen + Codes(r))), hyphen + (Codes(q) + (hyphen + Codes(s))));
    LexOfSum(hyphen, hyphen, Codes(p) + (hyphen + Codes(r)), Codes(q) + (hyphen + Codes(s)));
    LexOfSum(Codes(p), Codes(q), hyphen + Codes(r), hyphen + Codes(s));
    LexOfSum(hyphen, hyphen, Codes(r), Codes(s));
  }

  lemma PowersOfTen()
    ensures Power(4) == 10000 && Power(2) == 100
  {
    assert Power(1) == 10 && Power(2) == 100 && Power(3) == 1000;
  }

  lemma DateCodes(a: string, p: string, r: string)
    ensures Codes(a + "-" + p + "-" + r) == Codes(a) + (Codes("-") + (Codes(p) + (Codes("-") + Codes(r))))
  {
    CodesOfSum(a + "-" + p + "-", r);
    CodesOfSum(a + "-" + p, "-");
    CodesOfSum(a + "-", p);
    CodesOfSum(a, "-");
  }
}
