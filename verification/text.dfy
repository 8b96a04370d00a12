/**
 * String helpers shared by the whole model: the parts of Go's `strings` and
 * `strconv` packages that the core relies on (`Split`, `HasPrefix`,
 * `HasSuffix`, `FormatInt`, `FormatUint`), each paired with an inverse or a
 * declarative characterisation.
 */
module Text {

  /** Go's `strings.HasPrefix(s, p)`. */
  predicate HasPrefix(s: string, p: string) {
    p <= s
  }

  /** Go's `strings.HasSuffix(s, p)`. */
  predicate HasSuffix(s: string, p: string) {
    |p| <= |s| && s[|s| - |p|..] == p
  }

  /** A suffix of a sequence is its first element followed by the next suffix. */
  lemma SuffixCons<T>(s: seq<T>, i: nat)
    requires i < |s|
    ensures s[i..] == [s[i]] + s[i + 1..]
  {
  }

  /** What follows a prefix is the rest of the concatenation. */
  lemma PrefixThenRest(p: string, q: string)
    ensures HasPrefix(p + q, p) && (p + q)[|p|..] == q
  {
  }

  /** The same for a prefix made of two parts. */
  lemma PrefixPairThenRest(p0: string, p1: string, q: string)
    ensures HasPrefix(p0 + (p1 + q), p0 + p1) && (p0 + (p1 + q))[|p0 + p1|..] == q
  {
    assert p0 + (p1 + q) == (p0 + p1) + q;
  }

  // ---------------------------------------------------------------------
  // Splitting on one separator character and joining back
  // ---------------------------------------------------------------------

  /** Concatenates `parts` with `c` between neighbours (Go's `strings.Join`). */
  function Join(parts: seq<string>, c: char): string
    decreases |parts|
  {
    if |parts| == 0 then ""
    else if |parts| == 1 then parts[0]
    else parts[0] + [c] + Join(parts[1..], c)
  }

  /**
   * Go's `strings.Split(s, string(c))`: the maximal pieces of `s` between
   * occurrences of `c`. There is always at least one piece (the empty string
   * splits into `[""]`), so indexing the first or last piece is always safe.
   */
  function SplitOn(s: string, c: char): (r: seq<string>)
    ensures |r| >= 1
    decreases |s|
  {
    if |s| == 0 then [""]
    else
      var rest := SplitOn(s[1..], c);
      if s[0] == c then [""] + rest
      else [[s[0]] + rest[0]] + rest[1..]
  }

  /** No piece contains the separator. */
  lemma {:induction false} SplitPiecesFree(s: string, c: char, i: nat)
    requires i < |SplitOn(s, c)|
    ensures c !in SplitOn(s, c)[i]
    decreases |s|
  {
    if |s| > 0 {
      var rest := SplitOn(s[1..], c);
      if s[0] == c {
        if i > 0 {
          SplitPiecesFree(s[1..], c, i - 1);
        }
      } else if i == 0 {
        SplitPiecesFree(s[1..], c, 0);
      } else {
        SplitPiecesFree(s[1..], c, i);
      }
    }
  }

  lemma {:induction false} JoinConsHead(a: char, parts: seq<string>, c: char)
    requires |parts| >= 1
    ensures Join([[a] + parts[0]] + parts[1..], c) == [a] + Join(parts, c)
  {
    var q := [[a] + parts[0]] + parts[1..];
    assert q[1..] == parts[1..];
  }

  /** Splitting and then joining gives back the original string. */
  lemma {:induction false} SplitJoin(s: string, c: char)
    ensures Join(SplitOn(s, c), c) == s
    decreases |s|
  {
    if |s| > 0 {
      var rest := SplitOn(s[1..], c);
      SplitJoin(s[1..], c);
      if s[0] == c {
        var r := [""] + rest;
        assert r[1..] == rest;
        assert Join(r, c) == "" + [c] + Join(rest, c);
        assert s == [s[0]] + s[1..];
      } else {
        JoinConsHead(s[0], rest, c);
        assert s == [s[0]] + s[1..];
      }
    }
  }

  /** Splitting at one occurrence of the separator splits the two sides independently. */
  lemma {:induction false} SplitAround(x: string, y: string, c: char)
    ensures SplitOn(x + [c] + y, c) == SplitOn(x, c) + SplitOn(y, c)
    decreases |x|
  {
    var s := x + [c] + y;
    if |x| == 0 {
      assert s[1..] == y;
    } else {
      assert s[0] == x[0] && s[1..] == x[1..] + [c] + y;
      SplitAround(x[1..], y, c);
      if x[0] != c {
        GlueFirst(x[0], SplitOn(x[1..], c), SplitOn(y, c));
      }
    }
  }

  /** Prefixing a character to the first piece commutes with appending more pieces. */
  lemma GlueFirst(a: char, p: seq<string>, q: seq<string>)
    requires |p| >= 1
    ensures [[a] + (p + q)[0]] + (p + q)[1..] == ([[a] + p[0]] + p[1..]) + q
  {
    assert (p + q)[0] == p[0];
    assert (p + q)[1..] == p[1..] + q;
  }

  /** A string without the separator splits into itself alone. */
  lemma {:induction false} SplitWithout(s: string, c: char)
    requires c !in s
    ensures SplitOn(s, c) == [s]
    decreases |s|
  {
    if |s| > 0 {
      assert c !in s[1..];
      SplitWithout(s[1..], c);
      assert s == [s[0]] + s[1..];
    }
  }

  /** Joining pieces that do not contain the separator and splitting again gives the pieces back. */
  lemma {:induction false} JoinSplit(parts: seq<string>, c: char)
    requires |parts| >= 1
    requires forall i :: 0 <= i < |parts| ==> c !in parts[i]
    ensures SplitOn(Join(parts, c), c) == parts
    decreases |parts|
  {
    if |parts| == 1 {
      SplitWithout(parts[0], c);
    } else {
      JoinSplit(parts[1..], c);
      SplitAround(parts[0], Join(parts[1..], c), c);
      SplitWithout(parts[0], c);
      assert [parts[0]] + parts[1..] == parts;
    }
  }

  lemma {:induction false} JoinHead(parts: seq<string>, c: char)
    requires |parts| >= 1
    ensures parts[0] <= Join(parts, c)
    ensures |parts| == 1 ==> Join(parts, c) == parts[0]
    ensures |parts| > 1 ==> |parts[0]| < |Join(parts, c)| && Join(parts, c)[|parts[0]|] == c
  {
    if |parts| > 1 {
      var j := Join(parts, c);
      assert j == parts[0] + ([c] + Join(parts[1..], c));
    }
  }

  /**
   * The text of `s` before the first `c`, or all of `s` when `c` does not
   * occur: element 0 of Go's `strings.Split(s, string(c))`.
   */
  function BeforeFirst(s: string, c: char): (r: string)
    ensures r <= s
    ensures c !in r
    ensures |r| < |s| ==> s[|r|] == c
    ensures c !in s ==> r == s
  {
    var parts := SplitOn(s, c);
    SplitJoin(s, c);
    JoinHead(parts, c);
    SplitPiecesFree(s, c, 0);
    parts[0]
  }

  lemma {:induction false} JoinTail(parts: seq<string>, c: char)
    requires |parts| >= 1
    ensures HasSuffix(Join(parts, c), parts[|parts| - 1])
    decreases |parts|
  {
    if |parts| > 1 {
      JoinTail(parts[1..], c);
      var t := Join(parts[1..], c);
      var j := Join(parts, c);
      assert j == (parts[0] + [c]) + t;
      assert parts[1..][|parts[1..]| - 1] == parts[|parts| - 1];
      var p := parts[|parts| - 1];
      assert j[|j| - |p|..] == t[|t| - |p|..];
    }
  }

  /** Joining all pieces is joining all but the last, then the separator and the last piece. */
  lemma {:induction false} JoinSnoc(parts: seq<string>, c: char)
    requires |parts| >= 2
    ensures Join(parts, c) == Join(parts[..|parts| - 1], c) + [c] + parts[|parts| - 1]
    decreases |parts|
  {
    var n := |parts|;
    var init := parts[..n - 1];
    if n == 2 {
      assert Join(parts[1..], c) == parts[1];
      assert Join(init, c) == parts[0];
    } else {
      JoinSnoc(parts[1..], c);
      assert parts[1..][..n - 2] == init[1..];
      assert parts[1..][n - 2] == parts[n - 1];
      assert Join(init, c) == init[0] + [c] + Join(init[1..], c);
    }
  }

  /** The last piece ends the joined string and starts it or follows a separator. */
  lemma LastPieceWhole(parts: seq<string>, c: char)
    requires |parts| >= 1
    ensures HasSuffix(Join(parts, c), parts[|parts| - 1])
    ensures |parts| == 1 ==> Join(parts, c) == parts[0]
    ensures |parts| >= 2 ==> |parts[|parts| - 1]| < |Join(parts, c)|
                             && Join(parts, c)[|Join(parts, c)| - |parts[|parts| - 1]| - 1] == c
  {
    var n := |parts|;
    if n >= 2 {
      JoinSnoc(parts, c);
      var front, l := Join(parts[..n - 1], c), parts[n - 1];
      var j := front + [c] + l;
      assert j[|front|] == c;
      assert j[|front| + 1..] == l;
    }
  }

  /**
   * When the last piece is not an empty piece after a separator, the joined
   * string does not end in the separator, and the last piece is a whole
   * piece of it.
   */
  lemma LastPieceEnds(parts: seq<string>, c: char)
    requires |parts| >= 1 && c !in parts[|parts| - 1]
    requires !(|parts| > 1 && parts[|parts| - 1] == "")
    ensures var j, l := Join(parts, c), parts[|parts| - 1];
            && !HasSuffix(j, [c]) && HasSuffix(j, l) && (|l| == |j| || j[|j| - |l| - 1] == c)
  {
    var j, l := Join(parts, c), parts[|parts| - 1];
    LastPieceWhole(parts, c);
    if l != "" {
      assert j[|j| - 1] == l[|l| - 1];
    } else {
      assert j == "";
    }
  }

  /**
   * When the last piece is an empty piece after a separator, the joined
   * string ends in the separator, and the piece before it is a whole piece.
   */
  lemma PieceBeforeLastEnds(parts: seq<string>, c: char)
    requires |parts| > 1 && parts[|parts| - 1] == ""
    ensures var j, r := Join(parts, c), parts[|parts| - 2];
            && HasSuffix(j, [c]) && HasSuffix(j, r + [c]) && (|r| + 1 == |j| || j[|j| - |r| - 2] == c)
  {
    var n := |parts|;
    var r := parts[n - 2];
    JoinSnoc(parts, c);
    var init := parts[..n - 1];
    var front := Join(init, c);
    var j := front + [c];
    assert Join(parts, c) == j;
    LastPieceWhole(init, c);
    assert init[n - 2] == r;
    assert j[|j| - |r| - 1..] == r + [c];
  }

  /** The last two pieces, with the separator between them, end the joined string. */
  lemma {:induction false} JoinLastTwo(parts: seq<string>, c: char)
    requires |parts| >= 2
    ensures HasSuffix(Join(parts, c), parts[|parts| - 2] + [c] + parts[|parts| - 1])
    decreases |parts|
  {
    var n := |parts|;
    var j := Join(parts, c);
    var t := Join(parts[1..], c);
    assert j == (parts[0] + [c]) + t;
    if n == 2 {
      assert t == parts[1];
    } else {
      JoinLastTwo(parts[1..], c);
      assert parts[1..][n - 3] == parts[n - 2];
      assert parts[1..][n - 2] == parts[n - 1];
      var p := parts[n - 2] + [c] + parts[n - 1];
      assert j[|j| - |p|..] == t[|t| - |p|..];
    }
  }

  // ---------------------------------------------------------------------
  // Byte length of Go strings
  // ---------------------------------------------------------------------

  /** The number of bytes UTF-8 uses for one character. */
  function Utf8Width(ch: char): (w: nat)
    ensures 1 <= w <= 4
    ensures w == 1 <==> ch as int < 0x80
  {
    if ch as int < 0x80 then 1
    else if ch as int < 0x800 then 2
    else if ch as int < 0x1_0000 then 3
    else 4
  }

  /** `len(s)` in Go: the length of the UTF-8 encoding, in bytes. */
  function Utf8Length(s: string): (n: nat)
    ensures |s| <= n <= 4 * |s|
    decreases |s|
  {
    if |s| == 0 then 0 else Utf8Length(s[..|s| - 1]) + Utf8Width(s[|s| - 1])
  }

  /** Bytes and characters agree exactly on ASCII text. */
  lemma {:induction false} Utf8LengthAscii(s: string)
    ensures Utf8Length(s) == |s| <==> forall i :: 0 <= i < |s| ==> s[i] as int < 0x80
    decreases |s|
  {
    if |s| > 0 {
      var front := s[..|s| - 1];
      Utf8LengthAscii(front);
      assert forall i :: 0 <= i < |front| ==> front[i] == s[i];
    }
  }

  // ---------------------------------------------------------------------
  // Base-10 formatting of integers (strconv.FormatInt / FormatUint, base 10)
  // ---------------------------------------------------------------------

  predicate IsDigit(ch: char) {
    '0' <= ch <= '9'
  }

  predicate AllDigits(s: string) {
    forall i :: 0 <= i < |s| ==> IsDigit(s[i])
  }

  /** A base-10 numeral as Go prints it: an optional `-`, then at least one digit. */
  predicate IsNumeral(s: string) {
    if |s| > 0 && s[0] == '-' then |s| > 1 && AllDigits(s[1..])
    else |s| > 0 && AllDigits(s)
  }

  function DigitValue(ch: char): nat
    requires IsDigit(ch)
  {
    ch as int - '0' as int
  }

  function DigitChar(d: nat): (ch: char)
    requires d < 10
    ensures IsDigit(ch) && DigitValue(ch) == d
  {
    (d + '0' as int) as char
  }

  /** The value of a string of decimal digits (the inverse of FormatNat). */
  function ParseNat(s: string): nat
    requires AllDigits(s)
    decreases |s|
  {
    if |s| == 0 then 0
    else 10 * ParseNat(s[..|s| - 1]) + DigitValue(s[|s| - 1])
  }

  /** The value of a numeral (the inverse of FormatInt). */
  function ParseInt(s: string): int
    requires IsNumeral(s)
  {
    if s[0] == '-' then -(ParseNat(s[1..]) as int) else ParseNat(s)
  }

  /** Appending a digit multiplies the value by ten and adds the digit. */
  lemma ParseNatSnoc(s: string, d: char)
    requires AllDigits(s) && IsDigit(d)
    ensures AllDigits(s + [d]) && ParseNat(s + [d]) == 10 * ParseNat(s) + DigitValue(d)
  {
    assert (s + [d])[..|s|] == s;
  }

  /** `strconv.FormatUint(n, 10)`: the shortest decimal numeral of `n`. */
  function FormatNat(n: nat): (r: string)
    ensures |r| >= 1 && AllDigits(r)
    ensures ParseNat(r) == n
    ensures r[0] == '0' ==> r == "0"
    decreases n
  {
    if n < 10 then [DigitChar(n)]
    else
      var a := FormatNat(n / 10);
      var r := a + [DigitChar(n % 10)];
      assert r[..|r| - 1] == a;
      r
  }

  /** `strconv.FormatInt(i, 10)`: a `-` for negative values, then the digits of |i|. */
  function FormatInt(i: int): (r: string)
    ensures IsNumeral(r)
    ensures ParseInt(r) == i
    ensures r[0] == '-' <==> i < 0
    ensures r[0] == '0' ==> r == "0"
    ensures i < 0 ==> r[1] != '0'
  {
    if i < 0 then
      var r := "-" + FormatNat(-i);
      assert r[1..] == FormatNat(-i);
      r
    else FormatNat(i)
  }

  /** A digit string without a leading zero (other than "0" itself), as Go prints one. */
  predicate CanonicalDigits(s: string) {
    |s| >= 1 && AllDigits(s) && (s[0] == '0' ==> s == "0")
  }

  /** The digit string of a value without a leading zero is unique: it is the one FormatNat prints. */
  lemma {:induction false} FormatNatCanonical(s: string)
    requires CanonicalDigits(s)
    ensures s == FormatNat(ParseNat(s))
    decreases |s|
  {
    var d := s[|s| - 1];
    assert DigitChar(DigitValue(d)) == d;
    if |s| > 1 {
      var front := s[..|s| - 1];
      assert front[0] == s[0];
      assert s[0] != '0';
      FormatNatCanonical(front);
      var p := ParseNat(front);
      var n := ParseNat(s);
      assert n / 10 == p && n % 10 == DigitValue(d);
      assert s == front + [d];
    }
  }

  /** A numeral holds digits and at most a minus sign, so no other character occurs in it. */
  lemma NumeralChars(s: string, c: char)
    requires IsNumeral(s) && c != '-' && !IsDigit(c)
    ensures c !in s
  {
    if |s| > 0 && s[0] == '-' {
      assert forall i :: 1 <= i < |s| ==> s[i] == s[1..][i - 1];
    }
  }

  /**
   * A piece free of `c`, followed by text that starts with `c`, is recovered
   * from the concatenation: the first `c` after the common prefix ends it.
   */
  lemma CutAtFirst(p: string, a1: string, q1: string, a2: string, q2: string, c: char)
    requires p + a1 + q1 == p + a2 + q2
    requires c !in a1 && c !in a2
    requires |q1| > 0 && q1[0] == c && |q2| > 0 && q2[0] == c
    ensures a1 == a2 && q1 == q2
  {
    var s := p + a1 + q1;
    assert s == p + a2 + q2;
    assert forall i :: 0 <= i < |a1| ==> s[|p| + i] == a1[i];
    assert forall i :: 0 <= i < |a2| ==> s[|p| + i] == a2[i];
    assert s[|p| + |a1|] == c && s[|p| + |a2|] == c;
    assert |a1| == |a2|;
    assert a1 == s[|p|..|p| + |a1|];
    assert a2 == s[|p|..|p| + |a2|];
    assert q1 == s[|p| + |a1|..];
    assert q2 == s[|p| + |a2|..];
  }

  /** Distinct numbers have distinct numerals. */
  lemma FormatNatInjective(m: nat, n: nat)
    requires FormatNat(m) == FormatNat(n)
    ensures m == n
  {
  }
}
