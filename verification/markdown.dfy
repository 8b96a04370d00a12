/**
 * `extractURLFromMarkdown` (internal/services/smart_rule_rewrite_service.go):
 * recovers the URL from a value pasted as a Markdown link, `[text](url)`.
 *
 * The regular expression `\[([^\]]*)\]\(([^\)]*)\)` is replaced by a scanner.
 * At a given `[` the expression can match in only one way: the text runs to
 * the first `]` after it, which must be followed by `(`, and the URL runs to
 * the first `)` after that. The leftmost `[` at which this succeeds is the
 * match Go's `FindStringSubmatch` reports.
 */
module Markdown {
  import opened Wrappers
  import opened Text

  /** The first position at or after `from` holding `c`. */
  function IndexFrom(s: string, c: char, from: nat): (r: Option<nat>)
    requires from <= |s|
    ensures r.None? <==> forall k :: from <= k < |s| ==> s[k] != c
    ensures r.Some? ==> from <= r.value < |s| && s[r.value] == c
    ensures r.Some? ==> forall k :: from <= k < r.value ==> s[k] != c
    decreases |s| - from
  {
    if from == |s| then None
    else if s[from] == c then Some(from)
    else IndexFrom(s, c, from + 1)
  }

  /**
   * The expression matches `s[i..e+1]` with its first group ending at `j`:
   * `[` at i, no `]` strictly between i and j, `](` at j, no `)` strictly
   * between j + 1 and e, and `)` at e.
   */
  predicate LinkAt(s: string, i: nat, j: nat, e: nat) {
    && i < j && j + 1 < e < |s|
    && s[i] == '[' && s[j] == ']' && s[j + 1] == '(' && s[e] == ')'
    && (forall k :: i < k < j ==> s[k] != ']')
    && (forall k :: j + 1 < k < e ==> s[k] != ')')
  }

  /** The URL group of the match starting at `i`, if the expression matches there. */
  function MatchAt(s: string, i: nat): (r: Option<string>)
    requires i < |s|
    ensures forall j: nat, e: nat :: LinkAt(s, i, j, e) ==> r == Some(s[j + 2..e])
    ensures r.Some? ==> exists j: nat, e: nat :: LinkAt(s, i, j, e) && r.value == s[j + 2..e]
  {
    if s[i] != '[' then None
    else
      match IndexFrom(s, ']', i + 1)
      case None => None
      case Some(j) =>
        if j + 1 < |s| && s[j + 1] == '(' then
          match IndexFrom(s, ')', j + 2)
          case None => None
          case Some(e) =>
            assert LinkAt(s, i, j, e);
            Some(s[j + 2..e])
        else None
  }

  /** The leftmost position at or after `from` where the expression matches. */
  function FirstLink(s: string, from: nat): (r: Option<nat>)
    requires from <= |s|
    ensures r.None? ==> forall k :: from <= k < |s| ==> MatchAt(s, k).None?
    ensures r.Some? ==> from <= r.value < |s| && MatchAt(s, r.value).Some?
    ensures r.Some? ==> forall k :: from <= k < r.value ==> MatchAt(s, k).None?
    decreases |s| - from
  {
    if from == |s| then None
    else if MatchAt(s, from).Some? then Some(from)
    else FirstLink(s, from + 1)
  }

  /** The two-character separator `](` starts at `k`. */
  predicate SeparatorAt(s: string, k: int) {
    0 <= k && k + 1 < |s| && s[k] == ']' && s[k + 1] == '('
  }

  /** The first position at or after `from` where the separator starts. */
  function SeparatorFrom(s: string, from: nat): (r: Option<nat>)
    requires from <= |s|
    ensures r.None? <==> forall k :: from <= k ==> !SeparatorAt(s, k)
    ensures r.Some? ==> from <= r.value && SeparatorAt(s, r.value)
    ensures r.Some? ==> forall k :: from <= k < r.value ==> !SeparatorAt(s, k)
    decreases |s| - from
  {
    if from + 1 >= |s| then None
    else if SeparatorAt(s, from) then Some(from)
    else SeparatorFrom(s, from + 1)
  }

  /**
   * Element 1 of Go's `strings.Split(s, "](")`: the text between the first
   * and the second separator (or the end); `None` when the split yields a
   * single piece.
   */
  function SecondPiece(s: string): (r: Option<string>)
    ensures r.None? <==> SeparatorFrom(s, 0).None?
    ensures r.Some? ==>
              var k := SeparatorFrom(s, 0).value;
              && k + 2 + |r.value| <= |s|
              && r.value == s[k + 2..k + 2 + |r.value|]
              && (if SeparatorFrom(s, k + 2).None? then k + 2 + |r.value| == |s|
                  else SeparatorFrom(s, k + 2) == Some(k + 2 + |r.value|))
  {
    match SeparatorFrom(s, 0)
    case None => None
    case Some(k) =>
      match SeparatorFrom(s, k + 2)
      case None => Some(s[k + 2..])
      case Some(k2) => Some(s[k + 2..k2])
  }

  /** The piece without one trailing `)`, if it has one. */
  function DropClosingParen(u: string): (r: string)
    ensures r <= u
    ensures HasSuffix(u, ")") ==> |r| == |u| - 1
    ensures !HasSuffix(u, ")") ==> r == u
  {
    if HasSuffix(u, ")") then u[..|u| - 1] else u
  }

  /**
   * The URL inside a Markdown link. A value with neither `[` nor `]` is kept;
   * otherwise the leftmost match of the expression gives the URL; failing
   * that, a value containing `]` and `(` is split on `](` and the second
   * piece, less one trailing `)`, is taken; anything else is kept.
   */
  function ExtractURL(input: string): (r: string)
    ensures '[' !in input && ']' !in input ==> r == input
    ensures FirstLink(input, 0).Some? ==> r == MatchAt(input, FirstLink(input, 0).value).value
    ensures FirstLink(input, 0).None? && SecondPiece(input).Some? ==> r == DropClosingParen(SecondPiece(input).value)
    ensures SeparatorFrom(input, 0).None? ==> r == input
  {
    LinkNeedsSeparator(input);
    if '[' !in input && ']' !in input then input
    else
      match FirstLink(input, 0)
      case Some(i) => MatchAt(input, i).value
      case None =>
        if ']' in input && '(' in input then
          match SecondPiece(input)
          case Some(u) => DropClosingParen(u)
          case None => input
        else input
  }

  // ---------------------------------------------------------------------
  // Properties
  // ---------------------------------------------------------------------

  /** A match needs the separator `](`, so a value without it has none. */
  lemma NoSeparatorNoMatch(s: string, i: nat)
    requires i < |s| && SeparatorFrom(s, 0).None?
    ensures MatchAt(s, i).None?
  {
    forall j: nat, e: nat
      ensures !LinkAt(s, i, j, e)
    {
      assert !SeparatorAt(s, j);
    }
  }

  /** Whenever the expression matches somewhere, the value contains `](`. */
  lemma LinkNeedsSeparator(s: string)
    ensures FirstLink(s, 0).Some? ==> SeparatorFrom(s, 0).Some?
  {
    if FirstLink(s, 0).Some? && SeparatorFrom(s, 0).None? {
      NoSeparatorNoMatch(s, FirstLink(s, 0).value);
    }
  }

  /** A value that does not contain `](` is kept as it is. */
  lemma NoSeparatorKept(s: string)
    requires SeparatorFrom(s, 0).None?
    ensures ExtractURL(s) == s
  {
    if FirstLink(s, 0).Some? {
      NoSeparatorNoMatch(s, FirstLink(s, 0).value);
    }
  }

  /** The leftmost match decides: its URL group is the result. */
  lemma LeftmostLinkWins(s: string, i: nat, j: nat, e: nat)
    requires LinkAt(s, i, j, e)
    requires forall k :: 0 <= k < i ==> MatchAt(s, k).None?
    ensures ExtractURL(s) == s[j + 2..e]
  {
    var m := MatchAt(s, i);
    assert m == Some(s[j + 2..e]);
    var f := FirstLink(s, 0);
    assert f.Some? by {
      assert 0 <= i < |s| && m.Some?;
    }
    assert f.value == i;
    assert ExtractURL(s) == MatchAt(s, f.value).value;
  }

  /** A well-formed link whose text has no `]` and whose URL has no `)` gives back its URL. */
  lemma ExtractLinkRoundTrip(text: string, url: string)
    requires ']' !in text && ')' !in url
    ensures ExtractURL("[" + text + "](" + url + ")") == url
  {
    var s := "[" + text + "](" + url + ")";
    var j := |text| + 1;
    var e := |text| + 3 + |url|;
    assert s[1..j] == text;
    assert s[j + 2..e] == url;
    assert forall k :: 0 < k < j ==> s[k] == text[k - 1];
    assert forall k :: j + 1 < k < e ==> s[k] == url[k - j - 2];
    assert LinkAt(s, 0, j, e);
    LeftmostLinkWins(s, 0, j, e);
  }

  /** A link missing its closing `)`: the only `]` is the one closing the text, and no `)` follows it. */
  lemma UnclosedHasNoMatch(text: string, url: string)
    requires ']' !in text && ')' !in url && ']' !in url
    ensures FirstLink("[" + text + "](" + url, 0).None?
  {
    var s := "[" + text + "](" + url;
    var j := |text| + 1;
    assert forall k :: 0 < k < j ==> s[k] == text[k - 1];
    assert forall k :: j + 1 < k < |s| ==> s[k] == url[k - j - 2];
    assert forall k :: 0 <= k < |s| && s[k] == ']' ==> k == j;
    assert forall k :: j + 1 < k < |s| ==> s[k] != ')';
    assert forall i :: 0 <= i < |s| ==> MatchAt(s, i).None?;
  }

  /** In the same value the first `](` is the one after the text, and there is no second one. */
  lemma UnclosedSecondPiece(text: string, url: string)
    requires ']' !in text && ']' !in url
    ensures SecondPiece("[" + text + "](" + url) == Some(url)
  {
    var s := "[" + text + "](" + url;
    var j := |text| + 1;
    assert s[j] == ']' && s[j + 1] == '(';
    assert forall k :: 0 < k < j ==> s[k] == text[k - 1];
    assert forall k :: j + 1 < k < |s| ==> s[k] == url[k - j - 2];
    assert SeparatorAt(s, j);
    assert forall k :: 0 <= k < j ==> !SeparatorAt(s, k);
    assert SeparatorFrom(s, 0) == Some(j);
    assert SeparatorFrom(s, j + 2).None?;
    assert s[j + 2..] == url;
  }

  /**
   * A link missing its closing `)` falls through to the split on `](`:
   * the URL part is still recovered.
   */
  lemma ExtractUnclosedLink(text: string, url: string)
    requires ']' !in text && ')' !in url && ']' !in url
    ensures ExtractURL("[" + text + "](" + url) == url
  {
    UnclosedHasNoMatch(text, url);
    UnclosedSecondPiece(text, url);
    assert !HasSuffix(url, ")") by {
      if |url| > 0 {
        assert url[|url| - 1] != ')';
      }
    }
  }
}
