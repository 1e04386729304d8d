// The Java and Apache Commons string operations the gateway relies on,
// stated on Dafny strings (sequences of UTF-16-free Unicode scalar values).
module Strings {
  import opened Wrappers

  /** An unsigned 8-bit value (a Java byte read as unsigned). */
  type byte = b: int | 0 <= b < 256

  /** `Character.isWhitespace`: Unicode space, line and paragraph separators
   *  other than the non-breaking ones, plus the ASCII control separators. */
  predicate IsWhitespace(c: char)
  {
    var n := c as int;
    (0x09 <= n <= 0x0D) || (0x1C <= n <= 0x20) || n == 0x1680 ||
    (0x2000 <= n <= 0x2006) || (0x2008 <= n <= 0x200A) ||
    n == 0x2028 || n == 0x2029 || n == 0x205F || n == 0x3000
  }

  /** `StringUtils.isBlank`: null, empty, or whitespace only. */
  predicate IsBlank(s: Option<string>)
  {
    s.None? || forall i :: 0 <= i < |s.value| ==> IsWhitespace(s.value[i])
  }

  /** How `StringUtils.join` and friends print a null string. */
  function OrEmpty(s: Option<string>): string
  {
    s.GetOr("")
  }

  function LowerChar(c: char): char
  {
    if 'A' <= c <= 'Z' then (c as int + 32) as char else c
  }

  /** Lower-casing of ASCII letters; other characters are left as they are. */
  function Lower(s: string): (r: string)
    ensures |r| == |s|
    ensures forall i :: 0 <= i < |s| ==> r[i] == LowerChar(s[i])
  {
    seq(|s|, i requires 0 <= i < |s| => LowerChar(s[i]))
  }

  /** `String.equalsIgnoreCase`, folding ASCII letters. */
  predicate EqualsIgnoreCase(a: string, b: string)
  {
    Lower(a) == Lower(b)
  }

  /** Text holding no upper-case ASCII letter is its own lower case. */
  lemma LowerUnchanged(s: string)
    requires forall i :: 0 <= i < |s| ==> !('A' <= s[i] <= 'Z')
    ensures Lower(s) == s
  {
  }

  /** `"literal".equalsIgnoreCase(s)`: false when `s` is null. */
  predicate OptEqualsIgnoreCase(s: Option<string>, literal: string)
  {
    s.Some? && EqualsIgnoreCase(s.value, literal)
  }

  /** `StringUtils.startsWithIgnoreCase`: false when `s` is null. */
  predicate StartsWithIgnoreCase(s: Option<string>, prefix: string)
  {
    s.Some? && |prefix| <= |s.value| && EqualsIgnoreCase(s.value[..|prefix|], prefix)
  }

  /** `t` occurs in `s` at position `i`, ignoring case. */
  predicate OccursAt(s: string, t: string, i: int)
  {
    0 <= i <= |s| - |t| && EqualsIgnoreCase(s[i..i + |t|], t)
  }

  /** `StringUtils.containsIgnoreCase`: false when either argument is null. */
  predicate ContainsIgnoreCase(s: string, t: Option<string>)
  {
    t.Some? && exists i | 0 <= i <= |s| :: OccursAt(s, t.value, i)
  }

  /** `Boolean.parseBoolean`: true iff the text is "true" ignoring case. */
  predicate ParseBoolean(s: string)
  {
    EqualsIgnoreCase(s, "true")
  }

  /** The first position of `c` in `s`. */
  function IndexOf(s: string, c: char): (r: Option<nat>)
    ensures r.None? <==> c !in s
    ensures r.Some? ==> r.value < |s| && s[r.value] == c && c !in s[..r.value]
  {
    if |s| == 0 then None
    else if s[0] == c then Some(0)
    else match IndexOf(s[1..], c)
      case None => None
      case Some(i) => assert s[1..][..i] == s[1..i + 1]; Some(i + 1)
  }

  /** The first occurrence is the one with none before it. */
  lemma IndexOfFirst(s: string, c: char, i: nat)
    requires i < |s| && s[i] == c && c !in s[..i]
    ensures IndexOf(s, c) == Some(i)
  {
    var r := IndexOf(s, c);
    assert s[..i + 1][i] == c;
    assert r.Some?;
    assert forall k :: 0 <= k < i ==> s[..i][k] == s[k];
    assert forall k :: 0 <= k < r.value ==> s[..r.value][k] == s[k];
  }

  /** The pieces of `s` between separators, with `parts[k] + [sep] + ...`
   *  giving back `s`; the reference for every splitting operation below. */
  function JoinWith(parts: seq<string>, sep: char): string
    requires |parts| >= 1
  {
    if |parts| == 1 then parts[0] else parts[0] + [sep] + JoinWith(parts[1..], sep)
  }

  /** Every piece between occurrences of `sep`, empty ones included. */
  function SplitOn(s: string, sep: char): (parts: seq<string>)
    ensures |parts| >= 1
    ensures forall k :: 0 <= k < |parts| ==> sep !in parts[k]
    ensures JoinWith(parts, sep) == s
    decreases |s|
  {
    match IndexOf(s, sep)
    case None => [s]
    case Some(i) =>
      var rest := SplitOn(s[i + 1..], sep);
      assert s == s[..i] + [sep] + s[i + 1..];
      [s[..i]] + rest
  }

  function DropTrailingEmpty(parts: seq<string>): (r: seq<string>)
    ensures |r| <= |parts| && r == parts[..|r|]
    ensures |r| > 0 ==> r[|r| - 1] != ""
    ensures forall k :: |r| <= k < |parts| ==> parts[k] == ""
  {
    if |parts| == 0 then []
    else if parts[|parts| - 1] == "" then DropTrailingEmpty(parts[..|parts| - 1])
    else parts
  }

  /** `String.split` on a one-character, non-special separator: without an
   *  occurrence the whole string; otherwise the pieces minus trailing empties. */
  function JavaSplit(s: string, sep: char): (parts: seq<string>)
    ensures forall k :: 0 <= k < |parts| ==> sep !in parts[k]
  {
    if sep !in s then [s] else DropTrailingEmpty(SplitOn(s, sep))
  }

  function NonEmpty(parts: seq<string>): (r: seq<string>)
    ensures forall k :: 0 <= k < |r| ==> r[k] != "" && r[k] in parts
    ensures forall p :: p in parts && p != "" ==> p in r
  {
    if |parts| == 0 then []
    else if parts[0] == "" then NonEmpty(parts[1..])
    else [parts[0]] + NonEmpty(parts[1..])
  }

  /** `StringUtils.splitByWholeSeparator` with a one-character separator:
   *  nothing for the empty string; otherwise the non-empty pieces before
   *  the last separator, then the piece after it, which is kept even when
   *  it is empty. */
  function SplitByWholeSeparator(s: string, sep: char): (tokens: seq<string>)
    ensures s == "" ==> tokens == []
    ensures s != "" ==> |tokens| >= 1 && tokens[|tokens| - 1] == SplitOn(s, sep)[|SplitOn(s, sep)| - 1]
    ensures forall k :: 0 <= k < |tokens| - 1 ==> tokens[k] != ""
    ensures forall k :: 0 <= k < |tokens| ==> sep !in tokens[k]
  {
    if s == "" then []
    else
      var parts := SplitOn(s, sep);
      var init := NonEmpty(parts[..|parts| - 1]);
      assert forall p :: p in parts[..|parts| - 1] ==> sep !in p;
      init + [parts[|parts| - 1]]
  }

  /** A text without the separator is one token. */
  lemma WholeTextOneToken(s: string, sep: char)
    requires s != "" && sep !in s
    ensures SplitByWholeSeparator(s, sep) == [s]
  {
  }

  /** Splitting at the first separator: the piece before it is a token
   *  unless it is empty, and the text after it is split the same way,
   *  except that a trailing separator leaves one empty last token.
   *  With `WholeTextOneToken` this decides every input. */
  lemma SplitAtFirstSeparator(n: string, rest: string, sep: char)
    requires sep !in n
    ensures SplitByWholeSeparator(n + [sep] + rest, sep) ==
            (if n == "" then [] else [n]) + (if rest == "" then [""] else SplitByWholeSeparator(rest, sep))
  {
    if rest == "" {
      SplitAtTrailingSeparator(n, sep);
      assert n + [sep] + rest == n + [sep];
    } else {
      SplitAtInnerSeparator(n, rest, sep);
    }
  }

  lemma SplitAtTrailingSeparator(n: string, sep: char)
    requires sep !in n
    ensures SplitByWholeSeparator(n + [sep] + "", sep) == (if n == "" then [] else [n]) + [""]
  {
    var s := n + [sep] + "";
    assert PieceThenRest(s, n, "", sep) by {
      assert s[..|n|] == n && s[|n| + 1..] == "";
    }
    SplitAfterPiece(s, n, "", sep);
    assert SplitOn("", sep) == [""];
    assert NonEmpty(SplitOn("", sep)[..0]) == [];
  }

  lemma SplitAtInnerSeparator(n: string, rest: string, sep: char)
    requires sep !in n && rest != ""
    ensures SplitByWholeSeparator(n + [sep] + rest, sep) == (if n == "" then [] else [n]) + SplitByWholeSeparator(rest, sep)
  {
    var s := n + [sep] + rest;
    assert PieceThenRest(s, n, rest, sep) by {
      assert s[..|n|] == n && s[|n| + 1..] == rest;
    }
    InnerTokens(s, n, rest, sep);
  }

  lemma InnerTokens(s: string, n: string, rest: string, sep: char)
    requires PieceThenRest(s, n, rest, sep) && rest != ""
    ensures SplitByWholeSeparator(s, sep) == (if n == "" then [] else [n]) + SplitByWholeSeparator(rest, sep)
  {
    var p := SplitOn(rest, sep);
    SplitAfterPiece(s, n, rest, sep);
    SplitByWholeSeparatorOf(rest, sep);
    Regroup(SplitByWholeSeparator(s, sep), if n == "" then [] else [n], NonEmpty(p[..|p| - 1]) + [p[|p| - 1]],
            SplitByWholeSeparator(rest, sep));
  }

  lemma Regroup(x: seq<string>, head: seq<string>, tail: seq<string>, y: seq<string>)
    requires x == head + tail && y == tail
    ensures x == head + y
  {
  }

  /** `s` is the separator-free piece `n`, the separator, then `rest`. */
  predicate PieceThenRest(s: string, n: string, rest: string, sep: char)
  {
    sep !in n && |s| == |n| + 1 + |rest| && s[..|n|] == n && s[|n|] == sep && s[|n| + 1..] == rest
  }

  /** The tokens of a text that is `n`, a separator, then `rest`, in terms
   *  of the pieces of `rest`. */
  lemma SplitAfterPiece(s: string, n: string, rest: string, sep: char)
    requires PieceThenRest(s, n, rest, sep)
    ensures var p := SplitOn(rest, sep);
            SplitByWholeSeparator(s, sep) ==
            (if n == "" then [] else [n]) + (NonEmpty(p[..|p| - 1]) + [p[|p| - 1]])
  {
    SplitOnFirst(s, n, rest, sep);
    assert |s| > 0;
    TokensFromPieces(s, sep, n, SplitOn(rest, sep));
  }

  lemma TokensFromPieces(s: string, sep: char, n: string, p: seq<string>)
    requires |s| > 0 && |p| >= 1 && SplitOn(s, sep) == [n] + p
    ensures SplitByWholeSeparator(s, sep) == (if n == "" then [] else [n]) + (NonEmpty(p[..|p| - 1]) + [p[|p| - 1]])
  {
    SplitByWholeSeparatorOf(s, sep);
    TokensOfCons(SplitByWholeSeparator(s, sep), SplitOn(s, sep), n, p);
  }

  /** Tokens built from the pieces `[n] + p`, in terms of `p`. */
  lemma TokensOfCons(tokens: seq<string>, parts: seq<string>, n: string, p: seq<string>)
    requires |p| >= 1 && parts == [n] + p
    requires tokens == NonEmpty(parts[..|parts| - 1]) + [parts[|parts| - 1]]
    ensures tokens == (if n == "" then [] else [n]) + (NonEmpty(p[..|p| - 1]) + [p[|p| - 1]])
  {
    assert parts[..|parts| - 1] == [n] + p[..|p| - 1];
    NonEmptyCons(n, p[..|p| - 1]);
  }

  lemma SplitByWholeSeparatorOf(s: string, sep: char)
    requires s != ""
    ensures var parts := SplitOn(s, sep);
            SplitByWholeSeparator(s, sep) == NonEmpty(parts[..|parts| - 1]) + [parts[|parts| - 1]]
  {
  }

  lemma SplitOnFirst(s: string, n: string, rest: string, sep: char)
    requires PieceThenRest(s, n, rest, sep)
    ensures SplitOn(s, sep) == [n] + SplitOn(rest, sep)
  {
    IndexOfFirst(s, sep, |n|);
  }

  lemma NonEmptyCons(n: string, ps: seq<string>)
    ensures NonEmpty([n] + ps) == (if n == "" then [] else [n]) + NonEmpty(ps)
  {
    assert ([n] + ps)[1..] == ps;
  }

  function TrimStart(s: string): (r: string)
    ensures |r| <= |s| && r == s[|s| - |r|..]
    ensures |r| > 0 ==> r[0] > ' '
    ensures forall k :: 0 <= k < |s| - |r| ==> s[k] <= ' '
  {
    if |s| > 0 && s[0] <= ' ' then TrimStart(s[1..]) else s
  }

  function TrimEnd(s: string): (r: string)
    ensures |r| <= |s| && r == s[..|r|]
    ensures |r| > 0 ==> r[|r| - 1] > ' '
    ensures forall k :: |r| <= k < |s| ==> s[k] <= ' '
  {
    if |s| > 0 && s[|s| - 1] <= ' ' then TrimEnd(s[..|s| - 1]) else s
  }

  /** `String.trim`: strips every character up to U+0020 from both ends. */
  function Trim(s: string): string
  {
    TrimEnd(TrimStart(s))
  }

  lemma {:induction false} TrimStartKeeps(s: string, c: char)
    requires c > ' '
    ensures c in TrimStart(s) <==> c in s
  {
    if |s| > 0 && s[0] <= ' ' {
      TrimStartKeeps(s[1..], c);
      assert s == [s[0]] + s[1..];
    }
  }

  lemma {:induction false} TrimEndKeeps(s: string, c: char)
    requires c > ' '
    ensures c in TrimEnd(s) <==> c in s
  {
    if |s| > 0 && s[|s| - 1] <= ' ' {
      TrimEndKeeps(s[..|s| - 1], c);
      assert s == s[..|s| - 1] + [s[|s| - 1]];
    }
  }

  /** Trimming never removes a printable character such as '='. */
  lemma TrimKeeps(s: string, c: char)
    requires c > ' '
    ensures c in Trim(s) <==> c in s
  {
    TrimStartKeeps(s, c);
    TrimEndKeeps(TrimStart(s), c);
  }

  predicate IsDigit(c: char) { '0' <= c <= '9' }

  /** The value of a string of decimal digits, most significant first. */
  function DigitsValue(ds: string): nat
    requires forall k :: 0 <= k < |ds| ==> IsDigit(ds[k])
  {
    if |ds| == 0 then 0
    else assert IsDigit(ds[|ds| - 1]); DigitsValue(ds[..|ds| - 1]) * 10 + (ds[|ds| - 1] as int - '0' as int)
  }

  predicate AllDigits(ds: string)
  {
    |ds| > 0 && forall k :: 0 <= k < |ds| ==> IsDigit(ds[k])
  }

  /** `Long.parseLong` / `Integer.parseInt` on ASCII digits: an optional
   *  '+' or '-', at least one digit, and a value in [lo, hi]. */
  function ParseDecimal(s: string, lo: int, hi: int): (r: Option<int>)
    ensures r.Some? ==> lo <= r.value <= hi
  {
    if |s| > 0 && (s[0] == '+' || s[0] == '-') then
      if AllDigits(s[1..]) then
        var d: int := DigitsValue(s[1..]);
        var v := if s[0] == '-' then -d else d;
        if lo <= v <= hi then Some(v) else None
      else None
    else if AllDigits(s) && lo <= DigitsValue(s) <= hi then Some(DigitsValue(s))
    else None
  }

  const IntMin: int := -0x8000_0000
  const IntMax: int := 0x7FFF_FFFF
  const LongMin: int := -0x8000_0000_0000_0000
  const LongMax: int := 0x7FFF_FFFF_FFFF_FFFF

  /** `Integer.parseInt`, None standing for NumberFormatException. */
  function ParseInt(s: string): Option<int>
  {
    ParseDecimal(s, IntMin, IntMax)
  }

  /** `NumberUtils.toLong`: the parsed long, or 0 when null or not a number. */
  function ToLong(s: Option<string>): (r: int)
    ensures LongMin <= r <= LongMax
    ensures s.None? ==> r == 0
  {
    if s.None? then 0 else ParseDecimal(s.value, LongMin, LongMax).GetOr(0)
  }

  function DigitChar(d: nat): char
    requires d < 10
  {
    ('0' as int + d) as char
  }

  /** The decimal digits of a natural number, as `Long.toString` prints them. */
  function NatDigits(n: nat): (ds: string)
    ensures AllDigits(ds)
  {
    if n < 10 then [DigitChar(n)] else NatDigits(n / 10) + [DigitChar(n % 10)]
  }

  /** `Long.toString`. */
  function ShowInt(v: int): string
  {
    if v < 0 then "-" + NatDigits(-v) else NatDigits(v)
  }

  lemma {:induction false} NatDigitsValue(n: nat)
    ensures DigitsValue(NatDigits(n)) == n
  {
    if n >= 10 {
      var ds := NatDigits(n);
      assert ds[..|ds| - 1] == NatDigits(n / 10);
      NatDigitsValue(n / 10);
    }
  }

  /** Parsing undoes printing for every value in range. */
  lemma ParseShow(v: int, lo: int, hi: int)
    requires lo <= v <= hi
    ensures ParseDecimal(ShowInt(v), lo, hi) == Some(v)
  {
    var s := ShowInt(v);
    if v < 0 {
      assert s[0] == '-' && s[1..] == NatDigits(-v);
      NatDigitsValue(-v);
    } else {
      assert IsDigit(s[0]);
      NatDigitsValue(v);
    }
  }

  /** `NumberUtils.toLong` reads back every printed long, and falls back to 0. */
  lemma ToLongExamples(v: int)
    requires LongMin <= v <= LongMax
    ensures ToLong(Some(ShowInt(v))) == v
    ensures ToLong(Some("")) == 0 && ToLong(Some("-")) == 0 && ToLong(Some("1h")) == 0
  {
    ParseShow(v, LongMin, LongMax);
    assert !AllDigits("1h") by { assert !IsDigit("1h"[1]); }
  }
}
