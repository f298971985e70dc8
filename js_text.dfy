/**
 * The few JavaScript string primitives the client relies on, written out:
 * the `\s` character class (which is also what `String.prototype.trim`
 * strips), `replace(/\s+/g, " ")`, `trim()`, `slice(0, n)` and the decimal
 * form that `String(n)` and template literals give an integer.
 */
module JsText {

  /** The ECMAScript WhiteSpace and LineTerminator characters: the `\s` class. */
  predicate IsSpace(c: char) {
    || c == '\t' || c == '\n' || c == '\U{B}' || c == '\U{C}' || c == '\r' || c == ' '
    || c == '\U{A0}' || c == '\U{1680}' || ('\U{2000}' <= c <= '\U{200A}')
    || c == '\U{2028}' || c == '\U{2029}' || c == '\U{202F}' || c == '\U{205F}'
    || c == '\U{3000}' || c == '\U{FEFF}'
  }

  predicate AllSpace(s: string) {
    forall i :: 0 <= i < |s| ==> IsSpace(s[i])
  }

  /** The characters of `s` that are not whitespace, in order. */
  function NonSpace(s: string): string {
    if s == [] then []
    else (if IsSpace(s[0]) then [] else [s[0]]) + NonSpace(s[1..])
  }

  lemma {:induction false} NonSpaceAppend(a: string, b: string)
    ensures NonSpace(a + b) == NonSpace(a) + NonSpace(b)
  {
    if a == [] {
      assert a + b == b;
    } else {
      assert (a + b)[0] == a[0];
      assert (a + b)[1..] == a[1..] + b;
      NonSpaceAppend(a[1..], b);
    }
  }

  lemma {:induction false} NonSpaceEmpty(s: string)
    ensures NonSpace(s) == [] <==> AllSpace(s)
  {
    if s != [] {
      NonSpaceEmpty(s[1..]);
    }
  }

  /** Positions `i` and `i + 1` of `s` both hold whitespace. */
  predicate SpaceRunAt(s: string, i: nat)
    requires i + 1 < |s|
  {
    IsSpace(s[i]) && IsSpace(s[i + 1])
  }

  /** Whitespace in `s` is only ever a single ordinary space. */
  predicate SingleSpaced(s: string) {
    && (forall i :: 0 <= i < |s| && IsSpace(s[i]) ==> s[i] == ' ')
    && (forall i: nat :: i + 1 < |s| ==> !SpaceRunAt(s, i))
  }

  lemma SingleSpacedSlice(s: string, a: nat, b: nat)
    requires a <= b <= |s|
    ensures SingleSpaced(s) ==> SingleSpaced(s[a..b])
  {
    if SingleSpaced(s) {
      forall i: nat | i + 1 < b - a
        ensures !SpaceRunAt(s[a..b], i)
      {
        assert !SpaceRunAt(s, a + i);
      }
    }
  }

  lemma SingleSpacedCons(c: char, x: string)
    requires SingleSpaced(x)
    requires IsSpace(c) ==> c == ' ' && (x == [] || !IsSpace(x[0]))
    ensures SingleSpaced([c] + x)
  {
    var s := [c] + x;
    forall i: nat | i + 1 < |s|
      ensures !SpaceRunAt(s, i)
    {
      if i > 0 {
        assert !SpaceRunAt(x, i - 1);
      }
    }
  }

  /** Dropping a whitespace prefix keeps the other characters and single spacing. */
  lemma DropLeadingSpaces(s: string, k: nat)
    requires k <= |s| && AllSpace(s[..k])
    ensures NonSpace(s[k..]) == NonSpace(s)
    ensures SingleSpaced(s) ==> SingleSpaced(s[k..])
  {
    assert s == s[..k] + s[k..];
    NonSpaceAppend(s[..k], s[k..]);
    NonSpaceEmpty(s[..k]);
    SingleSpacedSlice(s, k, |s|);
    assert s[k..|s|] == s[k..];
  }

  /** Dropping a whitespace suffix keeps the other characters and single spacing. */
  lemma DropTrailingSpaces(s: string, k: nat)
    requires k <= |s| && AllSpace(s[k..])
    ensures NonSpace(s[..k]) == NonSpace(s)
    ensures SingleSpaced(s) ==> SingleSpaced(s[..k])
  {
    assert s == s[..k] + s[k..];
    NonSpaceAppend(s[..k], s[k..]);
    NonSpaceEmpty(s[k..]);
    SingleSpacedSlice(s, 0, k);
    assert s[0..k] == s[..k];
  }

  /** Removes the leading whitespace of `s`: the start half of `trim()`. */
  function TrimStart(s: string): (r: string)
    ensures |r| <= |s| && r == s[|s| - |r|..]
    ensures AllSpace(s[..|s| - |r|])
    ensures r != [] ==> !IsSpace(r[0])
  {
    if s != [] && IsSpace(s[0]) then
      var r := TrimStart(s[1..]);
      assert s[|s| - |r|..] == s[1..][|s| - 1 - |r|..];
      assert AllSpace(s[..|s| - |r|]) by {
        forall i | 0 < i < |s| - |r|
          ensures IsSpace(s[i])
        {
          assert s[i] == s[1..][..|s| - 1 - |r|][i - 1];
        }
      }
      r
    else s
  }

  /** Removes the trailing whitespace of `s`: the end half of `trim()`. */
  function TrimEnd(s: string): (r: string)
    ensures |r| <= |s| && r == s[..|r|]
    ensures AllSpace(s[|r|..])
    ensures r != [] ==> !IsSpace(r[|r| - 1])
  {
    if s != [] && IsSpace(s[|s| - 1]) then
      var front := s[..|s| - 1];
      var r := TrimEnd(front);
      assert s[|r|..] == front[|r|..] + [s[|s| - 1]];
      r
    else s
  }

  /** `s.trim()` */
  function Trim(s: string): (r: string)
    ensures r != [] ==> !IsSpace(r[0]) && !IsSpace(r[|r| - 1])
    ensures r == [] <==> AllSpace(s)
  {
    var front := TrimStart(s);
    var r := TrimEnd(front);
    assert r == [] <==> AllSpace(s) by {
      if front != [] {
        assert !IsSpace(s[|s| - |front|]);
      }
      if r == [] {
        assert front[|r|..] == front;
        assert s[..|s| - |front|] == s;
      }
    }
    r
  }

  /** Trimming keeps the other characters, and single spacing. */
  lemma TrimKeeps(s: string)
    ensures NonSpace(Trim(s)) == NonSpace(s)
    ensures SingleSpaced(s) ==> SingleSpaced(Trim(s))
  {
    var front := TrimStart(s);
    DropLeadingSpaces(s, |s| - |front|);
    DropTrailingSpaces(front, |TrimEnd(front)|);
  }

  /**
   * `s.replace(/\s+/g, " ")`: every maximal run of whitespace becomes one
   * space. The regular expression is greedy, so a run is consumed whole.
   */
  function CollapseSpaces(s: string): (r: string)
    ensures |r| <= |s|
    ensures r == [] <==> s == []
    ensures s != [] ==> (IsSpace(r[0]) <==> IsSpace(s[0]))
    decreases |s|
  {
    if s == [] then []
    else if IsSpace(s[0]) then " " + CollapseSpaces(TrimStart(s[1..]))
    else [s[0]] + CollapseSpaces(s[1..])
  }

  /** After the collapse only single spaces are left, between the same other characters. */
  lemma {:induction false} CollapseKeeps(s: string)
    ensures SingleSpaced(CollapseSpaces(s))
    ensures NonSpace(CollapseSpaces(s)) == NonSpace(s)
    decreases |s|
  {
    if s == [] {
    } else if IsSpace(s[0]) {
      var rest := TrimStart(s[1..]);
      CollapseKeeps(rest);
      DropLeadingSpaces(s[1..], |s| - 1 - |rest|);
      SingleSpacedCons(' ', CollapseSpaces(rest));
      NonSpaceAppend(" ", CollapseSpaces(rest));
    } else {
      CollapseKeeps(s[1..]);
      SingleSpacedCons(s[0], CollapseSpaces(s[1..]));
      NonSpaceAppend([s[0]], CollapseSpaces(s[1..]));
    }
  }

  /** `s.replace(/\s+/g, " ").trim()`, the compaction the client applies to a raw error body. */
  function Compact(s: string): (r: string)
    ensures r == [] <==> AllSpace(s)
    ensures r != [] ==> !IsSpace(r[0]) && !IsSpace(r[|r| - 1])
    ensures SingleSpaced(r)
    ensures NonSpace(r) == NonSpace(s)
  {
    var c := CollapseSpaces(s);
    CollapseKeeps(s);
    TrimKeeps(c);
    NonSpaceEmpty(s);
    NonSpaceEmpty(c);
    Trim(c)
  }

  predicate NoSpace(s: string) {
    forall i :: 0 <= i < |s| ==> !IsSpace(s[i])
  }

  lemma {:induction false} TrimStartPast(w: string, x: string)
    requires AllSpace(w) && (x == [] || !IsSpace(x[0]))
    ensures TrimStart(w + x) == x
  {
    if w == [] {
      assert w + x == x;
    } else {
      assert (w + x)[1..] == w[1..] + x;
      TrimStartPast(w[1..], x);
    }
  }

  lemma {:induction false} TrimEndPast(x: string, w: string)
    requires AllSpace(w) && (x == [] || !IsSpace(x[|x| - 1]))
    ensures TrimEnd(x + w) == x
  {
    if w == [] {
      assert x + w == x;
    } else {
      assert (x + w)[..|x + w| - 1] == x + w[..|w| - 1];
      TrimEndPast(x, w[..|w| - 1]);
    }
  }

  /** A word without whitespace passes through the collapse unchanged. */
  lemma {:induction false} CollapseWord(word: string, rest: string)
    requires NoSpace(word)
    ensures CollapseSpaces(word + rest) == word + CollapseSpaces(rest)
  {
    if word == [] {
      assert word + rest == rest;
    } else {
      assert (word + rest)[0] == word[0];
      assert (word + rest)[1..] == word[1..] + rest;
      CollapseWord(word[1..], rest);
    }
  }

  /** A whole run of whitespace becomes one space. */
  lemma CollapseRun(w: string, x: string)
    requires AllSpace(w) && w != [] && (x == [] || !IsSpace(x[0]))
    ensures CollapseSpaces(w + x) == " " + CollapseSpaces(x)
  {
    assert (w + x)[0] == w[0];
    assert (w + x)[1..] == w[1..] + x;
    TrimStartPast(w[1..], x);
  }

  /** The separator the collapse leaves for a run `w` of whitespace: one space, or nothing. */
  function RunMark(w: string): string {
    if w == [] then "" else " "
  }

  /** A single word padded with whitespace collapses to the word with at most one space each side. */
  lemma CollapsePaddedWord(lead: string, word: string, trail: string)
    requires AllSpace(lead) && AllSpace(trail)
    requires word != [] && NoSpace(word)
    ensures CollapseSpaces(lead + word + trail) == RunMark(lead) + (word + RunMark(trail))
  {
    CollapseWord(word, trail);
    if trail != [] {
      CollapseRun(trail, []);
      assert trail + [] == trail;
    }
    assert CollapseSpaces(word + trail) == word + RunMark(trail);
    assert lead + word + trail == lead + (word + trail);
    if lead != [] {
      CollapseRun(lead, word + trail);
    } else {
      assert lead + (word + trail) == word + trail;
    }
  }

  /** Compacting a single word padded with whitespace gives back the word. */
  lemma CompactPaddedWord(lead: string, word: string, trail: string)
    requires AllSpace(lead) && AllSpace(trail)
    requires word != [] && NoSpace(word)
    ensures Compact(lead + word + trail) == word
  {
    var padded := word + RunMark(trail);
    assert CollapseSpaces(lead + word + trail) == RunMark(lead) + padded by {
      CollapsePaddedWord(lead, word, trail);
    }
    assert TrimStart(RunMark(lead) + padded) == padded by {
      assert padded[0] == word[0];
      TrimStartPast(RunMark(lead), padded);
    }
    assert TrimEnd(padded) == word by {
      TrimEndPast(word, RunMark(trail));
    }
  }

  /** `s.slice(0, n)` for a non-negative `n`. */
  function Take(s: string, n: nat): (r: string)
    ensures |r| <= n && |r| <= |s|
    ensures r == s[..|r|]
    ensures |s| <= n ==> r == s
    ensures |s| > n ==> |r| == n
  {
    if |s| <= n then s else s[..n]
  }

  /** The decimal digit for `d`. */
  function DigitChar(d: nat): (c: char)
    requires d < 10
    ensures '0' <= c <= '9' && c as int - '0' as int == d
  {
    ('0' as int + d) as char
  }

  predicate IsDigits(s: string) {
    forall i :: 0 <= i < |s| ==> '0' <= s[i] <= '9'
  }

  /** The decimal digits of `n` with no leading zero. */
  function Digits(n: nat): (r: string)
    ensures r != [] && IsDigits(r)
    ensures n > 0 ==> r[0] != '0'
    ensures n == 0 <==> r == "0"
  {
    if n < 10 then [DigitChar(n)] else Digits(n / 10) + [DigitChar(n % 10)]
  }

  /** The number a string of decimal digits denotes. */
  function DigitsValue(s: string): nat
    requires IsDigits(s)
  {
    if s == [] then 0 else DigitsValue(s[..|s| - 1]) * 10 + (s[|s| - 1] as int - '0' as int)
  }

  lemma {:induction false} DigitsRoundTrip(n: nat)
    ensures DigitsValue(Digits(n)) == n
  {
    if n >= 10 {
      DigitsRoundTrip(n / 10);
      var r := Digits(n / 10) + [DigitChar(n % 10)];
      assert r[..|r| - 1] == Digits(n / 10);
    }
  }

  /** `String(n)` for an integer `n`: an optional minus sign, then the digits. */
  function DecimalString(n: int): (r: string)
    ensures r != []
    ensures n < 0 <==> r[0] == '-'
  {
    if n < 0 then "-" + Digits(-n) else Digits(n)
  }

  lemma DigitsInjective(a: nat, b: nat)
    requires Digits(a) == Digits(b)
    ensures a == b
  {
    DigitsRoundTrip(a);
    DigitsRoundTrip(b);
  }

  /** Distinct integers print differently. */
  lemma DecimalStringInjective(m: int, n: int)
    requires DecimalString(m) == DecimalString(n)
    ensures m == n
  {
    var t := DecimalString(m);
    if m < 0 {
      assert n < 0;
      assert t[1..] == Digits(-m) && t[1..] == Digits(-n);
      DigitsInjective(-m, -n);
    } else {
      assert n >= 0;
      DigitsInjective(m, n);
    }
  }
}
