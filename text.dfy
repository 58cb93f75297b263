/**
 * The string operations the components call: `toLowerCase` (ASCII letters
 * only), `includes`, the whitespace class `\s` of JavaScript regular
 * expressions, the `replace(/\s+/g, '-')` slug rule and `Number.toString`
 * for integers.
 */
module Text {
  import opened Seqs

  predicate IsAsciiUpper(c: char) { 'A' <= c <= 'Z' }

  function LowerChar(c: char): char
  {
    if IsAsciiUpper(c) then (c as int + 32) as char else c
  }

  /** `toLowerCase`, restricted to ASCII letters. */
  function Lower(s: string): (r: string)
    ensures |r| == |s|
    ensures forall i :: 0 <= i < |r| ==> !IsAsciiUpper(r[i])
    ensures forall i :: 0 <= i < |s| && !IsAsciiUpper(s[i]) ==> r[i] == s[i]
  {
    seq(|s|, i requires 0 <= i < |s| => LowerChar(s[i]))
  }

  lemma LowerIdempotent(s: string)
    ensures Lower(Lower(s)) == Lower(s)
  {
  }

  /** `s.includes(q)`: `q` occurs in `s` at some offset. */
  predicate Includes(s: string, q: string)
    decreases |s|
  {
    q <= s || (s != [] && Includes(s[1..], q))
  }

  /** `q` occurs in `s` starting at offset `k`. */
  predicate OccursAt(s: string, q: string, k: int)
  {
    0 <= k && k + |q| <= |s| && s[k..k + |q|] == q
  }

  lemma {:induction false} IncludesIff(s: string, q: string)
    ensures Includes(s, q) <==> exists k :: OccursAt(s, q, k)
    decreases |s|
  {
    if s == [] {
      if q == [] {
        assert OccursAt(s, q, 0);
      }
    } else {
      IncludesIff(s[1..], q);
      if q <= s {
        assert OccursAt(s, q, 0);
      } else if Includes(s[1..], q) {
        var k :| OccursAt(s[1..], q, k);
        assert s[k + 1..k + 1 + |q|] == s[1..][k..k + |q|];
        assert OccursAt(s, q, k + 1);
      }
      if exists k :: OccursAt(s, q, k) {
        var k :| OccursAt(s, q, k);
        if k > 0 {
          assert s[1..][k - 1..k - 1 + |q|] == s[k..k + |q|];
          assert OccursAt(s[1..], q, k - 1);
          assert Includes(s[1..], q);
        } else {
          assert q == s[..|q|];
        }
      }
    }
  }

  /** Every string includes the empty string. */
  lemma IncludesEmpty(s: string)
    ensures Includes(s, "")
  {
  }

  /** The characters matched by `\s` in a JavaScript regular expression. */
  const Whitespace: set<char> := {
    ' ', '\t', '\n', '\U{B}', '\U{C}', '\r', '\U{A0}', '\U{1680}',
    '\U{2000}', '\U{2001}', '\U{2002}', '\U{2003}', '\U{2004}', '\U{2005}',
    '\U{2006}', '\U{2007}', '\U{2008}', '\U{2009}', '\U{200A}',
    '\U{2028}', '\U{2029}', '\U{202F}', '\U{205F}', '\U{3000}', '\U{FEFF}'
  }

  predicate IsSpace(c: char)
  {
    c in Whitespace
  }

  predicate NoSpace(s: string) { forall i :: 0 <= i < |s| ==> !IsSpace(s[i]) }

  predicate AllSpace(s: string) { forall i :: 0 <= i < |s| ==> IsSpace(s[i]) }

  /**
   * `replace(/\s+/g, '-')`: each maximal run of whitespace becomes one dash.
   * `inRun` says whether the character before `s` was whitespace already
   * replaced by a dash.
   */
  function DashRunsFrom(s: string, inRun: bool): string
  {
    if s == [] then []
    else if IsSpace(s[0]) then (if inRun then [] else "-") + DashRunsFrom(s[1..], true)
    else [s[0]] + DashRunsFrom(s[1..], false)
  }

  function DashRuns(s: string): string
  {
    DashRunsFrom(s, false)
  }

  /** The slug of a site name: `name.toLowerCase().replace(/\s+/g, '-')`. */
  function Slug(name: string): string
  {
    DashRuns(Lower(name))
  }

  /** Whether a dash run is open after reading `s` from state `inRun`. */
  function EndsInRun(s: string, inRun: bool): bool
  {
    if s == [] then inRun else IsSpace(s[|s| - 1])
  }

  /** The non-whitespace characters of `s`, in order. */
  function NonSpace(s: string): string
  {
    Filter(s, c => !IsSpace(c))
  }

  /** The output of one character in front of `s`. */
  function DashHead(c: char, inRun: bool): string
  {
    if IsSpace(c) then (if inRun then [] else "-") else [c]
  }

  lemma DashRunsFromCons(c: char, s: string, inRun: bool)
    ensures DashRunsFrom([c] + s, inRun) == DashHead(c, inRun) + DashRunsFrom(s, IsSpace(c))
  {
    assert ([c] + s)[0] == c && ([c] + s)[1..] == s;
  }

  lemma {:induction false} DashRunsFromAppend(x: string, y: string, inRun: bool)
    ensures DashRunsFrom(x + y, inRun) == DashRunsFrom(x, inRun) + DashRunsFrom(y, EndsInRun(x, inRun))
    decreases |x|
  {
    if x == [] {
      assert x + y == y;
    } else {
      var rest := x[1..];
      var next := IsSpace(x[0]);
      assert x == [x[0]] + rest;
      assert x + y == [x[0]] + (rest + y);
      DashRunsFromCons(x[0], rest, inRun);
      DashRunsFromCons(x[0], rest + y, inRun);
      DashRunsFromAppend(rest, y, next);
      assert EndsInRun(rest, next) == EndsInRun(x, inRun);
    }
  }

  /** A dash run already open swallows leading whitespace only: a non-space start resets it. */
  lemma DashRunsFromNonSpaceStart(s: string, inRun: bool)
    requires s != [] && !IsSpace(s[0])
    ensures DashRunsFrom(s, inRun) == DashRuns(s)
  {
  }

  /**
   * DashRuns distributes over a concatenation unless the cut falls inside a
   * whitespace run; with `DashRunsOfWord` and `DashRunsOfRun` this
   * determines it.
   */
  lemma DashRunsAppend(x: string, y: string)
    requires x == [] || y == [] || !IsSpace(x[|x| - 1]) || !IsSpace(y[0])
    ensures DashRuns(x + y) == DashRuns(x) + DashRuns(y)
  {
    DashRunsFromAppend(x, y, false);
    if y != [] && EndsInRun(x, false) {
      DashRunsFromNonSpaceStart(y, true);
    }
  }

  /** A word without whitespace is left as it is. */
  lemma {:induction false} DashRunsOfWord(w: string, inRun: bool)
    requires NoSpace(w)
    ensures DashRunsFrom(w, inRun) == w
    decreases |w|
  {
    if w != [] {
      DashRunsOfWord(w[1..], false);
    }
  }

  /** Inside an open run, further whitespace adds nothing. */
  lemma {:induction false} DashRunsInsideRun(r: string)
    requires AllSpace(r)
    ensures DashRunsFrom(r, true) == []
    decreases |r|
  {
    if r != [] {
      DashRunsInsideRun(r[1..]);
    }
  }

  /** A non-empty run of whitespace becomes a single dash. */
  lemma DashRunsOfRun(r: string)
    requires r != [] && AllSpace(r)
    ensures DashRuns(r) == "-"
  {
    DashRunsInsideRun(r[1..]);
  }

  /** The result of DashRuns never contains whitespace. */
  lemma {:induction false} DashRunsNoSpace(s: string, inRun: bool)
    ensures NoSpace(DashRunsFrom(s, inRun))
    decreases |s|
  {
    if s != [] {
      DashRunsNoSpace(s[1..], IsSpace(s[0]));
    }
  }

  /** The slug never contains whitespace. */
  lemma SlugHasNoSpace(name: string)
    ensures NoSpace(Slug(name))
  {
    DashRunsNoSpace(Lower(name), false);
  }

  lemma {:induction false} LowerNonSpace(s: string)
    ensures Lower(NonSpace(s)) == NonSpace(Lower(s))
    decreases |s|
  {
    if s != [] {
      var c, ls := s[0], Lower(s);
      LowerNonSpace(s[1..]);
      assert ls == [LowerChar(c)] + Lower(s[1..]);
      LowerCharKeepsSpace(c);
      NonSpaceFirst(s);
      NonSpaceFirst(ls);
      if !IsSpace(c) {
        LowerAppend([c], NonSpace(s[1..]));
      }
    }
  }

  lemma NonSpaceFirst(s: string)
    requires s != []
    ensures NonSpace(s) == if IsSpace(s[0]) then NonSpace(s[1..]) else [s[0]] + NonSpace(s[1..])
  {
  }

  lemma LowerCharKeepsSpace(c: char)
    ensures IsSpace(LowerChar(c)) <==> IsSpace(c)
  {
  }

  lemma LowerAppend(a: string, b: string)
    ensures Lower(a + b) == Lower(a) + Lower(b)
  {
  }

  lemma {:induction false} DashRunsKeepsLetters(s: string, inRun: bool)
    ensures IsSubsequence(NonSpace(s), DashRunsFrom(s, inRun))
    decreases |s|
  {
    if s != [] {
      var rest := DashRunsFrom(s[1..], IsSpace(s[0]));
      DashRunsKeepsLetters(s[1..], IsSpace(s[0]));
      if IsSpace(s[0]) {
        assert NonSpace(s) == NonSpace(s[1..]);
        if inRun {
          assert DashRunsFrom(s, inRun) == rest;
        } else {
          SubsequenceCons('-', NonSpace(s[1..]), rest);
        }
      } else {
        assert DashRunsFrom(s, inRun)[1..] == rest;
        assert NonSpace(s)[1..] == NonSpace(s[1..]);
      }
    }
  }

  /** Every non-whitespace character of the name appears in the slug, lower-cased and in order. */
  lemma SlugKeepsLetters(name: string)
    ensures IsSubsequence(Lower(NonSpace(name)), Slug(name))
  {
    LowerNonSpace(name);
    DashRunsKeepsLetters(Lower(name), false);
  }

  /**
   * `Number.prototype.toString` for integers below 10^21 in magnitude:
   * decimal digits, with a minus sign when negative.
   */
  function IntToString(n: int): (r: string)
    ensures r != []
    ensures n >= 0 ==> forall i :: 0 <= i < |r| ==> '0' <= r[i] <= '9'
  {
    if n < 0 then "-" + NatToString(-n) else NatToString(n)
  }

  function NatToString(n: nat): (r: string)
    ensures r != []
    ensures forall i :: 0 <= i < |r| ==> '0' <= r[i] <= '9'
  {
    if n < 10 then [Digit(n)] else NatToString(n / 10) + [Digit(n % 10)]
  }

  function Digit(d: nat): (c: char)
    requires d < 10
    ensures '0' <= c <= '9'
  {
    ('0' as int + d) as char
  }

  /** Reading the digits back gives the number: the rendering loses nothing. */
  function DigitsValue(s: string): int
  {
    if s == [] then 0 else DigitsValue(s[..|s| - 1]) * 10 + (s[|s| - 1] as int - '0' as int)
  }

  lemma {:induction false} NatToStringRoundTrip(n: nat)
    ensures DigitsValue(NatToString(n)) == n
    decreases n
  {
    if n >= 10 {
      NatToStringRoundTrip(n / 10);
      var s := NatToString(n);
      assert s[..|s| - 1] == NatToString(n / 10);
    }
  }
}
