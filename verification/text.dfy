/** The string primitives the classifiers are built from: ASCII lower-casing
    (`str.lower`), whitespace stripping (`str.strip`), whitespace token
    counting (`len(str.split())`) and substring search (`sub in s`). */
module Text {

  /** The ASCII characters Python's `str.isspace` accepts. */
  predicate IsSpace(c: char)
  {
    c == ' ' || c == '\t' || c == '\n' || c == '\r' || c == '\U{0B}' || c == '\U{0C}'
    || ('\U{1C}' <= c <= '\U{1F}')
  }

  predicate IsUpper(c: char)
  {
    'A' <= c <= 'Z'
  }

  function LowerChar(c: char): (r: char)
    ensures !IsUpper(r)
    ensures IsUpper(c) ==> r != c && r as int - c as int == 32
    ensures !IsUpper(c) ==> r == c
  {
    if IsUpper(c) then (c as int + 32) as char else c
  }

  /** `s.lower()`, restricted to ASCII letters. */
  function Lower(s: string): (r: string)
    ensures |r| == |s|
    ensures forall i :: 0 <= i < |s| ==> r[i] == LowerChar(s[i])
  {
    seq(|s|, i requires 0 <= i < |s| => LowerChar(s[i]))
  }

  predicate AllSpace(s: string)
  {
    forall i :: 0 <= i < |s| ==> IsSpace(s[i])
  }

  predicate NoUpper(s: string)
  {
    forall i :: 0 <= i < |s| ==> !IsUpper(s[i])
  }

  /** The first index at or after `i` that holds a non-space, or `|s|`. */
  function SkipSpace(s: string, i: nat): (n: nat)
    requires i <= |s|
    ensures i <= n <= |s|
    ensures forall k :: i <= k < n ==> IsSpace(s[k])
    ensures n < |s| ==> !IsSpace(s[n])
    decreases |s| - i
  {
    if i < |s| && IsSpace(s[i]) then SkipSpace(s, i + 1) else i
  }

  /** The index just past the last non-space of `s[lo..hi]`, or `lo`. */
  function SkipSpaceBack(s: string, lo: nat, hi: nat): (n: nat)
    requires lo <= hi <= |s|
    ensures lo <= n <= hi
    ensures forall k :: n <= k < hi ==> IsSpace(s[k])
    ensures n > lo ==> !IsSpace(s[n - 1])
    decreases hi - lo
  {
    if hi > lo && IsSpace(s[hi - 1]) then SkipSpaceBack(s, lo, hi - 1) else hi
  }

  /** `s.strip()`: leading and trailing whitespace removed; nothing is left
      exactly when `s` is whitespace only.  StripIsInfix states where the
      result sits in `s`. */
  function Strip(s: string): (r: string)
    ensures |r| <= |s|
    ensures |r| > 0 ==> !IsSpace(r[0]) && !IsSpace(r[|r| - 1])
    ensures |r| == 0 <==> AllSpace(s)
  {
    var a := SkipSpace(s, 0);
    var b := SkipSpaceBack(s, a, |s|);
    assert a == b ==> AllSpace(s) by {
      if a == b && a < |s| {
        assert false;
      }
    }
    s[a..b]
  }

  /** The stripped text is the infix of `s` between a whitespace prefix and a
      whitespace suffix. */
  lemma StripIsInfix(s: string)
    ensures exists a :: 0 <= a && a + |Strip(s)| <= |s| && Strip(s) == s[a..a + |Strip(s)|]
                        && AllSpace(s[..a]) && AllSpace(s[a + |Strip(s)|..])
  {
    var a := SkipSpace(s, 0);
    var b := SkipSpaceBack(s, a, |s|);
    assert Strip(s) == s[a..b];
    assert AllSpace(s[..a]) by {
      forall k | 0 <= k < a ensures IsSpace(s[..a][k]) {
        assert s[..a][k] == s[k];
      }
    }
    assert AllSpace(s[b..]) by {
      forall k | 0 <= k < |s| - b ensures IsSpace(s[b..][k]) {
        assert s[b..][k] == s[b + k];
      }
    }
  }

  /** SkipSpace is determined by its contract: `n` is the answer when
      everything in `[i, n)` is a space and `n` is the end or a non-space. */
  lemma {:induction false} SkipSpaceUnique(s: string, i: nat, n: nat)
    requires i <= n <= |s|
    requires forall k :: i <= k < n ==> IsSpace(s[k])
    requires n < |s| ==> !IsSpace(s[n])
    ensures SkipSpace(s, i) == n
    decreases n - i
  {
    if i < n {
      SkipSpaceUnique(s, i + 1, n);
    }
  }

  /** SkipSpaceBack is determined by its contract in the same way. */
  lemma {:induction false} SkipSpaceBackUnique(s: string, lo: nat, hi: nat, n: nat)
    requires lo <= n <= hi <= |s|
    requires forall k :: n <= k < hi ==> IsSpace(s[k])
    requires n > lo ==> !IsSpace(s[n - 1])
    ensures SkipSpaceBack(s, lo, hi) == n
    decreases hi - n
  {
    if n < hi {
      SkipSpaceBackUnique(s, lo, hi - 1, n);
    }
  }

  /** A whitespace-separated token starts at position `i`. */
  predicate StartsWord(s: string, i: nat)
  {
    i < |s| && !IsSpace(s[i]) && (i == 0 || IsSpace(s[i - 1]))
  }

  function WordStarts(s: string): set<nat>
  {
    set i: nat | i < |s| && StartsWord(s, i)
  }

  /** `len(s.split())`: the number of maximal runs of non-space characters. */
  function TokenCount(s: string): nat
  {
    |WordStarts(s)|
  }

  /** `sub` occurs in `s` starting at position `i`. */
  predicate MatchesAt(s: string, sub: string, i: nat)
  {
    i + |sub| <= |s| && forall k :: 0 <= k < |sub| ==> s[i + k] == sub[k]
  }

  /** Python's `sub in s`. */
  predicate Contains(s: string, sub: string)
  {
    exists i: nat :: i + |sub| <= |s| && MatchesAt(s, sub, i)
  }

  /** Python's `any(p in s for p in phrases)`. */
  predicate ContainsAny(s: string, phrases: seq<string>)
  {
    exists j :: 0 <= j < |phrases| && Contains(s, phrases[j])
  }

  // ---------------------------------------------------------------------------
  // Lower
  // ---------------------------------------------------------------------------

  lemma LowerIdempotent(s: string)
    ensures Lower(Lower(s)) == Lower(s)
    ensures NoUpper(Lower(s))
  {
  }

  lemma LowerConcat(a: string, b: string)
    ensures Lower(a + b) == Lower(a) + Lower(b)
  {
  }

  lemma LowerOfNoUpper(s: string)
    requires NoUpper(s)
    ensures Lower(s) == s
  {
  }

  /** Lower-casing never turns a space into a non-space or back. */
  lemma LowerKeepsSpaces(s: string)
    ensures AllSpace(s) ==> Lower(s) == s
    ensures forall i :: 0 <= i < |s| ==> (IsSpace(Lower(s)[i]) <==> IsSpace(s[i]))
  {
  }

  // ---------------------------------------------------------------------------
  // Strip
  // ---------------------------------------------------------------------------

  /** Surrounding whitespace never changes the stripped text. */
  lemma StripSurrounding(ws1: string, x: string, ws2: string)
    requires AllSpace(ws1) && AllSpace(ws2)
    ensures Strip(ws1 + x + ws2) == Strip(x)
  {
    if AllSpace(x) {
      SurroundedSpace(ws1, x, ws2);
    } else {
      StripSurroundedText(ws1, x, ws2);
    }
  }

  lemma StripSurroundedText(ws1: string, x: string, ws2: string)
    requires AllSpace(ws1) && AllSpace(ws2) && !AllSpace(x)
    ensures Strip(ws1 + x + ws2) == Strip(x)
  {
    var ax := SkipSpace(x, 0);
    SkipSpaceSurrounded(ws1, x, ws2);
    SkipSpaceBackSurrounded(ws1, x, ws2);
    InfixShift(ws1, x, ws2, ax, SkipSpaceBack(x, ax, |x|));
  }

  /** Slicing inside the middle part of a concatenation. */
  lemma InfixShift(p: string, x: string, q: string, i: nat, j: nat)
    requires i <= j <= |x|
    ensures (p + x + q)[|p| + i..|p| + j] == x[i..j]
  {
    var y := p + x + q;
    forall k | 0 <= k < j - i ensures y[|p| + i..|p| + j][k] == x[i..j][k] {
      assert y[|p| + i + k] == x[i + k];
    }
  }

  lemma SurroundedSpace(ws1: string, x: string, ws2: string)
    requires AllSpace(ws1) && AllSpace(x) && AllSpace(ws2)
    ensures AllSpace(ws1 + x + ws2)
  {
    var y := ws1 + x + ws2;
    forall k | 0 <= k < |y| ensures IsSpace(y[k]) {
      if k < |ws1| {
        assert y[k] == ws1[k];
      } else if k < |ws1| + |x| {
        assert y[k] == x[k - |ws1|];
      } else {
        assert y[k] == ws2[k - |ws1| - |x|];
      }
    }
  }

  /** The leading whitespace of `ws1 + x + ws2` is `ws1` followed by the
      leading whitespace of `x`, when `x` has a non-space. */
  lemma SkipSpaceSurrounded(ws1: string, x: string, ws2: string)
    requires AllSpace(ws1) && !AllSpace(x)
    ensures SkipSpace(x, 0) < |x|
    ensures SkipSpace(ws1 + x + ws2, 0) == |ws1| + SkipSpace(x, 0)
  {
    var y := ws1 + x + ws2;
    var ax := SkipSpace(x, 0);
    if ax == |x| {
      assert false;
    }
    forall k | 0 <= k < |ws1| + ax ensures IsSpace(y[k]) {
      if k < |ws1| {
        assert y[k] == ws1[k];
      } else {
        assert y[k] == x[k - |ws1|];
      }
    }
    assert y[|ws1| + ax] == x[ax];
    SkipSpaceUnique(y, 0, |ws1| + ax);
  }

  /** The trailing whitespace of `ws1 + x + ws2` is that of `x` followed by
      `ws2`, when `x` has a non-space. */
  lemma SkipSpaceBackSurrounded(ws1: string, x: string, ws2: string)
    requires AllSpace(ws2) && !AllSpace(x)
    requires SkipSpace(x, 0) < |x|
    ensures var ax := SkipSpace(x, 0);
            SkipSpaceBack(ws1 + x + ws2, |ws1| + ax, |ws1 + x + ws2|) == |ws1| + SkipSpaceBack(x, ax, |x|)
  {
    var y := ws1 + x + ws2;
    var ax := SkipSpace(x, 0);
    var bx := SkipSpaceBack(x, ax, |x|);
    if bx == ax {
      assert false;
    }
    forall k | |ws1| + bx <= k < |y| ensures IsSpace(y[k]) {
      if k < |ws1| + |x| {
        assert y[k] == x[k - |ws1|];
      } else {
        assert y[k] == ws2[k - |ws1| - |x|];
      }
    }
    assert y[|ws1| + bx - 1] == x[bx - 1];
    SkipSpaceBackUnique(y, |ws1| + ax, |y|, |ws1| + bx);
  }

  /** Text that starts and ends with a non-space and has no upper-case letter
      is its own normal form. */
  lemma NormalFormLiteral(s: string)
    requires NoUpper(s)
    requires |s| > 0 ==> !IsSpace(s[0]) && !IsSpace(s[|s| - 1])
    ensures Strip(Lower(s)) == s
  {
    LowerOfNoUpper(s);
  }

  // ---------------------------------------------------------------------------
  // Tokens
  // ---------------------------------------------------------------------------

  /** A text has no token exactly when it is whitespace only. */
  lemma TokenCountZero(s: string)
    ensures TokenCount(s) == 0 <==> AllSpace(s)
  {
    if !AllSpace(s) {
      var i :| 0 <= i < |s| && !IsSpace(s[i]);
      FirstNonSpaceStartsWord(s, i);
    }
  }

  lemma {:induction false} FirstNonSpaceStartsWord(s: string, i: nat)
    requires i < |s| && !IsSpace(s[i])
    ensures WordStarts(s) != {}
    decreases i
  {
    if i > 0 && !IsSpace(s[i - 1]) {
      FirstNonSpaceStartsWord(s, i - 1);
    } else {
      assert StartsWord(s, i);
      assert i in WordStarts(s);
    }
  }

  /** Every listed position starts a token, so there are at least that many. */
  lemma TokenCountAtLeast(s: string, starts: set<nat>)
    requires forall i :: i in starts ==> StartsWord(s, i)
    ensures TokenCount(s) >= |starts|
  {
    var w := WordStarts(s);
    assert starts <= w;
    assert w == starts + (w - starts);
    assert starts !! (w - starts);
  }

  // ---------------------------------------------------------------------------
  // Substrings
  // ---------------------------------------------------------------------------

  lemma ContainsEmpty(s: string, sub: string)
    ensures Contains(s, [])
    ensures |sub| > 0 ==> !Contains([], sub)
  {
    assert MatchesAt(s, [], 0);
  }

  /** Every string occurs in itself. */
  lemma ContainsWhole(s: string)
    ensures Contains(s, s)
  {
    assert MatchesAt(s, s, 0);
  }

  /** Occurrence survives any text added on either side. */
  lemma ContainsWithin(p: string, s: string, q: string, sub: string)
    requires Contains(s, sub)
    ensures Contains(p + s + q, sub)
  {
    var i: nat :| i + |sub| <= |s| && MatchesAt(s, sub, i);
    assert MatchesAt(p + s + q, sub, |p| + i);
  }

  lemma ContainsAnyWithin(p: string, s: string, q: string, phrases: seq<string>)
    requires ContainsAny(s, phrases)
    ensures ContainsAny(p + s + q, phrases)
  {
    var j :| 0 <= j < |phrases| && Contains(s, phrases[j]);
    ContainsWithin(p, s, q, phrases[j]);
  }

  /** Occurrence is transitive: what occurs in an occurrence occurs. */
  lemma ContainsTransitive(s: string, mid: string, sub: string)
    requires Contains(s, mid) && Contains(mid, sub)
    ensures Contains(s, sub)
  {
    var i: nat :| i + |mid| <= |s| && MatchesAt(s, mid, i);
    var j: nat :| j + |sub| <= |mid| && MatchesAt(mid, sub, j);
    assert MatchesAt(s, sub, i + j);
  }

  /** The strings of `ps` written one after another. */
  function Concat(ps: seq<string>): string
  {
    if |ps| == 0 then "" else ps[0] + Concat(ps[1..])
  }

  /** A phrase found, in lower case, in one piece is found in the
      concatenation of all pieces. */
  lemma {:induction false} LowerConcatContains(ps: seq<string>, j: nat, sub: string)
    requires j < |ps| && Contains(Lower(ps[j]), sub)
    ensures Contains(Lower(Concat(ps)), sub)
    decreases |ps|
  {
    var rest := Concat(ps[1..]);
    LowerConcat(ps[0], rest);
    if j == 0 {
      ContainsWithin([], Lower(ps[0]), Lower(rest), sub);
      assert [] + Lower(ps[0]) + Lower(rest) == Lower(Concat(ps));
    } else {
      LowerConcatContains(ps[1..], j - 1, sub);
      ContainsWithin(Lower(ps[0]), Lower(rest), [], sub);
      assert Lower(ps[0]) + Lower(rest) + [] == Lower(Concat(ps));
    }
  }

  /** No position of `s` holds the two characters `sub[k]`, `sub[k + 1]` in a
      row, so `sub` cannot occur in `s`. */
  lemma AbsentPair(s: string, sub: string, k: nat)
    requires k + 1 < |sub|
    requires forall i :: 0 <= i < |s| - 1 ==> !(s[i] == sub[k] && s[i + 1] == sub[k + 1])
    ensures !Contains(s, sub)
  {
    forall i: nat | i + |sub| <= |s|
      ensures !MatchesAt(s, sub, i)
    {
      assert !(s[i + k] == sub[k] && s[i + k + 1] == sub[k + 1]);
    }
  }

  /** AbsentPair for a whole phrase list, with the pair to look for in
      phrase `j` starting at `ks[j]`. */
  lemma AbsentPairs(s: string, phrases: seq<string>, ks: seq<nat>)
    requires |ks| == |phrases|
    requires forall j :: 0 <= j < |phrases| ==>
               ks[j] + 1 < |phrases[j]| &&
               forall i :: 0 <= i < |s| - 1 ==> !(s[i] == phrases[j][ks[j]] && s[i + 1] == phrases[j][ks[j] + 1])
    ensures !ContainsAny(s, phrases)
  {
    forall j | 0 <= j < |phrases|
      ensures !Contains(s, phrases[j])
    {
      AbsentPair(s, phrases[j], ks[j]);
    }
  }
}
