/** The string operations of JavaScript the core relies on: trim, toLowerCase, includes, startsWith, split, and the
    decimal rendering of a non-negative integer. Strings are sequences of characters. */
module Text {

  /** The characters String.prototype.trim removes: ECMAScript WhiteSpace and LineTerminator code points. */
  predicate IsSpace(c: char)
  {
    c == ' ' || c == '\t' || c == '\n' || c == '\r' || c == '\U{0B}' || c == '\U{0C}' ||
    c == '\U{A0}' || c == '\U{1680}' || ('\U{2000}' <= c <= '\U{200A}') || c == '\U{2028}' ||
    c == '\U{2029}' || c == '\U{202F}' || c == '\U{205F}' || c == '\U{3000}' || c == '\U{FEFF}'
  }

  predicate AllSpace(s: string)
  {
    forall i :: 0 <= i < |s| ==> IsSpace(s[i])
  }

  /** Drops leading white space: the result is the suffix of s that starts at its first non-space character. */
  function TrimStart(s: string): (r: string)
    ensures |r| <= |s|
    ensures AllSpace(s[..|s| - |r|])
    ensures r == [] || !IsSpace(r[0])
  {
    if |s| > 0 && IsSpace(s[0]) then
      var r := TrimStart(s[1..]);
      assert s[..|s| - |r|] == [s[0]] + s[1..][..|s| - 1 - |r|];
      r
    else s
  }

  /** What TrimStart keeps is a suffix of s. */
  lemma {:induction false} TrimStartSuffix(s: string)
    ensures TrimStart(s) == s[|s| - |TrimStart(s)|..]
  {
    if |s| > 0 && IsSpace(s[0]) {
      TrimStartSuffix(s[1..]);
    }
  }

  /** Drops trailing white space: the result is the prefix of s that ends at its last non-space character. */
  function TrimEnd(s: string): (r: string)
    ensures |r| <= |s|
    ensures AllSpace(s[|r|..])
    ensures r == [] || !IsSpace(r[|r| - 1])
  {
    if |s| > 0 && IsSpace(s[|s| - 1]) then
      var r := TrimEnd(s[..|s| - 1]);
      assert s[|r|..] == s[..|s| - 1][|r|..] + [s[|s| - 1]];
      r
    else s
  }

  /** What TrimEnd keeps is a prefix of s. */
  lemma {:induction false} TrimEndPrefix(s: string)
    ensures TrimEnd(s) == s[..|TrimEnd(s)|]
  {
    if |s| > 0 && IsSpace(s[|s| - 1]) {
      TrimEndPrefix(s[..|s| - 1]);
    }
  }

  /** `s.trim()`. */
  function Trim(s: string): string
  {
    TrimEnd(TrimStart(s))
  }

  /** Trim keeps a contiguous middle part of s and removes only white space around it, and that part neither
      starts nor ends with white space. */
  lemma TrimShape(s: string)
    ensures exists i :: 0 <= i <= |s| - |Trim(s)| && s[i..i + |Trim(s)|] == Trim(s)
                        && AllSpace(s[..i]) && AllSpace(s[i + |Trim(s)|..])
    ensures Trim(s) == [] || (!IsSpace(Trim(s)[0]) && !IsSpace(Trim(s)[|Trim(s)| - 1]))
  {
    var a := TrimStart(s);
    var r := TrimEnd(a);
    var i := |s| - |a|;
    TrimStartSuffix(s);
    TrimEndPrefix(a);
    assert a == s[i..] && r == a[..|r|];
    assert s[i..i + |r|] == r by {
      assert s[i..][..|r|] == s[i..i + |r|];
    }
    assert s[i + |r|..] == a[|r|..] by {
      assert s[i..][|r|..] == s[i + |r|..];
    }
    assert r != [] ==> r[0] == a[0];
    assert 0 <= i <= |s| - |r| && s[i..i + |r|] == r && AllSpace(s[..i]) && AllSpace(s[i + |r|..]);
  }

  /** A string trims to nothing exactly when it is all white space (`!query.trim()`). */
  lemma {:induction false} BlankIffAllSpace(s: string)
    ensures Trim(s) == [] <==> AllSpace(s)
  {
    if AllSpace(s) {
      AllSpaceTrimsAway(s);
    }
    if Trim(s) == [] {
      var a := TrimStart(s);
      assert a[|TrimEnd(a)|..] == a;
      assert s[..|s|] == s;
    }
  }

  /** Trimming is insensitive to extra white space around its argument. */
  lemma {:induction false} TrimPadded(pre: string, s: string, post: string)
    requires AllSpace(pre) && AllSpace(post)
    ensures Trim(pre + s + post) == Trim(s)
  {
    TrimStartPadded(pre, s + post);
    assert pre + s + post == pre + (s + post);
    TrimStartAppend(s, post);
    TrimEndPadded(TrimStart(s + post), post, s);
  }

  lemma {:induction false} TrimStartPadded(pre: string, s: string)
    requires AllSpace(pre)
    ensures TrimStart(pre + s) == TrimStart(s)
  {
    if pre != [] {
      assert (pre + s)[1..] == pre[1..] + s;
      TrimStartPadded(pre[1..], s);
    } else {
      assert pre + s == s;
    }
  }

  /** Leading spaces of s + post: when s has a non-space the suffix is kept; otherwise only trailing spaces remain. */
  lemma {:induction false} TrimStartAppend(s: string, post: string)
    requires AllSpace(post)
    ensures TrimStart(s + post) == TrimStart(s) + post || (AllSpace(s) && TrimStart(s + post) == [])
    ensures AllSpace(s) ==> TrimStart(s + post) == [] && TrimStart(s) == []
    ensures !AllSpace(s) ==> TrimStart(s + post) == TrimStart(s) + post
  {
    if s == [] {
      assert s + post == post;
      AllSpaceTrimsAway(post);
    } else {
      assert (s + post)[0] == s[0];
      assert (s + post)[1..] == s[1..] + post;
      if IsSpace(s[0]) {
        TrimStartAppend(s[1..], post);
        if AllSpace(s[1..]) {
          assert AllSpace(s);
        } else {
          var k :| 0 <= k < |s[1..]| && !IsSpace(s[1..][k]);
          assert !IsSpace(s[k + 1]);
        }
      } else {
        assert !AllSpace(s);
      }
    }
  }

  lemma {:induction false} AllSpaceTrimsAway(s: string)
    requires AllSpace(s)
    ensures TrimStart(s) == [] && TrimEnd(s) == []
  {
    if s != [] {
      AllSpaceTrimsAway(s[1..]);
      AllSpaceTrimsAway(s[..|s| - 1]);
    }
  }

  /** TrimStart(s) + post with post all space trims (at the end) back to Trim(s). */
  lemma {:induction false} TrimEndPadded(a: string, post: string, s: string)
    requires AllSpace(post)
    requires a == TrimStart(s + post)
    ensures TrimEnd(a) == Trim(s)
  {
    TrimStartAppend(s, post);
    if AllSpace(s) {
      AllSpaceTrimsAway(s);
    } else {
      TrimEndAppend(TrimStart(s), post);
    }
  }

  lemma {:induction false} TrimEndAppend(s: string, post: string)
    requires AllSpace(post)
    ensures TrimEnd(s + post) == TrimEnd(s)
  {
    if post == [] {
      assert s + post == s;
    } else {
      var p := post[..|post| - 1];
      assert (s + post)[..|s + post| - 1] == s + p;
      assert IsSpace(post[|post| - 1]);
      TrimEndAppend(s, p);
    }
  }

  /** ASCII case mapping of `toLowerCase`. */
  function LowerChar(c: char): char
  {
    if 'A' <= c <= 'Z' then (c as int + 32) as char else c
  }

  /** `s.toLowerCase()` restricted to ASCII letters: same length, each character mapped on its own. */
  function Lower(s: string): (r: string)
    ensures |r| == |s|
    ensures forall i :: 0 <= i < |s| ==> r[i] == LowerChar(s[i])
  {
    if s == [] then [] else [LowerChar(s[0])] + Lower(s[1..])
  }

  /** Lower-casing twice is the same as once, and no upper-case ASCII letter survives it. */
  lemma LowerIdempotent(s: string)
    ensures Lower(Lower(s)) == Lower(s)
    ensures forall i :: 0 <= i < |s| ==> !('A' <= Lower(s)[i] <= 'Z')
  {
    var l := Lower(s);
    forall i | 0 <= i < |s| ensures Lower(l)[i] == l[i] && !('A' <= l[i] <= 'Z') {
      assert l[i] == LowerChar(s[i]);
    }
  }

  /** Lower-casing maps white space to white space and nothing else to it, so it commutes with trimming. */
  lemma {:induction false} LowerTrimCommute(s: string)
    ensures Trim(Lower(s)) == Lower(Trim(s))
  {
    LowerTrimStart(s);
    LowerTrimEnd(TrimStart(s));
  }

  lemma LowerCharSpace(c: char)
    ensures IsSpace(LowerChar(c)) == IsSpace(c)
  {
  }

  lemma {:induction false} LowerTrimStart(s: string)
    ensures TrimStart(Lower(s)) == Lower(TrimStart(s))
  {
    if |s| > 0 {
      LowerCharSpace(s[0]);
      assert Lower(s)[1..] == Lower(s[1..]);
      LowerTrimStart(s[1..]);
    }
  }

  lemma {:induction false} LowerTrimEnd(s: string)
    ensures TrimEnd(Lower(s)) == Lower(TrimEnd(s))
  {
    if |s| > 0 {
      LowerCharSpace(s[|s| - 1]);
      assert Lower(s)[..|s| - 1] == Lower(s[..|s| - 1]);
      LowerTrimEnd(s[..|s| - 1]);
    }
  }

  /** `s.startsWith(p)`. */
  predicate StartsWith(s: string, p: string)
  {
    |p| <= |s| && s[..|p|] == p
  }

  /** q occurs in s at position i. */
  predicate OccursAt(s: string, q: string, i: int)
  {
    0 <= i <= |s| - |q| && s[i..i + |q|] == q
  }

  /** `s.includes(q)`, by scanning the start positions from left to right. */
  predicate Contains(s: string, q: string)
  {
    StartsWith(s, q) || (|s| > 0 && Contains(s[1..], q))
  }

  /** An occurrence at i + 1 in s is an occurrence at i in its tail. */
  lemma OccursShift(s: string, q: string, i: nat)
    requires |s| > 0
    ensures OccursAt(s, q, i + 1) <==> OccursAt(s[1..], q, i)
  {
    if i + 1 <= |s| - |q| {
      assert s[i + 1..i + 1 + |q|] == s[1..][i..i + |q|];
    }
  }

  /** `includes` holds exactly when q occurs at some position of s. */
  lemma {:induction false} ContainsIffOccurs(s: string, q: string)
    ensures Contains(s, q) <==> exists i :: OccursAt(s, q, i)
  {
    assert StartsWith(s, q) <==> OccursAt(s, q, 0) by {
      if |q| <= |s| { assert s[0..|q|] == s[..|q|]; }
    }
    if StartsWith(s, q) {
    } else if |s| > 0 {
      ContainsIffOccurs(s[1..], q);
      if Contains(s[1..], q) {
        var i :| OccursAt(s[1..], q, i);
        OccursShift(s, q, i);
      } else {
        forall i | OccursAt(s, q, i)
          ensures false
        {
          OccursShift(s, q, i - 1);
        }
      }
    } else {
      forall i | OccursAt(s, q, i)
        ensures false
      {
        assert false;
      }
    }
  }

  /** `s.split(sep)`: the maximal separator-free pieces, left to right; "" splits to [""]. */
  function Split(s: string, sep: char): (r: seq<string>)
    ensures |r| >= 1
  {
    if s == [] then [""]
    else
      var rest := Split(s[1..], sep);
      if s[0] == sep then [""] + rest else [[s[0]] + rest[0]] + rest[1..]
  }

  /** `pieces.join(sep)`. */
  function Join(pieces: seq<string>, sep: char): string
    requires |pieces| >= 1
  {
    if |pieces| == 1 then pieces[0] else pieces[0] + [sep] + Join(pieces[1..], sep)
  }

  /** Splitting loses nothing: the pieces joined by the separator give back the string. */
  lemma {:induction false} SplitJoin(s: string, sep: char)
    ensures Join(Split(s, sep), sep) == s
  {
    if s != [] {
      SplitJoin(s[1..], sep);
      SplitJoinStep(s, sep);
      assert s == [s[0]] + s[1..];
    }
  }

  /** Joining the split of a non-empty string puts its first character before the join of the rest's split. */
  lemma SplitJoinStep(s: string, sep: char)
    requires s != []
    ensures Join(Split(s, sep), sep) == [s[0]] + Join(Split(s[1..], sep), sep)
  {
    var rest := Split(s[1..], sep);
    var r := Split(s, sep);
    if s[0] == sep {
      assert r == [""] + rest;
      assert r[1..] == rest;
    } else if |rest| == 1 {
      assert r == [[s[0]] + rest[0]];
    } else {
      assert r[1..] == rest[1..];
      assert Join(r, sep) == [s[0]] + rest[0] + [sep] + Join(rest[1..], sep);
    }
  }

  /** No piece of a split contains the separator. */
  lemma {:induction false} SplitPiecesFree(s: string, sep: char)
    ensures forall k :: 0 <= k < |Split(s, sep)| ==> sep !in Split(s, sep)[k]
  {
    if s != [] {
      var rest := Split(s[1..], sep);
      SplitPiecesFree(s[1..], sep);
      var r := Split(s, sep);
      if s[0] == sep {
        assert r == [""] + rest;
        forall k | 0 <= k < |r| ensures sep !in r[k] {
          if k > 0 { assert r[k] == rest[k - 1]; }
        }
      } else {
        assert r == [[s[0]] + rest[0]] + rest[1..];
        forall k | 0 <= k < |r| ensures sep !in r[k] {
          if k > 0 { assert r[k] == rest[k]; }
          else { assert sep !in rest[0]; }
        }
      }
    }
  }

  /** A piece without the separator splits to itself. */
  lemma {:induction false} SplitPlain(p: string, sep: char)
    requires sep !in p
    ensures Split(p, sep) == [p]
  {
    if p != [] {
      SplitPlain(p[1..], sep);
      assert p[0] != sep by { assert p[0] in p; }
      assert [p[0]] + p[1..] == p;
    }
  }

  /** A separator-free piece followed by the separator is split off as the first piece. */
  lemma {:induction false} SplitPiece(p: string, sep: char, s: string)
    requires sep !in p
    ensures Split(p + [sep] + s, sep) == [p] + Split(s, sep)
  {
    if p == [] {
      assert p + [sep] + s == [sep] + s;
      assert ([sep] + s)[1..] == s;
    } else {
      SplitPiece(p[1..], sep, s);
      assert (p + [sep] + s)[1..] == p[1..] + [sep] + s;
      assert [p[0]] + p[1..] == p;
    }
  }

  /** Decimal digits of n, as `${n}` renders a non-negative integer. */
  function NatToString(n: nat): (r: string)
    ensures |r| >= 1
    ensures forall i :: 0 <= i < |r| ==> '0' <= r[i] <= '9'
  {
    if n < 10 then [DigitChar(n)] else NatToString(n / 10) + [DigitChar(n % 10)]
  }

  function DigitChar(d: nat): (c: char)
    requires d < 10
    ensures '0' <= c <= '9'
  {
    ('0' as int + d) as char
  }

  /** Reads a string of decimal digits as a number. */
  function ParseDigits(s: string): nat
    requires forall i :: 0 <= i < |s| ==> '0' <= s[i] <= '9'
  {
    if s == [] then 0 else 10 * ParseDigits(s[..|s| - 1]) + (s[|s| - 1] as int - '0' as int)
  }

  /** The decimal rendering is read back to the same number. */
  lemma {:induction false} NatToStringRoundTrip(n: nat)
    ensures ParseDigits(NatToString(n)) == n
  {
    var r := NatToString(n);
    if n >= 10 {
      NatToStringRoundTrip(n / 10);
      assert r[..|r| - 1] == NatToString(n / 10);
    }
  }
}
