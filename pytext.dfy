/** The Python string built-ins the configuration parser relies on:
    `str.strip()`, `str.split(sep)` with a one-character separator, and the
    case mappings `upper()`/`lower()` as far as the parser compares them. */
module PyText {

  /** Python's `str.isspace()` for one character (the characters that
      `str.strip()` with no argument removes). */
  predicate IsSpace(c: char) {
    || c == ' ' || c == '\t' || c == '\n' || c == '\r'
    || c == '\U{0B}' || c == '\U{0C}'
    || ('\U{1C}' <= c <= '\U{1F}')
    || c == '\U{85}' || c == '\U{A0}' || c == '\U{1680}'
    || ('\U{2000}' <= c <= '\U{200A}')
    || c == '\U{2028}' || c == '\U{2029}' || c == '\U{202F}' || c == '\U{205F}' || c == '\U{3000}'
  }

  /** No whitespace at either end: what `strip()` returns. */
  predicate IsStripped(s: string) {
    |s| == 0 || (!IsSpace(s[0]) && !IsSpace(s[|s| - 1]))
  }

  predicate AllSpace(s: string) {
    forall i :: 0 <= i < |s| ==> IsSpace(s[i])
  }

  /** The number of whitespace characters at the start of `s`. */
  function LeadingSpaces(s: string): (n: nat)
    ensures n <= |s|
    ensures forall i :: 0 <= i < n ==> IsSpace(s[i])
    ensures n < |s| ==> !IsSpace(s[n])
  {
    if |s| > 0 && IsSpace(s[0]) then 1 + LeadingSpaces(s[1..]) else 0
  }

  /** The position just after the last non-whitespace character of `s`. */
  function ContentEnd(s: string): (n: nat)
    ensures n <= |s|
    ensures forall i :: n <= i < |s| ==> IsSpace(s[i])
    ensures n > 0 ==> !IsSpace(s[n - 1])
  {
    if |s| > 0 && IsSpace(s[|s| - 1]) then ContentEnd(s[..|s| - 1]) else |s|
  }

  /** Python's `s.strip()`: `s` without its leading and trailing whitespace. */
  function Strip(s: string): (r: string)
    ensures IsStripped(r)
    ensures |r| <= |s|
    ensures forall c :: c in r ==> c in s
  {
    var a := LeadingSpaces(s);
    if a == |s| then []
    else
      var b := ContentEnd(s);
      assert a < b;
      assert forall c :: c in s[a..b] ==> c in s;
      s[a..b]
  }

  lemma StripOfStripped(s: string)
    requires IsStripped(s)
    ensures Strip(s) == s
  {
    if |s| > 0 {
      assert LeadingSpaces(s) == 0;
      assert ContentEnd(s) == |s|;
      assert s[0..|s|] == s;
    }
  }

  /** `strip()` yields the empty string exactly for all-whitespace input. */
  lemma StripEmptyIffBlank(s: string)
    ensures Strip(s) == [] <==> AllSpace(s)
  {
  }

  /** A string is its stripped form with whitespace on either side. */
  lemma StripDecompose(s: string) returns (p: string, q: string)
    ensures AllSpace(p) && AllSpace(q) && s == p + Strip(s) + q
  {
    var a := LeadingSpaces(s);
    if a == |s| {
      p, q := s, [];
      assert Strip(s) == [];
      assert s == p + Strip(s) + q;
    } else {
      var b := ContentEnd(s);
      assert !IsSpace(s[a]);
      p, q := s[..a], s[b..];
      assert AllSpace(p) by {
        forall i | 0 <= i < |p| ensures IsSpace(p[i]) {
          assert p[i] == s[i];
        }
      }
      assert AllSpace(q) by {
        forall i | 0 <= i < |q| ensures IsSpace(q[i]) {
          assert q[i] == s[b + i];
        }
      }
      assert Strip(s) == s[a..b];
      assert s == p + s[a..b] + q;
    }
  }

  /** Whitespace around a stripped text is exactly what `strip()` removes. */
  lemma StripUnique(s: string, p: string, m: string, q: string)
    requires AllSpace(p) && AllSpace(q) && IsStripped(m)
    requires s == p + m + q
    ensures Strip(s) == m
  {
    if |m| == 0 {
      assert AllSpace(s) by {
        forall i | 0 <= i < |s| ensures IsSpace(s[i]) {
          if i < |p| { assert s[i] == p[i]; } else { assert s[i] == q[i - |p|]; }
        }
      }
    } else {
      var a := LeadingSpaces(s);
      var e := |p| + |m|;
      assert forall i :: 0 <= i < |p| ==> s[i] == p[i];
      assert forall i :: e <= i < |s| ==> s[i] == q[i - e];
      assert s[|p|] == m[0] && s[e - 1] == m[|m| - 1];
      assert a == |p|;
      var b := ContentEnd(s);
      assert b == e;
      assert s[a..b] == m;
    }
  }

  lemma AllSpaceConcat(a: string, b: string)
    requires AllSpace(a) && AllSpace(b)
    ensures AllSpace(a + b)
  {
    forall i | 0 <= i < |a + b| ensures IsSpace((a + b)[i]) {
      if i < |a| { assert (a + b)[i] == a[i]; } else { assert (a + b)[i] == b[i - |a|]; }
    }
  }

  lemma Regroup(a: string, b: string, c: string, d: string, e: string)
    ensures a + (b + c + d) + e == (a + b) + c + (d + e)
  {
  }

  /** Whitespace added around a text does not change its stripped form. */
  lemma StripPadded(w1: string, x: string, w2: string)
    requires AllSpace(w1) && AllSpace(w2)
    ensures Strip(w1 + x + w2) == Strip(x)
  {
    var p, q := StripDecompose(x);
    AllSpaceConcat(w1, p);
    AllSpaceConcat(q, w2);
    Regroup(w1, p, Strip(x), q, w2);
    StripUnique(w1 + x + w2, w1 + p, Strip(x), q + w2);
  }

  /** Python's `s.split(sep)` for a one-character separator: always at least
      one piece, and no piece holds the separator. */
  function Split(s: string, sep: char): (r: seq<string>)
    ensures |r| >= 1
    ensures forall k :: 0 <= k < |r| ==> sep !in r[k]
    ensures forall k, c :: 0 <= k < |r| && c in r[k] ==> c in s
    decreases |s|
  {
    if |s| == 0 then [[]]
    else
      var rest := Split(s[1..], sep);
      assert forall c :: c in s[1..] ==> c in s;
      if s[0] == sep then [[]] + rest
      else [[s[0]] + rest[0]] + rest[1..]
  }

  /** Python's `sep.join(pieces)`. */
  function Join(pieces: seq<string>, sep: char): string
  {
    if |pieces| == 0 then []
    else if |pieces| == 1 then pieces[0]
    else pieces[0] + [sep] + Join(pieces[1..], sep)
  }

  /** Splitting loses nothing: joining the pieces gives the input back. */
  lemma {:induction false} JoinOfSplit(s: string, sep: char)
    ensures Join(Split(s, sep), sep) == s
    decreases |s|
  {
    if |s| > 0 {
      var rest := Split(s[1..], sep);
      JoinOfSplit(s[1..], sep);
      if s[0] == sep {
        assert ([[]] + rest)[1..] == rest;
      } else if |rest| > 1 {
        assert ([[s[0]] + rest[0]] + rest[1..])[1..] == rest[1..];
      }
    }
  }

  lemma {:induction false} SplitWithoutSep(x: string, sep: char)
    requires sep !in x
    ensures Split(x, sep) == [x]
    decreases |x|
  {
    if |x| > 0 {
      SplitWithoutSep(x[1..], sep);
      assert [x[0]] + x[1..] == x;
    }
  }

  lemma {:induction false} SplitAtSep(x: string, sep: char, y: string)
    requires sep !in x
    ensures Split(x + [sep] + y, sep) == [x] + Split(y, sep)
    decreases |x|
  {
    var s := x + [sep] + y;
    if |x| == 0 {
      assert s[1..] == y;
    } else {
      assert s[1..] == x[1..] + [sep] + y;
      SplitAtSep(x[1..], sep, y);
      assert [x[0]] + x[1..] == x;
    }
  }

  /** Splitting at a separator splits each side on its own. */
  lemma {:induction false} SplitConcat(a: string, b: string, sep: char)
    ensures Split(a + [sep] + b, sep) == Split(a, sep) + Split(b, sep)
    decreases |a|
  {
    var s := a + [sep] + b;
    if |a| == 0 {
      assert s[1..] == b;
    } else {
      assert s[1..] == a[1..] + [sep] + b;
      assert s[0] == a[0];
      SplitConcat(a[1..], b, sep);
      var ra, rb := Split(a[1..], sep), Split(b, sep);
      if a[0] == sep {
        assert Split(s, sep) == [[]] + (ra + rb);
      } else {
        assert (ra + rb)[0] == ra[0];
        assert (ra + rb)[1..] == ra[1..] + rb;
        assert Split(s, sep) == [[a[0]] + ra[0]] + (ra[1..] + rb);
      }
    }
  }

  /** A separator-free prefix joins the first piece. */
  lemma {:induction false} SplitPrepend(w: string, y: string, sep: char)
    requires sep !in w
    ensures Split(w + y, sep) == [w + Split(y, sep)[0]] + Split(y, sep)[1..]
    decreases |w|
  {
    if |w| == 0 {
      assert w + y == y;
      assert w + Split(y, sep)[0] == Split(y, sep)[0];
      assert [Split(y, sep)[0]] + Split(y, sep)[1..] == Split(y, sep);
    } else {
      assert (w + y)[1..] == w[1..] + y;
      assert (w + y)[0] == w[0];
      SplitPrepend(w[1..], y, sep);
      assert [w[0]] + (w[1..] + Split(y, sep)[0]) == w + Split(y, sep)[0];
    }
  }

  /** A separator-free suffix joins the last piece. */
  lemma {:induction false} SplitAppend(y: string, w: string, sep: char)
    requires sep !in w
    ensures var r := Split(y, sep);
      Split(y + w, sep) == r[..|r| - 1] + [r[|r| - 1] + w]
    decreases |y|
  {
    if |y| == 0 {
      assert y + w == w;
      SplitWithoutSep(w, sep);
    } else {
      assert (y + w)[1..] == y[1..] + w;
      assert (y + w)[0] == y[0];
      SplitAppend(y[1..], w, sep);
      if y[0] == sep {
        LastPieceAfterSep(Split(y[1..], sep), w);
      } else {
        LastPieceAfterChar(y[0], Split(y[1..], sep), w);
      }
    }
  }

  lemma LastPieceAfterSep(t: seq<string>, w: string)
    requires |t| >= 1
    ensures var r, u := [[]] + t, t[..|t| - 1] + [t[|t| - 1] + w];
      [[]] + u == r[..|r| - 1] + [r[|r| - 1] + w]
  {
    var r := [[]] + t;
    assert r[..|r| - 1] == [[]] + t[..|t| - 1];
  }

  lemma LastPieceAfterChar(c: char, t: seq<string>, w: string)
    requires |t| >= 1
    ensures var r, u := [[c] + t[0]] + t[1..], t[..|t| - 1] + [t[|t| - 1] + w];
      [[c] + u[0]] + u[1..] == r[..|r| - 1] + [r[|r| - 1] + w]
  {
    var k := |t| - 1;
    var u := t[..k] + [t[k] + w];
    if k == 0 {
      assert u == [t[0] + w];
      assert [c] + (t[0] + w) == ([c] + t[0]) + w;
    } else {
      assert t[..k] == [t[0]] + t[1..k];
      assert u == [t[0]] + (t[1..k] + [t[k] + w]);
      assert t[1..] == t[1..k] + [t[k]];
      var r := [[c] + t[0]] + t[1..];
      assert r == ([[c] + t[0]] + t[1..k]) + [t[k]];
    }
  }

  /** Whitespace joined to the front of the first piece and the back of the
      last piece is lost again when the first two pieces are stripped. */
  lemma PadPieces(a: seq<string>, w1: string, w2: string)
    requires |a| >= 1 && AllSpace(w1) && AllSpace(w2)
    ensures var u := a[..|a| - 1] + [a[|a| - 1] + w2];
      var b := [w1 + u[0]] + u[1..];
      && |b| == |a|
      && Strip(b[0]) == Strip(a[0])
      && (|a| > 1 ==> Strip(b[1]) == Strip(a[1]))
  {
    var n := |a|;
    var u := a[..n - 1] + [a[n - 1] + w2];
    var b := [w1 + u[0]] + u[1..];
    assert |u| == n && |b| == n;
    assert b[0] == w1 + u[0];
    if n == 1 {
      assert w1 + u[0] == w1 + a[0] + w2;
      StripPadded(w1, a[0], w2);
    } else {
      assert w1 + u[0] == w1 + a[0] + [];
      StripPadded(w1, a[0], []);
      assert b[1] == u[1];
      if n == 2 {
        assert [] + a[1] + w2 == u[1];
        StripPadded([], a[1], w2);
      }
    }
  }

  /** Stripping before or after splitting at a non-space separator gives
      the same number of pieces, and the same first and second pieces once
      each is stripped. */
  lemma SplitOfStrip(raw: string, sep: char)
    requires !IsSpace(sep)
    ensures var a, b := Split(Strip(raw), sep), Split(raw, sep);
      && |a| == |b|
      && Strip(a[0]) == Strip(b[0])
      && (|a| > 1 ==> Strip(a[1]) == Strip(b[1]))
  {
    var item := Strip(raw);
    var w1, w2 := StripDecompose(raw);
    assert sep !in w1 && sep !in w2;
    SplitAppend(item, w2, sep);
    assert raw == w1 + (item + w2);
    SplitPrepend(w1, item + w2, sep);
    PadPieces(Split(item, sep), w1, w2);
  }

  /** Joining separator-free pieces and splitting again gives the pieces back. */
  lemma {:induction false} SplitOfJoin(pieces: seq<string>, sep: char)
    requires |pieces| >= 1
    requires forall k :: 0 <= k < |pieces| ==> sep !in pieces[k]
    ensures Split(Join(pieces, sep), sep) == pieces
    decreases |pieces|
  {
    if |pieces| == 1 {
      SplitWithoutSep(pieces[0], sep);
    } else {
      SplitOfJoin(pieces[1..], sep);
      SplitAtSep(pieces[0], sep, Join(pieces[1..], sep));
      assert [pieces[0]] + pieces[1..] == pieces;
    }
  }

  function UpperChar(c: char): char {
    if 'a' <= c <= 'z' then (c as int - 32) as char else c
  }

  function LowerChar(c: char): char {
    if 'A' <= c <= 'Z' then (c as int + 32) as char else c
  }

  /** `s.upper()` on ASCII letters; other characters are kept. */
  function Upper(s: string): (r: string)
    ensures |r| == |s|
    ensures forall i :: 0 <= i < |s| ==> r[i] == UpperChar(s[i])
  {
    seq(|s|, i requires 0 <= i < |s| => UpperChar(s[i]))
  }

  /** `s.lower()` on ASCII letters; other characters are kept. */
  function Lower(s: string): (r: string)
    ensures |r| == |s|
    ensures forall i :: 0 <= i < |s| ==> r[i] == LowerChar(s[i])
  {
    seq(|s|, i requires 0 <= i < |s| => LowerChar(s[i]))
  }

  /** `lower()` leaves a string without upper-case ASCII letters unchanged. */
  lemma LowerOfLowerCase(s: string)
    requires forall i :: 0 <= i < |s| ==> !('A' <= s[i] <= 'Z')
    ensures Lower(s) == s
  {
  }

  /** The only strings whose upper-case form is "F" are "F" and "f". */
  lemma UpperIsF(s: string)
    ensures Upper(s) == "F" <==> s == "F" || s == "f"
  {
    if Upper(s) == "F" {
      assert UpperChar(s[0]) == 'F';
    }
  }
}
