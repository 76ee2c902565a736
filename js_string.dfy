/**
  The JavaScript string operations the two components rely on:
  `String.prototype.trim`, `split` on a one-character separator,
  `toLowerCase` (on ASCII letters only) and `includes`.
 */
module JsString {

  /** The code points ECMAScript counts as WhiteSpace or LineTerminator, which `trim` removes. */
  predicate IsWhitespace(c: char) {
    || c == '\U{0009}' || c == '\U{000B}' || c == '\U{000C}' || c == ' '
    || c == '\U{00A0}' || c == '\U{FEFF}' || c == '\U{1680}'
    || ('\U{2000}' <= c <= '\U{200A}')
    || c == '\U{202F}' || c == '\U{205F}' || c == '\U{3000}'
    || c == '\U{000A}' || c == '\U{000D}' || c == '\U{2028}' || c == '\U{2029}'
  }

  /** Every character of `s` is whitespace (the empty string included). */
  predicate Blank(s: string) {
    forall i :: 0 <= i < |s| ==> IsWhitespace(s[i])
  }

  /** `s` with its leading whitespace removed. */
  function TrimStart(s: string): string {
    if s != [] && IsWhitespace(s[0]) then TrimStart(s[1..]) else s
  }

  /** `s` with its trailing whitespace removed. */
  function TrimEnd(s: string): string {
    if s != [] && IsWhitespace(s[|s| - 1]) then TrimEnd(s[..|s| - 1]) else s
  }

  /** What `TrimStart` keeps is a suffix of `s`, what it cuts is whitespace, and it keeps no leading whitespace. */
  lemma {:induction false} TrimStartShape(s: string)
    ensures var r := TrimStart(s);
      && |r| <= |s| && r == s[|s| - |r|..]
      && Blank(s[..|s| - |r|])
      && (r == [] || !IsWhitespace(r[0]))
  {
    if s != [] && IsWhitespace(s[0]) {
      TrimStartShape(s[1..]);
      var r := TrimStart(s[1..]);
      assert s[1..][|s| - 1 - |r|..] == s[|s| - |r|..];
      var c := |s| - |r|;
      forall i | 0 <= i < c ensures IsWhitespace(s[..c][i]) {
        if i > 0 { assert s[..c][i] == s[1..][..c - 1][i - 1]; }
      }
    } else {
      assert s[|s|..] == [] && s[0..] == s;
    }
  }

  /** What `TrimEnd` keeps is a prefix of `s`, what it cuts is whitespace, and it keeps no trailing whitespace. */
  lemma {:induction false} TrimEndShape(s: string)
    ensures var r := TrimEnd(s);
      && |r| <= |s| && r == s[..|r|]
      && Blank(s[|r|..])
      && (r == [] || !IsWhitespace(r[|r| - 1]))
  {
    if s != [] && IsWhitespace(s[|s| - 1]) {
      var u := s[..|s| - 1];
      TrimEndShape(u);
      var r := TrimEnd(u);
      assert u[..|r|] == s[..|r|];
      forall i | 0 <= i < |s| - |r| ensures IsWhitespace(s[|r|..][i]) {
        if i < |s| - 1 - |r| { assert s[|r|..][i] == u[|r|..][i]; }
      }
    } else {
      assert s[..|s|] == s;
    }
  }

  /** `String.prototype.trim`: empty exactly when `s` is blank (see `TrimShape` for the rest). */
  function Trim(s: string): (r: string)
    ensures r == [] <==> Blank(s)
  {
    TrimEmpty(s);
    TrimEnd(TrimStart(s))
  }

  /**
    The result of `trim` is the piece of `s` left once the whitespace at both ends is
    removed: it neither starts nor ends with whitespace, and only whitespace lies around it in `s`.
   */
  lemma TrimShape(s: string)
    ensures var r := Trim(s); r == [] || (!IsWhitespace(r[0]) && !IsWhitespace(r[|r| - 1]))
    ensures exists k :: TrimmedAt(s, Trim(s), k)
  {
    var t := TrimStart(s);
    var r := TrimEnd(t);
    TrimStartShape(s);
    TrimEndShape(t);
    assert r != [] ==> r[0] == t[0];
    var k := |s| - |t|;
    assert s[k..k + |r|] == t[..|r|] == r;
    assert s[k + |r|..] == t[|r|..];
    assert TrimmedAt(s, r, k);
  }

  /** Trimming leaves nothing exactly when the string is blank. */
  lemma TrimEmpty(s: string)
    ensures TrimEnd(TrimStart(s)) == [] <==> Blank(s)
  {
    var t := TrimStart(s);
    TrimStartShape(s);
    TrimStartEmpty(s);
    TrimEndEmpty(t);
    assert t == [] <==> Blank(t) by {
      if t != [] { assert !IsWhitespace(t[0]); }
    }
  }

  /** Trimming strips exactly the blank padding around a piece that has no outer whitespace. */
  lemma TrimPadded(before: string, x: string, after: string)
    requires Blank(before) && Blank(after)
    requires x == [] || (!IsWhitespace(x[0]) && !IsWhitespace(x[|x| - 1]))
    ensures Trim(before + x + after) == x
  {
    var s := before + x + after;
    if x == [] {
      assert Blank(s) by {
        forall i | 0 <= i < |s| ensures IsWhitespace(s[i]) {
          if i < |before| { assert s[i] == before[i]; } else { assert s[i] == after[i - |before|]; }
        }
      }
    } else {
      assert s == before + (x + after);
      TrimStartPadded(before, x + after);
      TrimEndPadded(x, after);
    }
  }

  /** TrimStart removes exactly a blank prefix in front of a non-whitespace character. */
  lemma {:induction false} TrimStartPadded(before: string, y: string)
    requires Blank(before)
    requires y == [] || !IsWhitespace(y[0])
    ensures TrimStart(before + y) == y
  {
    if before != [] {
      assert (before + y)[0] == before[0];
      assert (before + y)[1..] == before[1..] + y;
      TrimStartPadded(before[1..], y);
    } else {
      assert before + y == y;
    }
  }

  /** TrimEnd removes exactly a blank suffix after a non-whitespace character. */
  lemma {:induction false} TrimEndPadded(y: string, after: string)
    requires Blank(after)
    requires y == [] || !IsWhitespace(y[|y| - 1])
    ensures TrimEnd(y + after) == y
  {
    var s := y + after;
    if after != [] {
      assert s[|s| - 1] == after[|after| - 1];
      assert s[..|s| - 1] == y + after[..|after| - 1];
      TrimEndPadded(y, after[..|after| - 1]);
    } else {
      assert s == y;
    }
  }

  /** Trimming the start leaves nothing exactly when the string is blank. */
  lemma TrimStartEmpty(s: string)
    ensures TrimStart(s) == [] <==> Blank(s)
  {
    var t := TrimStart(s);
    TrimStartShape(s);
    if t == [] {
      assert s[..|s|] == s;
    } else {
      assert t[0] == s[|s| - |t|];
    }
  }

  /** Trimming the end leaves nothing exactly when the string is blank. */
  lemma TrimEndEmpty(s: string)
    ensures TrimEnd(s) == [] <==> Blank(s)
  {
    var t := TrimEnd(s);
    TrimEndShape(s);
    if t == [] {
      assert s[0..] == s;
    } else {
      assert t[|t| - 1] == s[|t| - 1];
    }
  }

  /** `r` is the piece of `s` starting at index `k`, with only whitespace before and after it. */
  predicate TrimmedAt(s: string, r: string, k: int) {
    0 <= k <= |s| - |r| && s[k..k + |r|] == r && Blank(s[..k]) && Blank(s[k + |r|..])
  }

  /** The number of occurrences of `c` in `s`. */
  function Count(s: string, c: char): nat {
    if s == [] then 0 else (if s[0] == c then 1 else 0) + Count(s[1..], c)
  }

  /** `s.split(sep)` for a one-character separator: the pieces between the separators, in order. */
  function Split(s: string, sep: char): (r: seq<string>)
    ensures |r| >= 1
  {
    if s == [] then [[]]
    else
      var rest := Split(s[1..], sep);
      if s[0] == sep then [[]] + rest
      else [[s[0]] + rest[0]] + rest[1..]
  }

  /** `pieces.join(sep)`: the inverse of `Split`. */
  function Join(pieces: seq<string>, sep: char): string {
    if pieces == [] then []
    else if |pieces| == 1 then pieces[0]
    else pieces[0] + [sep] + Join(pieces[1..], sep)
  }

  /** Splitting yields one more piece than there are separators. */
  lemma {:induction false} SplitCount(s: string, sep: char)
    ensures |Split(s, sep)| == Count(s, sep) + 1
  {
    if s != [] {
      SplitCount(s[1..], sep);
    }
  }

  /** No piece contains the separator. */
  lemma {:induction false} SplitPiecesFree(s: string, sep: char)
    ensures forall i :: 0 <= i < |Split(s, sep)| ==> sep !in Split(s, sep)[i]
  {
    if s != [] {
      SplitPiecesFree(s[1..], sep);
    }
  }

  /** A string without the separator is one piece. */
  lemma {:induction false} SplitNoSeparator(s: string, sep: char)
    requires sep !in s
    ensures Split(s, sep) == [s]
  {
    if s != [] {
      SplitNoSeparator(s[1..], sep);
      assert [s[0]] + s[1..] == s;
    }
  }

  /** The first piece ends at the first separator; splitting goes on after it. */
  lemma {:induction false} SplitFirst(a: string, b: string, sep: char)
    requires sep !in a
    ensures Split(a + [sep] + b, sep) == [a] + Split(b, sep)
  {
    var s := a + [sep] + b;
    if a == [] {
      assert s[1..] == b;
    } else {
      assert s[1..] == a[1..] + [sep] + b;
      SplitFirst(a[1..], b, sep);
      assert [a[0]] + a[1..] == a;
    }
  }

  /** Joining the pieces back with the separator gives the original string. */
  lemma {:induction false} SplitJoin(s: string, sep: char)
    ensures Join(Split(s, sep), sep) == s
  {
    if s != [] {
      var rest := Split(s[1..], sep);
      SplitJoin(s[1..], sep);
      if s[0] == sep {
        assert ([[]] + rest)[1..] == rest;
      } else if |rest| == 1 {
      } else {
        var r := [[s[0]] + rest[0]] + rest[1..];
        assert r[1..] == rest[1..];
        assert Join(rest, sep) == rest[0] + [sep] + Join(rest[1..], sep);
      }
    }
  }

  /** ASCII `toLowerCase` of one character. */
  function LowerChar(c: char): char {
    if 'A' <= c <= 'Z' then (c as int + 32) as char else c
  }

  /** `toLowerCase`, on ASCII letters: every character lowered, nothing else changed. */
  function ToLower(s: string): (r: string)
    ensures |r| == |s|
    ensures forall i :: 0 <= i < |s| ==> r[i] == LowerChar(s[i])
  {
    if s == [] then [] else [LowerChar(s[0])] + ToLower(s[1..])
  }

  /** `s.includes(sub)`: `sub` occurs in `s` at some position. */
  predicate Includes(s: string, sub: string) {
    sub <= s || (s != [] && Includes(s[1..], sub))
  }

  /** An occurrence at position `k` makes `Includes` true. */
  lemma {:induction false} IncludesAt(s: string, sub: string, k: nat)
    requires k + |sub| <= |s| && s[k..k + |sub|] == sub
    ensures Includes(s, sub)
  {
    if k == 0 {
      assert s[..|sub|] == sub;
    } else {
      assert s[1..][k - 1..k - 1 + |sub|] == s[k..k + |sub|];
      IncludesAt(s[1..], sub, k - 1);
    }
  }

  /** `Includes` always has a position that witnesses it. */
  lemma {:induction false} IncludesWitness(s: string, sub: string) returns (k: nat)
    requires Includes(s, sub)
    ensures k + |sub| <= |s| && s[k..k + |sub|] == sub
  {
    if sub <= s {
      k := 0;
    } else {
      var j := IncludesWitness(s[1..], sub);
      assert s[1..][j..j + |sub|] == s[j + 1..j + 1 + |sub|];
      k := j + 1;
    }
  }

  /** Occurrence is transitive: a string containing `t` contains everything `t` contains. */
  lemma IncludesTransitive(s: string, t: string, u: string)
    requires Includes(s, t) && Includes(t, u)
    ensures Includes(s, u)
  {
    var k := IncludesWitness(s, t);
    var j := IncludesWitness(t, u);
    assert s[k..k + |t|] == t;
    forall i | 0 <= i < |u| ensures s[k + j + i] == u[i] {
      assert s[k + j + i] == s[k..k + |t|][j + i];
      assert t[j + i] == t[j..j + |u|][i];
    }
    assert s[k + j..k + j + |u|] == u;
    IncludesAt(s, u, k + j);
  }
}
