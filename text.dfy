/**
 The string operations the collector applies to what the operator types:
 Python's `str.strip()` and `str.lower()`, restricted to ASCII, and the
 case-insensitive comparison that `lower()` followed by `in [...]` amounts to.
 */
module Text {

  /** Python's `str.isspace()` on ASCII: tab, line feed, vertical tab, form
      feed, carriage return, the four information separators and space. */
  predicate IsSpace(c: char)
  {
    c == ' ' || ('\t' <= c <= '\r') || ('\U{1C}' <= c <= '\U{1F}')
  }

  /** Every character of `s` is whitespace (vacuously so for ""). */
  predicate Blank(s: string)
  {
    forall k | 0 <= k < |s| :: IsSpace(s[k])
  }

  /** `s` with its leading whitespace removed. */
  function TrimLeft(s: string): (r: string)
    ensures |r| <= |s|
  {
    if s != [] && IsSpace(s[0]) then TrimLeft(s[1..]) else s
  }

  /** `TrimLeft` cuts a prefix of whitespace, and only as much as there is. */
  lemma {:induction false} TrimLeftSpec(s: string)
    ensures var r := TrimLeft(s);
      r == s[|s| - |r|..] && Blank(s[..|s| - |r|]) && (r != [] ==> !IsSpace(r[0]))
  {
    if s != [] && IsSpace(s[0]) {
      TrimLeftSpec(s[1..]);
      var r := TrimLeft(s);
      assert s[..|s| - |r|] == [s[0]] + s[1..][..|s| - 1 - |r|];
    }
  }

  /** `s` with its trailing whitespace removed. */
  function TrimRight(s: string): (r: string)
    ensures |r| <= |s|
  {
    if s != [] && IsSpace(s[|s| - 1]) then TrimRight(s[..|s| - 1]) else s
  }

  /** `TrimRight` cuts a suffix of whitespace, and only as much as there is. */
  lemma {:induction false} TrimRightSpec(s: string)
    ensures var r := TrimRight(s);
      r == s[..|r|] && Blank(s[|r|..]) && (r != [] ==> !IsSpace(r[|r| - 1]))
  {
    if s != [] && IsSpace(s[|s| - 1]) {
      var t := s[..|s| - 1];
      TrimRightSpec(t);
      var r := TrimRight(s);
      assert s[|r|..] == t[|r|..] + [s[|s| - 1]];
    }
  }

  /** Python's `s.strip()`. */
  function Strip(s: string): (r: string)
    ensures |r| <= |s|
  {
    TrimRight(TrimLeft(s))
  }

  /** How much whitespace `Strip` cuts from the front of `s`. */
  function Lead(s: string): (n: nat)
    ensures n + |Strip(s)| <= |s|
  {
    |s| - |TrimLeft(s)|
  }

  /** What `Strip` keeps: `s` is the whitespace it cuts in front, then what
      it keeps, then the whitespace it cuts behind; what it keeps neither
      starts nor ends with whitespace, and it is empty exactly when `s` is
      blank. */
  lemma StripSpec(s: string)
    ensures var i, r := Lead(s), Strip(s);
      s[i..i + |r|] == r && Blank(s[..i]) && Blank(s[i + |r|..]) &&
      (r != [] ==> !IsSpace(r[0]) && !IsSpace(r[|r| - 1])) &&
      (r == [] <==> Blank(s))
  {
    var t := TrimLeft(s);
    var r := TrimRight(t);
    var i := |s| - |t|;
    TrimLeftSpec(s);
    TrimRightSpec(t);
    assert s[i..] == t;
    assert s[i..i + |r|] == t[..|r|];
    assert s[i + |r|..] == t[|r|..];
    if r == [] {
      assert s == s[..i] + s[i..];
    }
    if r != [] {
      assert r[0] == t[0];
    }
  }

  /** Whitespace in front of a string does not change what `TrimLeft` leaves. */
  lemma {:induction false} TrimLeftBlankPrefix(a: string, x: string)
    requires Blank(a)
    ensures TrimLeft(a + x) == TrimLeft(x)
  {
    if a != [] {
      assert (a + x)[0] == a[0];
      assert (a + x)[1..] == a[1..] + x;
      TrimLeftBlankPrefix(a[1..], x);
    } else {
      assert a + x == x;
    }
  }

  /** Whitespace behind a string does not change what `TrimRight` leaves. */
  lemma {:induction false} TrimRightBlankSuffix(x: string, b: string)
    requires Blank(b)
    ensures TrimRight(x + b) == TrimRight(x)
  {
    if b != [] {
      assert (x + b)[|x + b| - 1] == b[|b| - 1];
      assert (x + b)[..|x + b| - 1] == x + b[..|b| - 1];
      TrimRightBlankSuffix(x, b[..|b| - 1]);
    } else {
      assert x + b == x;
    }
  }

  /** `Strip` is determined by its contract: a middle part that neither starts
      nor ends with whitespace, surrounded by whitespace only, is what `Strip`
      returns. */
  lemma StripOfPadded(a: string, m: string, b: string)
    requires Blank(a) && Blank(b)
    requires m != [] ==> !IsSpace(m[0]) && !IsSpace(m[|m| - 1])
    ensures Strip(a + m + b) == m
  {
    assert a + m + b == a + (m + b);
    TrimLeftBlankPrefix(a, m + b);
    if m == [] {
      assert m + b == b;
      TrimLeftSpec(b);
      assert TrimLeft(b) == [];
    } else {
      assert (m + b)[0] == m[0];
      assert TrimLeft(m + b) == m + b;
      TrimRightBlankSuffix(m, b);
    }
  }

  /** Stripping twice is stripping once. */
  lemma StripIdempotent(s: string)
    ensures Strip(Strip(s)) == Strip(s)
  {
    var r, none: string := Strip(s), "";
    StripSpec(s);
    assert none + r + none == r;
    StripOfPadded(none, r, none);
  }

  /** Python's `c.lower()` on ASCII: only 'A'..'Z' change. */
  function LowerChar(c: char): char
  {
    if 'A' <= c <= 'Z' then (c as int + 32) as char else c
  }

  /** Python's `c.upper()` on ASCII: only 'a'..'z' change. */
  function UpperChar(c: char): char
  {
    if 'a' <= c <= 'z' then (c as int - 32) as char else c
  }

  /** Python's `s.lower()` on ASCII. */
  function Lower(s: string): (r: string)
    ensures |r| == |s|
  {
    if s == [] then [] else [LowerChar(s[0])] + Lower(s[1..])
  }

  /** `Lower` works character by character. */
  lemma {:induction false} LowerSpec(s: string)
    ensures forall i | 0 <= i < |s| :: Lower(s)[i] == LowerChar(s[i])
  {
    if s != [] {
      LowerSpec(s[1..]);
    }
  }

  /** Python's `t in words` for a list of words, one word at a time. */
  predicate OneOf(t: string, words: seq<string>)
  {
    words != [] && (t == words[0] || OneOf(t, words[1..]))
  }

  /** `OneOf` is list membership. */
  lemma {:induction false} OneOfSpec(t: string, words: seq<string>)
    ensures OneOf(t, words) <==> t in words
  {
    if words != [] {
      OneOfSpec(t, words[1..]);
      assert words == [words[0]] + words[1..];
    }
  }

  /** `w` has no upper-case ASCII letter, as every word the collector compares
      against has. */
  predicate LowerWord(w: string)
  {
    forall i | 0 <= i < |w| :: !('A' <= w[i] <= 'Z')
  }

  /** `t` is `w` written in some mixture of letter cases: position by
      position, either the same character or its upper-case form. */
  predicate AnyCase(t: string, w: string)
  {
    |t| == |w| && forall i | 0 <= i < |t| :: t[i] == w[i] || t[i] == UpperChar(w[i])
  }

  /** `t.lower() == w` holds exactly when `t` is `w` in any letter case. */
  lemma LowerIsAnyCase(t: string, w: string)
    requires LowerWord(w)
    ensures Lower(t) == w <==> AnyCase(t, w)
  {
    LowerSpec(t);
    if Lower(t) == w {
      forall i | 0 <= i < |t|
        ensures t[i] == w[i] || t[i] == UpperChar(w[i])
      {
        assert LowerChar(t[i]) == w[i];
      }
    }
    if AnyCase(t, w) {
      forall i | 0 <= i < |t|
        ensures Lower(t)[i] == w[i]
      {
        assert LowerChar(t[i]) == w[i];
      }
    }
  }

  /** A string with no whitespace in it is left as it is by `Strip`. */
  lemma StripNoSpace(s: string)
    requires forall k | 0 <= k < |s| :: !IsSpace(s[k])
    ensures Strip(s) == s
  {
    var none: string := "";
    assert none + s + none == s;
    StripOfPadded(none, s, none);
  }
}
