/** Character and string operations shared by the host software (Python `str`)
    and the firmware (Arduino `String`), stated once with their meaning. */
module Text {

  /** Python's `str.isspace` for one character: the characters `str.strip()`
      removes when it is called without arguments. */
  predicate IsPySpace(c: char)
  {
    ('\t' <= c <= '\r') || ('\U{1C}' <= c <= '\U{1F}') || c == ' ' || c == '\U{85}' ||
    c == '\U{A0}' || c == '\U{1680}' || ('\U{2000}' <= c <= '\U{200A}') || c == '\U{2028}' ||
    c == '\U{2029}' || c == '\U{202F}' || c == '\U{205F}' || c == '\U{3000}'
  }

  /** C's `isspace` in the default locale: what Arduino's `String::trim` removes. */
  predicate IsCSpace(c: char)
  {
    c == ' ' || ('\t' <= c <= '\r')
  }

  predicate AllSpace(s: string, sp: char -> bool)
  {
    forall i :: 0 <= i < |s| ==> sp(s[i])
  }

  /** `s` with its leading characters satisfying `sp` removed. */
  function StripLeft(s: string, sp: char -> bool): string
    decreases |s|
  {
    if |s| > 0 && sp(s[0]) then StripLeft(s[1..], sp) else s
  }

  /** `s` with its trailing characters satisfying `sp` removed. */
  function StripRight(s: string, sp: char -> bool): string
    decreases |s|
  {
    if |s| > 0 && sp(s[|s| - 1]) then StripRight(s[..|s| - 1], sp) else s
  }

  /** Left stripping removes a prefix made only of `sp` characters, and what
      remains does not start with one. */
  lemma {:induction false} StripLeftShape(s: string, sp: char -> bool)
    ensures var r := StripLeft(s, sp);
            |r| <= |s| && r == s[|s| - |r|..] && AllSpace(s[..|s| - |r|], sp) &&
            (r != [] ==> !sp(r[0]))
    decreases |s|
  {
    if |s| > 0 && sp(s[0]) {
      StripLeftShape(s[1..], sp);
      var r := StripLeft(s[1..], sp);
      assert s[1..][|s| - 1 - |r|..] == s[|s| - |r|..];
      forall i | 0 <= i < |s| - |r|
        ensures sp(s[i])
      {
        if i > 0 {
          assert s[i] == s[1..][..|s| - 1 - |r|][i - 1];
        }
      }
    }
  }

  /** Right stripping removes a suffix made only of `sp` characters, and what
      remains does not end with one. */
  lemma {:induction false} StripRightShape(s: string, sp: char -> bool)
    ensures var r := StripRight(s, sp);
            |r| <= |s| && r == s[..|r|] && AllSpace(s[|r|..], sp) &&
            (r != [] ==> !sp(r[|r| - 1]))
    decreases |s|
  {
    if |s| > 0 && sp(s[|s| - 1]) {
      var t := s[..|s| - 1];
      StripRightShape(t, sp);
      var r := StripRight(t, sp);
      assert t[..|r|] == s[..|r|];
      forall i | |r| <= i < |s|
        ensures sp(s[i])
      {
        if i < |s| - 1 {
          assert s[i] == t[|r|..][i - |r|];
        }
      }
    }
  }

  /** Both ends stripped: Python's `str.strip()` with `IsPySpace`, Arduino's
      `String::trim()` with `IsCSpace`. */
  function Strip(s: string, sp: char -> bool): string
  {
    StripRight(StripLeft(s, sp), sp)
  }

  /** What stripping keeps is one slice of `s`, with only `sp` characters around it. */
  lemma StripIsSlice(s: string, sp: char -> bool)
    ensures var r := Strip(s, sp);
            exists a :: 0 <= a <= |s| - |r| && r == s[a..a + |r|] &&
                        AllSpace(s[..a], sp) && AllSpace(s[a + |r|..], sp)
  {
    var l := StripLeft(s, sp);
    StripLeftShape(s, sp);
    var r := StripRight(l, sp);
    StripRightShape(l, sp);
    var a := |s| - |l|;
    assert r == s[a..a + |r|];
    assert s[a + |r|..] == l[|r|..];
    assert AllSpace(s[a + |r|..], sp);
  }

  /** The stripped string neither starts nor ends with an `sp` character, and it
      is empty exactly when `s` is all `sp` characters. */
  lemma StripShape(s: string, sp: char -> bool)
    ensures var r := Strip(s, sp);
            r != [] ==> !sp(r[0]) && !sp(r[|r| - 1])
    ensures Strip(s, sp) == [] <==> AllSpace(s, sp)
  {
    var l := StripLeft(s, sp);
    StripLeftShape(s, sp);
    var r := StripRight(l, sp);
    StripRightShape(l, sp);
    if r == [] {
      assert s == s[..|s| - |l|] + l;
      assert l == l[|r|..];
    } else {
      assert r[0] == l[0] == s[|s| - |l|];
    }
  }

  /** Stripping a string that neither starts nor ends with `sp` gives it back. */
  lemma StripUnchanged(s: string, sp: char -> bool)
    requires s != [] ==> !sp(s[0]) && !sp(s[|s| - 1])
    ensures Strip(s, sp) == s
  {
    assert StripLeft(s, sp) == s;
  }

  /** Stripping is idempotent. */
  lemma StripIdempotent(s: string, sp: char -> bool)
    ensures Strip(Strip(s, sp), sp) == Strip(s, sp)
  {
    StripShape(s, sp);
    StripUnchanged(Strip(s, sp), sp);
  }

  /** C's `toupper` in the default locale: only `a`..`z` change. */
  function UpperChar(c: char): char
  {
    if 'a' <= c <= 'z' then (c as int - 32) as char else c
  }

  /** Arduino's `String::toUpperCase`. */
  function ToUpper(s: string): (r: string)
  {
    seq(|s|, i requires 0 <= i < |s| => UpperChar(s[i]))
  }

  /** Upper-casing leaves no lower-case letter, keeps every character that is
      not one, and changes no whitespace character into a non-whitespace one. */
  lemma UpperCaseShape(s: string)
    ensures |ToUpper(s)| == |s|
    ensures forall i :: 0 <= i < |s| ==> !('a' <= ToUpper(s)[i] <= 'z')
    ensures forall i :: 0 <= i < |s| && !('a' <= s[i] <= 'z') ==> ToUpper(s)[i] == s[i]
    ensures forall i :: 0 <= i < |s| ==> (IsCSpace(ToUpper(s)[i]) <==> IsCSpace(s[i]))
  {
  }

  predicate StartsWith(s: string, prefix: string)
  {
    |prefix| <= |s| && s[..|prefix|] == prefix
  }

  predicate EndsWith(s: string, suffix: string)
  {
    |suffix| <= |s| && s[|s| - |suffix|..] == suffix
  }

  /** Python's `t in s` for strings: `t` occurs somewhere in `s`. */
  predicate Contains(s: string, t: string)
  {
    exists i | 0 <= i <= |s| - |t| :: OccursAt(s, t, i)
  }

  predicate OccursAt(s: string, t: string, i: int)
  {
    0 <= i <= |s| - |t| && s[i..i + |t|] == t
  }

  /** A string that has no `o` directly followed by `k` does not contain "ok". */
  lemma NoOk(s: string)
    requires forall i :: 0 <= i < |s| - 1 ==> !(s[i] == 'o' && s[i + 1] == 'k')
    ensures !Contains(s, "ok")
  {
    forall i | 0 <= i <= |s| - 2
      ensures !OccursAt(s, "ok", i)
    {
      assert s[i..i + 2][0] == s[i] && s[i..i + 2][1] == s[i + 1];
    }
  }

  /** "ok" occurs in `p + e` only inside `e` when `p` has no "ok" and does not end in `o`. */
  lemma OkAfterPrefix(p: string, e: string)
    requires !Contains(p, "ok")
    requires p != [] ==> p[|p| - 1] != 'o'
    ensures Contains(p + e, "ok") <==> Contains(e, "ok")
  {
    var s := p + e;
    forall i | 0 <= i <= |s| - 2 && i < |p|
      ensures !OccursAt(s, "ok", i)
    {
      if i + 2 <= |p| {
        assert s[i..i + 2] == p[i..i + 2];
        assert !OccursAt(p, "ok", i);
      } else {
        assert s[i..i + 2][0] == s[i] == p[|p| - 1];
      }
    }
    forall i | OccursAt(s, "ok", i)
      ensures OccursAt(e, "ok", i - |p|)
    {
      assert e[i - |p|..i - |p| + 2] == s[i..i + 2];
    }
    forall j | OccursAt(e, "ok", j)
      ensures OccursAt(s, "ok", |p| + j)
    {
      assert s[|p| + j..|p| + j + 2] == e[j..j + 2];
    }
  }

  /** Index of the first occurrence of `c` in `s`, or -1 when there is none
      (Arduino's `String::indexOf(char)`). */
  function FirstIndex(s: string, c: char): (r: int)
    ensures -1 <= r < |s|
    ensures r == -1 <==> c !in s
    ensures r >= 0 ==> s[r] == c && c !in s[..r]
  {
    if |s| == 0 then -1
    else if s[0] == c then 0
    else
      var k := FirstIndex(s[1..], c);
      assert s[1..] == s[1..][..];
      if k == -1 then -1
      else
        assert s[..k + 1] == [s[0]] + s[1..][..k];
        k + 1
  }

  /** Python's `s.split(sep)` with an explicit one-character separator: the
      pieces between the separators, always at least one. */
  function Split(s: string, sep: char): (parts: seq<string>)
    ensures |parts| >= 1
    decreases |s|
  {
    if |s| == 0 then [""]
    else
      var rest := Split(s[1..], sep);
      if s[0] == sep then [""] + rest else [[s[0]] + rest[0]] + rest[1..]
  }

  /** No piece contains the separator, and joining the pieces gives `s` back. */
  lemma {:induction false} SplitShape(s: string, sep: char)
    ensures forall k :: 0 <= k < |Split(s, sep)| ==> sep !in Split(s, sep)[k]
    ensures Join(Split(s, sep), sep) == s
    decreases |s|
  {
    if |s| > 0 {
      var rest := Split(s[1..], sep);
      SplitShape(s[1..], sep);
      assert s == [s[0]] + s[1..];
      if s[0] != sep {
        var parts := [[s[0]] + rest[0]] + rest[1..];
        assert parts[1..] == rest[1..];
        JoinCons(rest, sep);
      }
    }
  }

  /** The pieces joined back together with `sep` between them (Python's `sep.join`). */
  function Join(parts: seq<string>, sep: char): string
    requires |parts| >= 1
  {
    if |parts| == 1 then parts[0] else parts[0] + [sep] + Join(parts[1..], sep)
  }

  lemma JoinCons(parts: seq<string>, sep: char)
    requires |parts| >= 1
    ensures |parts| > 1 ==> Join(parts, sep) == parts[0] + [sep] + Join(parts[1..], sep)
    ensures |parts| == 1 ==> Join(parts, sep) == parts[0]
  {
  }

  /** Splitting inverts joining: pieces free of the separator come back unchanged. */
  lemma {:induction false} SplitJoin(parts: seq<string>, sep: char)
    requires |parts| >= 1
    requires forall k :: 0 <= k < |parts| ==> sep !in parts[k]
    ensures Split(Join(parts, sep), sep) == parts
    decreases |parts|, |parts[0]|
  {
    var p := parts[0];
    if |parts| == 1 {
      SplitFree(p, sep);
    } else if p == [] {
      var s := Join(parts, sep);
      assert s == [sep] + Join(parts[1..], sep);
      assert s[1..] == Join(parts[1..], sep);
      SplitJoin(parts[1..], sep);
      assert Split(s, sep) == [""] + parts[1..];
    } else {
      var s := Join(parts, sep);
      var tail := [p[1..]] + parts[1..];
      assert tail[1..] == parts[1..];
      assert sep !in p[1..] by {
        assert forall i :: 0 <= i < |p| - 1 ==> p[1..][i] == p[i + 1];
      }
      assert Join(tail, sep) == p[1..] + [sep] + Join(parts[1..], sep);
      assert s[1..] == Join(tail, sep);
      assert s[0] == p[0];
      SplitJoin(tail, sep);
      assert Split(s, sep) == [[p[0]] + p[1..]] + parts[1..];
      assert [p[0]] + p[1..] == p;
    }
  }

  /** A string without the separator splits into itself alone. */
  lemma {:induction false} SplitFree(s: string, sep: char)
    requires sep !in s
    ensures Split(s, sep) == [s]
    decreases |s|
  {
    if |s| > 0 {
      assert sep !in s[1..] by {
        assert forall i :: 0 <= i < |s| - 1 ==> s[1..][i] == s[i + 1];
      }
      SplitFree(s[1..], sep);
      assert [s[0]] + s[1..] == s;
    }
  }

  /** The first piece of a split is the text before the first separator. */
  lemma FirstPiece(s: string, sep: char)
    ensures var k := FirstIndex(s, sep);
            Split(s, sep)[0] == if k == -1 then s else s[..k]
  {
    var k := FirstIndex(s, sep);
    var parts := Split(s, sep);
    SplitShape(s, sep);
    if |parts| == 1 {
      assert s == parts[0];
    } else {
      JoinCons(parts, sep);
      assert s == parts[0] + [sep] + Join(parts[1..], sep);
      assert s[|parts[0]|] == sep;
      assert s[..|parts[0]|] == parts[0];
    }
  }
}

/** Python's `None` or a value. */
module Options {
  datatype Option<+T> = None | Some(value: T)
}
