/** The handful of Python `str` operations the routines and the gateway use:
    `lower`, `rstrip(c)`, `strip()`, `replace(c, '')`, `endswith`, and the
    text after the last occurrence of a character (`rsplit(c, 1)[1]`). */
module Text {

  import opened Common

  /** Python's `str.lower` on the ASCII letters; every other character is kept. */
  function LowerChar(c: char): char {
    if 'A' <= c <= 'Z' then (c as int + 32) as char else c
  }

  /** Python's `str.upper` on one ASCII letter. */
  function UpperChar(c: char): char {
    if 'a' <= c <= 'z' then (c as int - 32) as char else c
  }

  function Lower(s: string): (r: string)
    ensures |r| == |s|
    ensures forall i :: 0 <= i < |s| ==> r[i] == LowerChar(s[i])
  {
    seq(|s|, i requires 0 <= i < |s| => LowerChar(s[i]))
  }

  /** The characters Python's `str.isspace` accepts, which `strip()` removes. */
  predicate IsWhitespace(c: char) {
    c == ' ' || '\t' <= c <= '\r' || '\U{001C}' <= c <= '\U{001F}' || c == '\U{0085}' || c == '\U{00A0}'
    || c == '\U{1680}' || '\U{2000}' <= c <= '\U{200A}' || c == '\U{2028}' || c == '\U{2029}'
    || c == '\U{202F}' || c == '\U{205F}' || c == '\U{3000}'
  }

  /** `s.rstrip(c)`: the longest prefix of `s` that does not end in `c`. */
  function RStrip(s: string, c: char): (r: string)
    ensures |r| <= |s| && r == s[..|r|]
    ensures r == [] || r[|r| - 1] != c
    ensures forall i :: |r| <= i < |s| ==> s[i] == c
  {
    if |s| > 0 && s[|s| - 1] == c then RStrip(s[..|s| - 1], c) else s
  }

  /** `s.lstrip()`. */
  function StripStart(s: string): (r: string)
    ensures |r| <= |s| && r == s[|s| - |r|..]
    ensures r == [] || !IsWhitespace(r[0])
    ensures forall i :: 0 <= i < |s| - |r| ==> IsWhitespace(s[i])
  {
    if |s| > 0 && IsWhitespace(s[0]) then StripStart(s[1..]) else s
  }

  /** `s.rstrip()`. */
  function StripEnd(s: string): (r: string)
    ensures |r| <= |s| && r == s[..|r|]
    ensures r == [] || !IsWhitespace(r[|r| - 1])
    ensures forall i :: |r| <= i < |s| ==> IsWhitespace(s[i])
  {
    if |s| > 0 && IsWhitespace(s[|s| - 1]) then StripEnd(s[..|s| - 1]) else s
  }

  /** `s.strip()`. */
  function Strip(s: string): string {
    StripEnd(StripStart(s))
  }

  /** `s.replace(c, '')`. */
  function RemoveAll(s: string, c: char): (r: string)
    ensures c !in r
    ensures |r| <= |s|
  {
    if s == [] then []
    else (if s[0] == c then [] else [s[0]]) + RemoveAll(s[1..], c)
  }

  /** The non-whitespace characters of `s`, in order: what two strings have to
      agree on to be the same up to whitespace. */
  function Visible(s: string): string {
    if s == [] then []
    else (if IsWhitespace(s[0]) then [] else [s[0]]) + Visible(s[1..])
  }

  predicate EndsWith(s: string, suffix: string) {
    |suffix| <= |s| && s[|s| - |suffix|..] == suffix
  }

  /** The index of the last `c` in `s`, if any. */
  function LastIndexOf(s: string, c: char): (r: Option<nat>)
    ensures r.None? <==> c !in s
    ensures r.Some? ==> r.value < |s| && s[r.value] == c
    ensures r.Some? ==> forall j :: r.value < j < |s| ==> s[j] != c
  {
    if s == [] then None
    else if s[|s| - 1] == c then Some(|s| - 1)
    else LastIndexOf(s[..|s| - 1], c)
  }

  /** `s.rsplit(c, 1)[1]`: the text after the last `c`. */
  function AfterLast(s: string, c: char): string
    requires c in s
  {
    s[LastIndexOf(s, c).value + 1..]
  }

  lemma {:induction false} RemoveAllConcat(a: string, b: string, c: char)
    ensures RemoveAll(a + b, c) == RemoveAll(a, c) + RemoveAll(b, c)
  {
    if a == [] {
      assert a + b == b;
    } else {
      var head := if a[0] == c then [] else [a[0]];
      calc {
        RemoveAll(a + b, c);
        { assert (a + b)[0] == a[0]; assert (a + b)[1..] == a[1..] + b; }
        head + RemoveAll(a[1..] + b, c);
        { RemoveAllConcat(a[1..], b, c); }
        head + (RemoveAll(a[1..], c) + RemoveAll(b, c));
        (head + RemoveAll(a[1..], c)) + RemoveAll(b, c);
      }
    }
  }

  lemma {:induction false} VisibleConcat(a: string, b: string)
    ensures Visible(a + b) == Visible(a) + Visible(b)
  {
    if a == [] {
      assert a + b == b;
    } else {
      var head := if IsWhitespace(a[0]) then [] else [a[0]];
      calc {
        Visible(a + b);
        { assert (a + b)[0] == a[0]; assert (a + b)[1..] == a[1..] + b; }
        head + Visible(a[1..] + b);
        { VisibleConcat(a[1..], b); }
        head + (Visible(a[1..]) + Visible(b));
        (head + Visible(a[1..])) + Visible(b);
      }
    }
  }

  /** Removing one whitespace character everywhere leaves the visible text alone. */
  lemma {:induction false} VisibleRemoveAll(s: string, c: char)
    requires IsWhitespace(c)
    ensures Visible(RemoveAll(s, c)) == Visible(s)
  {
    if s != [] {
      VisibleRemoveAll(s[1..], c);
      VisibleConcat(if s[0] == c then [] else [s[0]], RemoveAll(s[1..], c));
    }
  }

  lemma {:induction false} VisibleOfBlank(s: string)
    requires forall i :: 0 <= i < |s| ==> IsWhitespace(s[i])
    ensures Visible(s) == []
  {
    if s != [] {
      VisibleOfBlank(s[1..]);
    }
  }

  lemma {:induction false} VisibleOfSolid(s: string)
    requires forall i :: 0 <= i < |s| ==> !IsWhitespace(s[i])
    ensures Visible(s) == s
  {
    if s != [] {
      VisibleOfSolid(s[1..]);
    }
  }

  lemma {:induction false} RemoveAllOfRun(s: string, c: char)
    requires forall i :: 0 <= i < |s| ==> s[i] == c
    ensures RemoveAll(s, c) == []
  {
    if s != [] {
      RemoveAllOfRun(s[1..], c);
    }
  }

  lemma VisibleStripStart(s: string)
    ensures Visible(StripStart(s)) == Visible(s)
  {
    var t := StripStart(s);
    var front := s[..|s| - |t|];
    assert s == front + t;
    VisibleOfBlank(front);
    VisibleConcat(front, t);
  }

  lemma VisibleStripEnd(s: string)
    ensures Visible(StripEnd(s)) == Visible(s)
  {
    var u := StripEnd(s);
    var back := s[|u|..];
    assert s == u + back;
    VisibleOfBlank(back);
    VisibleConcat(u, back);
  }

  /** `strip()` removes only whitespace, so the visible text is unchanged. */
  lemma VisibleStrip(s: string)
    ensures Visible(Strip(s)) == Visible(s)
  {
    VisibleStripStart(s);
    VisibleStripEnd(StripStart(s));
  }

  /** When the only whitespace in `s` is the space, `strip()` followed by
      removing every space is the same as removing every space. */
  lemma RemoveSpacesAfterStrip(s: string)
    requires forall i :: 0 <= i < |s| && IsWhitespace(s[i]) ==> s[i] == ' '
    ensures RemoveAll(Strip(s), ' ') == RemoveAll(s, ' ')
  {
    StripKeepsSpacesOnly(s);
    RemoveSpacesIsVisible(s);
    RemoveSpacesIsVisible(Strip(s));
    VisibleStrip(s);
  }

  lemma StripKeepsSpacesOnly(s: string)
    requires forall i :: 0 <= i < |s| && IsWhitespace(s[i]) ==> s[i] == ' '
    ensures var t := Strip(s); forall i :: 0 <= i < |t| && IsWhitespace(t[i]) ==> t[i] == ' '
  {
    var front := StripStart(s);
    var t := StripEnd(front);
    var lo := |s| - |front|;
    assert t == s[lo..lo + |t|];
    SliceKeepsSpacesOnly(s, lo, lo + |t|);
  }

  lemma SliceKeepsSpacesOnly(s: string, lo: nat, hi: nat)
    requires lo <= hi <= |s|
    requires forall i :: 0 <= i < |s| && IsWhitespace(s[i]) ==> s[i] == ' '
    ensures var t := s[lo..hi]; forall i :: 0 <= i < |t| && IsWhitespace(t[i]) ==> t[i] == ' '
  {
    var t := s[lo..hi];
    forall i | 0 <= i < |t| && IsWhitespace(t[i]) ensures t[i] == ' ' {
      assert t[i] == s[lo + i];
    }
  }

  /** With only spaces as whitespace, removing spaces leaves the visible text. */
  lemma {:induction false} RemoveSpacesIsVisible(s: string)
    requires forall i :: 0 <= i < |s| && IsWhitespace(s[i]) ==> s[i] == ' '
    ensures RemoveAll(s, ' ') == Visible(s)
  {
    if s != [] {
      RemoveSpacesIsVisible(s[1..]);
    }
  }
}
