/** The string operations of Python that the application relies on:
    `in`, `str.replace`, `str.lower`, `str.capitalize`, the `\s{2,}`
    whitespace collapse, and `str()` of optional values and integers.
    Case mapping covers ASCII letters only. */
module Text {
  import opened Values

  function ToLowerChar(c: char): char {
    if 'A' <= c <= 'Z' then (c as int + 32) as char else c
  }

  function ToUpperChar(c: char): char {
    if 'a' <= c <= 'z' then (c as int - 32) as char else c
  }

  /** `s.lower()` */
  function Lower(s: string): (r: string)
    ensures |r| == |s|
    ensures forall i | 0 <= i < |s| :: r[i] == ToLowerChar(s[i])
  {
    seq(|s|, i requires 0 <= i < |s| => ToLowerChar(s[i]))
  }

  /** `s.capitalize()`: first character upper-cased, the rest lower-cased. */
  function Capitalize(s: string): (r: string)
    ensures |r| == |s|
    ensures |s| > 0 ==> r[0] == ToUpperChar(s[0]) && r[1..] == Lower(s[1..])
  {
    if s == [] then [] else [ToUpperChar(s[0])] + Lower(s[1..])
  }

  lemma LowerIdempotent(s: string)
    ensures Lower(Lower(s)) == Lower(s)
  {
  }

  /** Capitalising twice changes nothing. */
  lemma CapitalizeIdempotent(s: string)
    ensures Capitalize(Capitalize(s)) == Capitalize(s)
  {
    if s != [] {
      LowerIdempotent(s[1..]);
    }
  }

  /** Case mapping never produces a slash, so it cannot add a path
      separator to a name. */
  lemma CapitalizeNoSlash(s: string)
    requires '/' !in s
    ensures '/' !in Capitalize(s)
  {
    var r := Capitalize(s);
    forall i | 0 <= i < |r| ensures r[i] != '/' {
      if i > 0 {
        assert r[i] == Lower(s[1..])[i - 1] == ToLowerChar(s[i]);
      }
    }
  }

  predicate OccursAt(s: string, p: string, i: int) {
    0 <= i && i + |p| <= |s| && s[i..i + |p|] == p
  }

  /** `p in s` */
  predicate Contains(s: string, p: string) {
    exists i | 0 <= i <= |s| - |p| :: OccursAt(s, p, i)
  }

  /** `s.replace(p, r)`: every non-overlapping occurrence of `p`, scanning
      left to right, is replaced by `r`. */
  function ReplaceAll(s: string, p: string, r: string): string
    requires p != []
    decreases |s|
  {
    if |s| < |p| then s
    else if s[..|p|] == p then r + ReplaceAll(s[|p|..], p, r)
    else [s[0]] + ReplaceAll(s[1..], p, r)
  }

  /** Replacing a pattern that does not occur leaves the string as it is. */
  lemma {:induction false} ReplaceAbsent(s: string, p: string, r: string)
    requires p != []
    requires !Contains(s, p)
    ensures ReplaceAll(s, p, r) == s
  {
    if |s| >= |p| {
      assert !OccursAt(s, p, 0);
      if Contains(s[1..], p) {
        var i :| 0 <= i <= |s[1..]| - |p| && OccursAt(s[1..], p, i);
        assert s[1..][i..i + |p|] == s[i + 1..i + 1 + |p|];
        assert OccursAt(s, p, i + 1);
        assert false;
      }
      ReplaceAbsent(s[1..], p, r);
    }
  }

  /** A leading occurrence is replaced first. */
  lemma ReplaceLeading(p: string, t: string, r: string)
    requires p != []
    ensures ReplaceAll(p + t, p, r) == r + ReplaceAll(t, p, r)
  {
    assert (p + t)[..|p|] == p;
    assert (p + t)[|p|..] == t;
  }

  /** The string with every `c` removed. */
  function Drop(s: string, c: char): (r: string)
    ensures c !in r
    ensures forall x | x in r :: x in s
  {
    if s == [] then []
    else (if s[0] == c then [] else [s[0]]) + Drop(s[1..], c)
  }

  /** `s.replace(c, "")` for a one-character pattern removes every `c`. */
  lemma {:induction false} ReplaceCharIsDrop(s: string, c: char)
    ensures ReplaceAll(s, [c], "") == Drop(s, c)
  {
    if s != [] {
      ReplaceCharIsDrop(s[1..], c);
      assert s[..1] == [s[0]];
    }
  }

  const Fence: string := "```"

  predicate StartsWithTwoTicks(s: string) {
    |s| >= 2 && s[0] == '`' && s[1] == '`'
  }

  lemma FirstCharKept(u: string)
    requires |u| > 0 && u[0] != '`'
    ensures |ReplaceAll(u, Fence, "")| > 0 && ReplaceAll(u, Fence, "")[0] == u[0]
  {
    if |u| >= 3 {
      assert u[..3] != Fence by { assert u[..3][0] == u[0]; }
    }
  }

  lemma NoLeadingTicks(t: string)
    requires !StartsWithTwoTicks(t)
    ensures !StartsWithTwoTicks(ReplaceAll(t, Fence, ""))
  {
    if |t| >= 3 {
      assert t[..3] != Fence by { assert t[..3][0] == t[0] && t[..3][1] == t[1]; }
      if t[0] == '`' {
        FirstCharKept(t[1..]);
      }
    }
  }

  /** After `s.replace("```", "")` no fence is left: removal cannot splice
      backticks into a new fence, because a left-to-right scan always
      removes the leftmost run of three. */
  lemma {:induction false} FenceRemoved(s: string)
    ensures !Contains(ReplaceAll(s, Fence, ""), Fence)
  {
    var r := ReplaceAll(s, Fence, "");
    if |s| < 3 {
      assert r == s;
    } else if s[..3] == Fence {
      assert r == ReplaceAll(s[3..], Fence, "");
      FenceRemoved(s[3..]);
    } else {
      var r1 := ReplaceAll(s[1..], Fence, "");
      assert r == [s[0]] + r1;
      FenceRemoved(s[1..]);
      if s[0] == '`' {
        assert s[..3] == [s[0], s[1], s[2]];
        NoLeadingTicks(s[1..]);
      }
      forall i | 0 <= i <= |r| - 3
        ensures !OccursAt(r, Fence, i)
      {
        if i == 0 {
          assert r[0..3] == [s[0], r1[0], r1[1]];
        } else {
          assert r[i..i + 3] == r1[i - 1..i + 2];
          assert !OccursAt(r1, Fence, i - 1);
        }
      }
    }
  }

  /** Whitespace as matched by `\s` on a `str`: the characters
      `str.isspace()` accepts, ASCII, Latin-1 and the Unicode spaces and
      separators. */
  predicate IsSpace(c: char) {
    || c == ' ' || ('\t' <= c <= '\r') || ('\U{1C}' <= c <= '\U{1F}') || c == '\U{85}' || c == '\U{A0}'
    || c == '\U{1680}' || ('\U{2000}' <= c <= '\U{200A}') || c == '\U{2028}' || c == '\U{2029}'
    || c == '\U{202F}' || c == '\U{205F}' || c == '\U{3000}'
  }

  /** Length of the whitespace run at the start of `s`. */
  function SpaceRun(s: string): (n: nat)
    ensures n <= |s|
    ensures forall i | 0 <= i < n :: IsSpace(s[i])
    ensures n < |s| ==> !IsSpace(s[n])
  {
    if s != [] && IsSpace(s[0]) then 1 + SpaceRun(s[1..]) else 0
  }

  predicate NoDoubleSpace(s: string) {
    forall i | 0 <= i < |s| - 1 :: !(IsSpace(s[i]) && IsSpace(s[i + 1]))
  }

  /** `re.sub(r"\s{2,}", " ", s)`: every run of two or more whitespace
      characters becomes one space; single whitespace characters stay. */
  function CollapseSpaces(s: string): (r: string)
    ensures NoDoubleSpace(r)
    ensures forall c | c in r :: c == ' ' || c in s
    ensures |r| > 0 && IsSpace(r[0]) ==> |s| > 0 && IsSpace(s[0])
    decreases |s|
  {
    if s == [] then []
    else
      var n := SpaceRun(s);
      if n >= 2 then " " + CollapseSpaces(s[n..])
      else [s[0]] + CollapseSpaces(s[1..])
  }

  /** A run of Unicode em spaces collapses like any other whitespace. */
  lemma CollapsesUnicodeSpaces()
    ensures CollapseSpaces("a\U{2003}\U{202F}b") == "a b"
  {
    var s := "a\U{2003}\U{202F}b";
    assert SpaceRun(s[1..][2..]) == 0;
    assert SpaceRun(s[1..]) == 2;
    assert CollapseSpaces(s[1..][2..]) == "b";
  }

  /** `str(n)` of a natural number. */
  function NatToString(n: nat): (r: string)
    ensures |r| > 0
    ensures forall c | c in r :: '0' <= c <= '9'
  {
    if n < 10 then [(n + '0' as int) as char]
    else NatToString(n / 10) + [(n % 10 + '0' as int) as char]
  }

  /** `str(i)` of an integer. */
  function IntToString(i: int): (r: string)
    ensures forall c | c in r :: c == '-' || '0' <= c <= '9'
  {
    if i < 0 then "-" + NatToString(-i) else NatToString(i)
  }

  /** An f-string of an optional string: `None` renders as "None". */
  function Show(s: Option<string>): string {
    if s.Some? then s.value else "None"
  }

  /** An f-string of an optional integer. */
  function ShowInt(i: Option<int>): (r: string)
    ensures '/' !in r
  {
    if i.Some? then IntToString(i.value) else "None"
  }
}
