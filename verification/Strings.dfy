/** The string operations the services are written with: searching, replacing,
    splitting, trimming, letter case and byte order. */
module Strings {

  const SPACES := "\t\n\U{0B}\U{0C}\r \U{85}\U{A0}\U{1680}\U{2000}\U{2001}\U{2002}\U{2003}\U{2004}\U{2005}\U{2006}\U{2007}\U{2008}\U{2009}\U{200A}\U{2028}\U{2029}\U{202F}\U{205F}\U{3000}"

  function FirstNonEmpty(values: seq<string>): string {
    if values == [] then "" else if values[0] != "" then values[0] else FirstNonEmpty(values[1..])
  }

  /** Empty exactly when there is nothing but empty texts; otherwise the one no other comes before. */
  lemma {:induction false} FirstNonEmptyExact(values: seq<string>)
    ensures FirstNonEmpty(values) == "" <==> forall i :: 0 <= i < |values| ==> values[i] == ""
    ensures FirstNonEmpty(values) != "" ==>
              exists i :: 0 <= i < |values| && values[i] == FirstNonEmpty(values) && forall j :: 0 <= j < i ==> values[j] == ""
  {
    if values != [] && values[0] == "" {
      var rest := values[1..];
      FirstNonEmptyExact(rest);
      if FirstNonEmpty(rest) != "" {
        var i :| 0 <= i < |rest| && rest[i] == FirstNonEmpty(rest) && forall j :: 0 <= j < i ==> rest[j] == "";
        assert values[i + 1] == FirstNonEmpty(values);
        forall j | 0 <= j < i + 1 ensures values[j] == "" { if j > 0 { assert rest[j - 1] == ""; } }
      } else {
        forall i | 0 <= i < |values| ensures values[i] == "" { if i > 0 { assert rest[i - 1] == ""; } }
      }
    }
  }

  // ---------------------------------------------------------------- searching

  predicate OccursAt(s: string, pat: string, i: nat) {
    i + |pat| <= |s| && s[i..i + |pat|] == pat
  }

  predicate Contains(s: string, pat: string) {
    exists i: nat | i <= |s| :: OccursAt(s, pat, i)
  }

  /** Replaces the first occurrence, as `strings.Replace(s, pat, fill, 1)`. */
  function ReplaceFirst(s: string, pat: string, fill: string): string {
    if pat <= s then fill + s[|pat|..]
    else if s == "" then ""
    else [s[0]] + ReplaceFirst(s[1..], pat, fill)
  }

  /** A pattern in the middle of a text is found. */
  lemma ContainsMiddle(a: string, pat: string, b: string)
    ensures Contains(a + pat + b, pat)
  {
    assert OccursAt(a + pat + b, pat, |a|);
  }

  lemma OccurrenceChar(s: string, pat: string, i: nat, k: nat)
    requires OccursAt(s, pat, i) && k < |pat|
    ensures s[i + k] == pat[k]
  {
    assert s[i + k] == s[i..i + |pat|][k];
  }

  /** A text that lacks one of the pattern's characters does not contain the pattern. */
  lemma MissingChar(s: string, pat: string, k: nat)
    requires k < |pat| && pat[k] !in s
    ensures !Contains(s, pat)
  {
    if Contains(s, pat) {
      var i: nat :| i <= |s| && OccursAt(s, pat, i);
      OccurrenceChar(s, pat, i, k);
    }
  }

  lemma OccurrenceInside(s: string, t: string, pat: string, i: nat, d: nat)
    requires OccursAt(s, pat, i) && d <= i && i - d + |pat| <= |t|
    requires forall k :: 0 <= k < |t| && d + k < |s| ==> t[k] == s[d + k]
    ensures Contains(t, pat)
  {
    assert t[i - d..i - d + |pat|] == s[i..i + |pat|];
    assert OccursAt(t, pat, i - d);
  }

  lemma ContainsKept(a: string, x: string, b: string, pat: string)
    requires Contains(x, pat)
    ensures Contains(a + x + b, pat)
  {
    var i: nat :| i <= |x| && OccursAt(x, pat, i);
    assert (a + x + b)[|a| + i..|a| + i + |pat|] == x[i..i + |pat|];
    assert OccursAt(a + x + b, pat, |a| + i);
  }

  /** A frame that does not contain the pattern, and touches the framed text with characters foreign
      to the pattern, neither hides nor creates an occurrence. */
  lemma ContainsWithinFrame(a: string, x: string, b: string, pat: string)
    requires a != "" && a[|a| - 1] !in pat && !Contains(a, pat)
    requires b != "" && b[0] !in pat && !Contains(b, pat)
    ensures Contains(a + x + b, pat) <==> Contains(x, pat)
  {
    var s := a + x + b;
    if Contains(x, pat) { ContainsKept(a, x, b, pat); }
    if Contains(s, pat) {
      var i: nat :| i <= |s| && OccursAt(s, pat, i);
      if i + |pat| <= |a| {
        OccurrenceInside(s, a, pat, i, 0);
      } else if i >= |a| + |x| {
        OccurrenceInside(s, b, pat, i, |a| + |x|);
      } else {
        if i < |a| { OccurrenceChar(s, pat, i, |a| - 1 - i); }
        if |a| + |x| < i + |pat| { OccurrenceChar(s, pat, i, |a| + |x| - i); }
        OccurrenceInside(s, x, pat, i, |a|);
      }
    }
  }

  lemma OccursLater(c: char, s: string, pat: string, i: nat)
    requires OccursAt(s, pat, i)
    ensures OccursAt([c] + s, pat, i + 1)
  {
    assert ([c] + s)[i + 1..i + 1 + |pat|] == s[i..i + |pat|];
  }

  lemma OccursFirst(s: string, pat: string)
    ensures pat <= s <==> OccursAt(s, pat, 0)
  {
  }

  /** Only the first occurrence is replaced; what surrounds it stays. */
  lemma {:induction false} ReplaceFirstExact(a: string, pat: string, b: string, fill: string)
    requires forall i: nat :: i < |a| ==> !OccursAt(a + pat + b, pat, i)
    ensures ReplaceFirst(a + pat + b, pat, fill) == a + fill + b
  {
    var s := a + pat + b;
    if a == "" {
      assert s[|pat|..] == b;
    } else {
      var rest := a[1..] + pat + b;
      assert s[1..] == rest && s == [a[0]] + rest && a == [a[0]] + a[1..];
      OccursFirst(s, pat);
      forall i: nat | i < |a[1..]| ensures !OccursAt(rest, pat, i) {
        if OccursAt(rest, pat, i) { OccursLater(a[0], rest, pat, i); }
      }
      hide OccursAt;
      ReplaceFirstExact(a[1..], pat, b, fill);
      assert ReplaceFirst(s, pat, fill) == [a[0]] + (a[1..] + fill + b);
    }
  }

  // ------------------------------------------------------ splitting and joining

  /** `strings.Split` with a one-character separator: never empty. */
  function Split(s: string, sep: char): (parts: seq<string>)
    ensures |parts| >= 1
  {
    if s == "" then [""]
    else
      var rest := Split(s[1..], sep);
      if s[0] == sep then [""] + rest else [[s[0]] + rest[0]] + rest[1..]
  }

  function Join(parts: seq<string>, sep: char): string {
    if parts == [] then "" else if |parts| == 1 then parts[0] else parts[0] + [sep] + Join(parts[1..], sep)
  }

  lemma {:induction false} SplitWhole(s: string, sep: char)
    requires sep !in s
    ensures Split(s, sep) == [s]
  {
    if s != "" {
      SplitWhole(s[1..], sep);
      assert [s[0]] + s[1..] == s;
    }
  }

  lemma {:induction false} SplitAtSeparator(a: string, b: string, sep: char)
    requires sep !in a
    ensures Split(a + [sep] + b, sep) == [a] + Split(b, sep)
  {
    var s := a + [sep] + b;
    if a == "" {
      assert s[1..] == b;
    } else {
      SplitAtSeparator(a[1..], b, sep);
      assert s[1..] == a[1..] + [sep] + b;
      assert [a[0]] + a[1..] == a;
    }
  }

  lemma {:induction false} SplitJoin(parts: seq<string>, sep: char)
    requires parts != [] && forall i :: 0 <= i < |parts| ==> sep !in parts[i]
    ensures Split(Join(parts, sep), sep) == parts
  {
    if |parts| == 1 {
      SplitWhole(parts[0], sep);
    } else {
      SplitAtSeparator(parts[0], Join(parts[1..], sep), sep);
      SplitJoin(parts[1..], sep);
    }
  }

  lemma {:induction false} JoinSplit(s: string, sep: char)
    ensures Join(Split(s, sep), sep) == s
    ensures forall i :: 0 <= i < |Split(s, sep)| ==> sep !in Split(s, sep)[i]
  {
    if s != "" {
      JoinSplit(s[1..], sep);
      var rest := Split(s[1..], sep);
      assert s == [s[0]] + s[1..];
      if s[0] == sep {
        assert Split(s, sep)[1..] == rest;
      } else if |rest| > 1 {
        assert Split(s, sep)[1..] == rest[1..];
        assert Join(Split(s, sep), sep) == ([s[0]] + rest[0]) + [sep] + Join(rest[1..], sep);
      }
    }
  }

  // ------------------------------------------------------------------ trimming

  predicate IsSpace(c: char) { c in SPACES }

  function TrimLeft(s: string): string {
    if s != "" && IsSpace(s[0]) then TrimLeft(s[1..]) else s
  }

  function TrimRight(s: string): string {
    if s != "" && IsSpace(s[|s| - 1]) then TrimRight(s[..|s| - 1]) else s
  }

  function TrimSpace(s: string): string { TrimRight(TrimLeft(s)) }

  predicate Trimmed(s: string) { s == "" || (!IsSpace(s[0]) && !IsSpace(s[|s| - 1])) }

  lemma TrimLeftStarts(s: string)
    ensures TrimLeft(s) == "" || !IsSpace(TrimLeft(s)[0])
  {
  }

  lemma {:induction false} TrimRightEnds(s: string)
    ensures TrimRight(s) <= s
    ensures TrimRight(s) == "" || !IsSpace(TrimRight(s)[|TrimRight(s)| - 1])
  {
    hide IsSpace;
    if s != "" && IsSpace(s[|s| - 1]) {
      TrimRightEnds(s[..|s| - 1]);
    }
  }

  /** What `TrimSpace` returns is trimmed, and a string is trimmed exactly when `TrimSpace` keeps it. */
  lemma TrimSpaceTrims(s: string)
    ensures Trimmed(TrimSpace(s))
    ensures Trimmed(s) <==> TrimSpace(s) == s
  {
    hide IsSpace;
    TrimLeftStarts(s);
    TrimRightEnds(TrimLeft(s));
  }

  predicate AllSpace(s: string) { forall i :: 0 <= i < |s| ==> IsSpace(s[i]) }

  ghost predicate Padded(s: string, t: string) { exists a, b :: AllSpace(a) && AllSpace(b) && s == a + t + b }

  lemma {:induction false} TrimLeftCuts(s: string) returns (a: string)
    ensures AllSpace(a) && s == a + TrimLeft(s)
  {
    hide IsSpace;
    a := "";
    if s != "" && IsSpace(s[0]) {
      var rest := TrimLeftCuts(s[1..]);
      a := [s[0]] + rest;
      assert s == [s[0]] + s[1..];
    }
  }

  lemma {:induction false} TrimRightCuts(s: string) returns (b: string)
    ensures AllSpace(b) && s == TrimRight(s) + b
  {
    hide IsSpace;
    b := "";
    if s != "" && IsSpace(s[|s| - 1]) {
      var rest := TrimRightCuts(s[..|s| - 1]);
      b := rest + [s[|s| - 1]];
      assert s == s[..|s| - 1] + [s[|s| - 1]];
    }
  }

  /** Nothing but spaces is cut off, at either end. */
  lemma {:induction false} TrimSpaceCutsSpaces(s: string)
    ensures Padded(s, TrimSpace(s))
  {
    var a := TrimLeftCuts(s);
    var b := TrimRightCuts(TrimLeft(s));
    assert s == a + TrimSpace(s) + b;
  }

  /** The characters with Unicode's White_Space property, by code point. */
  lemma SpacesByCode(c: char)
    ensures IsSpace(c) <==>
              var n := c as int;
              9 <= n <= 13 || n == 0x20 || n == 0x85 || n == 0xA0 || n == 0x1680 || 0x2000 <= n <= 0x200A || n == 0x2028
              || n == 0x2029 || n == 0x202F || n == 0x205F || n == 0x3000
  {
    SpacesListed(c);
  }

  lemma SpacesListed(c: char)
    ensures c in SPACES <==>
              c == '\t' || c == '\n' || c == '\U{0B}' || c == '\U{0C}' || c == '\r' || c == ' ' || c == '\U{85}' || c == '\U{A0}'
              || c == '\U{1680}' || c == '\U{2000}' || c == '\U{2001}' || c == '\U{2002}' || c == '\U{2003}' || c == '\U{2004}'
              || c == '\U{2005}' || c == '\U{2006}' || c == '\U{2007}' || c == '\U{2008}' || c == '\U{2009}' || c == '\U{200A}'
              || c == '\U{2028}' || c == '\U{2029}' || c == '\U{202F}' || c == '\U{205F}' || c == '\U{3000}'
  {
  }

  // --------------------------------------------------------------- letter case

  /** Go's `unicode.ToLower` as far as a comparison with ASCII text can see it: U+0130 and U+212A
      are the two other characters whose lower case is an ASCII letter. */
  function Lower(c: char): char {
    if 'A' <= c <= 'Z' then (c as int + 32) as char
    else if c == '\U{0130}' then 'i'
    else if c == '\U{212A}' then 'k'
    else c
  }

  function ToLower(s: string): (r: string)
    ensures |r| == |s| && forall i :: 0 <= i < |s| ==> r[i] == Lower(s[i])
  {
    seq(|s|, i requires 0 <= i < |s| => Lower(s[i]))
  }

  /** Simple case folding as `strings.EqualFold` uses it, again up to what ASCII text can see. */
  function Fold(c: char): char {
    if 'A' <= c <= 'Z' then (c as int + 32) as char
    else if c == '\U{017F}' then 's'
    else if c == '\U{212A}' then 'k'
    else c
  }

  predicate EqualFold(s: string, t: string) {
    |s| == |t| && forall i :: 0 <= i < |s| ==> Fold(s[i]) == Fold(t[i])
  }

  const CAPITALS := "ABCDEFGHIJKLMNOPQRSTUVWXYZ"

  /** Which characters read as a given small letter, and that signs and digits read as nothing but
      themselves: letter case in `ToLower` and in `EqualFold`. */
  lemma LetterCase(c: char, d: char)
    ensures 'a' <= d <= 'z' ==>
              var same := c == d || c == CAPITALS[d as int - 'a' as int];
              && (Lower(c) == d <==> same || (d == 'i' && c == '\U{130}') || (d == 'k' && c == '\U{212A}'))
              && (Fold(c) == Fold(d) <==> same || (d == 's' && c == '\U{17F}') || (d == 'k' && c == '\U{212A}'))
    ensures d < 'A' || 'Z' < d < 'a' || 'z' < d < '\U{80}' ==> (Lower(c) == d <==> c == d) && (Fold(c) == Fold(d) <==> c == d)
  {
    if 'a' <= d <= 'z' { CapitalOf(d); }
  }

  lemma CapitalOf(d: char)
    requires 'a' <= d <= 'z'
    ensures CAPITALS[d as int - 'a' as int] as int == d as int - 32
  {
    assert CAPITALS == ['A', 'B', 'C', 'D', 'E', 'F', 'G', 'H', 'I', 'J', 'K', 'L', 'M', 'N', 'O', 'P', 'Q', 'R', 'S', 'T', 'U', 'V',
                        'W', 'X', 'Y', 'Z'];
  }

  predicate HasSuffix(s: string, suffix: string) {
    |suffix| <= |s| && s[|s| - |suffix|..] == suffix
  }

  // ---------------------------------------------------------------- byte order

  /** Go's `s < t`. Code-point order is the byte order of the UTF-8 texts. */
  predicate Less(s: string, t: string) {
    t != "" && (s == "" || s[0] < t[0] || (s[0] == t[0] && Less(s[1..], t[1..])))
  }

  lemma LessTotal(s: string, t: string)
    ensures Less(s, t) || s == t || Less(t, s)
    ensures !(Less(s, t) && Less(t, s)) && !Less(s, s)
    decreases |s|
  {
    if s != "" && t != "" && s[0] == t[0] {
      LessTotal(s[1..], t[1..]);
      assert s == [s[0]] + s[1..] && t == [t[0]] + t[1..];
    }
    if s != "" { LessTotal(s[1..], s[1..]); }
  }

  lemma LessTransitive(s: string, t: string, u: string)
    requires Less(s, t) && Less(t, u)
    ensures Less(s, u)
  {
    if s != "" && s[0] == t[0] == u[0] {
      LessTransitive(s[1..], t[1..], u[1..]);
    }
  }

  /** `s` comes first exactly when it is a proper prefix, or is smaller at the first place they differ. */
  lemma {:induction false} LessExact(s: string, t: string)
    ensures Less(s, t) <==>
              exists n :: 0 <= n <= |s| && n < |t| && s[..n] == t[..n] && (n == |s| || s[n] < t[n])
  {
    if s == "" {
      assert t != "" ==> s[..0] == t[..0];
    } else if t != "" {
      LessExact(s[1..], t[1..]);
      if s[0] < t[0] { assert s[..0] == t[..0]; }
      if s[0] == t[0] && Less(s[1..], t[1..]) {
        var n :| 0 <= n <= |s[1..]| && n < |t[1..]| && s[1..][..n] == t[1..][..n] && (n == |s[1..]| || s[1..][n] < t[1..][n]);
        assert s[..n + 1] == [s[0]] + s[1..][..n] && t[..n + 1] == [t[0]] + t[1..][..n];
      }
      if n :| 0 <= n <= |s| && n < |t| && s[..n] == t[..n] && (n == |s| || s[n] < t[n]) {
        if n > 0 {
          assert s[..n][0] == s[0] && t[..n][0] == t[0];
          assert s[1..][..n - 1] == s[..n][1..] && t[1..][..n - 1] == t[..n][1..];
        }
      }
    }
  }
}
