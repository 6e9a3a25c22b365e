/**
  * The string operations the table renderer is built from: padding to a width
  * (String.PadRight, String.PadLeft and the PadBoth extension), trimming
  * trailing line breaks (String.TrimEnd('\r', '\n')), and the concatenation a
  * StringBuilder performs.
  */
module Text {

  function Max(a: nat, b: nat): nat {
    if a >= b then a else b
  }

  function Min(a: nat, b: nat): nat {
    if a <= b then a else b
  }

  /** `n` copies of `c`, as `new string(c, n)`. */
  function Repeat(c: char, n: nat): (s: string)
    ensures |s| == n
    ensures forall k | 0 <= k < n :: s[k] == c
  {
    seq(n, _ => c)
  }

  predicate AllSpaces(s: string) {
    forall k | 0 <= k < |s| :: s[k] == ' '
  }

  /** `r` consists of `lead` spaces, then `s`, then nothing but spaces. */
  predicate Surrounds(r: string, s: string, lead: nat) {
    && lead + |s| <= |r|
    && AllSpaces(r[..lead])
    && r[lead..lead + |s|] == s
    && AllSpaces(r[lead + |s|..])
  }

  /** Text surrounded by spaces with at least one space after it ends in a space. */
  lemma SurroundedEndsInSpace(r: string, s: string, lead: nat)
    requires Surrounds(r, s, lead) && lead + |s| < |r|
    ensures r[|r| - 1] == ' '
  {
    assert r[lead + |s|..][|r| - 1 - lead - |s|] == r[|r| - 1];
  }

  /** String.PadRight: spaces appended up to `width`; a longer string is kept whole. */
  function PadRight(s: string, width: nat): (r: string)
    ensures |r| == Max(|s|, width)
    ensures Surrounds(r, s, 0)
  {
    if |s| < width then s + Repeat(' ', width - |s|) else s
  }

  /** String.PadLeft: spaces inserted before `s` up to `width`; a longer string is kept whole. */
  function PadLeft(s: string, width: nat): (r: string)
    ensures |r| == Max(|s|, width)
    ensures Surrounds(r, s, |r| - |s|)
  {
    if |s| < width then Repeat(' ', width - |s|) + s else s
  }

  /**
    * The PadBoth extension. Its definition (ArkBot/Extensions) is not part of
    * this model: all that is assumed is that it surrounds `s` with spaces up
    * to `width`. How the spaces are split is the parameter `lead`, the number
    * of spaces put in front (clamped to the spaces available).
    */
  function PadBoth(s: string, width: nat, lead: nat): (r: string)
    ensures |r| == Max(|s|, width)
    ensures |s| <= width ==> Surrounds(r, s, Min(lead, width - |s|))
  {
    if |s| < width then
      var k := Min(lead, width - |s|);
      Repeat(' ', k) + s + Repeat(' ', width - |s| - k)
    else
      s
  }

  predicate IsLineBreak(c: char) {
    c == '\r' || c == '\n'
  }

  predicate AllLineBreaks(s: string) {
    forall k | 0 <= k < |s| :: IsLineBreak(s[k])
  }

  /**
    * String.TrimEnd('\r', '\n'): the longest prefix of `s` that does not end
    * in a carriage return or a line feed; everything cut off is one of those.
    */
  function TrimLineBreaks(s: string): (r: string)
    ensures r <= s
    ensures r == [] || !IsLineBreak(r[|r| - 1])
    ensures AllLineBreaks(s[|r|..])
  {
    if s != [] && IsLineBreak(s[|s| - 1]) then
      var r := TrimLineBreaks(s[..|s| - 1]);
      assert s[|r|..] == s[..|s| - 1][|r|..] + [s[|s| - 1]];
      r
    else
      s
  }

  /** A string that does not end in a line break is left as it is. */
  lemma TrimKeepsUnbroken(s: string)
    requires s == [] || !IsLineBreak(s[|s| - 1])
    ensures TrimLineBreaks(s) == s
  {
  }

  /** Line breaks appended to a string make no difference once trimmed. */
  lemma {:induction false} TrimIgnoresTrailingBreaks(s: string, t: string)
    requires AllLineBreaks(t)
    ensures TrimLineBreaks(s + t) == TrimLineBreaks(s)
  {
    if t != [] {
      var u := t[..|t| - 1];
      assert (s + t)[..|s + t| - 1] == s + u;
      assert (s + t)[|s + t| - 1] == t[|t| - 1];
      TrimIgnoresTrailingBreaks(s, u);
    } else {
      assert s + t == s;
    }
  }

  /** The number of characters in all of `parts` together. */
  function TotalLength(parts: seq<string>): nat {
    if parts == [] then 0 else TotalLength(parts[..|parts| - 1]) + |parts[|parts| - 1]|
  }

  /** What a StringBuilder holds after appending `parts` in order. */
  function Concat(parts: seq<string>): (r: string)
    ensures |r| == TotalLength(parts)
  {
    if parts == [] then "" else Concat(parts[..|parts| - 1]) + parts[|parts| - 1]
  }

  lemma AppendAssociates(a: string, b: string, c: string)
    ensures (a + b) + c == a + (b + c)
  {
  }

  /** Appending one more part to a builder. */
  lemma ConcatSnoc(parts: seq<string>, j: nat)
    requires j < |parts|
    ensures Concat(parts[..j + 1]) == Concat(parts[..j]) + parts[j]
  {
    assert parts[..j + 1][..j] == parts[..j];
  }

  /** Part `j` sits in the concatenation right after the parts before it. */
  lemma {:induction false} ConcatAt(parts: seq<string>, j: nat)
    requires j < |parts|
    ensures TotalLength(parts[..j]) + |parts[j]| <= |Concat(parts)|
    ensures Concat(parts)[TotalLength(parts[..j])..TotalLength(parts[..j]) + |parts[j]|] == parts[j]
  {
    var n := |parts| - 1;
    var front := parts[..n];
    if j == n {
      assert front == parts[..j];
    } else {
      ConcatAt(front, j);
      assert front[..j] == parts[..j];
      assert front[j] == parts[j];
    }
  }

  function SumNat(xs: seq<nat>): nat {
    if xs == [] then 0 else SumNat(xs[..|xs| - 1]) + xs[|xs| - 1]
  }

  /** Parts whose lengths are `widths[k] + gap` fill `SumNat(widths) + gap` per part. */
  lemma {:induction false} TotalLengthOfPadded(parts: seq<string>, widths: seq<nat>, gap: nat)
    requires |parts| == |widths|
    requires forall k | 0 <= k < |parts| :: |parts[k]| == widths[k] + gap
    ensures TotalLength(parts) == SumNat(widths) + |parts| * gap
  {
    if parts != [] {
      var n := |parts| - 1;
      TotalLengthOfPadded(parts[..n], widths[..n], gap);
      assert (n + 1) * gap == n * gap + gap;
    }
  }

  /**
    * Parts of lengths `widths[k] + gap` laid side by side: part `j` starts after
    * the widths and gaps of the parts before it.
    */
  lemma ConcatColumns(parts: seq<string>, widths: seq<nat>, gap: nat, j: nat)
    requires |parts| == |widths| && j < |parts|
    requires forall k | 0 <= k < |parts| :: |parts[k]| == widths[k] + gap
    ensures |Concat(parts)| == SumNat(widths) + |parts| * gap
    ensures SumNat(widths[..j]) + j * gap + widths[j] + gap <= |Concat(parts)|
    ensures Concat(parts)[SumNat(widths[..j]) + j * gap..SumNat(widths[..j]) + j * gap + widths[j] + gap] == parts[j]
  {
    TotalLengthOfPadded(parts, widths, gap);
    TotalLengthOfPadded(parts[..j], widths[..j], gap);
    ConcatAt(parts, j);
  }

  /** Each line followed by `newLine`, as StringBuilder.AppendLine leaves them. */
  function Terminate(lines: seq<string>, newLine: string): (r: seq<string>)
    ensures |r| == |lines|
  {
    seq(|lines|, i requires 0 <= i < |lines| => lines[i] + newLine)
  }

  /** The lines separated by `newLine`, with no separator after the last. */
  function Join(lines: seq<string>, newLine: string): string {
    if |lines| == 0 then ""
    else if |lines| == 1 then lines[0]
    else Join(lines[..|lines| - 1], newLine) + newLine + lines[|lines| - 1]
  }

  /** A concatenation whose last part is not empty ends with that part's last character. */
  lemma LastPartEnds(parts: seq<string>)
    requires parts != [] && parts[|parts| - 1] != []
    ensures var s, last := Concat(parts), parts[|parts| - 1];
            s != [] && s[|s| - 1] == last[|last| - 1]
  {
  }

  /** A join of non-empty lines ends with the last line's last character. */
  lemma JoinEndsWithLast(lines: seq<string>, newLine: string)
    requires lines != [] && lines[|lines| - 1] != []
    ensures var s := Join(lines, newLine); var last := lines[|lines| - 1];
            s != [] && s[|s| - 1] == last[|last| - 1]
  {
  }

  /** Lines whose last one ends in a space join into a text the trim leaves alone. */
  lemma JoinEndingInSpaceIsKept(lines: seq<string>, newLine: string)
    requires lines != [] && lines[|lines| - 1] != [] && lines[|lines| - 1][|lines[|lines| - 1]| - 1] == ' '
    ensures TrimLineBreaks(Join(lines, newLine)) == Join(lines, newLine)
  {
    JoinEndsWithLast(lines, newLine);
    TrimKeepsUnbroken(Join(lines, newLine));
  }

  /** Terminating every line is joining them and terminating the last one. */
  lemma {:induction false} ConcatTerminated(lines: seq<string>, newLine: string)
    requires lines != []
    ensures Concat(Terminate(lines, newLine)) == Join(lines, newLine) + newLine
  {
    var n := |lines| - 1;
    var t := Terminate(lines, newLine);
    if n == 0 {
      assert t[..0] == [];
    } else {
      assert t[..n] == Terminate(lines[..n], newLine);
      ConcatTerminated(lines[..n], newLine);
    }
  }

  /** Joining `lines` and then two more lines. */
  lemma JoinAppend2(lines: seq<string>, a: string, b: string, newLine: string)
    requires lines != []
    ensures Join(lines + [a, b], newLine) == Join(lines, newLine) + newLine + a + newLine + b
  {
    var all := lines + [a, b];
    assert all[..|all| - 1] == lines + [a];
    assert (lines + [a])[..|lines|] == lines;
  }

  /**
    * Terminated lines followed by two lines of which only the first is
    * terminated: all of them joined.
    */
  lemma TerminatedThenTwo(lines: seq<string>, a: string, b: string, newLine: string)
    requires lines != []
    ensures Concat(Terminate(lines, newLine)) + (a + newLine + b) == Join(lines + [a, b], newLine)
  {
    ConcatTerminated(lines, newLine);
    JoinAppend2(lines, a, b, newLine);
  }
}
