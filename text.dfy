/** The JavaScript string operations the handler relies on, on strings as
    sequences of characters: `indexOf`, `includes`, `replace` with a string
    pattern (first occurrence only), `trim`, `toLowerCase`, `split`,
    `Array.prototype.toString` (a comma join), `padStart`, the regular
    expressions `/[a-zA-Z]/` and `/\r?\n/g`. */
module Text {

  // ---------------------------------------------------------------------
  // indexOf with a single-character argument

  /** `s.indexOf(c)`: the first position of `c`, or -1. */
  function IndexOf(s: string, c: char): (i: int)
    ensures -1 <= i < |s|
    ensures i == -1 <==> c !in s
    ensures 0 <= i ==> s[i] == c && c !in s[..i]
    decreases |s|
  {
    if s == [] then -1
    else if s[0] == c then 0
    else
      var k := IndexOf(s[1..], c);
      assert k >= 0 ==> s[..k + 1] == [s[0]] + s[1..][..k];
      if k < 0 then -1 else k + 1
  }

  /** A character placed right after a prefix free of it is found there. */
  lemma IndexOfAfter(a: string, c: char, b: string)
    requires c !in a
    ensures IndexOf(a + [c] + b, c) == |a|
  {
    var s := a + [c] + b;
    var i := IndexOf(s, c);
    assert s[|a|] == c;
  }

  // ---------------------------------------------------------------------
  // indexOf / includes with a string argument

  /** `pat` occurs in `s` starting at position `i`. */
  predicate OccursAt(s: string, pat: string, i: int)
  {
    0 <= i && i + |pat| <= |s| && s[i..i + |pat|] == pat
  }

  lemma OccursShift(s: string, pat: string)
    requires s != []
    ensures forall j :: 1 <= j ==> OccursAt(s, pat, j) == OccursAt(s[1..], pat, j - 1)
  {
    forall j | 1 <= j
      ensures OccursAt(s, pat, j) == OccursAt(s[1..], pat, j - 1)
    {
      if j + |pat| <= |s| {
        var t := s[1..];
        var a, b := s[j..j + |pat|], t[j - 1..j - 1 + |pat|];
        assert forall k :: 0 <= k < |pat| ==> a[k] == b[k];
        assert a == b;
      }
    }
  }

  /** `s.indexOf(pat)`: the first position where `pat` occurs, or -1. */
  function Find(s: string, pat: string): (i: int)
    ensures -1 <= i <= |s|
    ensures 0 <= i ==> OccursAt(s, pat, i)
    decreases |s|
  {
    if |pat| > |s| then -1
    else if s[..|pat|] == pat then 0
    else
      var k := Find(s[1..], pat);
      OccursShift(s, pat);
      if k < 0 then -1 else k + 1
  }

  /** No occurrence of `pat` comes before the one `Find` reports, and there is
      none at all when it reports -1. */
  lemma {:induction false} FindIsFirst(s: string, pat: string)
    ensures forall j :: 0 <= j && (Find(s, pat) < 0 || j < Find(s, pat)) ==> !OccursAt(s, pat, j)
    decreases |s|
  {
    if |pat| <= |s| && s[..|pat|] != pat {
      FindIsFirst(s[1..], pat);
      OccursShift(s, pat);
    }
  }

  /** `s.includes(pat)`. */
  predicate Includes(s: string, pat: string)
  {
    Find(s, pat) >= 0
  }

  /** The test `t => t.includes(pat)` the handler filters its tags with. */
  function HasText(pat: string): string -> bool
  {
    (t: string) => Includes(t, pat)
  }

  /** `s.replace(pat, rep)` with a string pattern: only the first occurrence is replaced. */
  function ReplaceFirst(s: string, pat: string, rep: string): string
  {
    var i := Find(s, pat);
    if i < 0 then s else s[..i] + rep + s[i + |pat|..]
  }

  /** A tag that starts with the prefix loses exactly the prefix. */
  lemma ReplaceFirstOfPrefix(pat: string, rest: string)
    ensures Includes(pat + rest, pat)
    ensures ReplaceFirst(pat + rest, pat, "") == rest
  {
    assert OccursAt(pat + rest, pat, 0);
  }

  // ---------------------------------------------------------------------
  // trim

  /** The characters `String.prototype.trim` removes: ECMAScript WhiteSpace
      (tab, vertical tab, form feed, space, no-break space, byte order mark and
      the Unicode space separators) and LineTerminator. */
  predicate IsSpace(c: char)
  {
    || c == '\t' || c == '\n' || c == '\U{000B}' || c == '\U{000C}' || c == '\r' || c == ' '
    || c == '\U{00A0}' || c == '\U{1680}' || ('\U{2000}' <= c <= '\U{200A}')
    || c == '\U{2028}' || c == '\U{2029}' || c == '\U{202F}' || c == '\U{205F}'
    || c == '\U{3000}' || c == '\U{FEFF}'
  }

  /** Neither the first nor the last character is white space. */
  predicate IsTrimmed(s: string)
  {
    s == [] || (!IsSpace(s[0]) && !IsSpace(s[|s| - 1]))
  }

  function TrimStart(s: string): (r: string)
    ensures |r| <= |s| && r == s[|s| - |r|..]
    ensures forall i :: 0 <= i < |s| - |r| ==> IsSpace(s[i])
    ensures r == [] || !IsSpace(r[0])
    decreases |s|
  {
    if s != [] && IsSpace(s[0]) then TrimStart(s[1..]) else s
  }

  function TrimEnd(s: string): (r: string)
    ensures |r| <= |s| && r == s[..|r|]
    ensures forall i :: |r| <= i < |s| ==> IsSpace(s[i])
    ensures r == [] || !IsSpace(r[|r| - 1])
    decreases |s|
  {
    if s != [] && IsSpace(s[|s| - 1]) then TrimEnd(s[..|s| - 1]) else s
  }

  /** `s.trim()`: the middle of `s` with the white space on both ends cut off. */
  function Trim(s: string): (r: string)
    ensures IsTrimmed(r)
  {
    TrimEnd(TrimStart(s))
  }

  /** The trimmed string is the part of `s` that follows its leading white space. */
  lemma TrimKeepsMiddle(s: string)
    ensures OccursAt(s, Trim(s), |s| - |TrimStart(s)|)
  {
    var t := TrimStart(s);
    var r := TrimEnd(t);
    var k := |s| - |t|;
    SliceOfSuffix(s, k, |r|);
  }

  /** A prefix of a suffix is a slice. */
  lemma SliceOfSuffix(s: string, k: nat, n: nat)
    requires k + n <= |s|
    ensures s[k..][..n] == s[k..k + n]
  {
  }

  /** Trimming leaves nothing exactly when `s` is all white space. */
  lemma TrimEmptyIff(s: string)
    ensures Trim(s) == [] <==> forall i :: 0 <= i < |s| ==> IsSpace(s[i])
  {
    var t := TrimStart(s);
    if TrimEnd(t) == [] {
      assert t == [];
    } else {
      assert t[0] == s[|s| - |t|];
    }
  }

  /** Trimming a trimmed string changes nothing, so `trim` is idempotent. */
  lemma TrimTrimmed(s: string)
    requires IsTrimmed(s)
    ensures Trim(s) == s
  {
  }

  // ---------------------------------------------------------------------
  // toLowerCase (ASCII letters)

  function LowerChar(c: char): char
  {
    if 'A' <= c <= 'Z' then (c as int - 'A' as int + 'a' as int) as char else c
  }

  /** `s.toLowerCase()` on the ASCII letters. */
  function Lower(s: string): string
  {
    seq(|s|, i requires 0 <= i < |s| => LowerChar(s[i]))
  }

  /** `needle` occurs in `hay` when both are lower-cased. */
  predicate IncludesIgnoringCase(hay: string, needle: string)
  {
    Includes(Lower(hay), Lower(needle))
  }

  // ---------------------------------------------------------------------
  // split(',') and the comma join of Array.prototype.toString

  /** `s.split(d)` with a one-character separator: always at least one piece. */
  function Split(s: string, d: char): (parts: seq<string>)
    ensures |parts| >= 1
    decreases |s|
  {
    var i := IndexOf(s, d);
    if i < 0 then [s] else [s[..i]] + Split(s[i + 1..], d)
  }

  /** No piece of a split contains the separator. */
  lemma {:induction false} SplitPiecesFree(s: string, d: char)
    ensures forall k :: 0 <= k < |Split(s, d)| ==> d !in Split(s, d)[k]
    decreases |s|
  {
    var i := IndexOf(s, d);
    if i >= 0 {
      SplitPiecesFree(s[i + 1..], d);
    }
  }

  /** `parts.join(d)`; with `d == ','` it is how a JavaScript array prints. */
  function Join(parts: seq<string>, d: char): string
    decreases |parts|
  {
    if |parts| == 0 then []
    else if |parts| == 1 then parts[0]
    else parts[0] + [d] + Join(parts[1..], d)
  }

  /** Joining the pieces of a split gives back the original string. */
  lemma {:induction false} JoinSplit(s: string, d: char)
    ensures Join(Split(s, d), d) == s
    decreases |s|
  {
    var i := IndexOf(s, d);
    if i >= 0 {
      var head, tail := s[..i], s[i + 1..];
      JoinSplit(tail, d);
      JoinCons(head, Split(tail, d), d);
      CutAt(s, i);
    }
  }

  /** A string is what comes before position `i`, the character there, and what follows. */
  lemma CutAt(s: string, i: nat)
    requires i < |s|
    ensures s == s[..i] + [s[i]] + s[i + 1..]
  {
  }

  /** Joining a piece in front of at least one other adds one separator. */
  lemma JoinCons(head: string, rest: seq<string>, d: char)
    requires |rest| >= 1
    ensures Join([head] + rest, d) == head + [d] + Join(rest, d)
  {
    var parts := [head] + rest;
    assert parts[0] == head && parts[1..] == rest;
  }

  /** Splitting a join of separator-free pieces gives back the pieces. */
  lemma {:induction false} SplitJoin(parts: seq<string>, d: char)
    requires |parts| >= 1
    requires forall k :: 0 <= k < |parts| ==> d !in parts[k]
    ensures Split(Join(parts, d), d) == parts
  {
    if |parts| > 1 {
      var tail := Join(parts[1..], d);
      IndexOfAfter(parts[0], d, tail);
      var s := parts[0] + [d] + tail;
      assert s[..|parts[0]|] == parts[0];
      assert s[|parts[0]| + 1..] == tail;
      SplitJoin(parts[1..], d);
    }
  }

  // ---------------------------------------------------------------------
  // /[a-zA-Z]/.test(s)

  predicate IsAsciiLetter(c: char)
  {
    ('a' <= c <= 'z') || ('A' <= c <= 'Z')
  }

  /** `/[a-zA-Z]/.test(s)`: some character is an ASCII letter. */
  function HasAsciiLetter(s: string): (b: bool)
    ensures b <==> exists i :: 0 <= i < |s| && IsAsciiLetter(s[i])
    decreases |s|
  {
    if s == [] then false
    else
      assert forall i :: 1 <= i < |s| ==> s[i] == s[1..][i - 1];
      IsAsciiLetter(s[0]) || HasAsciiLetter(s[1..])
  }

  // ---------------------------------------------------------------------
  // padStart

  /** `s.padStart(n, c)`: `c` repeated in front until the length reaches `n`. */
  function PadStart(s: string, n: nat, c: char): (r: string)
    ensures |r| == if |s| >= n then |s| else n
  {
    if |s| >= n then s else seq(n - |s|, _ => c) + s
  }

  /** Padding keeps `s` at the end and puts only `c` in front of it. */
  lemma PadStartKeeps(s: string, n: nat, c: char)
    ensures var r := PadStart(s, n, c);
            && r[|r| - |s|..] == s
            && forall i :: 0 <= i < |r| - |s| ==> r[i] == c
  {
  }

  // ---------------------------------------------------------------------
  // replace(/\r?\n/g, "<br />")

  const LineBreakTag: string := "<br />"

  /** Every line feed, together with a carriage return right before it, becomes `<br />`. */
  function HtmlLineBreaks(s: string): (r: string)
    ensures '\n' !in r
    decreases |s|
  {
    if s == [] then []
    else if |s| >= 2 && s[0] == '\r' && s[1] == '\n' then LineBreakTag + HtmlLineBreaks(s[2..])
    else if s[0] == '\n' then LineBreakTag + HtmlLineBreaks(s[1..])
    else [s[0]] + HtmlLineBreaks(s[1..])
  }

  /** A line without its carriage return at the end, if it has one. */
  function StripCarriageReturn(line: string): string
  {
    if line != [] && line[|line| - 1] == '\r' then line[..|line| - 1] else line
  }

  /** Text without a line feed passes through unchanged. */
  lemma {:induction false} HtmlLineBreaksNoLineFeed(s: string)
    requires '\n' !in s
    ensures HtmlLineBreaks(s) == s
  {
    if s != [] {
      assert '\n' !in s[1..] by {
        assert forall i :: 0 <= i < |s| - 1 ==> s[1..][i] == s[i + 1];
      }
      HtmlLineBreaksNoLineFeed(s[1..]);
    }
  }

  /** The first line (its trailing carriage return dropped) is followed by one
      `<br />` and the conversion of the rest. */
  lemma {:induction false} HtmlLineBreaksFirstLine(line: string, rest: string)
    requires '\n' !in line
    ensures HtmlLineBreaks(line + "\n" + rest) == StripCarriageReturn(line) + LineBreakTag + HtmlLineBreaks(rest)
  {
    var s := line + "\n" + rest;
    if line == [] {
      assert s[0] == '\n' && s[1..] == rest;
    } else if line == "\r" {
      assert s[0] == '\r' && s[1] == '\n' && s[2..] == rest;
    } else {
      var tail := line[1..];
      assert s[0] == line[0] && s[1..] == tail + "\n" + rest;
      assert s[0] != '\n';
      assert |line| > 1 ==> s[1] == line[1];
      assert HtmlLineBreaks(s) == [line[0]] + HtmlLineBreaks(tail + "\n" + rest);
      assert '\n' !in tail by {
        assert forall i :: 0 <= i < |tail| ==> tail[i] == line[i + 1];
      }
      HtmlLineBreaksFirstLine(tail, rest);
      StripCarriageReturnCons(line);
      var x := StripCarriageReturn(tail);
      assert [line[0]] + (x + LineBreakTag + HtmlLineBreaks(rest)) == [line[0]] + x + LineBreakTag + HtmlLineBreaks(rest);
    }
  }

  /** Dropping a trailing carriage return only touches the end of a line. */
  lemma StripCarriageReturnCons(line: string)
    requires line != [] && line != "\r"
    ensures StripCarriageReturn(line) == [line[0]] + StripCarriageReturn(line[1..])
  {
    if |line| > 1 && line[|line| - 1] == '\r' {
      assert line[..|line| - 1] == [line[0]] + line[1..][..|line| - 2];
    }
  }
}
