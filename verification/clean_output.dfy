/** `AiService.cleanOutput`: the post-processing applied to every text the
    generator returns. Each of its regular-expression replacements is written as
    the left-to-right scan that a global JavaScript replace performs: the
    leftmost match is replaced and the scan resumes after it. */
module OutputCleaning {
  import opened Values

  /** The line terminators of ECMAScript regular expressions: `.` does not match
      them, and in multiline mode `^` matches after them and `$` before them. */
  predicate IsLineTerminator(c: char)
  {
    c == '\n' || c == '\r' || c == '\U{2028}' || c == '\U{2029}'
  }

  /** What `String.prototype.trim` removes: ECMAScript WhiteSpace (tab, vertical
      tab, form feed, space, no-break space, byte order mark and the other
      space separators of Unicode) and the line terminators. */
  predicate IsWhiteSpace(c: char)
  {
    || c == '\t' || c == '\U{000B}' || c == '\U{000C}' || c == ' ' || c == '\U{00A0}' || c == '\U{FEFF}'
    || c == '\U{1680}' || ('\U{2000}' <= c <= '\U{200A}') || c == '\U{202F}' || c == '\U{205F}' || c == '\U{3000}'
    || IsLineTerminator(c)
  }

  predicate IsAsciiLetter(c: char)
  {
    'a' <= c <= 'z' || 'A' <= c <= 'Z'
  }

  /** A marker the comment scan may be run with: one or two characters, none a line terminator. */
  predicate IsMarker(m: string)
  {
    1 <= |m| <= 2 && forall k :: 0 <= k < |m| ==> !IsLineTerminator(m[k])
  }

  /** `w` occurs nowhere in `t`. */
  ghost predicate Free(t: string, w: string)
  {
    forall i :: !HasAt(t, i, w)
  }

  /** Every occurrence of `w` in `t` comes right after a `:`. */
  ghost predicate Guarded(t: string, w: string)
  {
    forall i :: HasAt(t, i, w) ==> i > 0 && t[i - 1] == ':'
  }

  // ---------------------------------------------------------------------------
  // Step 1: /```[a-zA-Z]*\n?/g replaced by ''

  /** The number of ASCII letters `s` starts with. */
  function LetterRun(s: string): (n: nat)
    ensures n <= |s|
    ensures forall k :: 0 <= k < n ==> IsAsciiLetter(s[k])
    ensures n == |s| || !IsAsciiLetter(s[n])
  {
    if s != [] && IsAsciiLetter(s[0]) then 1 + LetterRun(s[1..]) else 0
  }

  /** The length of the fence match at the start of `s`: the three backticks,
      every letter after them (the quantifier is greedy) and one newline if one follows. */
  function FenceLength(s: string): (n: nat)
    requires HasAt(s, 0, "```")
    ensures 3 <= n <= |s|
  {
    var j := 3 + LetterRun(s[3..]);
    if j < |s| && s[j] == '\n' then j + 1 else j
  }

  function StripFences(s: string): (r: string)
    ensures |r| <= |s|
  {
    if s == [] then []
    else if HasAt(s, 0, "```") then StripFences(s[FenceLength(s)..])
    else [s[0]] + StripFences(s[1..])
  }

  // ---------------------------------------------------------------------------
  // Step 2: /```/g replaced by ''

  function StripTicks(s: string): (r: string)
    ensures |r| <= |s|
  {
    if s == [] then []
    else if HasAt(s, 0, "```") then StripTicks(s[3..])
    else [s[0]] + StripTicks(s[1..])
  }

  // ---------------------------------------------------------------------------
  // Steps 3 and 4: /(^|[^:])\/\/.*$/gm and /(^|[^:])#.*$/gm replaced by '$1'

  /** The index of the first line terminator at or after `i`, or `|s|`. */
  function LineEnd(s: string, i: nat): (j: nat)
    requires i <= |s|
    ensures i <= j <= |s|
    ensures j == |s| || IsLineTerminator(s[j])
    decreases |s| - i
  {
    if i == |s| || IsLineTerminator(s[i]) then i else LineEnd(s, i + 1)
  }

  /** The scan of `s` with marker `m`; `lineStart` says whether `^` matches at the
      start of `s` (start of input, or just after a line terminator). A match at
      a line start deletes the marker and the rest of the line; a match after a
      character other than `:` keeps that character and deletes the rest. */
  function StripComments(s: string, m: string, lineStart: bool): (r: string)
    requires IsMarker(m)
    ensures |r| <= |s|
  {
    if s == [] then []
    else if lineStart && HasAt(s, 0, m) then
      StripComments(s[LineEnd(s, |m|)..], m, false)
    else if s[0] != ':' && HasAt(s, 1, m) then
      [s[0]] + StripComments(s[LineEnd(s, 1 + |m|)..], m, false)
    else
      [s[0]] + StripComments(s[1..], m, IsLineTerminator(s[0]))
  }

  // ---------------------------------------------------------------------------
  // Step 5: trim

  /** The number of white space characters `s` starts with. */
  function LeadingSpace(s: string): (n: nat)
    ensures n <= |s|
  {
    if s != [] && IsWhiteSpace(s[0]) then 1 + LeadingSpace(s[1..]) else 0
  }

  /** The number of white space characters `s` ends with. */
  function TrailingSpace(s: string): (n: nat)
    ensures n <= |s|
  {
    if s != [] && IsWhiteSpace(s[|s| - 1]) then 1 + TrailingSpace(s[..|s| - 1]) else 0
  }

  function Trim(s: string): (r: string)
    ensures |r| <= |s|
  {
    var rest := s[LeadingSpace(s)..];
    rest[..|rest| - TrailingSpace(rest)]
  }

  // ---------------------------------------------------------------------------
  // The whole transform

  function CleanOutput(code: string): (r: string)
    ensures |r| <= |code|
  {
    var unfenced := StripTicks(StripFences(code));
    var noSlashComments := StripComments(unfenced, "//", true);
    var noHashComments := StripComments(noSlashComments, "#", true);
    Trim(noHashComments)
  }

  // ---------------------------------------------------------------------------
  // Trim

  lemma {:induction false} LeadingSpaceSpec(s: string)
    ensures forall k :: 0 <= k < LeadingSpace(s) ==> IsWhiteSpace(s[k])
    ensures LeadingSpace(s) == |s| || !IsWhiteSpace(s[LeadingSpace(s)])
  {
    if s != [] && IsWhiteSpace(s[0]) {
      LeadingSpaceSpec(s[1..]);
    }
  }

  lemma {:induction false} TrailingSpaceSpec(s: string)
    ensures forall k :: |s| - TrailingSpace(s) <= k < |s| ==> IsWhiteSpace(s[k])
    ensures TrailingSpace(s) == |s| || !IsWhiteSpace(s[|s| - TrailingSpace(s) - 1])
  {
    if s != [] && IsWhiteSpace(s[|s| - 1]) {
      TrailingSpaceSpec(s[..|s| - 1]);
    }
  }

  /** `Trim(s)` is the part of `s` that starts at offset `LeadingSpace(s)`, with
      nothing but white space around it; it is empty exactly when `s` is all white
      space, and otherwise starts and ends with something else. */
  lemma TrimSpec(s: string)
    ensures LeadingSpace(s) + |Trim(s)| <= |s|
    ensures Trim(s) == s[LeadingSpace(s)..LeadingSpace(s) + |Trim(s)|]
    ensures forall k :: 0 <= k < LeadingSpace(s) ==> IsWhiteSpace(s[k])
    ensures forall k :: LeadingSpace(s) + |Trim(s)| <= k < |s| ==> IsWhiteSpace(s[k])
    ensures Trim(s) == [] <==> forall k :: 0 <= k < |s| ==> IsWhiteSpace(s[k])
    ensures Trim(s) != [] ==> !IsWhiteSpace(Trim(s)[0]) && !IsWhiteSpace(Trim(s)[|Trim(s)| - 1])
  {
    var a := LeadingSpace(s);
    var rest := s[a..];
    LeadingSpaceSpec(s);
    TrailingSpaceSpec(rest);
  }

  /** The result never starts or ends with white space. */
  lemma CleanOutputTrimmed(code: string)
    ensures CleanOutput(code) != [] ==> !IsWhiteSpace(CleanOutput(code)[0]) && !IsWhiteSpace(CleanOutput(code)[|CleanOutput(code)| - 1])
  {
    var noSlash := StripComments(StripTicks(StripFences(code)), "//", true);
    TrimSpec(StripComments(noSlash, "#", true));
  }

  // ---------------------------------------------------------------------------
  // Properties of the steps

  lemma HasAtCons(c: char, t: string, i: int, w: string)
    requires i >= 0
    ensures HasAt([c] + t, i + 1, w) <==> HasAt(t, i, w)
  {
    if i + |w| <= |t| {
      assert ([c] + t)[i + 1..i + 1 + |w|] == t[i..i + |w|];
    }
  }

  lemma HasAtDrop(s: string, e: nat, i: int, w: string)
    requires e <= |s| && i >= 0
    ensures HasAt(s[e..], i, w) <==> HasAt(s, e + i, w)
  {
    if e + i + |w| <= |s| {
      assert s[e..][i..i + |w|] == s[e + i..e + i + |w|];
    }
  }

  lemma TicksAt(s: string, i: int)
    ensures HasAt(s, i, "```") <==> 0 <= i && i + 3 <= |s| && s[i] == '`' && s[i + 1] == '`' && s[i + 2] == '`'
  {
    if 0 <= i && i + 3 <= |s| && s[i] == '`' && s[i + 1] == '`' && s[i + 2] == '`' {
      assert s[i..i + 3] == "```";
    }
  }

  function LeadingTicks(s: string): (n: nat)
    ensures n <= |s|
  {
    if s != [] && s[0] == '`' then 1 + LeadingTicks(s[1..]) else 0
  }

  lemma ThreeLeadingTicks(t: string)
    ensures HasAt(t, 0, "```") <==> LeadingTicks(t) >= 3
    ensures HasAt(t, 0, "```") ==> LeadingTicks(t) == 3 + LeadingTicks(t[3..])
  {
    TicksAt(t, 0);
    if t != [] && t[0] == '`' {
      var t1 := t[1..];
      assert LeadingTicks(t) == 1 + LeadingTicks(t1);
      if t1 != [] && t1[0] == '`' {
        var t2 := t1[1..];
        assert t1[0] == t[1] && LeadingTicks(t1) == 1 + LeadingTicks(t2);
        if t2 != [] && t2[0] == '`' {
          assert t2[0] == t[2] && LeadingTicks(t2) == 1 + LeadingTicks(t2[1..]);
          assert t2[1..] == t[3..];
        }
      }
    }
  }

  lemma LeadingTicksCons(c: char, t: string)
    ensures LeadingTicks([c] + t) == if c == '`' then 1 + LeadingTicks(t) else 0
  {
    var u := [c] + t;
    assert u[0] == c && u[1..] == t;
  }

  /** A kept first backtick: the run of leading backticks was below three and
      stays as long. */
  lemma KeptTickTicks(s: string)
    requires s != [] && s[0] == '`' && !HasAt(s, 0, "```")
    requires LeadingTicks(StripTicks(s[1..])) == LeadingTicks(s[1..]) % 3
    ensures LeadingTicks(StripTicks(s)) == LeadingTicks(s)
  {
    var n1 := LeadingTicks(s[1..]);
    assert LeadingTicks(s) == 1 + n1 < 3 by { ThreeLeadingTicks(s); }
    assert LeadingTicks(StripTicks(s[1..])) == n1 by { assert n1 % 3 == n1; }
    StripTicksKeeps(s);
    LeadingTicksCons(s[0], StripTicks(s[1..]));
  }

  /** A first character that starts no fence is kept. */
  lemma StripTicksKeeps(s: string)
    requires s != [] && !HasAt(s, 0, "```")
    ensures StripTicks(s) == [s[0]] + StripTicks(s[1..])
  {
  }

  /** Keeping a first character that starts no fence keeps the run of leading
      backticks below three. */
  lemma KeptCharTicks(s: string)
    requires s != [] && !HasAt(s, 0, "```")
    requires LeadingTicks(StripTicks(s[1..])) == LeadingTicks(s[1..]) % 3
    ensures LeadingTicks(StripTicks(s)) == LeadingTicks(s) % 3
  {
    StripTicksKeeps(s);
    LeadingTicksCons(s[0], StripTicks(s[1..]));
    if s[0] == '`' {
      KeptTickTicks(s);
      var n := LeadingTicks(s);
      assert n < 3 by { ThreeLeadingTicks(s); }
      assert n % 3 == n;
    }
  }

  /** ... and so no fence starts anywhere in the result. */
  lemma KeptCharFree(s: string)
    requires s != [] && !HasAt(s, 0, "```")
    requires Free(StripTicks(s[1..]), "```")
    requires LeadingTicks(StripTicks(s)) < 3
    ensures Free(StripTicks(s), "```")
  {
    var rest := StripTicks(s[1..]);
    var r := StripTicks(s);
    assert r == [s[0]] + rest;
    ThreeLeadingTicks(r);
    forall i
      ensures !HasAt(r, i, "```")
    {
      if i >= 1 {
        HasAtCons(s[0], rest, i - 1, "```");
      }
    }
  }

  /** After step 2 no three backticks are left: a run of k backticks keeps k mod 3. */
  lemma {:induction false} StripTicksLeavesNoFence(s: string)
    ensures LeadingTicks(StripTicks(s)) == LeadingTicks(s) % 3
    ensures Free(StripTicks(s), "```")
  {
    ThreeLeadingTicks(s);
    if s == [] {
    } else if HasAt(s, 0, "```") {
      StripTicksLeavesNoFence(s[3..]);
    } else {
      StripTicksLeavesNoFence(s[1..]);
      KeptCharTicks(s);
      KeptCharFree(s);
    }
  }

  lemma FreeDrop(s: string, e: nat, w: string)
    requires e <= |s| && Free(s, w)
    ensures Free(s[e..], w)
  {
    forall i ensures !HasAt(s[e..], i, w) {
      if i >= 0 {
        HasAtDrop(s, e, i, w);
      }
    }
  }

  lemma FreeCons(c: char, rest: string, w: string)
    requires Free(rest, w) && !HasAt([c] + rest, 0, w)
    ensures Free([c] + rest, w)
  {
    forall i ensures !HasAt([c] + rest, i, w) {
      if i >= 1 {
        HasAtCons(c, rest, i - 1, w);
      }
    }
  }

  /** A text without a marker occurrence passes the comment scan unchanged. */
  lemma {:induction false} StripCommentsIdentity(s: string, m: string, lineStart: bool)
    requires IsMarker(m) && Free(s, m)
    ensures StripComments(s, m, lineStart) == s
  {
    if s != [] {
      assert !HasAt(s, 0, m) && !HasAt(s, 1, m);
      FreeDrop(s, 1, m);
      StripCommentsIdentity(s[1..], m, IsLineTerminator(s[0]));
      assert [s[0]] + s[1..] == s;
    }
  }

  lemma {:induction false} StripFencesIdentity(s: string)
    requires Free(s, "```")
    ensures StripFences(s) == s
  {
    if s != [] {
      assert !HasAt(s, 0, "```");
      FreeDrop(s, 1, "```");
      StripFencesIdentity(s[1..]);
      assert [s[0]] + s[1..] == s;
    }
  }

  lemma {:induction false} StripTicksIdentity(s: string)
    requires Free(s, "```")
    ensures StripTicks(s) == s
  {
    if s != [] {
      assert !HasAt(s, 0, "```");
      FreeDrop(s, 1, "```");
      StripTicksIdentity(s[1..]);
      assert [s[0]] + s[1..] == s;
    }
  }

  /** The output of the scan from a line terminator (or of nothing) starts with one. */
  lemma StripCommentsStartsLine(t: string, m: string, lineStart: bool)
    requires IsMarker(m)
    requires t == [] || IsLineTerminator(t[0])
    ensures StripComments(t, m, lineStart) == [] || IsLineTerminator(StripComments(t, m, lineStart)[0])
    ensures !HasAt(t, 0, m)
  {
  }

  /** The comment scan deletes only up to a line terminator, which it keeps: any
      text without line terminators that the output starts with, `s` starts with too. */
  lemma {:induction false} StripCommentsPrefix(s: string, m: string, lineStart: bool, u: string)
    requires IsMarker(m)
    requires forall k :: 0 <= k < |u| ==> !IsLineTerminator(u[k])
    ensures HasAt(StripComments(s, m, lineStart), 0, u) ==> HasAt(s, 0, u)
  {
    var r := StripComments(s, m, lineStart);
    if u == [] {
      assert s[..0] == u;
    } else if s == [] {
    } else if lineStart && HasAt(s, 0, m) {
      StripCommentsStartsLine(s[LineEnd(s, |m|)..], m, false);
      assert r != [] ==> r[0] != u[0];
    } else if s[0] != ':' && HasAt(s, 1, m) {
      var rest := StripComments(s[LineEnd(s, 1 + |m|)..], m, false);
      StripCommentsStartsLine(s[LineEnd(s, 1 + |m|)..], m, false);
      assert r == [s[0]] + rest;
      if |u| == 1 {
        assert HasAt(r, 0, u) ==> s[..1] == u;
      } else {
        assert |r| > 1 ==> r[1] != u[1];
      }
    } else {
      var rest := StripComments(s[1..], m, IsLineTerminator(s[0]));
      StripCommentsPrefix(s[1..], m, IsLineTerminator(s[0]), u[1..]);
      assert r == [s[0]] + rest;
      if HasAt(r, 0, u) {
        assert rest[..|u| - 1] == r[1..|u|] == u[1..];
        assert s[..|u|] == [s[0]] + s[1..][..|u| - 1];
      }
    }
  }

  /** Every occurrence of `w` in `r` comes right after a `:`, except one at the
      very start, which `head` allows. */
  ghost predicate GuardedFrom(r: string, w: string, head: bool)
  {
    forall i :: HasAt(r, i, w) ==> (i > 0 && r[i - 1] == ':') || (i == 0 && head)
  }

  lemma GuardedCons(c: char, rest: string, w: string, restHead: bool, head: bool)
    requires GuardedFrom(rest, w, restHead)
    requires restHead && HasAt(rest, 0, w) ==> c == ':'
    requires HasAt([c] + rest, 0, w) ==> head
    ensures GuardedFrom([c] + rest, w, head)
  {
    forall i | HasAt([c] + rest, i, w)
      ensures (i > 0 && ([c] + rest)[i - 1] == ':') || (i == 0 && head)
    {
      if i > 0 {
        HasAtCons(c, rest, i - 1, w);
      }
    }
  }

  lemma GuardedFromDrop(s: string, e: nat, w: string)
    requires e <= |s| && GuardedFrom(s, w, true)
    ensures GuardedFrom(s[e..], w, true)
  {
    forall i | HasAt(s[e..], i, w)
      ensures (i > 0 && s[e..][i - 1] == ':') || i == 0
    {
      HasAtDrop(s, e, i, w);
    }
  }

  /** Steps 3 and 4 leave every occurrence of their own marker right after a `:`;
      one at the very start is one the scan met, without a match, off a line start. */
  lemma {:induction false} StripCommentsGuards(s: string, m: string, lineStart: bool)
    requires IsMarker(m)
    ensures GuardedFrom(StripComments(s, m, lineStart), m, !lineStart && HasAt(s, 0, m))
  {
    var r := StripComments(s, m, lineStart);
    var head := !lineStart && HasAt(s, 0, m);
    if s == [] {
    } else if lineStart && HasAt(s, 0, m) {
      var e := LineEnd(s, |m|);
      StripCommentsGuards(s[e..], m, false);
      StripCommentsStartsLine(s[e..], m, false);
    } else if s[0] != ':' && HasAt(s, 1, m) {
      var e := LineEnd(s, 1 + |m|);
      var rest := StripComments(s[e..], m, false);
      StripCommentsGuards(s[e..], m, false);
      StripCommentsStartsLine(s[e..], m, false);
      StripCommentsPrefix(s, m, lineStart, m);
      GuardedCons(s[0], rest, m, false, head);
    } else {
      var ls := IsLineTerminator(s[0]);
      var rest := StripComments(s[1..], m, ls);
      StripCommentsGuards(s[1..], m, ls);
      StripCommentsPrefix(s, m, lineStart, m);
      HasAtDrop(s, 1, 0, m);
      GuardedCons(s[0], rest, m, !ls && HasAt(s[1..], 0, m), head);
    }
  }

  /** The comment scan keeps every occurrence of another text without line
      terminators right after a `:`, if `s` had it so. */
  lemma {:induction false} StripCommentsKeepsGuard(s: string, m: string, lineStart: bool, w: string)
    requires IsMarker(m) && IsMarker(w)
    requires GuardedFrom(s, w, true)
    ensures GuardedFrom(StripComments(s, m, lineStart), w, HasAt(s, 0, w))
  {
    var r := StripComments(s, m, lineStart);
    if s == [] {
    } else if lineStart && HasAt(s, 0, m) {
      var e := LineEnd(s, |m|);
      GuardedFromDrop(s, e, w);
      StripCommentsKeepsGuard(s[e..], m, false, w);
      StripCommentsStartsLine(s[e..], w, false);
    } else if s[0] != ':' && HasAt(s, 1, m) {
      var e := LineEnd(s, 1 + |m|);
      var rest := StripComments(s[e..], m, false);
      GuardedFromDrop(s, e, w);
      StripCommentsKeepsGuard(s[e..], m, false, w);
      StripCommentsStartsLine(s[e..], w, false);
      StripCommentsPrefix(s, m, lineStart, w);
      GuardedCons(s[0], rest, w, false, HasAt(s, 0, w));
    } else {
      var ls := IsLineTerminator(s[0]);
      var rest := StripComments(s[1..], m, ls);
      GuardedFromDrop(s, 1, w);
      StripCommentsKeepsGuard(s[1..], m, ls, w);
      StripCommentsPrefix(s, m, lineStart, w);
      HasAtDrop(s, 1, 0, w);
      GuardedCons(s[0], rest, w, HasAt(s[1..], 0, w), HasAt(s, 0, w));
    }
  }

  /** The comment scan creates no occurrence of a text without line terminators. */
  lemma {:induction false} StripCommentsKeepsFree(s: string, m: string, lineStart: bool, w: string)
    requires IsMarker(m)
    requires forall k :: 0 <= k < |w| ==> !IsLineTerminator(w[k])
    requires Free(s, w)
    ensures Free(StripComments(s, m, lineStart), w)
  {
    if s == [] {
    } else if lineStart && HasAt(s, 0, m) {
      var e := LineEnd(s, |m|);
      FreeDrop(s, e, w);
      StripCommentsKeepsFree(s[e..], m, false, w);
    } else {
      var split := s[0] != ':' && HasAt(s, 1, m);
      var e := if split then LineEnd(s, 1 + |m|) else 1;
      var ls := if split then false else IsLineTerminator(s[0]);
      FreeDrop(s, e, w);
      StripCommentsKeepsFree(s[e..], m, ls, w);
      StripCommentsPrefix(s, m, lineStart, w);
      FreeCons(s[0], StripComments(s[e..], m, ls), w);
    }
  }

  lemma HasAtSlice(s: string, a: nat, b: nat, i: nat, w: string)
    requires a <= b <= |s| && i + |w| <= b - a
    ensures HasAt(s[a..b], i, w) <==> HasAt(s, a + i, w)
  {
    var x, y := s[a..b][i..i + |w|], s[a + i..a + i + |w|];
    assert |x| == |y| && forall k :: 0 <= k < |x| ==> x[k] == y[k];
  }

  lemma TrimKeepsGuard(s: string, w: string)
    requires Guarded(s, w)
    ensures Guarded(Trim(s), w)
  {
    var r, a := Trim(s), LeadingSpace(s);
    TrimSpec(s);
    forall i | HasAt(r, i, w)
      ensures i > 0 && r[i - 1] == ':'
    {
      HasAtSlice(s, a, a + |r|, i, w);
      assert !IsWhiteSpace(s[a + i - 1]);
    }
  }

  lemma TrimKeepsFree(s: string, w: string)
    requires Free(s, w)
    ensures Free(Trim(s), w)
  {
    var r, a := Trim(s), LeadingSpace(s);
    TrimSpec(s);
    forall i ensures !HasAt(r, i, w) {
      if 0 <= i && i + |w| <= |r| {
        HasAtSlice(s, a, a + |r|, i, w);
      }
    }
  }

  // ---------------------------------------------------------------------------
  // Properties of the whole transform

  /** No code fence survives, every `//` left is part of a `://` (a URL scheme),
      and so is every `#`. */
  lemma CleanOutputProperties(code: string)
    ensures Free(CleanOutput(code), "```")
    ensures Guarded(CleanOutput(code), "//")
    ensures Guarded(CleanOutput(code), "#")
  {
    var unfenced := StripTicks(StripFences(code));
    var noSlash := StripComments(unfenced, "//", true);
    var noHash := StripComments(noSlash, "#", true);
    StripTicksLeavesNoFence(StripFences(code));
    StripCommentsKeepsFree(unfenced, "//", true, "```");
    StripCommentsKeepsFree(noSlash, "#", true, "```");
    TrimKeepsFree(noHash, "```");
    StripCommentsGuards(unfenced, "//", true);
    StripCommentsKeepsGuard(noSlash, "#", true, "//");
    TrimKeepsGuard(noHash, "//");
    StripCommentsGuards(noSlash, "#", true);
    TrimKeepsGuard(noHash, "#");
  }

  /** A text with no fence, no `//`, no `#` and no surrounding white space is returned as it is. */
  lemma CleanOutputIdentity(code: string)
    requires Free(code, "```") && Free(code, "//") && Free(code, "#")
    requires code != [] ==> !IsWhiteSpace(code[0]) && !IsWhiteSpace(code[|code| - 1])
    ensures CleanOutput(code) == code
  {
    StripFencesIdentity(code);
    StripTicksIdentity(code);
    StripCommentsIdentity(code, "//", true);
    StripCommentsIdentity(code, "#", true);
  }

  lemma FreeOfFirstChar(s: string, w: string)
    requires w != [] && forall k :: 0 <= k < |s| ==> s[k] != w[0]
    ensures Free(s, w)
  {
    forall i ensures !HasAt(s, i, w) {
      if 0 <= i && i + |w| <= |s| {
        assert s[i..i + |w|][0] == s[i];
      }
    }
  }

  lemma FreeOfPair(s: string, w: string)
    requires |w| == 2 && forall k :: 0 <= k < |s| - 1 ==> !(s[k] == w[0] && s[k + 1] == w[1])
    ensures Free(s, w)
  {
    forall i ensures !HasAt(s, i, w) {
      if 0 <= i && i + 2 <= |s| {
        assert s[i..i + 2][0] == s[i] && s[i..i + 2][1] == s[i + 1];
      }
    }
  }

  lemma ConcatAssoc(a: string, b: string, c: string)
    ensures a + (b + c) == a + b + c
  {
  }

  lemma ConcatTail(p: string, t: string)
    requires p != []
    ensures (p + t)[0] == p[0] && (p + t)[1..] == p[1..] + t
    ensures [p[0]] + (p[1..] + t) == p + t
  {
    assert [p[0]] + p[1..] == p;
    ConcatAssoc([p[0]], p[1..], t);
  }

  lemma {:induction false} LetterRunAt(s: string, i: nat, j: nat)
    requires i <= j <= |s|
    requires forall k :: i <= k < j ==> IsAsciiLetter(s[k])
    requires j == |s| || !IsAsciiLetter(s[j])
    ensures LetterRun(s[i..]) == j - i
    decreases j - i
  {
    if i < j {
      assert s[i..][1..] == s[i + 1..];
      LetterRunAt(s, i + 1, j);
    }
  }

  /** A prefix without backticks passes step 1 unchanged. */
  lemma {:induction false} StripFencesPlain(p: string, t: string)
    requires forall k :: 0 <= k < |p| ==> p[k] != '`'
    ensures StripFences(p + t) == p + StripFences(t)
  {
    if p == [] {
      assert p + t == t;
    } else {
      var s := p + t;
      ConcatTail(p, t);
      assert !HasAt(s, 0, "```") by {
        TicksAt(s, 0);
      }
      StripFencesPlain(p[1..], t);
      ConcatTail(p, StripFences(t));
    }
  }

  /** A prefix without line terminators passes the comment scan unchanged when
      every marker occurrence that starts inside it or right after it follows a `:`,
      and none stands at a line start. */
  lemma {:induction false} StripCommentsPlain(p: string, t: string, m: string, lineStart: bool)
    requires IsMarker(m)
    requires forall k :: 0 <= k < |p| ==> !IsLineTerminator(p[k])
    requires forall k :: 0 <= k < |p| && HasAt(p + t, k + 1, m) ==> p[k] == ':'
    requires p != [] && lineStart ==> !HasAt(p + t, 0, m)
    ensures StripComments(p + t, m, lineStart) == p + StripComments(t, m, lineStart && p == [])
  {
    if p == [] {
      assert p + t == t;
    } else {
      var s := p + t;
      ConcatTail(p, t);
      assert HasAt(s, 1, m) ==> p[0] == ':';
      forall k | 0 <= k < |p[1..]| && HasAt(p[1..] + t, k + 1, m)
        ensures p[1..][k] == ':'
      {
        HasAtDrop(s, 1, k + 1, m);
      }
      if |p| > 1 {
        HasAtDrop(s, 1, 0, m);
      }
      StripCommentsPlain(p[1..], t, m, false);
      ConcatTail(p, StripComments(t, m, false));
    }
  }

  /** A comment after a character other than `:` goes up to the end of its line;
      the character stays. */
  lemma StripCommentsCut(c: char, comment: string, t: string, m: string, lineStart: bool)
    requires IsMarker(m) && c != ':' && HasAt(comment, 0, m)
    requires !lineStart || c != m[0]
    requires forall k :: 0 <= k < |comment| ==> !IsLineTerminator(comment[k])
    requires t == [] || IsLineTerminator(t[0])
    ensures StripComments([c] + comment + t, m, lineStart) == [c] + StripComments(t, m, false)
  {
    var s := [c] + comment + t;
    assert s[1..] == comment + t;
    HasAtDrop(s, 1, 0, m);
    assert comment + t == s[1..];
    assert (comment + t)[..|m|] == comment[..|m|];
    assert LineEnd(s, 1 + |m|) == 1 + |comment| by {
      LineEndSkips(s, 1 + |m|, 1 + |comment|);
    }
    assert s[1 + |comment|..] == t;
    assert s[0] == c;
    if lineStart {
      assert !HasAt(s, 0, m);
    }
  }

  lemma {:induction false} LineEndSkips(s: string, i: nat, j: nat)
    requires i <= j <= |s|
    requires forall k :: i <= k < j ==> !IsLineTerminator(s[k])
    requires j == |s| || IsLineTerminator(s[j])
    ensures LineEnd(s, i) == j
    decreases j - i
  {
    if i < j {
      LineEndSkips(s, i + 1, j);
    }
  }

  lemma TrimExact(s: string, a: nat, b: nat)
    requires a < b <= |s|
    requires forall k :: 0 <= k < a ==> IsWhiteSpace(s[k])
    requires forall k :: b <= k < |s| ==> IsWhiteSpace(s[k])
    requires !IsWhiteSpace(s[a]) && !IsWhiteSpace(s[b - 1])
    ensures Trim(s) == s[a..b]
  {
    var r := Trim(s);
    TrimSpec(s);
    LeadingSpaceSpec(s);
    assert LeadingSpace(s) == a;
    assert r != [];
    assert !IsWhiteSpace(s[b - 1]) && a + |r| >= b;
    assert !IsWhiteSpace(s[a + |r| - 1]) && a + |r| <= b;
  }

  lemma CleanOutputSteps(code: string, unfenced: string, noSlash: string, noHash: string)
    requires StripTicks(StripFences(code)) == unfenced
    requires StripComments(unfenced, "//", true) == noSlash
    requires StripComments(noSlash, "#", true) == noHash
    ensures CleanOutput(code) == Trim(noHash)
  {
  }

  /** Text without a backtick passes steps 1 and 2 unchanged. */
  lemma NoBackticks(s: string)
    requires forall k :: 0 <= k < |s| ==> s[k] != '`'
    ensures StripTicks(StripFences(s)) == s
  {
    FreeOfFirstChar(s, "```");
    StripFencesIdentity(s);
    StripTicksIdentity(s);
  }

  /** Text without a `#` passes step 4 unchanged. */
  lemma NoHash(s: string)
    requires forall k :: 0 <= k < |s| ==> s[k] != '#'
    ensures StripComments(s, "#", true) == s
  {
    FreeOfFirstChar(s, "#");
    StripCommentsIdentity(s, "#", true);
  }

  /** A character none of the steps acts on by itself. */
  predicate IsPlain(c: char)
  {
    c != '`' && c != '/' && c != '#' && !IsLineTerminator(c)
  }

  /** A marker cannot start where its first character is not. */
  lemma NotAt(s: string, i: int, w: string)
    requires w != [] && (0 <= i < |s| ==> s[i] != w[0])
    ensures !HasAt(s, i, w)
  {
    if 0 <= i && i + |w| <= |s| {
      assert s[i..i + |w|][0] == s[i];
    }
  }

  lemma ClosingFence()
    ensures StripFences("```") == ""
  {
    TicksAt("```", 0);
    assert LetterRun("```"[3..]) == 0;
  }

  /** An opening fence with a language tag and a newline goes as one match. */
  lemma OpeningFence(lang: string, t: string)
    requires forall k :: 0 <= k < |lang| ==> IsAsciiLetter(lang[k])
    ensures StripFences("```" + lang + "\n" + t) == StripFences(t)
  {
    var head := "```" + lang + "\n";
    var s := head + t;
    TicksAt(s, 0);
    LetterRunAt(s, 3, 3 + |lang|);
    assert s[|head|..] == t;
  }

  lemma FencesAround(lang: string, body: string)
    requires forall k :: 0 <= k < |lang| ==> IsAsciiLetter(lang[k])
    requires forall k :: 0 <= k < |body| ==> body[k] != '`'
    ensures StripFences("```" + lang + "\n" + body + "\n```") == body + "\n"
  {
    var head := "```" + lang + "\n";
    var inner := body + "\n";
    ConcatAssoc(head, inner, "```");
    ConcatAssoc(head, body, "\n");
    ConcatAssoc(head + body, "\n", "```");
    assert "\n" + "```" == "\n```";
    OpeningFence(lang, inner + "```");
    StripFencesPlain(inner, "```");
    ClosingFence();
    assert inner + "" == inner;
  }

  /** A newline appended to a text creates no occurrence of a text without line terminators. */
  lemma FreeThenNewline(b: string, w: string)
    requires Free(b, w)
    requires forall k :: 0 <= k < |w| ==> !IsLineTerminator(w[k])
    ensures Free(b + "\n", w)
  {
    var s := b + "\n";
    assert HasAt(b, 0, w) ==> false;
    forall i ensures !HasAt(s, i, w) {
      if 0 <= i && i + |w| <= |s| {
        if i + |w| <= |b| {
          assert s[i..i + |w|] == b[i..i + |w|];
          assert !HasAt(b, i, w);
        } else {
          assert |w| > 0 && s[i..i + |w|][|w| - 1] == s[|b|] == '\n';
        }
      }
    }
  }

  /** A body without backticks, `//` or `#`, and its closing newline, pass steps 2 to 4 unchanged. */
  lemma BodyKept(body: string)
    requires forall k :: 0 <= k < |body| ==> body[k] != '`'
    requires Free(body, "//") && Free(body, "#")
    ensures var inner := body + "\n";
      StripComments(StripComments(StripTicks(inner), "//", true), "#", true) == inner
  {
    var inner := body + "\n";
    FreeOfFirstChar(inner, "```");
    StripTicksIdentity(inner);
    FreeThenNewline(body, "//");
    StripCommentsIdentity(inner, "//", true);
    FreeThenNewline(body, "#");
    StripCommentsIdentity(inner, "#", true);
  }

  /** A body without surrounding white space is what trimming it with its newline gives. */
  lemma LineTrimmed(body: string)
    requires body != [] && !IsWhiteSpace(body[0]) && !IsWhiteSpace(body[|body| - 1])
    ensures Trim(body + "\n") == body
  {
    var inner := body + "\n";
    TrimExact(inner, 0, |body|);
    assert inner[0..|body|] == body;
  }

  /** A fenced reply loses its fences, the language tag and the newline after the
      opening fence, and keeps its body, over as many lines as it spans, when the
      body holds no backtick, no `//`, no `#` and no surrounding white space:
      `"```xml\n<a/>\n<b/>\n```"` becomes `"<a/>\n<b/>"`. */
  lemma FencedReplyUnwrapped(lang: string, body: string)
    requires forall k :: 0 <= k < |lang| ==> IsAsciiLetter(lang[k])
    requires body != [] && !IsWhiteSpace(body[0]) && !IsWhiteSpace(body[|body| - 1])
    requires forall k :: 0 <= k < |body| ==> body[k] != '`'
    requires Free(body, "//") && Free(body, "#")
    ensures CleanOutput("```" + lang + "\n" + body + "\n```") == body
  {
    var s := "```" + lang + "\n" + body + "\n```";
    var inner := body + "\n";
    FencesAround(lang, body);
    BodyKept(body);
    CleanOutputSteps(s, StripTicks(inner), StripComments(StripTicks(inner), "//", true), inner);
    LineTrimmed(body);
  }

  /** Step 3 on a plain prefix, a space and a `//` comment: the comment goes up to
      the end of its line, the space stays. */
  lemma SlashCommentCut(p: string, note: string, next: string)
    requires p != [] && forall k :: 0 <= k < |p| ==> IsPlain(p[k])
    requires forall k :: 0 <= k < |note| ==> !IsLineTerminator(note[k])
    requires next == [] || IsLineTerminator(next[0])
    ensures StripComments(p + " //" + note + next, "//", true) == p + " " + StripComments(next, "//", false)
  {
    var t := " //" + note + next;
    PlainPrefixKept(p, t);
    SpacedComment(note, next);
    ConcatAssoc(p, " //" + note, next);
    ConcatAssoc(p, " //", note);
    ConcatAssoc(p, " ", StripComments(next, "//", false));
  }


  lemma PlainPrefixKept(p: string, t: string)
    requires p != [] && forall k :: 0 <= k < |p| ==> IsPlain(p[k])
    requires t != [] && t[0] != '/'
    ensures StripComments(p + t, "//", true) == p + StripComments(t, "//", false)
  {
    PlainPrefixUnguarded(p, t);
    StripCommentsPlain(p, t, "//", true);
  }

  lemma SpacedComment(note: string, next: string)
    requires forall k :: 0 <= k < |note| ==> !IsLineTerminator(note[k])
    requires next == [] || IsLineTerminator(next[0])
    ensures StripComments(" //" + note + next, "//", false) == " " + StripComments(next, "//", false)
  {
    var comment := "//" + note;
    assert comment[0..2] == "//";
    StripCommentsCut(' ', comment, next, "//", false);
    ConcatAssoc([' '], "//", note);
    assert [' '] + "//" == " //";
  }

  /** No `//` starts inside a plain prefix or right after it when no `/` follows it. */
  lemma PlainPrefixUnguarded(p: string, t: string)
    requires p != [] && forall k :: 0 <= k < |p| ==> IsPlain(p[k])
    requires t != [] && t[0] != '/'
    ensures !HasAt(p + t, 0, "//")
    ensures forall k :: 0 < k <= |p| ==> !HasAt(p + t, k, "//")
  {
    var s := p + t;
    forall k | 0 < k <= |p|
      ensures !HasAt(s, k, "//")
    {
      assert k < |p| ==> s[k] == p[k];
      NotAt(s, k, "//");
    }
    NotAt(s, 0, "//");
  }

  /** A trailing `//` comment goes, together with the rest of its line; the space
      before it stays until the final trim: `"x = 1 // note"` becomes `"x = 1"`. */
  lemma TrailingCommentDropped(p: string, note: string)
    requires p != [] && !IsWhiteSpace(p[0]) && !IsWhiteSpace(p[|p| - 1])
    requires forall k :: 0 <= k < |p| ==> IsPlain(p[k])
    requires forall k :: 0 <= k < |note| ==> note[k] != '`' && !IsLineTerminator(note[k])
    ensures CleanOutput(p + " //" + note) == p
  {
    var s := p + " //" + note;
    var kept := p + " ";
    NoBackticks(s);
    assert s + "" == s;
    SlashCommentCut(p, note, "");
    assert kept + "" == kept;
    NoHash(kept);
    CleanOutputSteps(s, s, kept, kept);
    TrimExact(kept, 0, |p|);
    assert kept[0..|p|] == p;
  }

  /** Comment removal stops at the end of the line: `"a // c\nb"` becomes `"a \nb"`. */
  lemma CommentEndsAtLineEnd(p: string, note: string, q: string)
    requires p != [] && !IsWhiteSpace(p[0])
    requires forall k :: 0 <= k < |p| ==> IsPlain(p[k])
    requires forall k :: 0 <= k < |note| ==> note[k] != '`' && !IsLineTerminator(note[k])
    requires q != [] && !IsWhiteSpace(q[|q| - 1])
    requires forall k :: 0 <= k < |q| ==> IsPlain(q[k])
    ensures CleanOutput(p + " //" + note + "\n" + q) == p + " \n" + q
  {
    var next := "\n" + q;
    var s := p + " //" + note + next;
    var kept := p + " " + next;
    assert s == p + " //" + note + "\n" + q && kept == p + " \n" + q;
    NoBackticks(s);
    SlashCommentCut(p, note, next);
    FreeOfFirstChar(next, "//");
    StripCommentsIdentity(next, "//", false);
    NoHash(kept);
    CleanOutputSteps(s, s, kept, kept);
    TrimExact(kept, 0, |kept|);
  }

  /** A text whose every marker occurrence follows a `:`, on a single line, passes
      the comment scan unchanged. */
  lemma GuardedLineKept(s: string, m: string)
    requires IsMarker(m) && !HasAt(s, 0, m)
    requires forall k :: 0 <= k < |s| ==> !IsLineTerminator(s[k])
    requires forall k :: 0 <= k < |s| && HasAt(s, k + 1, m) ==> s[k] == ':'
    ensures StripComments(s, m, true) == s
  {
    assert s + "" == s;
    StripCommentsPlain(s, "", m, true);
  }

  /** A `//` right after a `:` is kept, so a URL survives: `"http://host/p"` is returned as it is. */
  lemma UrlKept(scheme: string, rest: string)
    requires scheme != [] && !IsWhiteSpace(scheme[0])
    requires forall k :: 0 <= k < |scheme| ==> IsPlain(scheme[k])
    requires rest != [] && rest[0] != '/' && !IsWhiteSpace(rest[|rest| - 1])
    requires forall k :: 0 <= k < |rest| ==> rest[k] != '`' && rest[k] != '#' && !IsLineTerminator(rest[k])
    requires forall k :: 0 <= k < |rest| - 1 ==> !(rest[k] == '/' && rest[k + 1] == '/')
    ensures CleanOutput(scheme + "://" + rest) == scheme + "://" + rest
  {
    var s := scheme + "://" + rest;
    UrlChars(scheme, rest);
    NoBackticks(s);
    UrlSlashesGuarded(scheme, rest);
    NotAt(s, 0, "//");
    GuardedLineKept(s, "//");
    NoHash(s);
    CleanOutputSteps(s, s, s, s);
    TrimExact(s, 0, |s|);
  }

  lemma UrlChars(scheme: string, rest: string)
    requires forall k :: 0 <= k < |scheme| ==> IsPlain(scheme[k])
    requires forall k :: 0 <= k < |rest| ==> rest[k] != '`' && rest[k] != '#' && !IsLineTerminator(rest[k])
    ensures forall k :: 0 <= k < |scheme + "://" + rest| ==>
      var c := (scheme + "://" + rest)[k]; c != '`' && c != '#' && !IsLineTerminator(c)
  {
  }

  /** In a URL every `//` follows the `:` of its scheme. */
  lemma UrlSlashesGuarded(scheme: string, rest: string)
    requires scheme != [] && forall k :: 0 <= k < |scheme| ==> IsPlain(scheme[k])
    requires rest != [] && rest[0] != '/'
    requires forall k :: 0 <= k < |rest| - 1 ==> !(rest[k] == '/' && rest[k + 1] == '/')
    ensures forall k :: 0 <= k < |scheme + "://" + rest| && HasAt(scheme + "://" + rest, k + 1, "//") ==> (scheme + "://" + rest)[k] == ':'
  {
    var s := scheme + "://" + rest;
    var n := |scheme|;
    forall j | 0 < j <= |s| && j != n + 1
      ensures !HasAt(s, j, "//")
    {
      if j < n {
        assert s[j] == scheme[j];
        NotAt(s, j, "//");
      } else if j == n {
        NotAt(s, j, "//");
      } else if j + 1 < |s| {
        assert s[j + 1] == rest[j + 1 - n - 3];
        assert j == n + 2 || s[j] == rest[j - n - 3];
        FreeOfPairAt(s, j);
      }
    }
  }

  lemma FreeOfPairAt(s: string, i: int)
    requires 0 <= i && i + 1 < |s| && !(s[i] == '/' && s[i + 1] == '/')
    ensures !HasAt(s, i, "//")
  {
    assert s[i..i + 2][0] == s[i] && s[i..i + 2][1] == s[i + 1];
  }
}
