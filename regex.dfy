/** The fragment of JavaScript regular expressions that the gamertag patterns use,
    written out as string functions: case-insensitive literals (the `i` flag
    without the `u` flag), the character classes
    `.`, `\s`, `[:\s]` and `[A-Za-z0-9_]`, and greedy `*` runs with backtracking.
    A string is a sequence of `char`s; UTF-16 surrogate halves are not modelled. */
module Regex {
  import opened Wrappers

  /** Case folding for comparing a character with a pattern character. Without
      the `u` flag JavaScript upper-cases both sides, but never maps a non-ASCII
      character onto an ASCII one. Every pattern character here is ASCII, so
      comparing after folding 'A'..'Z' alone decides the same matches. */
  function Fold(c: char): (f: char)
    ensures ('A' <= c <= 'Z') == (f != c)
    ensures 'A' <= c <= 'Z' ==> f as int == c as int + 32
  {
    if 'A' <= c <= 'Z' then (c as int + 32) as char else c
  }

  /** The line terminators that `.` refuses. */
  predicate IsLineTerminator(c: char) {
    c == '\n' || c == '\r' || c == '\U{2028}' || c == '\U{2029}'
  }

  /** `\s`: JavaScript's WhiteSpace and LineTerminator characters. */
  predicate IsSpace(c: char) {
    c == ' ' || c == '\t' || c == '\n' || c == '\U{B}' || c == '\U{C}' || c == '\r'
    || c == '\U{A0}' || c == '\U{1680}' || ('\U{2000}' <= c <= '\U{200A}')
    || c == '\U{2028}' || c == '\U{2029}' || c == '\U{202F}' || c == '\U{205F}'
    || c == '\U{3000}' || c == '\U{FEFF}'
  }

  /** `[A-Za-z0-9_]`; under the `i` flag without `u` it matches the same characters. */
  predicate IsWordChar(c: char) {
    ('a' <= c <= 'z') || ('A' <= c <= 'Z') || ('0' <= c <= '9') || c == '_'
  }

  /** The character classes the patterns repeat. */
  datatype CharClass =
    | NotLineTerminator  // .
    | Space              // \s
    | SpaceOrColon       // [:\s]
    | Word               // [A-Za-z0-9_]

  predicate InClass(cls: CharClass, c: char) {
    match cls
    case NotLineTerminator => !IsLineTerminator(c)
    case Space => IsSpace(c)
    case SpaceOrColon => c == ':' || IsSpace(c)
    case Word => IsWordChar(c)
  }

  predicate AllIn(s: string, cls: CharClass) {
    forall i :: 0 <= i < |s| ==> InClass(cls, s[i])
  }

  /** `([A-Za-z0-9_]{3,20})` standing for a whole remainder of the input. */
  predicate IsToken(t: string) {
    3 <= |t| <= 20 && AllIn(t, Word)
  }

  /** The greedy run `cls*` starting at `from`: it ends at the first character
      outside the class, or at the end of the input. */
  function RunEnd(s: string, from: nat, cls: CharClass): (k: nat)
    requires from <= |s|
    ensures from <= k <= |s|
    ensures forall j :: from <= j < k ==> InClass(cls, s[j])
    ensures k < |s| ==> !InClass(cls, s[k])
    decreases |s| - from
  {
    if from < |s| && InClass(cls, s[from]) then RunEnd(s, from + 1, cls) else from
  }

  /** The case-insensitive literal `lit` occurs in `s` at `pos`. */
  predicate LiteralAt(s: string, pos: nat, lit: string) {
    pos + |lit| <= |s| && forall j :: 0 <= j < |lit| ==> Fold(s[pos + j]) == Fold(lit[j])
  }

  /** The leftmost occurrence of `lit` in `s` at or after `start`. */
  function Find(s: string, lit: string, start: nat): (r: Option<nat>)
    requires start <= |s|
    ensures r.Some? ==> start <= r.value <= |s| && LiteralAt(s, r.value, lit)
    ensures r.Some? ==> forall j :: start <= j < r.value ==> !LiteralAt(s, j, lit)
    ensures r.None? ==> forall j :: start <= j <= |s| ==> !LiteralAt(s, j, lit)
    decreases |s| - start
  {
    if LiteralAt(s, start, lit) then Some(start)
    else if start == |s| then None
    else Find(s, lit, start + 1)
  }

  /** `lit` occurs somewhere in `s`, ignoring ASCII case. */
  predicate Occurs(s: string, lit: string) {
    Find(s, lit, 0).Some?
  }

  /** Any occurrence makes `Occurs` true. */
  lemma OccursAt(s: string, pos: nat, lit: string)
    requires LiteralAt(s, pos, lit)
    ensures Occurs(s, lit)
  {
  }

  lemma NotAt(s: string, pos: nat, lit: string)
    requires !Occurs(s, lit)
    ensures !LiteralAt(s, pos, lit)
  {
  }

  /** A literal occurring inside an occurrence of a longer literal occurs in `s`. */
  lemma LiteralWithin(s: string, pos: nat, outer: string, off: nat, inner: string)
    requires LiteralAt(s, pos, outer) && LiteralAt(outer, off, inner)
    ensures LiteralAt(s, pos + off, inner) && Occurs(s, inner)
  {
    forall j | 0 <= j < |inner|
      ensures Fold(s[pos + off + j]) == Fold(inner[j])
    {
      assert Fold(s[pos + (off + j)]) == Fold(outer[off + j]);
    }
    OccursAt(s, pos + off, inner);
  }

  /** A keyword pattern: its literal parts, in order, separated by greedy runs
      of `gap` (`.*` or `\s*`). `/xbox.*live/i` is `KeywordPattern(["xbox", "live"], NotLineTerminator)`. */
  datatype KeywordPattern = KeywordPattern(parts: seq<string>, gap: CharClass)

  /** The end of a match of `parts` anchored at `pos`, trying the longest gap
      first and backtracking, as the JavaScript engine does. */
  function MatchAt(parts: seq<string>, gap: CharClass, s: string, pos: nat): (r: Option<nat>)
    requires pos <= |s|
    ensures r.Some? ==> pos <= r.value <= |s|
    ensures r.Some? && |parts| > 0 ==> LiteralAt(s, pos, parts[0])
    decreases |parts|, 0, 0
  {
    if |parts| == 0 then Some(pos)
    else if !LiteralAt(s, pos, parts[0]) then None
    else if |parts| == 1 then Some(pos + |parts[0]|)
    else
      var next := pos + |parts[0]|;
      Backtrack(parts[1..], gap, s, next, RunEnd(s, next, gap))
  }

  /** Tries the remaining parts after a gap that ends at `k`, then at `k - 1`,
      down to `from`. */
  function Backtrack(parts: seq<string>, gap: CharClass, s: string, from: nat, k: nat): (r: Option<nat>)
    requires from <= k <= |s|
    ensures r.Some? ==> from <= r.value <= |s|
    decreases |parts|, 1, k - from
  {
    match MatchAt(parts, gap, s, k)
    case Some(e) => Some(e)
    case None => if k == from then None else Backtrack(parts, gap, s, from, k - 1)
  }

  /** A match: `s[start..end]` is what `String.prototype.match` returns as `[0]`. */
  datatype Span = Span(start: nat, end: nat)

  /** `RegExp.prototype.exec` without the `g` flag: the leftmost start at or
      after `start` where the pattern matches. */
  function Search(p: KeywordPattern, s: string, start: nat): (r: Option<Span>)
    requires start <= |s|
    ensures r.Some? ==> start <= r.value.start <= r.value.end <= |s|
    decreases |s| - start
  {
    match MatchAt(p.parts, p.gap, s, start)
    case Some(e) => Some(Span(start, e))
    case None => if start == |s| then None else Search(p, s, start + 1)
  }

  /** A single-literal pattern finds the leftmost occurrence of its literal. */
  lemma {:induction false} SearchLiteral(lit: string, gap: CharClass, s: string, start: nat)
    requires start <= |s|
    ensures Search(KeywordPattern([lit], gap), s, start) ==
            match Find(s, lit, start)
            case Some(i) => Some(Span(i, i + |lit|))
            case None => None
    decreases |s| - start
  {
    if !LiteralAt(s, start, lit) && start < |s| {
      SearchLiteral(lit, gap, s, start + 1);
    }
  }

  /** Every part of a pattern that matches at `pos` occurs in `s`. */
  lemma {:induction false} MatchAtOccurs(parts: seq<string>, gap: CharClass, s: string, pos: nat, i: nat)
    requires pos <= |s| && MatchAt(parts, gap, s, pos).Some? && i < |parts|
    ensures Occurs(s, parts[i])
    decreases |parts|, 0, 0
  {
    if i == 0 {
      OccursAt(s, pos, parts[0]);
    } else {
      var next := pos + |parts[0]|;
      BacktrackOccurs(parts[1..], gap, s, next, RunEnd(s, next, gap), i - 1);
    }
  }

  lemma {:induction false} BacktrackOccurs(parts: seq<string>, gap: CharClass, s: string, from: nat, k: nat, i: nat)
    requires from <= k <= |s| && Backtrack(parts, gap, s, from, k).Some? && i < |parts|
    ensures Occurs(s, parts[i])
    decreases |parts|, 1, k - from
  {
    if MatchAt(parts, gap, s, k).Some? {
      MatchAtOccurs(parts, gap, s, k, i);
    } else {
      BacktrackOccurs(parts, gap, s, from, k - 1, i);
    }
  }

  /** Every part of a pattern that matches anywhere occurs in `s`. */
  lemma {:induction false} SearchOccurs(p: KeywordPattern, s: string, start: nat, i: nat)
    requires start <= |s| && Search(p, s, start).Some? && i < |p.parts|
    ensures Occurs(s, p.parts[i])
    decreases |s| - start
  {
    if MatchAt(p.parts, p.gap, s, start).Some? {
      MatchAtOccurs(p.parts, p.gap, s, start, i);
    } else {
      SearchOccurs(p, s, start + 1, i);
    }
  }

  /** The layout a keyword pattern describes at `pos`: its parts in order, each
      case-insensitively, with a run of `gap` characters between each part and
      the next. */
  ghost predicate Layout(parts: seq<string>, gap: CharClass, s: string, pos: nat)
    decreases |parts|
  {
    |parts| == 0
    || (LiteralAt(s, pos, parts[0])
        && (|parts| == 1
            || exists j :: pos + |parts[0]| <= j <= |s| && AllIn(s[pos + |parts[0]|..j], gap)
                             && Layout(parts[1..], gap, s, j)))
  }

  /** The backtracking search succeeds as soon as one gap end within its range
      lets the remaining parts match. */
  lemma {:induction false} BacktrackFinds(parts: seq<string>, gap: CharClass, s: string, from: nat, k: nat, j: nat)
    requires from <= j <= k <= |s| && MatchAt(parts, gap, s, j).Some?
    ensures Backtrack(parts, gap, s, from, k).Some?
    decreases k - j
  {
    if k > j && MatchAt(parts, gap, s, k).None? {
      BacktrackFinds(parts, gap, s, from, k - 1, j);
    }
  }

  /** A successful backtracking search found a gap end in its range where the
      remaining parts match. */
  lemma {:induction false} BacktrackWitness(parts: seq<string>, gap: CharClass, s: string, from: nat, k: nat)
    requires from <= k <= |s| && Backtrack(parts, gap, s, from, k).Some?
    ensures exists j :: from <= j <= k && MatchAt(parts, gap, s, j).Some?
    decreases k - from
  {
    if MatchAt(parts, gap, s, k).None? {
      BacktrackWitness(parts, gap, s, from, k - 1);
    }
  }

  /** A gap run that fits lies within the greedy run. */
  lemma RunWithin(s: string, from: nat, j: nat, cls: CharClass)
    requires from <= j <= |s| && AllIn(s[from..j], cls)
    ensures j <= RunEnd(s, from, cls)
  {
    forall i | from <= i < j
      ensures InClass(cls, s[i])
    {
      assert s[i] == s[from..j][i - from];
    }
  }

  /** An anchored match exists exactly where the pattern's layout starts: the
      backtracking matcher is sound and complete. */
  lemma MatchAtIff(parts: seq<string>, gap: CharClass, s: string, pos: nat)
    requires pos <= |s|
    ensures MatchAt(parts, gap, s, pos).Some? <==> Layout(parts, gap, s, pos)
  {
    if MatchAt(parts, gap, s, pos).Some? {
      MatchAtSound(parts, gap, s, pos);
    }
    if Layout(parts, gap, s, pos) {
      MatchAtComplete(parts, gap, s, pos);
    }
  }

  lemma {:induction false} MatchAtSound(parts: seq<string>, gap: CharClass, s: string, pos: nat)
    requires pos <= |s| && MatchAt(parts, gap, s, pos).Some?
    ensures Layout(parts, gap, s, pos)
    decreases |parts|
  {
    if |parts| > 1 {
      var next := pos + |parts[0]|;
      var k := RunEnd(s, next, gap);
      BacktrackWitness(parts[1..], gap, s, next, k);
      var j :| next <= j <= k && MatchAt(parts[1..], gap, s, j).Some?;
      MatchAtSound(parts[1..], gap, s, j);
      assert AllIn(s[next..j], gap) by {
        forall i | 0 <= i < |s[next..j]|
          ensures InClass(gap, s[next..j][i])
        {
          assert s[next..j][i] == s[next + i];
        }
      }
    }
  }

  lemma {:induction false} MatchAtComplete(parts: seq<string>, gap: CharClass, s: string, pos: nat)
    requires pos <= |s| && Layout(parts, gap, s, pos)
    ensures MatchAt(parts, gap, s, pos).Some?
    decreases |parts|
  {
    if |parts| > 1 {
      var next := pos + |parts[0]|;
      var j :| next <= j <= |s| && AllIn(s[next..j], gap) && Layout(parts[1..], gap, s, j);
      RunWithin(s, next, j, gap);
      MatchAtComplete(parts[1..], gap, s, j);
      BacktrackFinds(parts[1..], gap, s, next, RunEnd(s, next, gap), j);
    }
  }

  /** `exec` without the `g` flag is sound and complete, and leftmost: it finds
      a match exactly when the layout starts somewhere at or after `start`, and
      the match starts where the first such layout does. */
  lemma SearchIff(p: KeywordPattern, s: string, start: nat)
    requires start <= |s|
    ensures Search(p, s, start).Some? <==> exists i :: start <= i <= |s| && Layout(p.parts, p.gap, s, i)
    ensures Search(p, s, start).Some? ==>
              var i := Search(p, s, start).value.start;
              Layout(p.parts, p.gap, s, i) && forall j :: start <= j < i ==> !Layout(p.parts, p.gap, s, j)
  {
    if Search(p, s, start).Some? {
      SearchLeftmost(p, s, start);
      var i := Search(p, s, start).value.start;
      assert start <= i <= |s| && Layout(p.parts, p.gap, s, i);
    }
    if exists i :: start <= i <= |s| && Layout(p.parts, p.gap, s, i) {
      var i :| start <= i <= |s| && Layout(p.parts, p.gap, s, i);
      SearchComplete(p, s, start, i);
    }
  }

  /** A match found by `exec` starts at a layout, and no layout starts
      between `start` and it. */
  lemma {:induction false} SearchLeftmost(p: KeywordPattern, s: string, start: nat)
    requires start <= |s| && Search(p, s, start).Some?
    ensures var i := Search(p, s, start).value.start;
      Layout(p.parts, p.gap, s, i) && forall j :: start <= j < i ==> !Layout(p.parts, p.gap, s, j)
    decreases |s| - start
  {
    MatchAtIff(p.parts, p.gap, s, start);
    if MatchAt(p.parts, p.gap, s, start).None? {
      SearchLeftmost(p, s, start + 1);
    }
  }

  /** A layout at `i` is found by `exec` from any `start` up to `i`. */
  lemma {:induction false} SearchComplete(p: KeywordPattern, s: string, start: nat, i: nat)
    requires start <= i <= |s| && Layout(p.parts, p.gap, s, i)
    ensures Search(p, s, start).Some?
    decreases i - start
  {
    if i == start {
      MatchAtComplete(p.parts, p.gap, s, start);
    } else if MatchAt(p.parts, p.gap, s, start).None? {
      SearchComplete(p, s, start + 1, i);
    }
  }
}
