/** The name classifier `checkForXboxGamertag` and its pattern list
    `XBOX_GAMERTAG_PATTERNS` (index.js). It is declared `async` but awaits
    nothing, so it is a pure function of a member's username and display name. */
module Gamertag {
  import opened Wrappers
  import opened Regex

  /** The `type` field of a classification. */
  datatype Kind = XboxKeyword | GtFormat | BracketFormat | SuffixFormat

  /** The record `{gamertag, type, keyword?, source}`; `keyword` is present only
      for `XboxKeyword`. */
  datatype Hit = Hit(gamertag: string, kind: Kind, keyword: Option<string>, source: string)

  /** `XBOX_GAMERTAG_PATTERNS`, in order, all with the `i` flag. A pattern of one
      part has no gap; its gap class is never consulted. */
  const XboxGamertagPatterns: seq<KeywordPattern> := [
    KeywordPattern(["xbox"], NotLineTerminator),              // /xbox/i
    KeywordPattern(["xbl"], NotLineTerminator),               // /xbl/i
    KeywordPattern(["xbox", "live"], NotLineTerminator),      // /xbox.*live/i
    KeywordPattern(["live", "xbox"], NotLineTerminator),      // /live.*xbox/i
    KeywordPattern(["gamertag", "xbox"], NotLineTerminator),  // /gamertag.*xbox/i
    KeywordPattern(["xbox", "gamertag"], NotLineTerminator),  // /xbox.*gamertag/i
    KeywordPattern(["gt", "xbox"], NotLineTerminator),        // /gt.*xbox/i
    KeywordPattern(["xbox", "gt"], NotLineTerminator),        // /xbox.*gt/i
    KeywordPattern(["[xbox]"], NotLineTerminator),            // /\[xbox\]/i
    KeywordPattern(["[xbl]"], NotLineTerminator),             // /\[xbl\]/i
    KeywordPattern(["(xbox)"], NotLineTerminator),            // /\(xbox\)/i
    KeywordPattern(["(xbl)"], NotLineTerminator),             // /\(xbl\)/i
    KeywordPattern(["xbox", "gamer"], Space),                 // /xbox\s*gamer/i
    KeywordPattern(["xbox", "game", "pass"], Space)           // /xbox\s*game\s*pass/i
  ]

  /** The first pattern of `ps` that matches `name`, as the text it matched. */
  function KeywordFrom(ps: seq<KeywordPattern>, name: string): (r: Option<string>)
  {
    if ps == [] then None
    else match Search(ps[0], name, 0)
      case Some(sp) => Some(name[sp.start..sp.end])
      case None => KeywordFrom(ps[1..], name)
  }

  /** Some part of `p` contains `xbox` or `xbl`, so `p` cannot match a name
      that contains neither. */
  ghost predicate MentionsXbox(p: KeywordPattern) {
    exists i, off :: 0 <= i < |p.parts| && (LiteralAt(p.parts[i], off, "xbox") || LiteralAt(p.parts[i], off, "xbl"))
  }

  /** A name containing neither `xbox` nor `xbl` matches none of a list of
      patterns that each mention one of them. */
  lemma {:induction false} KeywordFromNone(ps: seq<KeywordPattern>, name: string)
    requires forall k :: 0 <= k < |ps| ==> MentionsXbox(ps[k])
    requires !Occurs(name, "xbox") && !Occurs(name, "xbl")
    ensures KeywordFrom(ps, name) == None
  {
    if ps != [] {
      if Search(ps[0], name, 0).Some? {
        var i, off :| 0 <= i < |ps[0].parts| && (LiteralAt(ps[0].parts[i], off, "xbox") || LiteralAt(ps[0].parts[i], off, "xbl"));
        SearchOccurs(ps[0], name, 0, i);
        var pos :| LiteralAt(name, pos, ps[0].parts[i]) by {
          var f := Find(name, ps[0].parts[i], 0);
        }
        if LiteralAt(ps[0].parts[i], off, "xbox") {
          LiteralWithin(name, pos, ps[0].parts[i], off, "xbox");
        } else {
          LiteralWithin(name, pos, ps[0].parts[i], off, "xbl");
        }
        assert false;
      }
      KeywordFromNone(ps[1..], name);
    }
  }

  /** Every pattern after the first two mentions `xbox` or `xbl`. */
  lemma LaterPatternsMentionXbox()
    ensures forall k :: 2 <= k < |XboxGamertagPatterns| ==> MentionsXbox(XboxGamertagPatterns[k])
  {
    var ps := XboxGamertagPatterns;
    assert LiteralAt(ps[2].parts[0], 0, "xbox");
    assert LiteralAt(ps[3].parts[1], 0, "xbox");
    assert LiteralAt(ps[4].parts[1], 0, "xbox");
    assert LiteralAt(ps[5].parts[0], 0, "xbox");
    assert LiteralAt(ps[6].parts[1], 0, "xbox");
    assert LiteralAt(ps[7].parts[0], 0, "xbox");
    assert LiteralAt(ps[8].parts[0], 1, "xbox");
    assert LiteralAt(ps[9].parts[0], 1, "xbl");
    assert LiteralAt(ps[10].parts[0], 1, "xbox");
    assert LiteralAt(ps[11].parts[0], 1, "xbl");
    assert LiteralAt(ps[12].parts[0], 0, "xbox");
    assert LiteralAt(ps[13].parts[0], 0, "xbox");
  }

  /** The whole keyword family reduces to its first two patterns: the keyword is
      the leftmost `xbox` if there is one, otherwise the leftmost `xbl`, and a
      name containing neither matches no keyword pattern. */
  lemma KeywordFamily(name: string)
    ensures KeywordFrom(XboxGamertagPatterns, name) ==
            match Find(name, "xbox", 0)
            case Some(i) => Some(name[i..i + 4])
            case None =>
              match Find(name, "xbl", 0)
              case Some(i) => Some(name[i..i + 3])
              case None => None
  {
    var ps := XboxGamertagPatterns;
    SearchLiteral("xbox", NotLineTerminator, name, 0);
    SearchLiteral("xbl", NotLineTerminator, name, 0);
    assert ps[1..][0] == ps[1];
    if Find(name, "xbox", 0).None? && Find(name, "xbl", 0).None? {
      LaterPatternsMentionXbox();
      assert ps[1..][1..] == ps[2..];
      KeywordFromNone(ps[2..], name);
    }
  }

  /** `/^(?:gt|gamertag)[:\s]+([A-Za-z0-9_]{3,20})$/i`: the captured token. */
  function GtFormatMatch(name: string): Option<string> {
    var cut := if LiteralAt(name, 0, "gt") then 2 else if LiteralAt(name, 0, "gamertag") then 8 else 0;
    if cut == 0 then None
    else
      var j := RunEnd(name, cut, SpaceOrColon);
      if j > cut && IsToken(name[j..]) then Some(name[j..]) else None
  }

  /** The layout that the `gt_format` regex describes, stated by cutting points. */
  ghost predicate GtShape(name: string, tok: string) {
    exists a, b :: 0 < a < b <= |name|
      && ((a == 2 && LiteralAt(name, 0, "gt")) || (a == 8 && LiteralAt(name, 0, "gamertag")))
      && AllIn(name[a..b], SpaceOrColon) && name[b..] == tok && IsToken(tok)
  }

  /** The `gt_format` extraction captures exactly the token of the layout. */
  lemma GtFormatIff(name: string, tok: string)
    ensures GtFormatMatch(name) == Some(tok) <==> GtShape(name, tok)
  {
    if GtFormatMatch(name) == Some(tok) {
      GtFormatMatchShape(name);
    }
    if GtShape(name, tok) {
      GtShapeMatch(name, tok);
    }
  }

  lemma GtFormatMatchShape(name: string)
    requires GtFormatMatch(name).Some?
    ensures GtShape(name, GtFormatMatch(name).value)
  {
    var a := if LiteralAt(name, 0, "gt") then 2 else 8;
    var b := RunEnd(name, a, SpaceOrColon);
    assert AllIn(name[a..b], SpaceOrColon);
  }

  lemma GtShapeMatch(name: string, tok: string)
    requires GtShape(name, tok)
    ensures GtFormatMatch(name) == Some(tok)
  {
    var a, b :| 0 < a < b <= |name|
      && ((a == 2 && LiteralAt(name, 0, "gt")) || (a == 8 && LiteralAt(name, 0, "gamertag")))
      && AllIn(name[a..b], SpaceOrColon) && name[b..] == tok && IsToken(tok);
    if a == 8 {
      assert Fold(name[0 + 1]) == Fold("gamertag"[1]) == 'a';
      assert Fold(name[0 + 1]) != Fold("gt"[1]);
    }
    forall j | a <= j < b
      ensures InClass(SpaceOrColon, name[j])
    {
      assert name[j] == name[a..b][j - a];
    }
    assert !InClass(SpaceOrColon, name[b..][0]);
    RunEndOf(name, a, b, SpaceOrColon);
  }

  /** A run that is all in the class and is followed by a character outside it
      is the greedy run. */
  lemma {:induction false} RunEndOf(s: string, from: nat, k: nat, cls: CharClass)
    requires from <= k <= |s|
    requires forall j :: from <= j < k ==> InClass(cls, s[j])
    requires k < |s| ==> !InClass(cls, s[k])
    ensures RunEnd(s, from, cls) == k
    decreases k - from
  {
    if from < k {
      RunEndOf(s, from + 1, k, cls);
    }
  }

  predicate IsOpen(c: char) { c == '[' || c == '(' }

  predicate IsClose(c: char) { c == ']' || c == ')' }

  /** `/^[\[\(](?:xbox|xbl|gt)[\]\)]\s*([A-Za-z0-9_]{3,20})$/i`: the captured token.
      The three tags differ in their first three letters, so at most one fits. */
  function BracketFormatMatch(name: string): Option<string> {
    var close := if LiteralAt(name, 1, "xbox") then 5
                 else if LiteralAt(name, 1, "xbl") then 4
                 else if LiteralAt(name, 1, "gt") then 3
                 else 0;
    if close == 0 || close >= |name| || !IsOpen(name[0]) || !IsClose(name[close]) then None
    else
      var j := RunEnd(name, close + 1, Space);
      if IsToken(name[j..]) then Some(name[j..]) else None
  }

  /** A `[gt] TOKEN` or `(gt) TOKEN` layout (either bracket may be square or round). */
  ghost predicate GtBracketShape(name: string, tok: string) {
    exists j :: 4 <= j <= |name| && IsOpen(name[0]) && LiteralAt(name, 1, "gt") && IsClose(name[3])
      && AllIn(name[4..j], Space) && name[j..] == tok && IsToken(tok)
  }

  /** On a name without `xbox` and `xbl`, the `bracket_format` extraction fires
      exactly on the `gt` tag layout, and captures its token. */
  lemma BracketFormatIff(name: string, tok: string)
    requires !Occurs(name, "xbox") && !Occurs(name, "xbl")
    ensures BracketFormatMatch(name) == Some(tok) <==> GtBracketShape(name, tok)
  {
    if BracketFormatMatch(name) == Some(tok) {
      BracketFormatMatchShape(name);
    }
    if GtBracketShape(name, tok) {
      GtBracketShapeMatch(name, tok);
    }
  }

  lemma BracketFormatMatchShape(name: string)
    requires !Occurs(name, "xbox") && !Occurs(name, "xbl")
    requires BracketFormatMatch(name).Some?
    ensures GtBracketShape(name, BracketFormatMatch(name).value)
  {
    NotAt(name, 1, "xbox");
    NotAt(name, 1, "xbl");
    var j := RunEnd(name, 4, Space);
    assert AllIn(name[4..j], Space);
  }

  lemma GtBracketShapeMatch(name: string, tok: string)
    requires !Occurs(name, "xbox") && !Occurs(name, "xbl")
    requires GtBracketShape(name, tok)
    ensures BracketFormatMatch(name) == Some(tok)
  {
    NotAt(name, 1, "xbox");
    NotAt(name, 1, "xbl");
    var j :| 4 <= j <= |name| && IsOpen(name[0]) && LiteralAt(name, 1, "gt") && IsClose(name[3])
      && AllIn(name[4..j], Space) && name[j..] == tok && IsToken(tok);
    forall i | 4 <= i < j
      ensures InClass(Space, name[i])
    {
      assert name[i] == name[4..j][i - 4];
    }
    assert !InClass(Space, name[j..][0]);
    RunEndOf(name, 4, j, Space);
  }

  /** `/^([A-Za-z0-9_]{3,20})\s*[\[\(](?:xbox|xbl)[\]\)]$/i`: the captured token.
      Backtracking the `{3,20}` count cannot help, since a shorter token is
      followed by a word character, so the token is the whole leading word run. */
  function SuffixFormatMatch(name: string): Option<string> {
    var w := RunEnd(name, 0, Word);
    var o := RunEnd(name, w, Space);
    if w < 3 || w > 20 || o >= |name| || !IsOpen(name[o]) then None
    else
      var close := if LiteralAt(name, o + 1, "xbox") then o + 5
                   else if LiteralAt(name, o + 1, "xbl") then o + 4
                   else 0;
      if close == 0 || close + 1 != |name| || !IsClose(name[close]) then None
      else Some(name[..w])
  }

  /** The `suffix_format` layout always contains `xbox` or `xbl`. */
  lemma SuffixFormatNeedsXbox(name: string)
    requires SuffixFormatMatch(name).Some?
    ensures Occurs(name, "xbox") || Occurs(name, "xbl")
  {
    var o := RunEnd(name, RunEnd(name, 0, Word), Space);
    assert LiteralAt(name, o + 1, "xbox") || LiteralAt(name, o + 1, "xbl");
    if LiteralAt(name, o + 1, "xbox") {
      OccursAt(name, o + 1, "xbox");
    } else {
      OccursAt(name, o + 1, "xbl");
    }
  }

  /** One name tried as in the body of the `for (const name of namesToCheck)`
      loop: every keyword pattern, then the extraction formats, the first hit
      winning. */
  function ClassifyName(name: string): (r: Option<Hit>)
    ensures r.Some? ==> r.value.source == name
    ensures r.Some? ==> (r.value.kind == XboxKeyword <==> r.value.keyword.Some?)
    ensures r.Some? && r.value.kind == XboxKeyword ==> r.value.gamertag == name
    ensures r.Some? && r.value.kind != XboxKeyword ==> IsToken(r.value.gamertag)
  {
    match KeywordFrom(XboxGamertagPatterns, name)
    case Some(kw) => Some(Hit(name, XboxKeyword, Some(kw), name))
    case None => FormatHit(name)
  }

  /** `gt_format`, `bracket_format` and `suffix_format`, in that order. */
  function FormatHit(name: string): (r: Option<Hit>)
    ensures r.Some? ==> r.value.source == name && r.value.keyword.None? && r.value.kind != XboxKeyword
    ensures r.Some? ==> IsToken(r.value.gamertag)
  {
    match GtFormatMatch(name)
    case Some(t) => Some(Hit(t, GtFormat, None, name))
    case None =>
      match BracketFormatMatch(name)
      case Some(t) => Some(Hit(t, BracketFormat, None, name))
      case None =>
        match SuffixFormatMatch(name)
        case Some(t) => Some(Hit(t, SuffixFormat, None, name))
        case None => None
  }

  /** A name containing neither `xbox` nor `xbl` is classified by the
      extraction formats alone. */
  lemma NoKeywordMeansFormat(name: string)
    requires !Occurs(name, "xbox") && !Occurs(name, "xbl")
    ensures ClassifyName(name) == FormatHit(name)
  {
    KeywordFamily(name);
  }

  /** What the classifier returns for one name, stated without the pattern
      list: a keyword hit on the leftmost `xbox`, else on the leftmost `xbl`;
      otherwise a `gt` layout; otherwise a `[gt]` layout; otherwise nothing. */
  ghost function ExpectedHit(name: string): Option<Hit> {
    match Find(name, "xbox", 0)
    case Some(i) => Some(Hit(name, XboxKeyword, Some(name[i..i + 4]), name))
    case None =>
      match Find(name, "xbl", 0)
      case Some(i) => Some(Hit(name, XboxKeyword, Some(name[i..i + 3]), name))
      case None => ExpectedFormat(name)
  }

  /** The extraction half of `ExpectedHit`. */
  ghost function ExpectedFormat(name: string): Option<Hit> {
    if exists tok :: GtShape(name, tok) then
      var tok :| GtShape(name, tok);
      Some(Hit(tok, GtFormat, None, name))
    else if exists tok :: GtBracketShape(name, tok) then
      var tok :| GtBracketShape(name, tok);
      Some(Hit(tok, BracketFormat, None, name))
    else None
  }

  /** The classifier of one name agrees with the reference statement. */
  lemma ClassifyNameIsExpected(name: string)
    ensures ClassifyName(name) == ExpectedHit(name)
  {
    KeywordFamily(name);
    if Find(name, "xbox", 0).None? && Find(name, "xbl", 0).None? {
      FormatsAreExpected(name);
    }
  }

  /** On a name without `xbox` and `xbl`, the format extractions agree with the
      layouts of the reference statement. */
  lemma FormatsAreExpected(name: string)
    requires !Occurs(name, "xbox") && !Occurs(name, "xbl")
    ensures FormatHit(name) == ExpectedFormat(name)
  {
    GtAgrees(name);
    BracketAgrees(name);
    if SuffixFormatMatch(name).Some? {
      SuffixFormatNeedsXbox(name);
    }
  }

  lemma GtAgrees(name: string)
    ensures GtFormatMatch(name).Some? ==> GtShape(name, GtFormatMatch(name).value)
    ensures GtFormatMatch(name).None? ==> !exists tok :: GtShape(name, tok)
    ensures forall tok :: GtShape(name, tok) ==> GtFormatMatch(name) == Some(tok)
  {
    if GtFormatMatch(name).Some? {
      GtFormatMatchShape(name);
    }
    forall tok | GtShape(name, tok)
      ensures GtFormatMatch(name) == Some(tok)
    {
      GtShapeMatch(name, tok);
    }
  }

  lemma BracketAgrees(name: string)
    requires !Occurs(name, "xbox") && !Occurs(name, "xbl")
    ensures BracketFormatMatch(name).Some? ==> GtBracketShape(name, BracketFormatMatch(name).value)
    ensures BracketFormatMatch(name).None? ==> !exists tok :: GtBracketShape(name, tok)
    ensures forall tok :: GtBracketShape(name, tok) ==> BracketFormatMatch(name) == Some(tok)
  {
    if BracketFormatMatch(name).Some? {
      BracketFormatMatchShape(name);
    }
    forall tok | GtBracketShape(name, tok)
      ensures BracketFormatMatch(name) == Some(tok)
    {
      GtBracketShapeMatch(name, tok);
    }
  }

  /** Because the keyword patterns are tried first, `suffix_format` is never
      returned, and `bracket_format` only for a `gt` tag. */
  lemma UnreachableFormats(name: string)
    ensures ClassifyName(name).Some? ==> ClassifyName(name).value.kind != SuffixFormat
    ensures ClassifyName(name).Some? && ClassifyName(name).value.kind == BracketFormat ==>
              LiteralAt(name, 1, "gt") && !Occurs(name, "xbox") && !Occurs(name, "xbl")
  {
    ClassifyNameIsExpected(name);
  }

  /** `namesToCheck`: the username, then the display name when it is non-empty
      and differs from the username. */
  function Candidates(username: string, displayName: string): (names: seq<string>)
    ensures 1 <= |names| <= 2 && names[0] == username
    ensures |names| == 2 <==> displayName != "" && displayName != username
    ensures |names| == 2 ==> names[1] == displayName
  {
    if displayName != "" && displayName != username then [username, displayName] else [username]
  }

  /** The first hit over a list of names, each name fully tried before the next. */
  function FirstHit(names: seq<string>): (r: Option<Hit>)
  {
    if names == [] then None
    else match ClassifyName(names[0])
      case Some(h) => Some(h)
      case None => FirstHit(names[1..])
  }

  /** `checkForXboxGamertag(member)` as a function of the two names. */
  function Classify(username: string, displayName: string): (r: Option<Hit>)
  {
    FirstHit(Candidates(username, displayName))
  }

  /** The username is tried completely before the display name, which is tried
      only when non-empty and different; `null` when neither yields a hit. */
  lemma ClassifyOrder(username: string, displayName: string)
    ensures Classify(username, displayName) ==
            if ClassifyName(username).Some? then ClassifyName(username)
            else if displayName != "" && displayName != username then ClassifyName(displayName)
            else None
  {
    var names := Candidates(username, displayName);
    if ClassifyName(username).None? {
      assert FirstHit(names) == FirstHit(names[1..]);
      if |names| == 2 {
        assert names[1..] == [displayName] && [displayName][1..] == [];
      } else {
        assert names[1..] == [];
      }
    }
  }

  /** The inner loop of `checkForXboxGamertag` over `XBOX_GAMERTAG_PATTERNS`:
      the text matched by the first pattern that matches. */
  method MatchKeyword(name: string) returns (kw: Option<string>)
    ensures kw == KeywordFrom(XboxGamertagPatterns, name)
  {
    for k := 0 to |XboxGamertagPatterns|
      invariant KeywordFrom(XboxGamertagPatterns, name) == KeywordFrom(XboxGamertagPatterns[k..], name)
    {
      var sp := Search(XboxGamertagPatterns[k], name, 0);
      if sp.Some? {
        return Some(name[sp.value.start..sp.value.end]);
      }
      assert XboxGamertagPatterns[k..][1..] == XboxGamertagPatterns[k + 1..];
    }
    return None;
  }

  /** One pass of the outer loop of `checkForXboxGamertag`: the keyword
      patterns, then the three extraction formats. */
  method CheckName(name: string) returns (r: Option<Hit>)
    ensures r == ClassifyName(name)
  {
    var kw := MatchKeyword(name);
    if kw.Some? {
      return Some(Hit(name, XboxKeyword, kw, name));
    }
    var gt := GtFormatMatch(name);
    if gt.Some? {
      return Some(Hit(gt.value, GtFormat, None, name));
    }
    var bracket := BracketFormatMatch(name);
    if bracket.Some? {
      return Some(Hit(bracket.value, BracketFormat, None, name));
    }
    var suffix := SuffixFormatMatch(name);
    if suffix.Some? {
      return Some(Hit(suffix.value, SuffixFormat, None, name));
    }
    return None;
  }

  /** `checkForXboxGamertag`: the candidate names in order, returning on the
      first hit. */
  method CheckForXboxGamertag(username: string, displayName: string) returns (r: Option<Hit>)
    ensures r == Classify(username, displayName)
  {
    var names := [username];
    if displayName != "" && displayName != username {
      names := names + [displayName];
    }
    assert names == Candidates(username, displayName);
    for i := 0 to |names|
      invariant FirstHit(names) == FirstHit(names[i..])
    {
      assert names[i..][1..] == names[i + 1..];
      r := CheckName(names[i]);
      if r.Some? {
        return;
      }
    }
    return None;
  }
}
