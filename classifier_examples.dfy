/** Worked classifications of single names, showing the precedence of the
    keyword patterns over the extraction formats. */
module GamertagExamples {
  import opened Wrappers
  import opened Regex
  import opened Gamertag

  /** A name with no `x` or `X` contains neither keyword. */
  lemma NoX(name: string)
    requires forall i :: 0 <= i < |name| ==> name[i] != 'x' && name[i] != 'X'
    ensures !Occurs(name, "xbox") && !Occurs(name, "xbl")
  {
    forall i | 0 <= i <= |name|
      ensures !LiteralAt(name, i, "xbox") && !LiteralAt(name, i, "xbl")
    {
      if i < |name| {
        assert Fold(name[i + 0]) != Fold("xbox"[0]);
        assert Fold(name[i + 0]) != Fold("xbl"[0]);
      }
    }
  }

  /** The search for a literal starting with `x` skips a prefix without `x`. */
  lemma {:induction false} SkipNoX(name: string, p: nat, lit: string)
    requires p <= |name| && |lit| > 0 && lit[0] == 'x'
    requires forall i :: 0 <= i < p ==> name[i] != 'x' && name[i] != 'X'
    ensures Find(name, lit, 0) == Find(name, lit, p)
  {
    if p > 0 {
      SkipNoX(name, p - 1, lit);
      assert Fold(name[(p - 1) + 0]) != Fold(lit[0]);
    }
  }

  lemma GtLabelExample(n: string)
    requires n == "GT: Player99"
    ensures ClassifyName(n) == Some(Hit("Player99", GtFormat, None, n))
  {
    NoX(n);
    NoKeywordMeansFormat(n);
    GtLabelExtracts(n);
  }

  lemma GtLabelExtracts(n: string)
    requires n == "GT: Player99"
    ensures GtFormatMatch(n) == Some("Player99")
  {
    assert LiteralAt(n, 0, "gt") by {
      assert n[0] == 'G' && n[1] == 'T' && Fold('G') == 'g' && Fold('T') == 't';
    }
    RunEndOf(n, 2, 4, SpaceOrColon);
    assert n[4..] == "Player99";
  }

  /** `[GT] CoolKid` is the one bracket layout that can be returned. */
  lemma GtBracketExample(n: string)
    requires n == "[GT] CoolKid"
    ensures ClassifyName(n) == Some(Hit("CoolKid", BracketFormat, None, n))
  {
    NoX(n);
    NoKeywordMeansFormat(n);
    GtBracketNotGtLabel(n);
    GtBracketExtracts(n);
  }

  lemma GtBracketNotGtLabel(n: string)
    requires n == "[GT] CoolKid"
    ensures GtFormatMatch(n) == None
  {
    assert !LiteralAt(n, 0, "gt") && !LiteralAt(n, 0, "gamertag") by {
      assert n[0] == '[' && Fold('[') == '[';
      assert Fold(n[0 + 0]) != Fold("gt"[0]) && Fold(n[0 + 0]) != Fold("gamertag"[0]);
    }
  }

  lemma GtBracketExtracts(n: string)
    requires n == "[GT] CoolKid"
    ensures BracketFormatMatch(n) == Some("CoolKid")
  {
    assert !LiteralAt(n, 1, "xbox") && !LiteralAt(n, 1, "xbl") by {
      assert n[1] == 'G' && Fold('G') == 'g';
      assert Fold(n[1 + 0]) != Fold("xbox"[0]) && Fold(n[1 + 0]) != Fold("xbl"[0]);
    }
    assert LiteralAt(n, 1, "gt") by {
      assert n[1] == 'G' && n[2] == 'T' && Fold('G') == 'g' && Fold('T') == 't';
    }
    RunEndOf(n, 4, 5, Space);
    assert n[5..] == "CoolKid";
  }

  lemma LeadingXboxExample(n: string)
    requires n == "XboxGamer123"
    ensures ClassifyName(n) == Some(Hit(n, XboxKeyword, Some("Xbox"), n))
  {
    assert LiteralAt(n, 0, "xbox") by {
      assert n[0] == 'X' && n[1] == 'b' && n[2] == 'o' && n[3] == 'x' && Fold('X') == 'x';
    }
    assert n[0..4] == "Xbox";
    ClassifyNameIsExpected(n);
  }

  /** `[Xbox] CoolKid` is a keyword hit on the whole name, not `bracket_format`. */
  lemma BracketedXboxExample(n: string)
    requires n == "[Xbox] CoolKid"
    ensures ClassifyName(n) == Some(Hit(n, XboxKeyword, Some("Xbox"), n))
  {
    SkipNoX(n, 1, "xbox");
    assert LiteralAt(n, 1, "xbox") by {
      assert n[1] == 'X' && n[2] == 'b' && n[3] == 'o' && n[4] == 'x' && Fold('X') == 'x';
    }
    assert n[1..5] == "Xbox";
    ClassifyNameIsExpected(n);
  }

  /** `Sniper99 (XBL)` is a keyword hit on the whole name, not `suffix_format`. */
  lemma SuffixedXblExample(n: string)
    requires n == "Sniper99 (XBL)"
    ensures ClassifyName(n) == Some(Hit(n, XboxKeyword, Some("XBL"), n))
  {
    SkipNoX(n, 10, "xbox");
    SkipNoX(n, 10, "xbl");
    assert !LiteralAt(n, 10, "xbox") && !LiteralAt(n, 11, "xbox") by {
      assert Fold(n[10 + 2]) != Fold("xbox"[2]);
      assert Fold(n[11 + 0]) != Fold("xbox"[0]);
    }
    assert Find(n, "xbox", 0) == None;
    assert LiteralAt(n, 10, "xbl") by {
      assert n[10] == 'X' && n[11] == 'B' && n[12] == 'L';
      assert Fold('X') == 'x' && Fold('B') == 'b' && Fold('L') == 'l';
    }
    assert n[10..13] == "XBL";
    ClassifyNameIsExpected(n);
  }

  lemma NoMatchExample(n: string)
    requires n == "RandomUser42"
    ensures ClassifyName(n) == None
  {
    NoX(n);
    NoKeywordMeansFormat(n);
    NoMatchFormats(n);
  }

  lemma NoMatchFormats(n: string)
    requires n == "RandomUser42"
    ensures GtFormatMatch(n) == None && BracketFormatMatch(n) == None && SuffixFormatMatch(n) == None
  {
    assert !LiteralAt(n, 0, "gt") && !LiteralAt(n, 0, "gamertag") by {
      assert n[0] == 'R' && Fold('R') == 'r';
      assert Fold(n[0 + 0]) != Fold("gt"[0]) && Fold(n[0 + 0]) != Fold("gamertag"[0]);
    }
    assert !IsOpen(n[0]);
    RunEndOf(n, 0, 12, Word);
  }
}
