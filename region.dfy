/**
 * The region classifier: an ordered list of rules, each a list of regular
 * expressions and a region code. The first rule one of whose expressions
 * matches the terms and conditions gives the code; the last rule, the
 * catch-all `.*`, matches every text.
 *
 * The source's expressions carry the `g` flag, but they are literals built
 * afresh on every call and each is tested at most once, so `lastIndex`
 * starts at 0 every time and the classifier is a pure function of its text.
 */
module Region {
  import opened Wrappers
  import opened Text

  /** One regular expression, as the list of its top-level alternatives. */
  type Expression = seq<Pattern>

  datatype Rule = Rule(expressions: seq<Expression>, id: int)

  const Canada: int := 4
  const Australia: int := 3
  const UnitedStates: int := 2
  const Elsewhere: int := 1

  /** `/canada/gmi` */
  const CanadaWord: Pattern := Folds("canada")
  /** `/\sCA\s/gm` */
  const CanadaCode: Pattern := Spaced(Exacts("CA"))
  /** `/\saus\s|australia/gmi`, first alternative */
  const AusWord: Pattern := Spaced(Folds("aus"))
  /** `/\saus\s|australia/gmi`, second alternative */
  const AustraliaWord: Pattern := Folds("australia")
  /** `/united\sstates|\susa\s|america/gmi`, first alternative */
  const UnitedStatesWords: Pattern := Folds("united") + [Space] + Folds("states")
  /** `/united\sstates|\susa\s|america/gmi`, second alternative */
  const UsaWord: Pattern := Spaced(Folds("usa"))
  /** `/united\sstates|\susa\s|america/gmi`, third alternative */
  const AmericaWord: Pattern := Folds("america")
  /** `/\s(US|U\.S\.)\s/gm`, first alternative */
  const UsCode: Pattern := Spaced(Exacts("US"))
  /** `/\s(US|U\.S\.)\s/gm`, second alternative */
  const UsDottedCode: Pattern := Spaced(Exacts("U.S."))

  /** The rule list, in the source's order. The catch-all `.*` is the empty pattern: it matches at position 0 of any text. */
  const Rules: seq<Rule> := [
    Rule([[CanadaWord], [CanadaCode]], Canada),
    Rule([[AusWord, AustraliaWord]], Australia),
    Rule([[UnitedStatesWords, UsaWord, AmericaWord], [UsCode, UsDottedCode]], UnitedStates),
    Rule([[[]]], Elsewhere)
  ]

  /** `regex.test(text)` */
  predicate Tests(e: Expression, text: string) {
    exists p :: p in e && Occurs(text, p)
  }

  /** `regex.some(reg => reg.test(text))` */
  predicate Applies(rule: Rule, text: string) {
    exists e :: e in rule.expressions && Tests(e, text)
  }

  /** `sources.find(...)`: the first rule from index `from` on that applies. */
  function FirstApplicable(rules: seq<Rule>, text: string, from: nat): (r: Option<Rule>)
    requires from <= |rules|
    ensures r.Some? ==> exists k :: from <= k < |rules| && rules[k] == r.value && Applies(rules[k], text) &&
                                    forall j :: from <= j < k ==> !Applies(rules[j], text)
    ensures r.None? ==> forall k :: from <= k < |rules| ==> !Applies(rules[k], text)
    decreases |rules| - from
  {
    if from == |rules| then None
    else if Applies(rules[from], text) then Some(rules[from])
    else FirstApplicable(rules, text, from + 1)
  }

  lemma CatchAllApplies(text: string)
    ensures Applies(Rules[3], text)
  {
    assert MatchesAt(text, 0, []);
    assert Occurs(text, []);
    assert Tests([[]], text);
  }

  /** `getRegionId` */
  function RegionId(text: string): (r: int)
    ensures r in {Canada, Australia, UnitedStates, Elsewhere}
  {
    CatchAllApplies(text);
    match FirstApplicable(Rules, text, 0)
    case Some(rule) => rule.id
    case None => assert false; Elsewhere
  }

  // The three marker sets, written out as plain predicates over the text.

  predicate MentionsCanada(text: string) {
    Occurs(text, CanadaWord) || Occurs(text, CanadaCode)
  }

  predicate MentionsAustralia(text: string) {
    Occurs(text, AusWord) || Occurs(text, AustraliaWord)
  }

  predicate MentionsUnitedStates(text: string) {
    Occurs(text, UnitedStatesWords) || Occurs(text, UsaWord) || Occurs(text, AmericaWord) ||
    Occurs(text, UsCode) || Occurs(text, UsDottedCode)
  }

  lemma RulesAreTheMarkers(text: string)
    ensures Applies(Rules[0], text) <==> MentionsCanada(text)
    ensures Applies(Rules[1], text) <==> MentionsAustralia(text)
    ensures Applies(Rules[2], text) <==> MentionsUnitedStates(text)
  {
    var r0, r1, r2 := Rules[0], Rules[1], Rules[2];
    assert r0.expressions == [[CanadaWord], [CanadaCode]];
    assert r1.expressions == [[AusWord, AustraliaWord]];
    assert r2.expressions == [[UnitedStatesWords, UsaWord, AmericaWord], [UsCode, UsDottedCode]];
    if MentionsCanada(text) {
      if Occurs(text, CanadaWord) { assert Tests([CanadaWord], text); }
      else { assert Tests([CanadaCode], text); }
    }
    if MentionsAustralia(text) {
      assert Tests([AusWord, AustraliaWord], text);
    }
    if MentionsUnitedStates(text) {
      if Occurs(text, UnitedStatesWords) || Occurs(text, UsaWord) || Occurs(text, AmericaWord) {
        assert Tests([UnitedStatesWords, UsaWord, AmericaWord], text);
      } else {
        assert Tests([UsCode, UsDottedCode], text);
      }
    }
  }

  /** The classifier, case by case: first match wins, in the order Canada, Australia, United States. */
  lemma {:induction false} RegionIdCases(text: string)
    ensures RegionId(text) == (if MentionsCanada(text) then Canada
                               else if MentionsAustralia(text) then Australia
                               else if MentionsUnitedStates(text) then UnitedStates
                               else Elsewhere)
  {
    RulesAreTheMarkers(text);
    CatchAllApplies(text);
    var r := FirstApplicable(Rules, text, 0);
    assert r.Some?;
    var k :| 0 <= k < |Rules| && Rules[k] == r.value && Applies(Rules[k], text) &&
             forall j :: 0 <= j < k ==> !Applies(Rules[j], text);
    assert !Applies(Rules[0], text) ==> k != 0;
    assert r.value.id == Rules[k].id;
  }

  /** A Canada marker decides the region whatever else the text mentions. */
  lemma CanadaWins(text: string)
    requires MentionsCanada(text)
    ensures RegionId(text) == Canada
  {
    RegionIdCases(text);
  }

  lemma AustraliaIff(text: string)
    ensures RegionId(text) == Australia <==> !MentionsCanada(text) && MentionsAustralia(text)
  {
    RegionIdCases(text);
  }

  lemma UnitedStatesIff(text: string)
    ensures RegionId(text) == UnitedStates <==>
              !MentionsCanada(text) && !MentionsAustralia(text) && MentionsUnitedStates(text)
  {
    RegionIdCases(text);
  }

  lemma ElsewhereIff(text: string)
    ensures RegionId(text) == Elsewhere <==>
              !MentionsCanada(text) && !MentionsAustralia(text) && !MentionsUnitedStates(text)
  {
    RegionIdCases(text);
  }

  /** The empty text falls through to the catch-all. */
  lemma EmptyIsElsewhere()
    ensures RegionId("") == Elsewhere
  {
    RegionIdCases("");
    TooLongMisses("", CanadaWord);
    TooLongMisses("", CanadaCode);
    TooLongMisses("", AusWord);
    TooLongMisses("", AustraliaWord);
    TooLongMisses("", UnitedStatesWords);
    TooLongMisses("", UsaWord);
    TooLongMisses("", AmericaWord);
    TooLongMisses("", UsCode);
    TooLongMisses("", UsDottedCode);
  }

  /** Lower-casing a text keeps every case-insensitive marker it has. */
  lemma FoldedMarkersIgnoreCase(text: string)
    ensures Occurs(text, CanadaWord) <==> Occurs(Lower(text), CanadaWord)
    ensures MentionsAustralia(text) <==> MentionsAustralia(Lower(text))
    ensures Occurs(text, UnitedStatesWords) <==> Occurs(Lower(text), UnitedStatesWords)
    ensures Occurs(text, UsaWord) <==> Occurs(Lower(text), UsaWord)
    ensures Occurs(text, AmericaWord) <==> Occurs(Lower(text), AmericaWord)
  {
    CaseBlindIgnoresCase(text, CanadaWord);
    CaseBlindIgnoresCase(text, AusWord);
    CaseBlindIgnoresCase(text, AustraliaWord);
    assert CaseBlind(UnitedStatesWords) by {
      forall k | 0 <= k < |UnitedStatesWords| ensures !UnitedStatesWords[k].Exact? {
        if k < 6 { assert UnitedStatesWords[k] == Folds("united")[k]; }
        else if k > 6 { assert UnitedStatesWords[k] == Folds("states")[k - 7]; }
      }
    }
    CaseBlindIgnoresCase(text, UnitedStatesWords);
    CaseBlindIgnoresCase(text, UsaWord);
    CaseBlindIgnoresCase(text, AmericaWord);
  }

  /** The `CA`, `US` and `U.S.` codes match only in upper case. */
  lemma CodesNeedUpperCase(text: string)
    requires forall k :: 0 <= k < |text| ==> !IsUpper(text[k])
    ensures !Occurs(text, CanadaCode) && !Occurs(text, UsCode) && !Occurs(text, UsDottedCode)
  {
    assert CanadaCode[1] == Exact('C');
    NeedsUpperMissesLowerText(text, CanadaCode);
    assert UsCode[1] == Exact('U');
    NeedsUpperMissesLowerText(text, UsCode);
    assert UsDottedCode[1] == Exact('U');
    NeedsUpperMissesLowerText(text, UsDottedCode);
  }

  /**
   * Lower-casing the terms drops exactly the case-sensitive markers: the
   * region of the lower-cased text is decided by the case-insensitive ones alone.
   */
  lemma {:induction false} RegionIdOfLowered(text: string)
    ensures RegionId(Lower(text)) ==
              (if Occurs(text, CanadaWord) then Canada
               else if MentionsAustralia(text) then Australia
               else if Occurs(text, UnitedStatesWords) || Occurs(text, UsaWord) || Occurs(text, AmericaWord)
               then UnitedStates
               else Elsewhere)
  {
    var t := Lower(text);
    FoldedMarkersIgnoreCase(text);
    CodesNeedUpperCase(t);
    RegionIdCases(t);
  }

  /** Every marker except the four-character codes is too long for a four-character text. */
  lemma OnlyCodesFitFourChars(text: string)
    requires |text| == 4
    ensures !Occurs(text, CanadaWord) && !MentionsAustralia(text) && !Occurs(text, UsDottedCode)
    ensures !Occurs(text, UnitedStatesWords) && !Occurs(text, UsaWord) && !Occurs(text, AmericaWord)
  {
    TooLongMisses(text, CanadaWord);
    TooLongMisses(text, AusWord);
    TooLongMisses(text, AustraliaWord);
    TooLongMisses(text, UsDottedCode);
    TooLongMisses(text, UnitedStatesWords);
    TooLongMisses(text, UsaWord);
    TooLongMisses(text, AmericaWord);
  }

  /** `CA` between spaces gives Canada in upper case only. */
  lemma CanadaCodeIsCaseSensitive()
    ensures RegionId(" CA ") == Canada && RegionId(" ca ") == Elsewhere
  {
    assert MatchesAt(" CA ", 0, CanadaCode);
    CanadaWins(" CA ");
    OnlyCodesFitFourChars(" ca ");
    CodesNeedUpperCase(" ca ");
    ElsewhereIff(" ca ");
  }

  /** `US` between spaces gives the United States in upper case only. */
  lemma UnitedStatesCodeIsCaseSensitive()
    ensures RegionId(" US ") == UnitedStates && RegionId(" us ") == Elsewhere
  {
    assert MatchesAt(" US ", 0, UsCode);
    assert !MatchesAt(" US ", 0, CanadaCode) by { assert CanadaCode[1] == Exact('C'); }
    OnlyCodesFitFourChars(" US ");
    UnitedStatesIff(" US ");
    OnlyCodesFitFourChars(" us ");
    CodesNeedUpperCase(" us ");
    ElsewhereIff(" us ");
  }

  /** Canada outranks the United States: "canada" in any case, next to "USA", gives Canada. */
  lemma CanadaBeforeUnitedStates()
    ensures RegionId("Open to CANADA and USA residents") == Canada
  {
    var t := "Open to CANADA and USA residents";
    assert MatchesAt(t, 8, CanadaWord);
    CanadaWins(t);
  }

  /** Terms open to Canada residents are classified as Canada. */
  lemma CanadaResidents()
    ensures RegionId("Open to Canada residents") == Canada
  {
    assert MatchesAt("Open to Canada residents", 8, CanadaWord);
    CanadaWins("Open to Canada residents");
  }
}
