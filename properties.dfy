/** What the rule engine guarantees about every feature, and its behaviour on the
    named scenarios: the empty feature, a padded lower-case `hl`, and a river flag
    `ya` with and without HL. */
module RuleProperties {
  import Text
  import opened CodeLists
  import opened Features
  import opened Rules

  /** What each flag means in terms of the feature's own attributes. */
  lemma FlagsMeaning(f: Feature)
    ensures FlagsOf(f).hl <==> TextField(f.fKws) == "HL" || TextField(f.fKws) == "HUTAN LINDUNG"
    ensures FlagsOf(f).gambut <==>
              Text.Contains(TextField(f.pippib), "GAMBUT") || Text.Contains(TextField(f.pippib), "KAWASAN")
    ensures FlagsOf(f).lindungEg <==> Text.Trim(TextOr(f.fegKghltr, "")) == LindungEg
    ensures FlagsOf(f).budidayaEg <==> Text.Trim(TextOr(f.fegKghltr, "")) == BudidayaEg
    ensures FlagsOf(f).trigger <==>
              NumOr(f.pl2024Id, 0) in TuplahIds || NumOr(f.ketinggian, 0) == TriggerElevation
              || TextField(f.sungaiKec) == "YA" || TextField(f.spdPantai) == "YA"
              || TextField(f.spdDanau) == "YA"
    ensures FlagsOf(f).k3 <==> TextField(f.rurhl) == "RURHL" || Text.Contains(TextField(f.kritis), "KRITIS")
    ensures FlagsOf(f).sawit == NumOr(f.sawit, 0)
  {
  }

  /** Every code is two characters long. */
  lemma CodesAreShort()
    ensures forall c :: c in AllDirectives ==> |c| == 2
    ensures forall c :: c in AllObligations ==> |c| == 2
  {
  }

  /** The members the first three steps leave when the protective function is absent. */
  ghost predicate EarlyMembers(fl: Flags, codes: seq<string>) {
    forall c :: c in codes <==>
      (c in AllDirectives && c != "A6" && (fl.hl ==> c != "A3" && c != "A5")
       && !(fl.gambut && c == "A5") && !(fl.budidayaEg && c == "A5"))
  }

  /** What the first three steps leave: valid codes without A6, unless the
      protective function replaced them by exactly A6. */
  lemma EarlyStepsSpec(fl: Flags)
    ensures var s2 := EcoGate(fl, PeatGate(fl, ForestGate(fl)));
      ValidCodes(s2.codes)
      && (fl.lindungEg ==> s2 == State(Perlindungan, ["A6"]))
      && (!fl.lindungEg ==> s2.ruang == ForestGate(fl).ruang)
      && (!fl.lindungEg ==> EarlyMembers(fl, s2.codes))
  {
    var s0 := ForestGate(fl);
    ForestGateSpec(fl);
    var s1 := PeatGate(fl, s0);
    PeatGateSpec(fl, s0);
    EcoGateSpec(fl, s1);
  }

  /** After the four decision steps the candidates are distinct directive codes in
      ascending order. */
  lemma FinalStateValid(fl: Flags)
    ensures ValidCodes(FinalState(fl).codes)
  {
    EarlyStepsSpec(fl);
    TriggerGateSpec(fl, EcoGate(fl, PeatGate(fl, ForestGate(fl))));
  }

  /** The category after the four decision steps. */
  lemma FinalStateRuang(fl: Flags)
    ensures FinalState(fl).ruang == ExpectedRuang(fl)
  {
    EarlyStepsSpec(fl);
    ForestGateSpec(fl);
    TriggerGateSpec(fl, EcoGate(fl, PeatGate(fl, ForestGate(fl))));
  }

  /** Code `c` survives the four decision steps exactly when the reference table
      has it, except that after the protective-function override a trigger leaves
      nothing. */
  lemma FinalStateMember(fl: Flags, c: string)
    ensures c in FinalState(fl).codes <==>
              c in AllDirectives && DirectiveExpected(fl, c) && !(fl.lindungEg && fl.trigger)
  {
    var s2 := EcoGate(fl, PeatGate(fl, ForestGate(fl)));
    EarlyStepsSpec(fl);
    TriggerGateSpec(fl, s2);
    LastStepMember(fl, s2, FinalState(fl), c);
  }

  /** The per-code reasoning behind FinalStateMember, on the lists alone. */
  lemma LastStepMember(fl: Flags, s2: State, s3: State, c: string)
    requires fl.lindungEg ==> s2 == State(Perlindungan, ["A6"])
    requires !fl.lindungEg ==> EarlyMembers(fl, s2.codes)
    requires forall c :: c in s3.codes <==>
              (c in s2.codes && !(fl.trigger && (c == "A5" || c == "A6" || (fl.hl && (c == "A1" || c == "A3")))))
    ensures c in s3.codes <==>
              c in AllDirectives && DirectiveExpected(fl, c) && !(fl.lindungEg && fl.trigger)
  {
    if c == "A1" {
    } else if c == "A2" {
    } else if c == "A3" {
    } else if c == "A4" {
    } else if c == "A5" {
    } else if c == "A6" {
    } else {
      assert c !in AllDirectives;
    }
  }

  lemma FinalStateSpec(fl: Flags)
    ensures ValidCodes(FinalState(fl).codes)
    ensures FinalState(fl).ruang == ExpectedRuang(fl)
    ensures forall c :: c in FinalState(fl).codes <==>
              c in AllDirectives && DirectiveExpected(fl, c) && !(fl.lindungEg && fl.trigger)
  {
    FinalStateValid(fl);
    FinalStateRuang(fl);
    forall c ensures c in FinalState(fl).codes <==>
              c in AllDirectives && DirectiveExpected(fl, c) && !(fl.lindungEg && fl.trigger) {
      FinalStateMember(fl, c);
    }
  }

  /** Falling back and sorting keeps the members of the reference table and puts
      them in ascending order. */
  lemma {:induction false} FallbackSorted(fl: Flags, codes: seq<string>)
    requires ValidCodes(codes)
    requires forall c :: c in codes <==>
               c in AllDirectives && DirectiveExpected(fl, c) && !(fl.lindungEg && fl.trigger)
    ensures Sort(Fallback(codes)) != []
    ensures ValidCodes(Sort(Fallback(codes)))
    ensures forall c :: c in Sort(Fallback(codes)) <==> c in AllDirectives && DirectiveExpected(fl, c)
  {
    var cs := Fallback(codes);
    if fl.lindungEg && fl.trigger {
      SameMembersEmpty(codes, []);
      assert cs == ["A6"];
      assert ValidCodes(cs);
      assert forall c :: c in cs <==> c == "A6";
    } else {
      if fl.lindungEg {
        assert "A6" in AllDirectives && DirectiveExpected(fl, "A6");
        assert "A6" in codes;
      } else {
        assert "A2" in AllDirectives && DirectiveExpected(fl, "A2");
        assert "A2" in codes;
      }
      assert cs == codes;
    }
    AscendingDistinct(cs);
    SortAscending(cs);
    SortMembers(cs);
    assert cs[0] in Sort(cs);
  }

  /** The directive list is the reference table, never empty, distinct and ascending. */
  lemma DirectiveListSpec(fl: Flags)
    ensures DirectiveList(fl) != []
    ensures ValidCodes(DirectiveList(fl))
    ensures forall c :: c in DirectiveList(fl) <==> c in AllDirectives && DirectiveExpected(fl, c)
  {
    FinalStateSpec(fl);
    FallbackSorted(fl, FinalState(fl).codes);
  }

  /** The obligation codes before sorting are distinct and are those of the reference table. */
  lemma ObligationListSpec(fl: Flags)
    ensures Distinct(ObligationList(fl))
    ensures forall c :: c in ObligationList(fl) <==> c in AllObligations && ObligationExpected(fl, c)
  {
  }

  /** Sorting the obligation codes gives them in ascending order. */
  lemma {:induction false} ObligationsSorted(fl: Flags)
    ensures Ascending(Sort(ObligationList(fl)))
    ensures forall c :: c in Sort(ObligationList(fl)) <==> c in AllObligations && ObligationExpected(fl, c)
  {
    ObligationListSpec(fl);
    SortAscending(ObligationList(fl));
    SortMembers(ObligationList(fl));
  }

  /** Arahan is the concatenation of a non-empty, strictly ascending list of
      directive codes, and holds code `c` exactly when the reference table says so. */
  lemma ArahanTable(fl: Flags)
    ensures var cs := SplitPairs(Decide(fl).arahan);
      Decide(fl).arahan == Join(cs) && cs != [] && ValidCodes(cs)
      && forall c :: c in cs <==> c in AllDirectives && DirectiveExpected(fl, c)
  {
    DirectiveListSpec(fl);
    CodesAreShort();
    SplitJoin(DirectiveList(fl));
  }

  /** Kewajiban is the concatenation of a strictly ascending list of obligation codes
      (possibly empty), and holds code `c` exactly when the reference table says so. */
  lemma KewajibanTable(fl: Flags)
    ensures var ks := SplitPairs(Decide(fl).kewajiban);
      Decide(fl).kewajiban == Join(ks) && Ascending(ks)
      && forall c :: c in ks <==> c in AllObligations && ObligationExpected(fl, c)
  {
    ObligationsSorted(fl);
    CodesAreShort();
    SplitJoin(Sort(ObligationList(fl)));
  }

  /** Kewajiban as a string: K1, K2 and K3 in that order, each present exactly when
      its condition holds. */
  lemma KewajibanString(fl: Flags)
    ensures Decide(fl).kewajiban ==
      (if fl.sawit == 1 then "K1" else "")
      + (if fl.lindungEg || fl.budidayaEg then "K2" else "")
      + (if fl.k3 then "K3" else "")
  {
    KewajibanInOrder(fl);
    ObligationListSpec(fl);
    ObligationsInOrder(ObligationList(fl), fl.sawit == 1, fl.lindungEg || fl.budidayaEg, fl.k3);
  }

  /** Kewajiban lists the obligation codes in the order of AllObligations. */
  lemma KewajibanInOrder(fl: Flags)
    ensures Decide(fl).kewajiban == Join(FilterIn(AllObligations, ObligationList(fl)))
  {
    var present := ObligationList(fl);
    var inOrder := FilterIn(AllObligations, present);
    ObligationListSpec(fl);
    ObligationsAscending();
    FilterAscending(AllObligations, present);
    FilterMembers(AllObligations, present);
    KewajibanTable(fl);
    JoinedCodes(SplitPairs(Decide(fl).kewajiban), inOrder, Decide(fl).kewajiban);
  }

  /** The obligation codes of a list, taken in the order K1, K2, K3 and joined. */
  lemma ObligationsInOrder(present: seq<string>, k1: bool, k2: bool, k3: bool)
    requires "K1" in present <==> k1
    requires "K2" in present <==> k2
    requires "K3" in present <==> k3
    ensures Join(FilterIn(AllObligations, present)) ==
      (if k1 then "K1" else "") + (if k2 then "K2" else "") + (if k3 then "K3" else "")
  {
    var a: seq<string> := if k1 then ["K1"] else [];
    var b: seq<string> := if k2 then ["K2"] else [];
    var c: seq<string> := if k3 then ["K3"] else [];
    assert AllObligations[1..] == ["K2", "K3"] && ["K2", "K3"][1..] == ["K3"];
    assert FilterIn(["K3"], present) == c;
    assert FilterIn(["K2", "K3"], present) == b + c;
    assert FilterIn(AllObligations, present) == a + (b + c);
    JoinAppend(a, b + c);
    JoinAppend(b, c);
    assert Join(a) == (if k1 then "K1" else "");
    assert Join(b) == (if k2 then "K2" else "");
    assert Join(c) == (if k3 then "K3" else "");
  }

  /** Ruang is Perlindungan exactly when the feature is a protection forest, has the
      protective ecological function or triggers the physical-risk rule, and
      Pemanfaatan otherwise. */
  lemma RuangTable(fl: Flags)
    ensures Decide(fl).ruang == Perlindungan <==> (fl.hl || fl.lindungEg || fl.trigger)
    ensures Decide(fl).ruang == Pemanfaatan <==> !(fl.hl || fl.lindungEg || fl.trigger)
  {
    FinalStateRuang(fl);
  }

  /** The three tables hold of every feature. */
  lemma ClassifySpec(f: Feature)
    ensures var c := Classify(f); var fl := FlagsOf(f);
      var cs := SplitPairs(c.arahan); var ks := SplitPairs(c.kewajiban);
      c.arahan == Join(cs) && cs != [] && ValidCodes(cs)
      && (forall a :: a in cs <==> a in AllDirectives && DirectiveExpected(fl, a))
      && c.kewajiban == Join(ks) && Ascending(ks)
      && (forall k :: k in ks <==> k in AllObligations && ObligationExpected(fl, k))
      && (c.ruang == Perlindungan <==> (fl.hl || fl.lindungEg || fl.trigger))
  {
    ArahanTable(FlagsOf(f));
    KewajibanTable(FlagsOf(f));
    RuangTable(FlagsOf(f));
  }

  /** No decision step turns Perlindungan back into Pemanfaatan. */
  lemma ProtectionIsKept(fl: Flags, s: State)
    requires s.ruang == Perlindungan
    ensures PeatGate(fl, s).ruang == Perlindungan
    ensures EcoGate(fl, s).ruang == Perlindungan
    ensures TriggerGate(fl, s).ruang == Perlindungan
  {
  }

  /** The two code lists that fix the shape of a string made of distinct ascending
      codes with given members. */
  lemma {:induction false} JoinedCodes(cs: seq<string>, expected: seq<string>, s: string)
    requires Ascending(cs) && Ascending(expected)
    requires forall c :: c in cs <==> c in expected
    requires s == Join(cs)
    ensures s == Join(expected)
  {
    AscendingUnique(cs, expected);
  }

  /** With the protective ecological function Arahan is exactly A6. */
  lemma LindungArahan(fl: Flags)
    requires fl.lindungEg
    ensures Decide(fl).arahan == "A6"
  {
    assert Ascending(["A6"]);
    assert forall c :: c in ["A6"] <==> c in AllDirectives && DirectiveExpected(fl, c);
    ArahanIs(fl, ["A6"]);
  }

  /** With the protective ecological function the outcome is Arahan A6, Ruang
      Perlindungan and obligation K2, whatever the other flags are. */
  lemma LindungDecision(fl: Flags)
    requires fl.lindungEg
    ensures Decide(fl).arahan == "A6"
    ensures Decide(fl).ruang == Perlindungan
    ensures "K2" in SplitPairs(Decide(fl).kewajiban)
  {
    LindungArahan(fl);
    KewajibanTable(fl);
    RuangTable(fl);
  }

  /** A feature whose trimmed feg_kghltr is exactly the protective function gets
      Arahan A6, Ruang Perlindungan and obligation K2. */
  lemma LindungOverride(f: Feature)
    requires Text.Trim(TextOr(f.fegKghltr, "")) == LindungEg
    ensures Classify(f).arahan == "A6"
    ensures Classify(f).ruang == Perlindungan
    ensures "K2" in SplitPairs(Classify(f).kewajiban)
  {
    assert Normalise(f).feg == LindungEg;
    LindungDecision(FlagsOf(f));
  }

  /** Setting the peat flag removes A5, and only A5, from Arahan. */
  lemma PeatArahan(fl: Flags)
    ensures forall c :: c in SplitPairs(Decide(fl.(gambut := true)).arahan) <==>
              c in SplitPairs(Decide(fl).arahan) && c != "A5"
  {
    var g := fl.(gambut := true);
    ArahanTable(fl);
    ArahanTable(g);
    PeatMembers(fl, SplitPairs(Decide(fl).arahan), SplitPairs(Decide(g).arahan));
  }

  /** Two code lists that follow the reference table without and with the peat
      flag differ exactly by A5. */
  lemma PeatMembers(fl: Flags, cf: seq<string>, cg: seq<string>)
    requires forall c :: c in cf <==> c in AllDirectives && DirectiveExpected(fl, c)
    requires forall c :: c in cg <==> c in AllDirectives && DirectiveExpected(fl.(gambut := true), c)
    ensures forall c :: c in cg <==> c in cf && c != "A5"
  {
    forall c ensures c in cg <==> c in cf && c != "A5" {
      ExpectedWithPeat(fl, c);
    }
  }

  /** In the reference table the peat flag only rules out A5. */
  lemma ExpectedWithPeat(fl: Flags, c: string)
    ensures DirectiveExpected(fl.(gambut := true), c) <==> DirectiveExpected(fl, c) && c != "A5"
  {
    if c == "A5" {
    } else if c == "A6" {
      assert c != "A5" && c != "A1" && c != "A2" && c != "A3" && c != "A4";
    }
  }

  /** Setting the peat flag keeps Ruang and Kewajiban and removes A5, and only A5,
      from Arahan. */
  lemma PeatDecision(fl: Flags)
    ensures var g := fl.(gambut := true);
      Decide(g).ruang == Decide(fl).ruang
      && Decide(g).kewajiban == Decide(fl).kewajiban
      && forall c :: c in SplitPairs(Decide(g).arahan) <==>
           c in SplitPairs(Decide(fl).arahan) && c != "A5"
  {
    PeatKeepsRuang(fl);
    PeatKeepsKewajiban(fl);
    PeatArahan(fl);
  }

  lemma PeatKeepsRuang(fl: Flags)
    ensures Decide(fl.(gambut := true)).ruang == Decide(fl).ruang
  {
    RuangTable(fl);
    RuangTable(fl.(gambut := true));
  }

  lemma PeatKeepsKewajiban(fl: Flags)
    ensures Decide(fl.(gambut := true)).kewajiban == Decide(fl).kewajiban
  {
    KewajibanString(fl);
    KewajibanString(fl.(gambut := true));
  }

  /** Peat only removes A5: giving a feature a PIPPIB value that mentions GAMBUT or
      KAWASAN leaves Ruang and Kewajiban as they were, and Arahan loses A5 and
      nothing else. */
  lemma PeatOnlyRemovesA5(f: Feature, pippib: Option<string>)
    requires FlagsOf(f.(pippib := pippib)).gambut
    ensures var g := f.(pippib := pippib);
      Classify(g).ruang == Classify(f).ruang
      && Classify(g).kewajiban == Classify(f).kewajiban
      && forall c :: c in SplitPairs(Classify(g).arahan) <==>
           c in SplitPairs(Classify(f).arahan) && c != "A5"
  {
    FlagsIgnorePippib(f, pippib);
    PeatDecision(FlagsOf(f));
  }

  /** PIPPIB is read by the peat test alone. */
  lemma FlagsIgnorePippib(f: Feature, pippib: Option<string>)
    ensures FlagsOf(f.(pippib := pippib)) == FlagsOf(f).(gambut := FlagsOf(f.(pippib := pippib)).gambut)
  {
    var g := f.(pippib := pippib);
    assert Normalise(g) == Normalise(f).(pippib := Normalise(g).pippib);
  }

  /** The flags of a feature that carries no attributes. */
  lemma MissingFlags()
    ensures FlagsOf(Missing) == Flags(false, false, false, false, false, false, 0)
  {
    assert Normalise(Missing) == Normalised("", "", "", 0, 0, "", "", "", "", "", 0);
    BlankTests(Normalise(Missing));
  }

  /** On values that are blank except for the designation and the river flag, only
      the protection-forest test and the trigger can hold. */
  lemma BlankTests(n: Normalised)
    requires n.pippib == "" && n.feg == "" && n.tuplah == 0 && n.tinggi == 0
    requires n.spdPantai == "" && n.spdDanau == "" && n.rurhl == "" && n.lakris == "" && n.sawit == 0
    ensures Tests(n) == Flags(n.fKws == "HL" || n.fKws == "HUTAN LINDUNG", false, false, false,
                              n.spdSungai == "YA", false, 0)
  {
  }

  /** Arahan is fixed by the reference table: an ascending list with the table's
      members joins into it. */
  lemma {:induction false} ArahanIs(fl: Flags, expected: seq<string>)
    requires Ascending(expected)
    requires forall c :: c in expected <==> c in AllDirectives && DirectiveExpected(fl, c)
    ensures Decide(fl).arahan == Join(expected)
  {
    ArahanTable(fl);
    JoinedCodes(SplitPairs(Decide(fl).arahan), expected, Decide(fl).arahan);
  }

  /** Without the ecological functions, the rehabilitation test and oil palm,
      Kewajiban is empty. */
  lemma NoObligation(fl: Flags)
    requires !fl.lindungEg && !fl.budidayaEg && !fl.k3 && fl.sawit != 1
    ensures Decide(fl).kewajiban == ""
  {
    KewajibanTable(fl);
    JoinedCodes(SplitPairs(Decide(fl).kewajiban), [], Decide(fl).kewajiban);
  }

  lemma JoinCodes()
    ensures Join(OtherStart) == "A1A2A3A4A5"
    ensures Join(HlStart) == "A1A2A4"
    ensures Join(OtherConstraint) == "A1A2A3A4"
    ensures Join(HlConstraint) == "A2A4"
  {
    assert Join(["A5"]) == "A5";
    assert Join(["A4", "A5"]) == "A4A5";
    assert Join(["A3", "A4", "A5"]) == "A3A4A5";
    assert Join(["A2", "A3", "A4", "A5"]) == "A2A3A4A5";
    assert Join(["A4"]) == "A4";
    assert Join(["A2", "A4"]) == "A2A4";
    assert Join(["A3", "A4"]) == "A3A4";
    assert Join(["A2", "A3", "A4"]) == "A2A3A4";
  }

  /** A code of the reference table is one of A1 to A6. */
  lemma OneOfSix(c: string)
    requires c in AllDirectives
    ensures c == "A1" || c == "A2" || c == "A3" || c == "A4" || c == "A5" || c == "A6"
  {
  }

  /** A feature with no protective function that does not trigger: a protection
      forest keeps A1, A2 and A4; otherwise A5 survives exactly when neither peat
      nor the cultivation function removes it. */
  lemma UntriggeredArahan(fl: Flags)
    requires !fl.lindungEg && !fl.trigger
    ensures fl.hl ==> Decide(fl).arahan == "A1A2A4"
    ensures !fl.hl && !fl.gambut && !fl.budidayaEg ==> Decide(fl).arahan == "A1A2A3A4A5"
    ensures !fl.hl && (fl.gambut || fl.budidayaEg) ==> Decide(fl).arahan == "A1A2A3A4"
  {
    StartsAscending();
    ConstraintsAscending();
    JoinCodes();
    var expected :=
      if fl.hl then HlStart
      else if !fl.gambut && !fl.budidayaEg then OtherStart
      else OtherConstraint;
    forall c ensures c in expected <==> c in AllDirectives && DirectiveExpected(fl, c) {
      if c in AllDirectives { OneOfSix(c); }
    }
    ArahanIs(fl, expected);
  }

  /** When the physical-risk rule fires (and the protective function is absent),
      Arahan is A2A4 for a protection forest and A1A2A3A4 otherwise. */
  lemma TriggeredArahan(fl: Flags)
    requires !fl.lindungEg && fl.trigger
    ensures Decide(fl).arahan == (if fl.hl then "A2A4" else "A1A2A3A4")
  {
    ConstraintsAscending();
    JoinCodes();
    var expected := if fl.hl then HlConstraint else OtherConstraint;
    forall c ensures c in expected <==> c in AllDirectives && DirectiveExpected(fl, c) {
      if c in AllDirectives { OneOfSix(c); }
    }
    ArahanIs(fl, expected);
  }

  /** No flag set and no oil palm: the flags of an unremarkable feature. */
  predicate Plain(fl: Flags) {
    !fl.hl && !fl.gambut && !fl.lindungEg && !fl.budidayaEg && !fl.trigger && !fl.k3 && fl.sawit != 1
  }

  /** An unremarkable feature is Pemanfaatan with directives A1 to A5 and no obligation. */
  lemma PlainDecision(fl: Flags)
    requires Plain(fl)
    ensures Decide(fl) == Classification("A1A2A3A4A5", "", Pemanfaatan)
  {
    UntriggeredArahan(fl);
    NoObligation(fl);
    RuangTable(fl);
  }

  /** Without any attribute a feature is Pemanfaatan with directives A1 to A5 and no obligation. */
  lemma MissingScenario()
    ensures Classify(Missing) == Classification("A1A2A3A4A5", "", Pemanfaatan)
  {
    MissingFlags();
    PlainDecision(FlagsOf(Missing));
  }

  /** A designation padded with spaces and in lower case still names a protection forest. */
  lemma PaddedHlFlags()
    ensures FlagsOf(Missing.(fKws := Some(" hl "))) == Flags(true, false, false, false, false, false, 0)
  {
    PaddedHlField();
    assert Normalise(Missing.(fKws := Some(" hl "))) == Normalised("HL", "", "", 0, 0, "", "", "", "", "", 0);
    BlankTests(Normalise(Missing.(fKws := Some(" hl "))));
  }

  lemma PaddedHlField()
    ensures TextField(Some(" hl ")) == "HL"
  {
    Text.TrimPadded([' '], "hl", [' ']);
    assert [' '] + "hl" + [' '] == " hl ";
    assert Text.ToUpper("hl") == "HL";
  }

  /** With only F_KWS " hl " the feature is a protection forest: A1A2A4, no
      obligation, Perlindungan. */
  lemma PaddedHlScenario()
    ensures Classify(Missing.(fKws := Some(" hl "))) == Classification("A1A2A4", "", Perlindungan)
  {
    PaddedHlFlags();
    var fl := Flags(true, false, false, false, false, false, 0);
    UntriggeredArahan(fl);
    NoObligation(fl);
    RuangTable(fl);
  }

  /** A river buffer flag "ya" normalises to YA; a designation HL stays HL. */
  lemma RiverFields()
    ensures TextField(Some("ya")) == "YA"
    ensures TextField(Some("HL")) == "HL"
  {
    Text.TrimClean("ya");
    Text.TrimClean("HL");
    assert Text.ToUpper("ya") == "YA";
    assert Text.ToUpper("HL") == "HL";
  }

  /** Sungai_Kec "ya" alone fires the physical-risk rule and nothing else. */
  lemma RiverFlags()
    ensures FlagsOf(Missing.(sungaiKec := Some("ya"))) == Flags(false, false, false, false, true, false, 0)
  {
    RiverFields();
    assert Normalise(Missing.(sungaiKec := Some("ya"))) == Normalised("", "", "", 0, 0, "YA", "", "", "", "", 0);
    BlankTests(Normalise(Missing.(sungaiKec := Some("ya"))));
  }

  /** Sungai_Kec "ya" on a protection forest fires the physical-risk rule. */
  lemma HlRiverFlags()
    ensures FlagsOf(Missing.(fKws := Some("HL"), sungaiKec := Some("ya")))
         == Flags(true, false, false, false, true, false, 0)
  {
    RiverFields();
    var f := Missing.(fKws := Some("HL"), sungaiKec := Some("ya"));
    assert Normalise(f) == Normalised("HL", "", "", 0, 0, "YA", "", "", "", "", 0);
    BlankTests(Normalise(f));
  }

  /** Sungai_Kec "ya" on an otherwise empty feature gives A1A2A3A4 and
      Perlindungan; on a protection forest it gives A2A4. */
  lemma RiverScenario()
    ensures Classify(Missing.(sungaiKec := Some("ya")))
         == Classification("A1A2A3A4", "", Perlindungan)
    ensures Classify(Missing.(fKws := Some("HL"), sungaiKec := Some("ya")))
         == Classification("A2A4", "", Perlindungan)
  {
    RiverFlags();
    HlRiverFlags();
    var fl := Flags(false, false, false, false, true, false, 0);
    var hl := fl.(hl := true);
    TriggeredArahan(fl);
    TriggeredArahan(hl);
    NoObligation(fl);
    NoObligation(hl);
    RuangTable(fl);
    RuangTable(hl);
  }
}
