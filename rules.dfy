/** The land classification rule engine: from the attributes of one clipped feature
    to its directive codes (Arahan), obligation codes (Kewajiban) and spatial
    category (Ruang). */
module Rules {
  import Text
  import opened CodeLists
  import opened Features

  const Perlindungan := "Perlindungan"
  const Pemanfaatan := "Pemanfaatan"

  /** Every directive code, in string order. */
  const AllDirectives: seq<string> := ["A1", "A2", "A3", "A4", "A5", "A6"]
  /** Every obligation code, in string order. */
  const AllObligations: seq<string> := ["K1", "K2", "K3"]

  /** Candidate directives of a protection forest, and of any other feature. */
  const HlStart: seq<string> := ["A1", "A2", "A4"]
  const OtherStart: seq<string> := ["A1", "A2", "A3", "A4", "A5"]
  /** The list the peat gate and the cultivation-function gate filter by. */
  const FirstFour: seq<string> := ["A1", "A2", "A3", "A4"]
  /** What the physical-risk trigger leaves of a protection forest's candidates. */
  const HlConstraint: seq<string> := ["A2", "A4"]
  /** What the trigger leaves otherwise. */
  const OtherConstraint: seq<string> := ["A1", "A2", "A3", "A4"]

  /** Land-cover identifiers that trigger the physical-risk rule. */
  const TuplahIds: seq<int> := [2001, 2002, 2004, 2005, 20041, 20051]
  /** The elevation band that triggers the physical-risk rule. */
  const TriggerElevation := 2000

  const LindungEg := "Indikatif Fungsi Lindung E.G."
  const BudidayaEg := "Indikatif Fungsi Budidaya E.G."

  /** `to_num`: a condition as 1 or 0. */
  function ToNum(b: bool): (r: int)
    ensures 0 <= r <= 1
    ensures r == 1 <==> b
  {
    if b then 1 else 0
  }

  /** `match(p).length().gt(0)` for a pattern `p` that is an alternation of literals. */
  function MatchesAny(s: string, alternatives: seq<string>): (b: bool)
    ensures b <==> exists i :: 0 <= i < |alternatives| && Text.Contains(s, alternatives[i])
  {
    if alternatives == [] then false
    else
      assert forall i :: 1 <= i < |alternatives| ==> alternatives[i] == alternatives[1..][i - 1];
      Text.Contains(s, alternatives[0]) || MatchesAny(s, alternatives[1..])
  }

  /** The protection-forest test: the designation is exactly HL or HUTAN LINDUNG. */
  function IsHl(n: Normalised): (b: bool)
    ensures b <==> n.fKws == "HL" || n.fKws == "HUTAN LINDUNG"
  {
    ToNum(Text.Compare(n.fKws, "HL") == 0) + ToNum(Text.Compare(n.fKws, "HUTAN LINDUNG") == 0) > 0
  }

  /** The peat test: PIPPIB mentions GAMBUT or KAWASAN anywhere. */
  function IsGambut(n: Normalised): (b: bool)
    ensures b <==> Text.Contains(n.pippib, "GAMBUT") || Text.Contains(n.pippib, "KAWASAN")
  {
    var p := ["GAMBUT", "KAWASAN"];
    assert forall i :: 0 <= i < |p| ==> p[i] == "GAMBUT" || p[i] == "KAWASAN";
    assert p[0] == "GAMBUT" && p[1] == "KAWASAN";
    ToNum(MatchesAny(n.pippib, p)) == 1
  }

  /** The protective ecological function, compared exactly (case included). */
  function IsLindungEg(n: Normalised): (b: bool)
    ensures b <==> n.feg == LindungEg
  {
    ToNum(Text.Compare(n.feg, LindungEg) == 0) == 1
  }

  /** The cultivation ecological function, compared exactly (case included). */
  function IsBudidayaEg(n: Normalised): (b: bool)
    ensures b <==> n.feg == BudidayaEg
  {
    ToNum(Text.Compare(n.feg, BudidayaEg) == 0) == 1
  }

  /** The physical-risk trigger: any one of five conditions. */
  function IsTrigger(n: Normalised): (b: bool)
    ensures b <==> n.tuplah in TuplahIds || n.tinggi == TriggerElevation
                   || n.spdSungai == "YA" || n.spdPantai == "YA" || n.spdDanau == "YA"
  {
    ToNum(n.tuplah in TuplahIds) + ToNum(n.tinggi == TriggerElevation)
      + ToNum(Text.Compare(n.spdSungai, "YA") == 0) + ToNum(Text.Compare(n.spdPantai, "YA") == 0)
      + ToNum(Text.Compare(n.spdDanau, "YA") == 0) > 0
  }

  /** The rehabilitation obligation test: RURHL is exactly RURHL or KRITIS mentions KRITIS. */
  function IsK3(n: Normalised): (b: bool)
    ensures b <==> n.rurhl == "RURHL" || Text.Contains(n.lakris, "KRITIS")
  {
    assert ["KRITIS"][0] == "KRITIS";
    ToNum(Text.Compare(n.rurhl, "RURHL") == 0) + ToNum(MatchesAny(n.lakris, ["KRITIS"])) > 0
  }

  /** The facts about a feature that the decision steps read. */
  datatype Flags = Flags(
    hl: bool, gambut: bool, lindungEg: bool, budidayaEg: bool,
    trigger: bool, k3: bool, sawit: int)

  /** The tests of lines 87-112 on the normalised attribute values. */
  function Tests(n: Normalised): Flags {
    Flags(IsHl(n), IsGambut(n), IsLindungEg(n), IsBudidayaEg(n), IsTrigger(n), IsK3(n), n.sawit)
  }

  function FlagsOf(f: Feature): Flags {
    Tests(Normalise(f))
  }

  /** The working state threaded through the decision steps. */
  datatype State = State(ruang: string, codes: seq<string>)

  /** Distinct directive codes in ascending order. */
  predicate ValidCodes(cs: seq<string>) {
    Ascending(cs) && forall c :: c in cs ==> c in AllDirectives
  }

  /** Step 1: the protection-forest gate sets the category and the first candidates. */
  function ForestGate(fl: Flags): State {
    State(if fl.hl then Perlindungan else Pemanfaatan, if fl.hl then HlStart else OtherStart)
  }

  /** A protection forest starts Perlindungan with every code but A3, A5 and A6,
      any other feature Pemanfaatan with every code but A6. */
  lemma ForestGateSpec(fl: Flags)
    ensures ForestGate(fl).ruang == (if fl.hl then Perlindungan else Pemanfaatan)
    ensures ValidCodes(ForestGate(fl).codes)
    ensures forall c :: c in ForestGate(fl).codes <==>
              c in AllDirectives && c != "A6" && (fl.hl ==> c != "A3" && c != "A5")
  {
    StartsAscending();
  }

  /** Step 2: the peat gate. */
  function PeatGate(fl: Flags, s: State): State {
    State(s.ruang, if fl.gambut then FilterIn(s.codes, FirstFour) else s.codes)
  }

  /** On peat, A5 is dropped; the category is untouched. */
  lemma PeatGateSpec(fl: Flags, s: State)
    requires ValidCodes(s.codes) && "A6" !in s.codes
    ensures PeatGate(fl, s).ruang == s.ruang
    ensures ValidCodes(PeatGate(fl, s).codes)
    ensures forall c :: c in PeatGate(fl, s).codes <==> c in s.codes && !(fl.gambut && c == "A5")
  {
    FilterAscending(s.codes, FirstFour);
    FilterMembers(s.codes, FirstFour);
  }

  /** Step 3: the ecological-function gate. */
  function EcoGate(fl: Flags, s: State): State {
    State(if fl.lindungEg then Perlindungan else s.ruang,
          if fl.lindungEg then ["A6"]
          else if fl.budidayaEg then FilterIn(s.codes, FirstFour)
          else s.codes)
  }

  /** The protective function replaces everything by A6 and protects; otherwise
      the cultivation function drops A5 and the category is untouched. */
  lemma EcoGateSpec(fl: Flags, s: State)
    requires ValidCodes(s.codes) && "A6" !in s.codes
    ensures fl.lindungEg ==> EcoGate(fl, s) == State(Perlindungan, ["A6"])
    ensures !fl.lindungEg ==> EcoGate(fl, s).ruang == s.ruang
    ensures ValidCodes(EcoGate(fl, s).codes)
    ensures !fl.lindungEg ==>
              forall c :: c in EcoGate(fl, s).codes <==> c in s.codes && !(fl.budidayaEg && c == "A5")
  {
    FilterAscending(s.codes, FirstFour);
    FilterMembers(s.codes, FirstFour);
    assert ValidCodes(["A6"]);
  }

  /** Step 4: the physical-risk gate. */
  function TriggerGate(fl: Flags, s: State): State {
    var constraint := if fl.hl then HlConstraint else OtherConstraint;
    State(if fl.trigger then Perlindungan else s.ruang,
          if fl.trigger then FilterIn(s.codes, constraint) else s.codes)
  }

  /** The trigger protects and drops A5 and A6, and for a protection forest also
      A1 and A3. */
  lemma TriggerGateSpec(fl: Flags, s: State)
    requires ValidCodes(s.codes)
    ensures TriggerGate(fl, s).ruang == (if fl.trigger then Perlindungan else s.ruang)
    ensures ValidCodes(TriggerGate(fl, s).codes)
    ensures forall c :: c in TriggerGate(fl, s).codes <==>
              (c in s.codes && !(fl.trigger && (c == "A5" || c == "A6" || (fl.hl && (c == "A1" || c == "A3")))))
  {
    var constraint := if fl.hl then HlConstraint else OtherConstraint;
    FilterAscending(s.codes, constraint);
    FilterMembers(s.codes, constraint);
  }

  /** Step 5: an empty candidate list becomes the single code A6. */
  function Fallback(cs: seq<string>): (r: seq<string>)
    ensures r != []
    ensures cs == [] ==> r == ["A6"]
    ensures cs != [] ==> r == cs
  {
    if |cs| == 0 then ["A6"] else cs
  }

  /** Steps 1 to 4 in order. */
  function FinalState(fl: Flags): State {
    TriggerGate(fl, EcoGate(fl, PeatGate(fl, ForestGate(fl))))
  }

  /** The directive codes, as joined into Arahan. */
  function DirectiveList(fl: Flags): seq<string> {
    Sort(Fallback(FinalState(fl).codes))
  }

  /** The obligation codes in the order they are added, before sorting. */
  function ObligationList(fl: Flags): seq<string> {
    var k2 := ToNum(fl.lindungEg) + ToNum(fl.budidayaEg) > 0;
    var l1 := if k2 then [] + ["K2"] else [];
    var l2 := if fl.k3 then l1 + ["K3"] else l1;
    if fl.sawit == 1 then l2 + ["K1"] else l2
  }

  datatype Classification = Classification(arahan: string, kewajiban: string, ruang: string)

  /** The decision steps on the flags of a feature: Arahan is the sorted, joined
      directive list, Kewajiban the sorted, joined obligation list. */
  function Decide(fl: Flags): Classification {
    Classification(Join(DirectiveList(fl)), Join(Sort(ObligationList(fl))), FinalState(fl).ruang)
  }

  /** `calculate_attributes`: the three derived attributes of a feature. */
  function Classify(f: Feature): Classification {
    Decide(FlagsOf(f))
  }

  // ---------------------------------------------------------------------------
  // Reference definitions, stated code by code

  /** Whether directive code `c` belongs to a feature's Arahan. */
  predicate DirectiveExpected(fl: Flags, c: string) {
    if fl.lindungEg then c == "A6"
    else if c == "A1" then !(fl.hl && fl.trigger)
    else if c == "A2" || c == "A4" then true
    else if c == "A3" then !fl.hl
    else if c == "A5" then !fl.hl && !fl.gambut && !fl.budidayaEg && !fl.trigger
    else false
  }

  /** Whether obligation code `c` belongs to a feature's Kewajiban. */
  predicate ObligationExpected(fl: Flags, c: string) {
    (c == "K1" && fl.sawit == 1)
    || (c == "K2" && (fl.lindungEg || fl.budidayaEg))
    || (c == "K3" && fl.k3)
  }

  /** The category a feature's Ruang must be. */
  function ExpectedRuang(fl: Flags): string {
    if fl.hl || fl.lindungEg || fl.trigger then Perlindungan else Pemanfaatan
  }

  // ---------------------------------------------------------------------------
  // Code lists

  /** Prepending a code whose digit is below the first code's keeps a code list ascending. */
  lemma ConsCode(p: char, d: char, xs: seq<string>)
    requires xs != [] && |xs[0]| == 2 && xs[0][0] == p && d < xs[0][1] && Ascending(xs)
    ensures Ascending([[p, d]] + xs)
  {
    assert [p, d][1..] == [d] && xs[0][1..] == [xs[0][1]];
    assert xs[0] == [p, xs[0][1]];
    assert Text.Compare([d], [xs[0][1]]) == -1;
    assert Text.Compare([p, d], xs[0]) == Text.Compare([d], [xs[0][1]]);
    ConsAscendingList([p, d], xs);
  }

  /** The first candidates are listed in ascending order. */
  lemma StartsAscending()
    ensures Ascending(HlStart) && Ascending(OtherStart)
  {
    ConsCode('A', '4', ["A5"]);
    assert [['A', '4']] + ["A5"] == ["A4", "A5"];
    ConsCode('A', '3', ["A4", "A5"]);
    assert [['A', '3']] + ["A4", "A5"] == ["A3", "A4", "A5"];
    ConsCode('A', '2', ["A3", "A4", "A5"]);
    assert [['A', '2']] + ["A3", "A4", "A5"] == ["A2", "A3", "A4", "A5"];
    ConsCode('A', '1', ["A2", "A3", "A4", "A5"]);
    assert [['A', '1']] + ["A2", "A3", "A4", "A5"] == OtherStart;
    ConsCode('A', '2', ["A4"]);
    assert [['A', '2']] + ["A4"] == ["A2", "A4"];
    ConsCode('A', '1', ["A2", "A4"]);
    assert [['A', '1']] + ["A2", "A4"] == HlStart;
  }

  /** The trigger's constraint lists are listed in ascending order. */
  lemma ConstraintsAscending()
    ensures Ascending(HlConstraint) && Ascending(OtherConstraint)
  {
    ConsCode('A', '3', ["A4"]);
    assert [['A', '3']] + ["A4"] == ["A3", "A4"];
    ConsCode('A', '2', ["A3", "A4"]);
    assert [['A', '2']] + ["A3", "A4"] == ["A2", "A3", "A4"];
    ConsCode('A', '1', ["A2", "A3", "A4"]);
    assert [['A', '1']] + ["A2", "A3", "A4"] == OtherConstraint;
    ConsCode('A', '2', ["A4"]);
    assert [['A', '2']] + ["A4"] == HlConstraint;
  }

  /** The obligation codes are listed in ascending order. */
  lemma ObligationsAscending()
    ensures Ascending(AllObligations)
  {
    ConsCode('K', '2', ["K3"]);
    assert [['K', '2']] + ["K3"] == ["K2", "K3"];
    ConsCode('K', '1', ["K2", "K3"]);
    assert [['K', '1']] + ["K2", "K3"] == AllObligations;
  }
}
