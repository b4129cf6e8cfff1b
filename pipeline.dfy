/** The classification pass of the processing pipeline: every clipped feature has
    its SAWIT attribute set to 0 and is then classified. */
module Pipeline {
  import opened CodeLists
  import opened Features
  import opened Rules
  import RuleProperties

  /** `f.set('SAWIT', 0)`. */
  function ResetSawit(f: Feature): (g: Feature)
    ensures g.sawit == Some(0)
    ensures g.(sawit := f.sawit) == f
  {
    f.(sawit := Some(0))
  }

  /** The classification of a clipped feature, after the SAWIT reset. */
  function ClassifyClipped(f: Feature): Classification {
    Classify(ResetSawit(f))
  }

  /** SAWIT is read by the oil-palm obligation alone. */
  lemma FlagsIgnoreSawit(f: Feature)
    ensures FlagsOf(ResetSawit(f)) == FlagsOf(f).(sawit := 0)
  {
    var g := ResetSawit(f);
    assert Normalise(g) == Normalise(f).(sawit := 0);
  }

  /** The decision steps do not read the oil-palm flag, and the obligation list
      reads it only through the test `sawit == 1`. */
  lemma DecideIgnoresSawit(fl: Flags, s: int)
    ensures Decide(fl.(sawit := s)).arahan == Decide(fl).arahan
    ensures Decide(fl.(sawit := s)).ruang == Decide(fl).ruang
    ensures (s == 1) == (fl.sawit == 1) ==> Decide(fl.(sawit := s)).kewajiban == Decide(fl).kewajiban
  {
    StepsIgnoreSawit(fl, s);
    if (s == 1) == (fl.sawit == 1) {
      ObligationsIgnoreSawit(fl, s);
    }
  }

  lemma StepsIgnoreSawit(fl: Flags, s: int)
    ensures FinalState(fl.(sawit := s)) == FinalState(fl)
  {
  }

  lemma ObligationsIgnoreSawit(fl: Flags, s: int)
    requires (s == 1) == (fl.sawit == 1)
    ensures ObligationList(fl.(sawit := s)) == ObligationList(fl)
  {
  }

  /** After the reset no clipped feature carries the oil-palm obligation K1. */
  lemma ClippedNeverK1(f: Feature)
    ensures "K1" !in SplitPairs(ClassifyClipped(f).kewajiban)
  {
    FlagsIgnoreSawit(f);
    RuleProperties.KewajibanTable(FlagsOf(ResetSawit(f)));
  }

  /** The reset leaves Arahan and Ruang as the feature's own attributes give them,
      and Kewajiban too unless the feature carried SAWIT = 1. */
  lemma ClippedAgrees(f: Feature)
    ensures ClassifyClipped(f).arahan == Classify(f).arahan
    ensures ClassifyClipped(f).ruang == Classify(f).ruang
    ensures NumOr(f.sawit, 0) != 1 ==> ClassifyClipped(f).kewajiban == Classify(f).kewajiban
  {
    FlagsIgnoreSawit(f);
    DecideIgnoresSawit(FlagsOf(f), 0);
  }
}
