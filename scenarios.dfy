/** Worked queries: the exact values the model gives for concrete decks. */
module Scenarios {
  import opened Combinatorics
  import opened Distribution

  /** Two hearts in a five-card hand from a 52-card deck: 27.43%. The source
      keeps this example in a disabled block of its demonstration. */
  lemma HeartsFromADeck()
    ensures Feasible(Query(52, 13, 5, 2))
    ensures Pmf(Query(52, 13, 5, 2), 2) == 712842.0 / 2598960.0
    ensures 0.27425 <= Pmf(Query(52, 13, 5, 2), 2) < 0.27435
  {
    assert Choose(13, 2) == 78;
    assert Choose(39, 3) == 9139;
    assert Choose(52, 5) == 2598960;
  }

  /** No success among four draws from ten items, five of them successes:
      nothing lies below 0, and P(X = 0) = C(5, 0)·C(5, 4)/C(10, 4) = 5/210. */
  lemma NoSuccessInFourDraws()
    ensures Feasible(Query(10, 5, 4, 0))
    ensures AllProbabilities(Query(10, 5, 4, 0)) == Triple(0.0, 5.0 / 210.0, 205.0 / 210.0)
  {
  }

  // The four queries the source's demonstration runs, all on a 99-card deck.

  /** Three one-drops among the first thirteen cards of a 99-card deck holding
      22 of them: 40.99% fewer, 27.31% exactly, 31.70% more. */
  lemma ThreeOneDropsByTurnFive()
    ensures Feasible(Query(99, 22, 13, 3))
    ensures AllProbabilities(Query(99, 22, 13, 3)) == Triple(
      2535700254339945.0 / 6186171974825304.0,
      1689369842822200.0 / 6186171974825304.0,
      1961101877663159.0 / 6186171974825304.0)
  {
    var q := Query(99, 22, 13, 3);
    OneDropPointMass0();
    OneDropPointMass1();
    OneDropPointMass2();
    OneDropPointMass3();
    assert Cdf(q, -1) == 0.0;
    assert Cdf(q, 0) == Pmf(q, 0);
    assert Cdf(q, 1) == Cdf(q, 0) + Pmf(q, 1);
    assert Cdf(q, 2) == Cdf(q, 1) + Pmf(q, 2);
  }

  // The point masses of the 99-card query, each evaluated on its own.

  lemma OneDropPointMass0()
    ensures Pmf(Query(99, 22, 13, 3), 0) == 183746395242025.0 / 6186171974825304.0
  {
    assert Choose(77, 13) == 183746395242025;
    assert Choose(22, 0) == 1;
    assert Choose(99, 13) == 6186171974825304;
  }

  lemma OneDropPointMass1()
    ensures Pmf(Query(99, 22, 13, 3), 1) == 808484139064910.0 / 6186171974825304.0
  {
    assert Choose(99, 13) == 6186171974825304;
    assert Choose(22, 1) == 22 && Choose(77, 12) == 36749279048405;
  }

  lemma OneDropPointMass2()
    ensures Pmf(Query(99, 22, 13, 3), 2) == 1543469720033010.0 / 6186171974825304.0
  {
    assert Choose(99, 13) == 6186171974825304;
    assert Choose(22, 2) == 231 && Choose(77, 11) == 6681687099710;
  }

  lemma OneDropPointMass3()
    ensures Pmf(Query(99, 22, 13, 3), 3) == 1689369842822200.0 / 6186171974825304.0
  {
    assert Choose(99, 13) == 6186171974825304;
    assert Choose(22, 3) == 1540 && Choose(77, 10) == 1096993404430;
  }

  /** One ramp card among the first nine cards of a 99-card deck holding ten
      of them: 36.72% fewer, 40.80% exactly, 22.48% more. */
  lemma OneRampByTurnThree()
    ensures Feasible(Query(99, 10, 9, 1))
    ensures AllProbabilities(Query(99, 10, 9, 1)) == Triple(
      635627275767.0 / 1731030945644.0,
      706252528630.0 / 1731030945644.0,
      389151141247.0 / 1731030945644.0)
  {
    var q := Query(99, 10, 9, 1);
    RampPointMass0();
    RampPointMass1();
    assert Cdf(q, -1) == 0.0;
    assert Cdf(q, 0) == Pmf(q, 0);
  }

  lemma RampPointMass0()
    ensures Pmf(Query(99, 10, 9, 1), 0) == 635627275767.0 / 1731030945644.0
  {
    assert Choose(89, 9) == 635627275767;
    assert Choose(10, 0) == 1;
    assert Choose(99, 9) == 1731030945644;
  }

  lemma RampPointMass1()
    ensures Pmf(Query(99, 10, 9, 1), 1) == 706252528630.0 / 1731030945644.0
  {
    assert Choose(89, 8) == 70625252863;
    assert Choose(10, 1) == 10;
    assert Choose(99, 9) == 1731030945644;
  }

  /** Four lands among the first thirteen cards of a 99-card deck holding 37
      of them: 20.40% fewer, 21.66% exactly, 57.94% more. */
  lemma FourLandsByTurnFive()
    ensures Feasible(Query(99, 37, 13, 4))
    ensures AllProbabilities(Query(99, 37, 13, 4)) == Triple(
      1262164763068209.0 / 6186171974825304.0,
      1339827920427150.0 / 6186171974825304.0,
      3584179291329945.0 / 6186171974825304.0)
  {
    var q := Query(99, 37, 13, 4);
    LandPointMass0();
    LandPointMass1();
    LandPointMass2();
    LandPointMass3();
    LandPointMass4();
    assert Cdf(q, -1) == 0.0;
    assert Cdf(q, 0) == Pmf(q, 0);
    assert Cdf(q, 1) == Cdf(q, 0) + Pmf(q, 1);
    assert Cdf(q, 2) == Cdf(q, 1) + Pmf(q, 2);
    assert Cdf(q, 3) == Cdf(q, 2) + Pmf(q, 3);
  }

  lemma LandPointMass0()
    ensures Pmf(Query(99, 37, 13, 4), 0) == 8308281242850.0 / 6186171974825304.0
  {
    assert Choose(62, 13) == 8308281242850;
    assert Choose(37, 0) == 1;
    assert Choose(99, 13) == 6186171974825304;
  }

  lemma LandPointMass1()
    ensures Pmf(Query(99, 37, 13, 4), 1) == 79925665556217.0 / 6186171974825304.0
  {
    assert Choose(62, 12) == 2160153123141;
    assert Choose(37, 1) == 37;
    assert Choose(99, 13) == 6186171974825304;
  }

  lemma LandPointMass2()
    ensures Pmf(Query(99, 37, 13, 4), 2) == 338508701179272.0 / 6186171974825304.0
  {
    assert Choose(62, 11) == 508271323092;
    assert Choose(37, 2) == 666;
    assert Choose(99, 13) == 6186171974825304;
  }

  lemma LandPointMass3()
    ensures Pmf(Query(99, 37, 13, 4), 3) == 835422115089870.0 / 6186171974825304.0
  {
    assert Choose(62, 10) == 107518933731;
    assert Choose(37, 3) == 7770;
    assert Choose(99, 13) == 6186171974825304;
  }

  lemma LandPointMass4()
    ensures Pmf(Query(99, 37, 13, 4), 4) == 1339827920427150.0 / 6186171974825304.0
  {
    assert Choose(62, 9) == 20286591270;
    assert Choose(37, 4) == 66045;
    assert Choose(99, 13) == 6186171974825304;
  }

  /** Two removal cards among the first thirteen cards of a 99-card deck
      holding 13 of them: 46.20% fewer, 30.85% exactly, 22.95% more. */
  lemma TwoRemovalByTurnFive()
    ensures Feasible(Query(99, 13, 13, 2))
    ensures AllProbabilities(Query(99, 13, 13, 2)) == Triple(
      2858096220836850.0 / 6186171974825304.0,
      1908220291640208.0 / 6186171974825304.0,
      1419855462348246.0 / 6186171974825304.0)
  {
    var q := Query(99, 13, 13, 2);
    RemovalPointMass0();
    RemovalPointMass1();
    RemovalPointMass2();
    assert Cdf(q, -1) == 0.0;
    assert Cdf(q, 0) == Pmf(q, 0);
    assert Cdf(q, 1) == Cdf(q, 0) + Pmf(q, 1);
  }

  lemma RemovalPointMass0()
    ensures Pmf(Query(99, 13, 13, 2), 0) == 870366750378300.0 / 6186171974825304.0
  {
    assert Choose(86, 13) == 870366750378300;
    assert Choose(13, 0) == 1;
    assert Choose(99, 13) == 6186171974825304;
  }

  lemma RemovalPointMass1()
    ensures Pmf(Query(99, 13, 13, 2), 1) == 1987729470458550.0 / 6186171974825304.0
  {
    assert Choose(86, 12) == 152902266958350;
    assert Choose(13, 1) == 13;
    assert Choose(99, 13) == 6186171974825304;
  }

  lemma RemovalPointMass2()
    ensures Pmf(Query(99, 13, 13, 2), 2) == 1908220291640208.0 / 6186171974825304.0
  {
    assert Choose(86, 11) == 24464362713336;
    assert Choose(13, 2) == 78;
    assert Choose(99, 13) == 6186171974825304;
  }
}
