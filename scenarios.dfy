/**
 * Concrete end to end cases: feature aggregation of a small table followed
 * by rule evaluation of one user.
 */
module Scenarios {
  import opened FeatureAggregator
  import opened RuleEvaluator

  /**
   * Income 5000 and 2000 of non-travel spend leave a surplus of 3000: rule 1
   * recommends 103 and 106 citing that surplus, and nothing else fires.
   */
  lemma HighSurplus()
    ensures
      var u := User(1, 5000.0, 600.0, 0.0);
      var txs := [Transaction(1, "alimentacao", 1500.0), Transaction(1, "lazer", 500.0)];
      Recommend(FeaturesOf(u, txs))
        == [Recommendation(CdbLiquidez, SobraCdb(3000.0)),
            Recommendation(Previdencia, SobraPrevidencia(3000.0))]
  {
    var u := User(1, 5000.0, 600.0, 0.0);
    var txs := [Transaction(1, "alimentacao", 1500.0), Transaction(1, "lazer", 500.0)];
    assert txs[1..][1..] == [];
    assert FeaturesOf(u, txs).sobra == 3000.0;
    assert FeaturesOf(u, txs).ratioViagens == 0.0;
    CandidatesWhole(FeaturesOf(u, txs));
  }

  /**
   * Income 4000 with 400 spent on travel gives a ratio of 0.1: rule 2
   * recommends 107 and 104, and a score of 800 with a surplus of 3600 adds
   * 103, but with rule 1's justification.
   */
  lemma TravelAndScore()
    ensures
      var u := User(2, 4000.0, 800.0, 0.0);
      var txs := [Transaction(2, "viagens", 400.0)];
      Recommend(FeaturesOf(u, txs))
        == [Recommendation(CdbLiquidez, SobraCdb(3600.0)),
            Recommendation(Previdencia, SobraPrevidencia(3600.0)),
            Recommendation(CartaoMilhas, ViagensCartao(0.1)),
            Recommendation(SeguroViagem, ViagensSeguro)]
  {
    var u := User(2, 4000.0, 800.0, 0.0);
    var txs := [Transaction(2, "viagens", 400.0)];
    var f := FeaturesOf(u, txs);
    assert txs[1..] == [];
    assert f.sobra == 3600.0 && f.gastoViagens == 400.0 && f.ratioViagens == 0.1;
    CandidatesWhole(f);
    RuleIds(f);
    Rule4Ids(f);
    assert Rule4(f, Rule1(f) + Rule2(f) + Rule3(f)) == [];
  }

  /**
   * With zero income the travel rule never fires, however much is spent on
   * travel; the debt rule fires for any positive debt and transactions of
   * another user change nothing.
   */
  lemma ZeroIncome()
    ensures
      var u := User(3, 0.0, 700.0, 100.0);
      var txs := [Transaction(3, "viagens", 900.0), Transaction(4, "viagens", 50.0)];
      Recommend(FeaturesOf(u, txs)) == [Recommendation(Consignado, DividasConsignado(100.0))]
  {
    var u := User(3, 0.0, 700.0, 100.0);
    var txs := [Transaction(3, "viagens", 900.0), Transaction(4, "viagens", 50.0)];
    assert txs[1..][1..] == [];
    assert FeaturesOf(u, txs).ratioViagens == 0.0;
    assert FeaturesOf(u, txs).sobra == -900.0;
    CandidatesWhole(FeaturesOf(u, txs));
  }

  /**
   * A score of 800 with a surplus of 1200, below rule 1's threshold: rule 4
   * recommends 103 with its own justification, and nothing else fires.
   */
  lemma ScoreOnly()
    ensures
      var u := User(5, 1500.0, 800.0, 0.0);
      var txs := [Transaction(5, "alimentacao", 300.0)];
      Recommend(FeaturesOf(u, txs)) == [Recommendation(CdbLiquidez, ScoreSobraCdb)]
  {
    var u := User(5, 1500.0, 800.0, 0.0);
    var txs := [Transaction(5, "alimentacao", 300.0)];
    var f := FeaturesOf(u, txs);
    assert txs[1..] == [];
    assert f.sobra == 1200.0 && f.ratioViagens == 0.0;
    CandidatesWhole(f);
    RuleIds(f);
    Rule4Ids(f);
  }

  /**
   * Income 3000 with debt 2000, above 60% of income (1800): rule 3
   * recommends 102 citing the debt, and nothing else fires.
   */
  lemma HighDebt()
    ensures
      var u := User(6, 3000.0, 600.0, 2000.0);
      var txs := [Transaction(6, "moradia", 2500.0)];
      Recommend(FeaturesOf(u, txs)) == [Recommendation(Consignado, DividasConsignado(2000.0))]
  {
    var u := User(6, 3000.0, 600.0, 2000.0);
    var txs := [Transaction(6, "moradia", 2500.0)];
    var f := FeaturesOf(u, txs);
    assert txs[1..] == [];
    assert f.sobra == 500.0 && f.ratioViagens == 0.0;
    CandidatesWhole(f);
  }
}
