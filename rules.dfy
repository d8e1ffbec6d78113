/**
 * Rule evaluation of the QuantumFinance rule dashboard (regras_explainability
 * in Recomendation.py): four fixed, ordered threshold rules over one user's
 * feature record, each appending product ids with their justifications,
 * followed by a de-duplication by product id in which the first occurrence
 * and its justification win.
 */
module RuleEvaluator {
  import opened FeatureAggregator

  // Product ids of the product table that the rules recommend.
  const CdbLiquidez: int := 103    // liquid certificate of deposit
  const Consignado: int := 102     // payroll-deductible loan
  const SeguroViagem: int := 104   // travel insurance
  const Previdencia: int := 106    // pension plan
  const CartaoMilhas: int := 107   // miles credit card

  /**
   * The justification attached to a recommendation: one tag per message of
   * the rules, carrying the value that the message cites.
   */
  datatype Justification =
    | SobraCdb(sobra: real)             // rule 1, cites the surplus
    | SobraPrevidencia(sobra: real)     // rule 1, cites the surplus
    | ViagensCartao(ratioViagens: real) // rule 2, cites the travel ratio
    | ViagensSeguro                     // rule 2, fixed text
    | DividasConsignado(dividas: real)  // rule 3, cites the debt
    | ScoreSobraCdb                     // rule 4, fixed text

  /** The product each justification is written for. */
  function ProductOf(j: Justification): int
  {
    match j
    case SobraCdb(_) => CdbLiquidez
    case SobraPrevidencia(_) => Previdencia
    case ViagensCartao(_) => CartaoMilhas
    case ViagensSeguro => SeguroViagem
    case DividasConsignado(_) => Consignado
    case ScoreSobraCdb => CdbLiquidez
  }

  /** Position of a justification in rule order (rule 1 first, rule 4 last). */
  function RuleRank(j: Justification): nat
  {
    match j
    case SobraCdb(_) => 0
    case SobraPrevidencia(_) => 1
    case ViagensCartao(_) => 2
    case ViagensSeguro => 3
    case DividasConsignado(_) => 4
    case ScoreSobraCdb => 5
  }

  /** A product id paired with its justification. */
  datatype Recommendation = Recommendation(productId: int, why: Justification)

  /** The product ids of a list of recommendations, in order. */
  function Products(rs: seq<Recommendation>): (ids: seq<int>)
    ensures |ids| == |rs|
    ensures forall k :: 0 <= k < |rs| ==> ids[k] == rs[k].productId
  {
    seq(|rs|, k requires 0 <= k < |rs| => rs[k].productId)
  }

  /** The justifications of a list of recommendations, in order. */
  function Whys(rs: seq<Recommendation>): (js: seq<Justification>)
    ensures |js| == |rs|
    ensures forall k :: 0 <= k < |rs| ==> js[k] == rs[k].why
  {
    seq(|rs|, k requires 0 <= k < |rs| => rs[k].why)
  }

  predicate NoDuplicates(ids: seq<int>)
  {
    forall a, b :: 0 <= a < b < |ids| ==> ids[a] != ids[b]
  }

  // ---------------------------------------------------------------------------
  // The four rules
  // ---------------------------------------------------------------------------

  /** Rule 1: a high monthly surplus. */
  predicate SobraAlta(f: Features) { f.sobra > 2000.0 }

  /** Rule 2: relevant travel spend. */
  predicate ViagensRelevantes(f: Features) { f.ratioViagens > 0.09 }

  /** Rule 3: high debt, above 60% of income. */
  predicate DividasAltas(f: Features) { f.dividas > f.renda * 0.6 }

  /** Rule 4: a high credit score together with a surplus. */
  predicate ScoreAltoComSobra(f: Features) { f.scoreCredito >= 750.0 && f.sobra > 1000.0 }

  /** Rule 1 appends 103 and 106, both citing the surplus. */
  function Rule1(f: Features): seq<Recommendation>
  {
    if SobraAlta(f) then [Recommendation(CdbLiquidez, SobraCdb(f.sobra)),
                         Recommendation(Previdencia, SobraPrevidencia(f.sobra))]
    else []
  }

  /** Rule 2 appends 107, citing the travel ratio, and 104. */
  function Rule2(f: Features): seq<Recommendation>
  {
    if ViagensRelevantes(f) then [Recommendation(CartaoMilhas, ViagensCartao(f.ratioViagens)),
                                 Recommendation(SeguroViagem, ViagensSeguro)]
    else []
  }

  /** Rule 3 appends 102, citing the debt. */
  function Rule3(f: Features): seq<Recommendation>
  {
    if DividasAltas(f) then [Recommendation(Consignado, DividasConsignado(f.dividas))] else []
  }

  /** Rule 4 appends 103 only when the earlier rules have not appended it. */
  function Rule4(f: Features, before: seq<Recommendation>): seq<Recommendation>
  {
    if ScoreAltoComSobra(f) && CdbLiquidez !in Products(before)
    then [Recommendation(CdbLiquidez, ScoreSobraCdb)] else []
  }

  /** The list the rules append to, in rule order, before de-duplication. */
  function Candidates(f: Features): seq<Recommendation>
  {
    var before := Rule1(f) + Rule2(f) + Rule3(f);
    before + Rule4(f, before)
  }

  // ---------------------------------------------------------------------------
  // De-duplication, first occurrence wins
  // ---------------------------------------------------------------------------

  /**
   * The de-duplication pass: walking the list in order, an entry is kept when
   * its product id has not been kept before.
   */
  function Dedup(rs: seq<Recommendation>): seq<Recommendation>
  {
    if rs == [] then []
    else
      var d := Dedup(rs[..|rs| - 1]);
      var x := rs[|rs| - 1];
      if x.productId in Products(d) then d else d + [x]
  }

  /** Zipping the ids and justifications of a list gives the list back. */
  lemma ZipOfProductsWhys(rs: seq<Recommendation>)
    ensures Zip(Products(rs), Whys(rs)) == rs
  {
  }

  /** Product ids and justifications of a concatenation. */
  lemma ProductsWhysAppend(a: seq<Recommendation>, b: seq<Recommendation>)
    ensures Products(a + b) == Products(a) + Products(b)
    ensures Whys(a + b) == Whys(a) + Whys(b)
  {
  }

  /** The index of the first entry of `rs` with product id `pid`. */
  function FirstIndex(rs: seq<Recommendation>, pid: int): (i: nat)
    requires pid in Products(rs)
    ensures i < |rs| && rs[i].productId == pid
    ensures forall j :: 0 <= j < i ==> rs[j].productId != pid
  {
    var n := |rs| - 1;
    if pid in Products(rs[..n]) then FirstIndex(rs[..n], pid) else n
  }

  /** The final recommendation list of one feature record. */
  function Recommend(f: Features): seq<Recommendation>
  {
    Dedup(Candidates(f))
  }

  // ---------------------------------------------------------------------------
  // regras_explainability
  // ---------------------------------------------------------------------------

  /**
   * Evaluates the rules on the record of `uid` and returns the de-duplicated
   * product ids with their justifications. A missing `uid` is a lookup
   * failure in the dashboard, so it is excluded here.
   */
  method RegrasExplainability(uid: int, feats: map<int, Features>)
    returns (finalRecs: seq<int>, finalJust: seq<Justification>)
    requires uid in feats
    ensures finalRecs == Products(Recommend(feats[uid]))
    ensures finalJust == Whys(Recommend(feats[uid]))
    ensures |finalRecs| == |finalJust| && NoDuplicates(finalRecs)
    ensures forall k :: 0 <= k < |finalRecs| ==> ProductOf(finalJust[k]) == finalRecs[k]
    ensures Previdencia in finalRecs <==> SobraAlta(feats[uid])
    ensures CartaoMilhas in finalRecs <==> ViagensRelevantes(feats[uid])
    ensures SeguroViagem in finalRecs <==> ViagensRelevantes(feats[uid])
    ensures Consignado in finalRecs <==> DividasAltas(feats[uid])
    ensures CdbLiquidez in finalRecs <==> SobraAlta(feats[uid]) || ScoreAltoComSobra(feats[uid])
    ensures finalRecs == [] <==>
              !SobraAlta(feats[uid]) && !ViagensRelevantes(feats[uid]) &&
              !DividasAltas(feats[uid]) && !ScoreAltoComSobra(feats[uid])
  {
    var f := feats[uid];
    var recs, just := ApplyRules(f);
    finalRecs, finalJust := DedupFirstWins(recs, just);
    ZipOfProductsWhys(Candidates(f));
    RecommendTriggers(f);
    JustificationsMatchProducts(f);
    forall k | 0 <= k < |finalRecs| ensures ProductOf(finalJust[k]) == finalRecs[k] {
      assert Recommend(f)[k] in Recommend(f);
    }
  }

  /**
   * The rule phase: the four rules in order, appending product ids and
   * justifications to two parallel lists.
   */
  method ApplyRules(f: Features) returns (recs: seq<int>, just: seq<Justification>)
    ensures recs == Products(Candidates(f)) && just == Whys(Candidates(f))
  {
    recs, just := [], [];
    var renda, score, dividas := f.renda, f.scoreCredito, f.dividas;
    var sobra, ratioViagens := f.sobra, f.ratioViagens;
    RuleIds(f);
    Rule4Ids(f);
    // Rule 1: high monthly surplus
    if sobra > 2000.0 {
      recs := recs + [CdbLiquidez];
      just := just + [SobraCdb(sobra)];
      recs := recs + [Previdencia];
      just := just + [SobraPrevidencia(sobra)];
    }
    assert recs == Products(Rule1(f)) && just == Whys(Rule1(f));
    // Rule 2: relevant travel spend
    if ratioViagens > 0.09 {
      recs := recs + [CartaoMilhas];
      just := just + [ViagensCartao(ratioViagens)];
      recs := recs + [SeguroViagem];
      just := just + [ViagensSeguro];
    }
    ProductsWhysAppend(Rule1(f), Rule2(f));
    assert recs == Products(Rule1(f) + Rule2(f)) && just == Whys(Rule1(f) + Rule2(f));
    // Rule 3: high debt
    if dividas > renda * 0.6 {
      recs := recs + [Consignado];
      just := just + [DividasConsignado(dividas)];
    }
    ghost var before := Rule1(f) + Rule2(f) + Rule3(f);
    ProductsWhysAppend(Rule1(f) + Rule2(f), Rule3(f));
    assert recs == Products(before) && just == Whys(before);
    // Rule 4: high score and surplus, unless 103 is already there
    if score >= 750.0 && sobra > 1000.0 {
      if CdbLiquidez !in recs {
        recs := recs + [CdbLiquidez];
        just := just + [ScoreSobraCdb];
      }
    }
    ProductsWhysAppend(before, Rule4(f, before));
  }

  /** Pairs up two lists position by position, stopping at the shorter one. */
  function Zip(recs: seq<int>, just: seq<Justification>): (rs: seq<Recommendation>)
    ensures |rs| == if |recs| < |just| then |recs| else |just|
    ensures forall k :: 0 <= k < |rs| ==> rs[k] == Recommendation(recs[k], just[k])
  {
    var n := if |recs| < |just| then |recs| else |just|;
    seq(n, k requires 0 <= k < n => Recommendation(recs[k], just[k]))
  }

  /**
   * The de-duplication phase: walks the pairs of `recs` and `just` in order
   * and keeps a pair when its product id has not been seen before.
   */
  method DedupFirstWins(recs: seq<int>, just: seq<Justification>)
    returns (finalRecs: seq<int>, finalJust: seq<Justification>)
    ensures finalRecs == Products(Dedup(Zip(recs, just)))
    ensures finalJust == Whys(Dedup(Zip(recs, just)))
    ensures |finalRecs| == |finalJust| && NoDuplicates(finalRecs)
    ensures forall pid :: pid in finalRecs <==> pid in Products(Zip(recs, just))
  {
    ghost var pairs := Zip(recs, just);
    var n := if |recs| < |just| then |recs| else |just|;  // zip stops at the shorter list
    var seen: set<int> := {};
    finalRecs, finalJust := [], [];
    for k := 0 to n
      invariant finalRecs == Products(Dedup(pairs[..k]))
      invariant finalJust == Whys(Dedup(pairs[..k]))
      invariant forall pid :: pid in seen <==> pid in finalRecs
    {
      var pid, j := recs[k], just[k];
      assert pairs[..k + 1][..k] == pairs[..k];
      assert pairs[..k + 1][k] == Recommendation(pid, j);
      ProductsWhysAppend(Dedup(pairs[..k]), [Recommendation(pid, j)]);
      if pid !in seen {
        finalRecs := finalRecs + [pid];
        finalJust := finalJust + [j];
        seen := seen + {pid};
      }
    }
    assert pairs[..n] == pairs;
    DedupNoDuplicates(pairs);
  }

  // ---------------------------------------------------------------------------
  // Lemmas about de-duplication
  // ---------------------------------------------------------------------------

  /** De-duplication loses no product id and adds none: the output has exactly the ids of the input. */
  lemma {:induction false} DedupSameIds(rs: seq<Recommendation>)
    ensures forall pid :: pid in Products(Dedup(rs)) <==> pid in Products(rs)
  {
    if rs != [] {
      var n := |rs| - 1;
      var p, x := rs[..n], rs[n];
      var d := Dedup(p);
      DedupSameIds(p);
      assert rs == p + [x];
      ProductsWhysAppend(p, [x]);
      ProductsWhysAppend(d, [x]);
      forall pid ensures pid in Products(Dedup(rs)) <==> pid in Products(p) || pid == x.productId {
      }
    }
  }

  /** De-duplication leaves no product id twice. */
  lemma {:induction false} DedupNoDuplicates(rs: seq<Recommendation>)
    ensures NoDuplicates(Products(Dedup(rs)))
    ensures forall pid :: pid in Products(Dedup(rs)) <==> pid in Products(rs)
  {
    DedupSameIds(rs);
    if rs != [] {
      var n := |rs| - 1;
      var p, x := rs[..n], rs[n];
      var d := Dedup(p);
      DedupNoDuplicates(p);
      if x.productId !in Products(d) {
        ProductsWhysAppend(d, [x]);
        NoDuplicatesAppend(Products(d), x.productId);
        assert Dedup(rs) == d + [x];
      } else {
        assert Dedup(rs) == d;
      }
    }
  }

  /** Appending an id not yet present keeps a list free of duplicates. */
  lemma NoDuplicatesAppend(ids: seq<int>, v: int)
    requires NoDuplicates(ids) && v !in ids
    ensures NoDuplicates(ids + [v])
  {
  }

  /** The first index of an id already present in a prefix is the prefix's. */
  lemma FirstIndexPrefix(rs: seq<Recommendation>, x: Recommendation, pid: int)
    requires pid in Products(rs)
    ensures pid in Products(rs + [x]) && FirstIndex(rs + [x], pid) == FirstIndex(rs, pid)
  {
    assert Products(rs + [x]) == Products(rs) + [x.productId];
    assert (rs + [x])[..|rs|] == rs;
  }

  /**
   * De-duplication keeps, for every product id, exactly the entry at the
   * first index of that id in the input, and keeps the entries in the order
   * of those first indices.
   */
  lemma {:induction false} DedupKeepsFirst(rs: seq<Recommendation>)
    ensures forall k :: 0 <= k < |Dedup(rs)| ==>
              Dedup(rs)[k].productId in Products(rs) &&
              Dedup(rs)[k] == rs[FirstIndex(rs, Dedup(rs)[k].productId)]
    ensures forall a, b :: 0 <= a < b < |Dedup(rs)| ==>
              FirstIndex(rs, Dedup(rs)[a].productId) < FirstIndex(rs, Dedup(rs)[b].productId)
  {
    if rs != [] {
      var n := |rs| - 1;
      var p, x := rs[..n], rs[n];
      var d := Dedup(p);
      assert rs == p + [x];
      DedupKeepsFirst(p);
      DedupNoDuplicates(p);
      forall k | 0 <= k < |d|
        ensures d[k].productId in Products(rs)
        ensures FirstIndex(rs, d[k].productId) == FirstIndex(p, d[k].productId)
        ensures d[k] == rs[FirstIndex(rs, d[k].productId)]
      {
        assert d[k].productId in Products(d);
        FirstIndexPrefix(p, x, d[k].productId);
      }
      if x.productId !in Products(d) {
        assert x.productId !in Products(p);
        assert Products(rs) == Products(p) + [x.productId];
        assert FirstIndex(rs, x.productId) == n;
        forall k | 0 <= k < |d| ensures FirstIndex(rs, d[k].productId) < n {
        }
      }
    }
  }

  /** On a list without repeated product ids, de-duplication changes nothing. */
  lemma {:induction false} DedupIdentity(rs: seq<Recommendation>)
    requires NoDuplicates(Products(rs))
    ensures Dedup(rs) == rs
  {
    if rs != [] {
      var n := |rs| - 1;
      var p, x := rs[..n], rs[n];
      var ids := Products(rs);
      assert rs == p + [x];
      assert Products(p) == ids[..n];
      assert NoDuplicates(Products(p));
      DedupIdentity(p);
      assert ids[n] !in ids[..n];
      DedupSnoc(p, x);
    }
  }

  /** One more entry: de-duplication keeps it exactly when its id is new. */
  lemma DedupSnoc(p: seq<Recommendation>, x: Recommendation)
    ensures Dedup(p + [x])
         == if x.productId in Products(Dedup(p)) then Dedup(p) else Dedup(p) + [x]
  {
    assert (p + [x])[..|p|] == p;
  }

  /** De-duplication is idempotent. */
  lemma DedupIdempotent(rs: seq<Recommendation>)
    ensures Dedup(Dedup(rs)) == Dedup(rs)
  {
    DedupNoDuplicates(rs);
    DedupIdentity(Dedup(rs));
  }

  // ---------------------------------------------------------------------------
  // Lemmas about the rules
  // ---------------------------------------------------------------------------

  /**
   * The rules on their own never append a product id twice (rule 4 checks
   * for product 103 first), so de-duplication keeps their list whole.
   */
  lemma CandidatesWhole(f: Features)
    ensures NoDuplicates(Products(Candidates(f)))
    ensures Recommend(f) == Candidates(f)
  {
    var c := Candidates(f);
    assert NoDuplicates(Products(c));
    DedupIdentity(c);
  }

  /** Which product ids each rule puts in the final list. */
  lemma RecommendTriggers(f: Features)
    ensures Previdencia in Products(Recommend(f)) <==> SobraAlta(f)
    ensures CartaoMilhas in Products(Recommend(f)) <==> ViagensRelevantes(f)
    ensures SeguroViagem in Products(Recommend(f)) <==> ViagensRelevantes(f)
    ensures Consignado in Products(Recommend(f)) <==> DividasAltas(f)
    ensures CdbLiquidez in Products(Recommend(f)) <==> SobraAlta(f) || ScoreAltoComSobra(f)
    ensures forall pid :: pid in Products(Recommend(f)) ==>
              pid in {CdbLiquidez, Consignado, SeguroViagem, Previdencia, CartaoMilhas}
    ensures Recommend(f) == [] <==>
              !SobraAlta(f) && !ViagensRelevantes(f) && !DividasAltas(f) && !ScoreAltoComSobra(f)
  {
    RecommendIds(f);
    IdTriggers(f, Products(Recommend(f)));
  }

  /** Membership in the rule-by-rule id list, product by product. */
  lemma IdTriggers(f: Features, ids: seq<int>)
    requires ids
          == (if SobraAlta(f) then [CdbLiquidez, Previdencia] else [])
           + (if ViagensRelevantes(f) then [CartaoMilhas, SeguroViagem] else [])
           + (if DividasAltas(f) then [Consignado] else [])
           + (if ScoreAltoComSobra(f) && !SobraAlta(f) then [CdbLiquidez] else [])
    ensures Previdencia in ids <==> SobraAlta(f)
    ensures CartaoMilhas in ids <==> ViagensRelevantes(f)
    ensures SeguroViagem in ids <==> ViagensRelevantes(f)
    ensures Consignado in ids <==> DividasAltas(f)
    ensures CdbLiquidez in ids <==> SobraAlta(f) || ScoreAltoComSobra(f)
    ensures forall pid :: pid in ids ==>
              pid in {CdbLiquidez, Consignado, SeguroViagem, Previdencia, CartaoMilhas}
    ensures ids == [] <==>
              !SobraAlta(f) && !ViagensRelevantes(f) && !DividasAltas(f) && !ScoreAltoComSobra(f)
  {
  }

  /** The product ids of the final list, rule by rule. */
  lemma RecommendIds(f: Features)
    ensures Products(Recommend(f))
         == (if SobraAlta(f) then [CdbLiquidez, Previdencia] else [])
          + (if ViagensRelevantes(f) then [CartaoMilhas, SeguroViagem] else [])
          + (if DividasAltas(f) then [Consignado] else [])
          + (if ScoreAltoComSobra(f) && !SobraAlta(f) then [CdbLiquidez] else [])
  {
    CandidatesWhole(f);
    CandidateIds(f);
  }

  /** The product ids that the rules append, rule by rule. */
  lemma CandidateIds(f: Features)
    ensures Products(Candidates(f))
         == (if SobraAlta(f) then [CdbLiquidez, Previdencia] else [])
          + (if ViagensRelevantes(f) then [CartaoMilhas, SeguroViagem] else [])
          + (if DividasAltas(f) then [Consignado] else [])
          + (if ScoreAltoComSobra(f) && !SobraAlta(f) then [CdbLiquidez] else [])
  {
    var before := Rule1(f) + Rule2(f) + Rule3(f);
    RuleIds(f);
    Rule4Ids(f);
    ProductsWhysAppend(Rule1(f), Rule2(f));
    ProductsWhysAppend(Rule1(f) + Rule2(f), Rule3(f));
    ProductsWhysAppend(before, Rule4(f, before));
  }

  /** Product ids and justifications of a list of one or two entries. */
  lemma ProductsOfLiterals(x: Recommendation, y: Recommendation)
    ensures Products([x]) == [x.productId] && Whys([x]) == [x.why]
    ensures Products([x, y]) == [x.productId, y.productId] && Whys([x, y]) == [x.why, y.why]
  {
  }

  /** The product ids and justifications that each rule appends. */
  lemma RuleIds(f: Features)
    ensures Products(Rule1(f)) == (if SobraAlta(f) then [CdbLiquidez, Previdencia] else [])
    ensures Whys(Rule1(f)) == (if SobraAlta(f) then [SobraCdb(f.sobra), SobraPrevidencia(f.sobra)] else [])
    ensures Products(Rule2(f)) == (if ViagensRelevantes(f) then [CartaoMilhas, SeguroViagem] else [])
    ensures Whys(Rule2(f)) == (if ViagensRelevantes(f) then [ViagensCartao(f.ratioViagens), ViagensSeguro] else [])
    ensures Products(Rule3(f)) == (if DividasAltas(f) then [Consignado] else [])
    ensures Whys(Rule3(f)) == (if DividasAltas(f) then [DividasConsignado(f.dividas)] else [])
  {
    ProductsOfLiterals(Recommendation(CdbLiquidez, SobraCdb(f.sobra)),
                       Recommendation(Previdencia, SobraPrevidencia(f.sobra)));
    ProductsOfLiterals(Recommendation(CartaoMilhas, ViagensCartao(f.ratioViagens)),
                       Recommendation(SeguroViagem, ViagensSeguro));
    ProductsOfLiterals(Recommendation(Consignado, DividasConsignado(f.dividas)),
                       Recommendation(Consignado, DividasConsignado(f.dividas)));
  }

  /** Rule 4 sees product 103 in the earlier rules' list exactly when rule 1 fired. */
  lemma Rule4Ids(f: Features)
    ensures CdbLiquidez in Products(Rule1(f) + Rule2(f) + Rule3(f)) <==> SobraAlta(f)
    ensures Products(Rule4(f, Rule1(f) + Rule2(f) + Rule3(f)))
         == (if ScoreAltoComSobra(f) && !SobraAlta(f) then [CdbLiquidez] else [])
    ensures Whys(Rule4(f, Rule1(f) + Rule2(f) + Rule3(f)))
         == (if ScoreAltoComSobra(f) && !SobraAlta(f) then [ScoreSobraCdb] else [])
  {
    RuleIds(f);
    ProductsWhysAppend(Rule1(f), Rule2(f));
    ProductsWhysAppend(Rule1(f) + Rule2(f), Rule3(f));
    var x := Recommendation(CdbLiquidez, ScoreSobraCdb);
    ProductsOfLiterals(x, x);
  }

  /** Every justification in the final list is one written for its product. */
  lemma JustificationsMatchProducts(f: Features)
    ensures forall r :: r in Recommend(f) ==> ProductOf(r.why) == r.productId
  {
    CandidatesWhole(f);
    var before := Rule1(f) + Rule2(f) + Rule3(f);
    forall r | r in Candidates(f) ensures ProductOf(r.why) == r.productId {
      assert r in Rule1(f) || r in Rule2(f) || r in Rule3(f) || r in Rule4(f, before);
    }
  }

  /**
   * Product 103 appears at most once; with a surplus above 2000 it carries
   * rule 1's justification, and rule 4's justification only ever appears
   * when the surplus is at most 2000.
   */
  lemma CdbJustification(f: Features)
    ensures forall a, b :: 0 <= a < b < |Recommend(f)| ==>
              Recommend(f)[a].productId != Recommend(f)[b].productId
    ensures SobraAlta(f) ==> Recommendation(CdbLiquidez, SobraCdb(f.sobra)) in Recommend(f)
    ensures Recommendation(CdbLiquidez, ScoreSobraCdb) in Recommend(f) ==> !SobraAlta(f)
  {
    CandidatesWhole(f);
    var c := Candidates(f);
    forall a, b | 0 <= a < b < |c| ensures c[a].productId != c[b].productId {
      assert Products(c)[a] != Products(c)[b];
    }
  }

  /** The entries of `rs` are in strictly increasing rule order. */
  predicate InRuleOrder(rs: seq<Recommendation>)
  {
    forall a, b :: 0 <= a < b < |rs| ==> RuleRank(rs[a].why) < RuleRank(rs[b].why)
  }

  /** Two lists in rule order, the first wholly before the second, concatenate in rule order. */
  lemma OrderedConcat(xs: seq<Recommendation>, ys: seq<Recommendation>, m: nat)
    requires InRuleOrder(xs) && InRuleOrder(ys)
    requires forall r :: r in xs ==> RuleRank(r.why) < m
    requires forall r :: r in ys ==> m <= RuleRank(r.why)
    ensures InRuleOrder(xs + ys)
  {
    forall a, b | 0 <= a < b < |xs + ys|
      ensures RuleRank((xs + ys)[a].why) < RuleRank((xs + ys)[b].why)
    {
      if b < |xs| {
        assert (xs + ys)[a] == xs[a] && (xs + ys)[b] == xs[b];
      } else if a >= |xs| {
        assert (xs + ys)[a] == ys[a - |xs|] && (xs + ys)[b] == ys[b - |xs|];
      } else {
        assert (xs + ys)[a] == xs[a] && (xs + ys)[b] == ys[b - |xs|];
        assert xs[a] in xs && ys[b - |xs|] in ys;
      }
    }
  }

  /**
   * The final list follows rule order: 103 (rule 1), 106, 107, 104, 102 and
   * then 103 (rule 4).
   */
  lemma RuleOrder(f: Features)
    ensures InRuleOrder(Recommend(f))
  {
    CandidatesWhole(f);
    var r1, r2, r3 := Rule1(f), Rule2(f), Rule3(f);
    var r4 := Rule4(f, r1 + r2 + r3);
    RuleRanks(f, r1 + r2 + r3);
    OrderedConcat(r1, r2, 2);
    assert forall r: Recommendation :: r in r1 + r2 ==> RuleRank(r.why) < 4;
    OrderedConcat(r1 + r2, r3, 4);
    assert forall r: Recommendation :: r in r1 + r2 + r3 ==> RuleRank(r.why) < 5;
    OrderedConcat(r1 + r2 + r3, r4, 5);
  }

  /** Each rule appends in rule order, within its own band of ranks. */
  lemma RuleRanks(f: Features, before: seq<Recommendation>)
    ensures InRuleOrder(Rule1(f)) && forall r :: r in Rule1(f) ==> RuleRank(r.why) < 2
    ensures InRuleOrder(Rule2(f)) && forall r :: r in Rule2(f) ==> 2 <= RuleRank(r.why) < 4
    ensures InRuleOrder(Rule3(f)) && forall r :: r in Rule3(f) ==> RuleRank(r.why) == 4
    ensures InRuleOrder(Rule4(f, before)) && forall r :: r in Rule4(f, before) ==> RuleRank(r.why) == 5
  {
  }
}
