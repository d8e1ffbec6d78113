/**
 * Feature aggregation of the QuantumFinance rule dashboard: the reduction of
 * the user table and the transaction table to one feature record per user
 * (compute_user_features in Recomendation.py).
 *
 * Money amounts and credit scores are modelled as reals.
 */
module FeatureAggregator {

  /** One row of the user table. */
  datatype User = User(userId: int, renda: real, scoreCredito: real, dividas: real)

  /** One row of the transaction table: a monthly spend in one category. */
  datatype Transaction = Transaction(userId: int, categoria: string, gastoMensal: real)

  /** The derived feature record of one user. */
  datatype Features = Features(
    renda: real,
    scoreCredito: real,
    dividas: real,
    sobra: real,          // income minus the total monthly spend
    gastoViagens: real,   // monthly spend in the travel category
    ratioViagens: real    // travel spend as a fraction of income, 0 without income
  )

  /** The category label that counts as travel (an exact match). */
  const Viagens: string := "viagens"

  // ---------------------------------------------------------------------------
  // Reference definitions of the per-user sums
  // ---------------------------------------------------------------------------

  /** Total monthly spend of user `uid`, over all categories. */
  function SpendOf(txs: seq<Transaction>, uid: int): real
  {
    if txs == [] then 0.0
    else (if txs[0].userId == uid then txs[0].gastoMensal else 0.0) + SpendOf(txs[1..], uid)
  }

  /** Monthly spend of user `uid` in the travel category only. */
  function TravelSpendOf(txs: seq<Transaction>, uid: int): real
  {
    if txs == [] then 0.0
    else
      (if txs[0].userId == uid && txs[0].categoria == Viagens then txs[0].gastoMensal else 0.0)
      + TravelSpendOf(txs[1..], uid)
  }

  /** The travel ratio: spend over income, or 0 when income is not positive. */
  function Ratio(gasto: real, renda: real): real
  {
    if renda > 0.0 then gasto / renda else 0.0
  }

  /** The feature record that a user row and the whole transaction table determine. */
  function FeaturesOf(u: User, txs: seq<Transaction>): Features
  {
    var viagens := TravelSpendOf(txs, u.userId);
    Features(u.renda, u.scoreCredito, u.dividas,
             u.renda - SpendOf(txs, u.userId), viagens, Ratio(viagens, u.renda))
  }

  /**
   * The ratio safety rule of a record: no ratio without positive income, and
   * otherwise the ratio is exactly the travel spend over the income.
   */
  predicate RatioSafe(f: Features)
  {
    && (f.renda <= 0.0 ==> f.ratioViagens == 0.0)
    && (f.renda > 0.0 ==> f.ratioViagens * f.renda == f.gastoViagens)
  }

  /** The ids of all user rows. */
  function UserIds(users: seq<User>): set<int>
  {
    set u | u in users :: u.userId
  }

  /** Row `i` is the last row of `users` that carries its id. */
  predicate LastWithId(users: seq<User>, i: int)
    requires 0 <= i < |users|
  {
    forall j :: i < j < |users| ==> users[j].userId != users[i].userId
  }

  /**
   * The feature dictionary built by the loop over the user rows: each row
   * writes its record under its id, so a later row with the same id
   * overwrites an earlier one.
   */
  function FeatureMap(users: seq<User>, txs: seq<Transaction>): map<int, Features>
  {
    if users == [] then map[]
    else
      var last := users[|users| - 1];
      FeatureMap(users[..|users| - 1], txs)[last.userId := FeaturesOf(last, txs)]
  }

  // ---------------------------------------------------------------------------
  // The grouped sums (a group-by on user_id followed by a sum, as a dictionary)
  // ---------------------------------------------------------------------------

  /** Dictionary lookup with a default, for an absent key. */
  function GetOr(m: map<int, real>, k: int, default: real): real
  {
    if k in m then m[k] else default
  }

  /** The rows whose category is exactly the travel label. */
  function OnlyViagens(txs: seq<Transaction>): (r: seq<Transaction>)
    ensures |r| <= |txs|
    ensures forall t :: t in r <==> t in txs && t.categoria == Viagens
  {
    if txs == [] then []
    else (if txs[0].categoria == Viagens then [txs[0]] else []) + OnlyViagens(txs[1..])
  }

  /**
   * Sum of gasto_mensal grouped by user id, as a dictionary holding one key
   * per user id that occurs in the rows, accumulated in row order.
   */
  function GroupSum(txs: seq<Transaction>): map<int, real>
  {
    if txs == [] then map[]
    else
      var m := GroupSum(txs[..|txs| - 1]);
      var t := txs[|txs| - 1];
      m[t.userId := GetOr(m, t.userId, 0.0) + t.gastoMensal]
  }

  // ---------------------------------------------------------------------------
  // compute_user_features
  // ---------------------------------------------------------------------------

  /**
   * Builds the feature dictionary: one record per user id, each with the
   * user's own attributes, the surplus, the travel spend and the travel ratio.
   */
  method ComputeUserFeatures(users: seq<User>, txs: seq<Transaction>)
    returns (feats: map<int, Features>)
    ensures feats == FeatureMap(users, txs)
    ensures feats.Keys == UserIds(users)
    ensures forall i :: 0 <= i < |users| && LastWithId(users, i) ==>
              feats[users[i].userId] == FeaturesOf(users[i], txs)
    ensures forall uid :: uid in feats ==> RatioSafe(feats[uid])
  {
    var gastosSum := GroupSum(txs);
    var viagensSum := GroupSum(OnlyViagens(txs));
    feats := map[];
    for i := 0 to |users|
      invariant feats == FeatureMap(users[..i], txs)
    {
      var u := users[i];
      var uid := u.userId;
      var renda := u.renda;
      var gastos := GetOr(gastosSum, uid, 0.0);
      var sobra := renda - gastos;
      var gViagens := GetOr(viagensSum, uid, 0.0);
      var ratioViagens := if renda > 0.0 then gViagens / renda else 0.0;
      LookupsGiveFeatures(u, txs);
      FeatureMapStep(users, i, txs);
      feats := feats[uid := Features(renda, u.scoreCredito, u.dividas, sobra, gViagens, ratioViagens)];
    }
    assert users[..|users|] == users;
    FeatureMapKeys(users, txs);
    FeatureMapLastWins(users, txs);
    FeatureMapRatio(users, txs);
  }

  // ---------------------------------------------------------------------------
  // Lemmas
  // ---------------------------------------------------------------------------

  /** The record computed from the two grouped dictionaries is the reference record. */
  lemma LookupsGiveFeatures(u: User, txs: seq<Transaction>)
    ensures
      var gastos := GetOr(GroupSum(txs), u.userId, 0.0);
      var viagens := GetOr(GroupSum(OnlyViagens(txs)), u.userId, 0.0);
      Features(u.renda, u.scoreCredito, u.dividas, u.renda - gastos, viagens,
               if u.renda > 0.0 then viagens / u.renda else 0.0) == FeaturesOf(u, txs)
  {
    GroupSumIsSpend(txs, u.userId);
    GroupSumIsSpend(OnlyViagens(txs), u.userId);
    OnlyViagensSpend(txs, u.userId);
  }

  /** One more user row adds (or overwrites) that row's record. */
  lemma FeatureMapStep(users: seq<User>, i: int, txs: seq<Transaction>)
    requires 0 <= i < |users|
    ensures FeatureMap(users[..i + 1], txs)
         == FeatureMap(users[..i], txs)[users[i].userId := FeaturesOf(users[i], txs)]
  {
    assert users[..i + 1][..i] == users[..i];
  }

  /** Spend is additive over a split of the transaction table. */
  lemma {:induction false} SpendAppend(a: seq<Transaction>, b: seq<Transaction>, uid: int)
    ensures SpendOf(a + b, uid) == SpendOf(a, uid) + SpendOf(b, uid)
  {
    if a != [] {
      assert (a + b)[1..] == a[1..] + b;
      SpendAppend(a[1..], b, uid);
    } else {
      assert a + b == b;
    }
  }

  /**
   * The grouped dictionary agrees with the reference sum: looking a user up
   * with default 0 gives that user's total spend, and the key is present
   * exactly when some row belongs to that user.
   */
  lemma {:induction false} GroupSumIsSpend(txs: seq<Transaction>, uid: int)
    ensures GetOr(GroupSum(txs), uid, 0.0) == SpendOf(txs, uid)
    ensures uid in GroupSum(txs) <==> exists t :: t in txs && t.userId == uid
  {
    if txs != [] {
      var n := |txs| - 1;
      GroupSumIsSpend(txs[..n], uid);
      assert txs == txs[..n] + [txs[n]];
      SpendAppend(txs[..n], [txs[n]], uid);
      assert SpendOf([txs[n]], uid) == (if txs[n].userId == uid then txs[n].gastoMensal else 0.0);
      forall t | t in txs ensures t in txs[..n] || t == txs[n] {
        var k :| 0 <= k < |txs| && txs[k] == t;
        if k < n {
          assert txs[..n][k] == t;
        }
      }
    }
  }

  /** Summing the travel rows of a user is the user's travel spend. */
  lemma {:induction false} OnlyViagensSpend(txs: seq<Transaction>, uid: int)
    ensures SpendOf(OnlyViagens(txs), uid) == TravelSpendOf(txs, uid)
  {
    if txs != [] {
      var head := if txs[0].categoria == Viagens then [txs[0]] else [];
      OnlyViagensSpend(txs[1..], uid);
      SpendAppend(head, OnlyViagens(txs[1..]), uid);
    }
  }

  /** A user without transaction rows has zero spend. */
  lemma {:induction false} NoRowsNoSpend(txs: seq<Transaction>, uid: int)
    requires forall t :: t in txs ==> t.userId != uid
    ensures SpendOf(txs, uid) == 0.0 && TravelSpendOf(txs, uid) == 0.0
  {
    if txs != [] {
      assert txs[0] in txs;
      forall t | t in txs[1..] ensures t.userId != uid {
        assert t in txs;
      }
      NoRowsNoSpend(txs[1..], uid);
    }
  }

  /**
   * A user without transactions keeps the whole income as surplus and has
   * neither travel spend nor travel ratio.
   */
  lemma NoTransactionsDefaults(u: User, txs: seq<Transaction>)
    requires forall t :: t in txs ==> t.userId != u.userId
    ensures FeaturesOf(u, txs).sobra == u.renda
    ensures FeaturesOf(u, txs).gastoViagens == 0.0
    ensures FeaturesOf(u, txs).ratioViagens == 0.0
  {
    NoRowsNoSpend(txs, u.userId);
  }

  /**
   * The ratio safety rule: without positive income the ratio is 0 whatever
   * the travel spend; with positive income it is the exact quotient.
   */
  lemma RatioSafety(u: User, txs: seq<Transaction>)
    ensures u.renda <= 0.0 ==> FeaturesOf(u, txs).ratioViagens == 0.0
    ensures u.renda > 0.0 ==>
              FeaturesOf(u, txs).ratioViagens * u.renda == FeaturesOf(u, txs).gastoViagens
  {
  }

  /** The rows of `txs` that belong to one of the ids in `ids`. */
  function KeepUsers(txs: seq<Transaction>, ids: set<int>): (r: seq<Transaction>)
    ensures forall t :: t in r <==> t in txs && t.userId in ids
  {
    if txs == [] then []
    else (if txs[0].userId in ids then [txs[0]] else []) + KeepUsers(txs[1..], ids)
  }

  /** The travel filter keeps each travel row as often as it occurs, and drops every other row. */
  lemma {:induction false} OnlyViagensCount(txs: seq<Transaction>, t: Transaction)
    ensures multiset(OnlyViagens(txs))[t] == if t.categoria == Viagens then multiset(txs)[t] else 0
  {
    if txs != [] {
      var head := if txs[0].categoria == Viagens then [txs[0]] else [];
      OnlyViagensCount(txs[1..], t);
      assert txs == [txs[0]] + txs[1..];
      assert multiset(txs) == multiset([txs[0]]) + multiset(txs[1..]);
      assert multiset(OnlyViagens(txs)) == multiset(head) + multiset(OnlyViagens(txs[1..]));
    }
  }

  /** The travel filter keeps row order: filtering a concatenation concatenates the filtered parts. */
  lemma {:induction false} OnlyViagensAppend(a: seq<Transaction>, b: seq<Transaction>)
    ensures OnlyViagens(a + b) == OnlyViagens(a) + OnlyViagens(b)
  {
    if a == [] {
      assert a + b == b;
    } else {
      assert (a + b)[0] == a[0] && (a + b)[1..] == a[1..] + b;
      OnlyViagensAppend(a[1..], b);
    }
  }

  /** The restriction keeps each row of the given ids as often as it occurs, and drops every other row. */
  lemma {:induction false} KeepUsersCount(txs: seq<Transaction>, ids: set<int>, t: Transaction)
    ensures multiset(KeepUsers(txs, ids))[t] == if t.userId in ids then multiset(txs)[t] else 0
  {
    if txs != [] {
      var head := if txs[0].userId in ids then [txs[0]] else [];
      KeepUsersCount(txs[1..], ids, t);
      assert txs == [txs[0]] + txs[1..];
      assert multiset(txs) == multiset([txs[0]]) + multiset(txs[1..]);
      assert multiset(KeepUsers(txs, ids)) == multiset(head) + multiset(KeepUsers(txs[1..], ids));
    }
  }

  /** The restriction keeps row order: restricting a concatenation concatenates the restricted parts. */
  lemma {:induction false} KeepUsersAppend(a: seq<Transaction>, b: seq<Transaction>, ids: set<int>)
    ensures KeepUsers(a + b, ids) == KeepUsers(a, ids) + KeepUsers(b, ids)
  {
    if a == [] {
      assert a + b == b;
    } else {
      assert (a + b)[0] == a[0] && (a + b)[1..] == a[1..] + b;
      KeepUsersAppend(a[1..], b, ids);
    }
  }

  /** Rows of other users do not contribute to a user's sums. */
  lemma {:induction false} KeepUsersSpend(txs: seq<Transaction>, ids: set<int>, uid: int)
    requires uid in ids
    ensures SpendOf(KeepUsers(txs, ids), uid) == SpendOf(txs, uid)
    ensures TravelSpendOf(KeepUsers(txs, ids), uid) == TravelSpendOf(txs, uid)
  {
    if txs != [] {
      var head := if txs[0].userId in ids then [txs[0]] else [];
      KeepUsersSpend(txs[1..], ids, uid);
      SpendAppend(head, KeepUsers(txs[1..], ids), uid);
      TravelAppend(head, KeepUsers(txs[1..], ids), uid);
    }
  }

  /** Travel spend is additive over a split of the transaction table. */
  lemma {:induction false} TravelAppend(a: seq<Transaction>, b: seq<Transaction>, uid: int)
    ensures TravelSpendOf(a + b, uid) == TravelSpendOf(a, uid) + TravelSpendOf(b, uid)
  {
    if a != [] {
      assert (a + b)[1..] == a[1..] + b;
      TravelAppend(a[1..], b, uid);
    } else {
      assert a + b == b;
    }
  }

  /** A user's feature record depends only on that user's own rows. */
  lemma OwnRowsOnly(u: User, txs: seq<Transaction>)
    ensures FeaturesOf(u, txs) == FeaturesOf(u, KeepUsers(txs, {u.userId}))
  {
    KeepUsersSpend(txs, {u.userId}, u.userId);
  }

  /**
   * Transactions whose user id is not a user row's id affect no record:
   * the dictionary is the same once they are dropped.
   */
  lemma {:induction false} ForeignTransactionsIgnored(users: seq<User>, txs: seq<Transaction>)
    ensures FeatureMap(users, txs) == FeatureMap(users, KeepUsers(txs, UserIds(users)))
  {
    ForeignTransactionsIgnoredUnder(users, txs, UserIds(users));
  }

  lemma {:induction false} ForeignTransactionsIgnoredUnder(
    users: seq<User>, txs: seq<Transaction>, ids: set<int>)
    requires UserIds(users) <= ids
    ensures FeatureMap(users, txs) == FeatureMap(users, KeepUsers(txs, ids))
  {
    if users != [] {
      var n := |users| - 1;
      assert UserIds(users[..n]) <= UserIds(users) by {
        forall v | v in users[..n] ensures v in users {
          var k :| 0 <= k < n && users[..n][k] == v;
          assert users[k] == v;
        }
      }
      assert users[n] in users;
      ForeignTransactionsIgnoredUnder(users[..n], txs, ids);
      KeepUsersSpend(txs, ids, users[n].userId);
    }
  }

  /** The dictionary has exactly the user ids as keys. */
  lemma {:induction false} FeatureMapKeys(users: seq<User>, txs: seq<Transaction>)
    ensures FeatureMap(users, txs).Keys == UserIds(users)
  {
    if users != [] {
      var n := |users| - 1;
      FeatureMapKeys(users[..n], txs);
      assert users == users[..n] + [users[n]];
      assert UserIds(users) == UserIds(users[..n]) + {users[n].userId};
    }
  }

  /**
   * Under each id the dictionary holds the record of the last row with that
   * id; in particular income, score and debt are that row's, unchanged.
   */
  lemma {:induction false} FeatureMapLastWins(users: seq<User>, txs: seq<Transaction>)
    ensures forall i :: 0 <= i < |users| && LastWithId(users, i) ==>
              users[i].userId in FeatureMap(users, txs) &&
              FeatureMap(users, txs)[users[i].userId] == FeaturesOf(users[i], txs)
  {
    if users != [] {
      var n := |users| - 1;
      FeatureMapLastWins(users[..n], txs);
      forall i | 0 <= i < |users| && LastWithId(users, i)
        ensures users[i].userId in FeatureMap(users, txs)
        ensures FeatureMap(users, txs)[users[i].userId] == FeaturesOf(users[i], txs)
      {
        if i < n {
          assert users[..n][i] == users[i];
          assert LastWithId(users[..n], i);
        }
      }
    }
  }

  /** Every record in the dictionary obeys the ratio safety rule. */
  lemma {:induction false} FeatureMapRatio(users: seq<User>, txs: seq<Transaction>)
    ensures forall uid :: uid in FeatureMap(users, txs) ==> RatioSafe(FeatureMap(users, txs)[uid])
  {
    if users != [] {
      FeatureMapRatio(users[..|users| - 1], txs);
    }
  }
}
