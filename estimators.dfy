/** The frequency estimators. `probability` and `conditional_probability`
    are defined, with the same code, in tan.py, naivebayes.py and
    naive-bayes.py; `conditional_probabilty2` and `joint_probability3` are
    defined in tan.py only. Every estimator filters
    the training rows, counts the matches and divides, with the Laplace
    (add-one) correction unless `laplace` is false. The counts are natural
    numbers, so each estimate is an exact rational here. */
module Estimators {
  import opened Common

  /** One equality test `row[name] == value` of a row filter. */
  datatype Eq = Eq(name: string, value: Value)

  /** A conjunction of equality tests. */
  type Query = seq<Eq>

  predicate Holds(row: Row, e: Eq) {
    e.name in row && row[e.name] == e.value
  }

  /** The row passes every test of `q`. */
  predicate Matches(row: Row, q: Query) {
    forall i :: 0 <= i < |q| ==> Holds(row, q[i])
  }

  /** Every row holds every name in `names`, as the rows built from the
      declared attributes do; looking up an absent name would raise KeyError. */
  predicate HasKeys(data: seq<Row>, names: set<string>) {
    forall i :: 0 <= i < |data| ==> names <= data[i].Keys
  }

  /** The number of rows that pass `q`, as `len([1 for d in data if ...])`. */
  function Count(data: seq<Row>, q: Query): (n: nat)
    ensures n <= |data|
  {
    if data == [] then 0
    else (if Matches(data[0], q) then 1 else 0) + Count(data[1..], q)
  }

  /** True division of two counts (`from __future__ import division`). */
  function Divide(n: nat, d: nat): (r: Result<real>)
    ensures r.Ok? <==> d != 0
    ensures r.Err? ==> r.error == ZeroDivisionError
    ensures r.Ok? ==> 0.0 <= r.value && (n <= d ==> r.value <= 1.0) && (0 < n ==> 0.0 < r.value)
  {
    if d == 0 then Err(ZeroDivisionError) else Ok(n as real / d as real)
  }

  /** `probability(fname, fval, laplace)`: the share of rows with
      fname == fval, smoothed by +1 over +|domain of fname|. */
  function Probability(data: seq<Row>, dict: map<string, seq<Value>>, fname: string, fval: Value,
                       laplace: bool): (r: Result<real>)
    requires HasKeys(data, {fname})
    ensures laplace ==> (r == Err(KeyError(fname)) <==> fname !in dict)
    ensures laplace && fname in dict && |dict[fname]| > 0 ==> r.Ok? && 0.0 < r.value <= 1.0
    ensures !laplace ==> (r.Ok? <==> |data| > 0)
    ensures !laplace && r.Ok? ==> 0.0 <= r.value <= 1.0
  {
    var total := |data|;
    var count := Count(data, [Eq(fname, fval)]);
    if !laplace then Divide(count, total)
    else if fname !in dict then Err(KeyError(fname))
    else Divide(count + 1, total + |dict[fname]|)
  }

  /** `conditional_probability(fname, fval, classifierval, classifier, laplace)`:
      P(fname = fval | classifier = classifierval). */
  function ConditionalProbability(data: seq<Row>, dict: map<string, seq<Value>>, fname: string, fval: Value,
                                  classifierval: Value, classifier: string, laplace: bool): (r: Result<real>)
    requires HasKeys(data, {fname, classifier})
    ensures laplace ==> (r == Err(KeyError(fname)) <==> fname !in dict)
    ensures laplace && fname in dict && |dict[fname]| > 0 ==> r.Ok? && 0.0 < r.value <= 1.0
    ensures !laplace ==> (r.Ok? <==> exists i :: 0 <= i < |data| && data[i][classifier] == classifierval)
    ensures !laplace && r.Ok? ==> 0.0 <= r.value <= 1.0
  {
    var total := Count(data, [Eq(classifier, classifierval)]);
    var count := Count(data, [Eq(classifier, classifierval), Eq(fname, fval)]);
    assert [Eq(classifier, classifierval)] + [Eq(fname, fval)] == [Eq(classifier, classifierval), Eq(fname, fval)];
    CountPrefix(data, [Eq(classifier, classifierval)], [Eq(fname, fval)]);
    CountPositiveOne(data, classifier, classifierval);
    if !laplace then Divide(count, total)
    else if fname !in dict then Err(KeyError(fname))
    else Divide(count + 1, total + |dict[fname]|)
  }

  /** `conditional_probabilty2(fname1, fval1, fname2, fval2, classifierval, classifier, laplace)`:
      P(fname1 = fval1, fname2 = fval2 | classifier = classifierval), smoothed
      over the product of the two domains. */
  function ConditionalProbability2(data: seq<Row>, dict: map<string, seq<Value>>,
                                   fname1: string, fval1: Value, fname2: string, fval2: Value,
                                   classifierval: Value, classifier: string, laplace: bool): (r: Result<real>)
    requires HasKeys(data, {fname1, fname2, classifier})
    ensures laplace ==> (r.Err? && r.error.KeyError? <==> fname1 !in dict || fname2 !in dict)
    ensures laplace && fname1 in dict && fname2 in dict && |dict[fname1]| > 0 && |dict[fname2]| > 0 ==>
              r.Ok? && 0.0 < r.value <= 1.0
    ensures !laplace ==> (r.Ok? <==> exists i :: 0 <= i < |data| && data[i][classifier] == classifierval)
    ensures !laplace && r.Ok? ==> 0.0 <= r.value <= 1.0
  {
    var total := Count(data, [Eq(classifier, classifierval)]);
    var count := Count(data, [Eq(fname1, fval1), Eq(fname2, fval2), Eq(classifier, classifierval)]);
    CountRotate(data, Eq(fname1, fval1), Eq(fname2, fval2), Eq(classifier, classifierval));
    assert [Eq(classifier, classifierval)] + [Eq(fname1, fval1), Eq(fname2, fval2)]
        == [Eq(classifier, classifierval), Eq(fname1, fval1), Eq(fname2, fval2)];
    CountPrefix(data, [Eq(classifier, classifierval)], [Eq(fname1, fval1), Eq(fname2, fval2)]);
    CountPositiveOne(data, classifier, classifierval);
    if !laplace then Divide(count, total)
    else if fname1 !in dict then Err(KeyError(fname1))
    else if fname2 !in dict then Err(KeyError(fname2))
    else
      ProductPositive(|dict[fname1]|, |dict[fname2]|);
      Divide(count + 1, total + |dict[fname1]| * |dict[fname2]|)
  }

  /** `joint_probability3(fname1, fval1, fname2, fval2, fname3, fval3, laplace)`:
      P(fname1 = fval1, fname2 = fval2, fname3 = fval3), smoothed over the
      product of the three domains. */
  function JointProbability3(data: seq<Row>, dict: map<string, seq<Value>>,
                             fname1: string, fval1: Value, fname2: string, fval2: Value,
                             fname3: string, fval3: Value, laplace: bool): (r: Result<real>)
    requires HasKeys(data, {fname1, fname2, fname3})
    ensures laplace ==> (r.Err? && r.error.KeyError? <==> fname1 !in dict || fname2 !in dict || fname3 !in dict)
    ensures laplace && fname1 in dict && fname2 in dict && fname3 in dict &&
            |dict[fname1]| > 0 && |dict[fname2]| > 0 && |dict[fname3]| > 0 ==>
              r.Ok? && 0.0 < r.value <= 1.0
    ensures !laplace ==> (r.Ok? <==> |data| > 0)
    ensures !laplace && r.Ok? ==> 0.0 <= r.value <= 1.0
  {
    var total := |data|;
    var count := Count(data, [Eq(fname1, fval1), Eq(fname2, fval2), Eq(fname3, fval3)]);
    if !laplace then Divide(count, total)
    else if fname1 !in dict then Err(KeyError(fname1))
    else if fname2 !in dict then Err(KeyError(fname2))
    else if fname3 !in dict then Err(KeyError(fname3))
    else
      ProductPositive(|dict[fname1]|, |dict[fname2]|);
      ProductPositive(|dict[fname1]| * |dict[fname2]|, |dict[fname3]|);
      Divide(count + 1, total + |dict[fname1]| * |dict[fname2]| * |dict[fname3]|)
  }

  lemma ProductPositive(a: nat, b: nat)
    ensures a > 0 && b > 0 ==> a * b > 0
  {
  }

  /** With Laplace smoothing and both attributes known, the two-attribute
      conditional does not depend on which attribute is named first. */
  lemma Conditional2Symmetric(data: seq<Row>, dict: map<string, seq<Value>>, fname1: string, fval1: Value,
                              fname2: string, fval2: Value, classifierval: Value, classifier: string)
    requires HasKeys(data, {fname1, fname2, classifier}) && fname1 in dict && fname2 in dict
    ensures HasKeys(data, {fname2, fname1, classifier})
    ensures ConditionalProbability2(data, dict, fname1, fval1, fname2, fval2, classifierval, classifier, true)
         == ConditionalProbability2(data, dict, fname2, fval2, fname1, fval1, classifierval, classifier, true)
  {
    assert {fname1, fname2, classifier} == {fname2, fname1, classifier};
    CountSwap(data, Eq(fname1, fval1), Eq(fname2, fval2), Eq(classifier, classifierval));
    assert |dict[fname1]| * |dict[fname2]| == |dict[fname2]| * |dict[fname1]|;
  }

  /** With Laplace smoothing and all three names known, the three-way joint
      does not depend on which of the first two is named first. */
  lemma Joint3Symmetric(data: seq<Row>, dict: map<string, seq<Value>>, fname1: string, fval1: Value,
                        fname2: string, fval2: Value, fname3: string, fval3: Value)
    requires HasKeys(data, {fname1, fname2, fname3}) && fname1 in dict && fname2 in dict && fname3 in dict
    ensures HasKeys(data, {fname2, fname1, fname3})
    ensures JointProbability3(data, dict, fname1, fval1, fname2, fval2, fname3, fval3, true)
         == JointProbability3(data, dict, fname2, fval2, fname1, fval1, fname3, fval3, true)
  {
    assert {fname1, fname2, fname3} == {fname2, fname1, fname3};
    CountSwap(data, Eq(fname1, fval1), Eq(fname2, fval2), Eq(fname3, fval3));
    assert |dict[fname1]| * |dict[fname2]| == |dict[fname2]| * |dict[fname1]|;
  }

  // ---------------------------------------------------------------------------
  // Counting facts

  lemma MatchesSnoc(row: Row, q: Query, e: Eq)
    ensures Matches(row, q + [e]) <==> Matches(row, q) && Holds(row, e)
  {
    if Matches(row, q) && Holds(row, e) {
      forall i | 0 <= i < |q + [e]| ensures Holds(row, (q + [e])[i]) {
        if i < |q| { assert (q + [e])[i] == q[i]; }
      }
    }
    if Matches(row, q + [e]) {
      assert (q + [e])[|q|] == e;
      forall i | 0 <= i < |q| ensures Holds(row, q[i]) {
        assert (q + [e])[i] == q[i];
      }
    }
  }

  /** Filtering by more tests never counts more rows. */
  lemma {:induction false} CountMono(data: seq<Row>, q1: Query, q2: Query)
    requires forall r: Row :: Matches(r, q1) ==> Matches(r, q2)
    ensures Count(data, q1) <= Count(data, q2)
  {
    if data != [] {
      CountMono(data[1..], q1, q2);
    }
  }

  lemma CountPrefix(data: seq<Row>, q1: Query, q2: Query)
    ensures Count(data, q1 + q2) <= Count(data, q1)
  {
    forall r: Row | Matches(r, q1 + q2) ensures Matches(r, q1) {
      forall i | 0 <= i < |q1| ensures Holds(r, q1[i]) {
        assert (q1 + q2)[i] == q1[i];
      }
    }
    CountMono(data, q1 + q2, q1);
  }

  /** The order of the tests does not matter. */
  lemma CountRotate(data: seq<Row>, a: Eq, b: Eq, c: Eq)
    ensures Count(data, [a, b, c]) == Count(data, [c, a, b])
  {
    forall r: Row ensures Matches(r, [a, b, c]) <==> Matches(r, [c, a, b]) {
      if Matches(r, [a, b, c]) {
        assert Holds(r, [a, b, c][0]) && Holds(r, [a, b, c][1]) && Holds(r, [a, b, c][2]);
      }
      if Matches(r, [c, a, b]) {
        assert Holds(r, [c, a, b][0]) && Holds(r, [c, a, b][1]) && Holds(r, [c, a, b][2]);
      }
    }
    CountMono(data, [a, b, c], [c, a, b]);
    CountMono(data, [c, a, b], [a, b, c]);
  }

  /** Swapping the first two tests does not change the count. */
  lemma CountSwap(data: seq<Row>, a: Eq, b: Eq, c: Eq)
    ensures Count(data, [a, b, c]) == Count(data, [b, a, c])
  {
    forall r: Row ensures Matches(r, [a, b, c]) <==> Matches(r, [b, a, c]) {
      if Matches(r, [a, b, c]) {
        assert Holds(r, [a, b, c][0]) && Holds(r, [a, b, c][1]) && Holds(r, [a, b, c][2]);
      }
      if Matches(r, [b, a, c]) {
        assert Holds(r, [b, a, c][0]) && Holds(r, [b, a, c][1]) && Holds(r, [b, a, c][2]);
      }
    }
    CountMono(data, [a, b, c], [b, a, c]);
    CountMono(data, [b, a, c], [a, b, c]);
  }

  /** Some row passes exactly when the count is positive. */
  lemma {:induction false} CountPositive(data: seq<Row>, q: Query)
    ensures Count(data, q) > 0 <==> exists i :: 0 <= i < |data| && Matches(data[i], q)
  {
    if data != [] {
      CountPositive(data[1..], q);
      if exists i :: 0 <= i < |data| && Matches(data[i], q) {
        var i :| 0 <= i < |data| && Matches(data[i], q);
        if i > 0 { assert data[1..][i - 1] == data[i]; }
      }
      if exists i :: 0 <= i < |data[1..]| && Matches(data[1..][i], q) {
        var i :| 0 <= i < |data[1..]| && Matches(data[1..][i], q);
        assert data[i + 1] == data[1..][i];
      }
    }
  }

  /** Some row has `name == v` exactly when the count for that test is positive. */
  lemma CountPositiveOne(data: seq<Row>, name: string, v: Value)
    requires HasKeys(data, {name})
    ensures Count(data, [Eq(name, v)]) > 0 <==> exists i :: 0 <= i < |data| && data[i][name] == v
  {
    CountPositive(data, [Eq(name, v)]);
    forall i | 0 <= i < |data| ensures Matches(data[i], [Eq(name, v)]) <==> data[i][name] == v {
      assert [Eq(name, v)][0] == Eq(name, v);
    }
  }

  /** The rows that pass the class test are those of that class. */
  lemma ClassRowsInDomain(data: seq<Row>, dict: map<string, seq<Value>>, f: string, classifier: string, cv: Value)
    requires HasKeys(data, {f, classifier}) && f in dict
    requires InDomainGiven(data, dict, f, classifier, cv)
    ensures forall i :: 0 <= i < |data| && Matches(data[i], [Eq(classifier, cv)]) ==>
              f in data[i] && data[i][f] in dict[f]
  {
    forall i | 0 <= i < |data| && Matches(data[i], [Eq(classifier, cv)]) ensures f in data[i] && data[i][f] in dict[f] {
      assert Holds(data[i], [Eq(classifier, cv)][0]);
    }
  }

  /** Rows that pass the class test and one more test are of that class. */
  lemma ClassFilterNarrows(data: seq<Row>, dict: map<string, seq<Value>>, f: string, classifier: string, cv: Value,
                           e: Eq)
    requires HasKeys(data, {f, classifier}) && f in dict
    requires InDomainGiven(data, dict, f, classifier, cv)
    ensures forall i :: 0 <= i < |data| && Matches(data[i], [Eq(classifier, cv), e]) ==>
              f in data[i] && data[i][f] in dict[f]
  {
    forall i | 0 <= i < |data| && Matches(data[i], [Eq(classifier, cv), e]) ensures f in data[i] && data[i][f] in dict[f] {
      assert Holds(data[i], [Eq(classifier, cv), e][0]);
    }
  }

  lemma AllRowsInDomain(data: seq<Row>, dict: map<string, seq<Value>>, f: string)
    requires HasKeys(data, {f}) && f in dict && InDomain(data, dict, f)
    ensures forall i :: 0 <= i < |data| && Matches(data[i], []) ==> f in data[i] && data[i][f] in dict[f]
  {
  }

  /** The empty filter counts every row. */
  lemma {:induction false} CountAll(data: seq<Row>)
    ensures Count(data, []) == |data|
  {
    if data != [] {
      CountAll(data[1..]);
    }
  }

  // ---------------------------------------------------------------------------
  // Partitioning a count by the values of one more attribute

  /** Sum over v in vals of Count(data, q + [f = v]). */
  function SplitCount(data: seq<Row>, q: Query, f: string, vals: seq<Value>): nat
  {
    if vals == [] then 0
    else Count(data, q + [Eq(f, vals[0])]) + SplitCount(data, q, f, vals[1..])
  }

  /** How many v in vals make `row` pass q + [f = v]. */
  function Hits(row: Row, q: Query, f: string, vals: seq<Value>): nat
  {
    if vals == [] then 0
    else (if Matches(row, q + [Eq(f, vals[0])]) then 1 else 0) + Hits(row, q, f, vals[1..])
  }

  lemma {:induction false} HitsNone(row: Row, q: Query, f: string, vals: seq<Value>)
    requires !Matches(row, q) || f !in row || row[f] !in vals
    ensures Hits(row, q, f, vals) == 0
  {
    if vals != [] {
      MatchesSnoc(row, q, Eq(f, vals[0]));
      HitsNone(row, q, f, vals[1..]);
    }
  }

  lemma {:induction false} HitsOne(row: Row, q: Query, f: string, vals: seq<Value>)
    requires Matches(row, q) && f in row && row[f] in vals && Distinct(vals)
    ensures Hits(row, q, f, vals) == 1
  {
    MatchesSnoc(row, q, Eq(f, vals[0]));
    if row[f] == vals[0] {
      HitsNone(row, q, f, vals[1..]);
    } else {
      assert Distinct(vals[1..]) by {
        forall i, j | 0 <= i < j < |vals[1..]| ensures vals[1..][i] != vals[1..][j] {
          assert vals[1..][i] == vals[i + 1] && vals[1..][j] == vals[j + 1];
        }
      }
      HitsOne(row, q, f, vals[1..]);
    }
  }

  lemma {:induction false} SplitCountNil(q: Query, f: string, vals: seq<Value>)
    ensures SplitCount([], q, f, vals) == 0
  {
    if vals != [] {
      SplitCountNil(q, f, vals[1..]);
    }
  }

  lemma {:induction false} SplitCountCons(data: seq<Row>, q: Query, f: string, vals: seq<Value>)
    requires data != []
    ensures SplitCount(data, q, f, vals) == Hits(data[0], q, f, vals) + SplitCount(data[1..], q, f, vals)
  {
    if vals != [] {
      SplitCountCons(data, q, f, vals[1..]);
    }
  }

  /** When every row that passes q has its f-value in the duplicate-free
      domain dom, the counts for the values of dom add up to the count for q. */
  lemma {:induction false} SplitCountIsCount(data: seq<Row>, q: Query, f: string, dom: seq<Value>)
    requires Distinct(dom)
    requires forall i :: 0 <= i < |data| && Matches(data[i], q) ==> f in data[i] && data[i][f] in dom
    ensures SplitCount(data, q, f, dom) == Count(data, q)
  {
    if data == [] {
      SplitCountNil(q, f, dom);
    } else {
      SplitCountCons(data, q, f, dom);
      if Matches(data[0], q) {
        HitsOne(data[0], q, f, dom);
      } else {
        HitsNone(data[0], q, f, dom);
      }
      forall i | 0 <= i < |data[1..]| && Matches(data[1..][i], q)
        ensures f in data[1..][i] && data[1..][i][f] in dom
      {
        assert data[1..][i] == data[i + 1];
      }
      SplitCountIsCount(data[1..], q, f, dom);
    }
  }

  /** Sum over v in vals of (Count(data, q + [f = v]) + k) / d. */
  function OffsetMass(data: seq<Row>, q: Query, f: string, vals: seq<Value>, k: nat, d: nat): real
    requires d > 0
  {
    if vals == [] then 0.0
    else (Count(data, q + [Eq(f, vals[0])]) + k) as real / d as real + OffsetMass(data, q, f, vals[1..], k, d)
  }

  lemma {:induction false} OffsetMassValue(data: seq<Row>, q: Query, f: string, vals: seq<Value>, k: nat, d: nat)
    requires d > 0
    ensures OffsetMass(data, q, f, vals, k, d) == (SplitCount(data, q, f, vals) + |vals| * k) as real / d as real
  {
    if vals != [] {
      OffsetMassValue(data, q, f, vals[1..], k, d);
      var c := Count(data, q + [Eq(f, vals[0])]);
      var s := SplitCount(data, q, f, vals[1..]);
      assert (|vals| - 1) * k + k == |vals| * k;
      AddFractions((c + k) as real, (s + (|vals| - 1) * k) as real, d as real);
    }
  }

  lemma DivSelf(n: nat, d: nat)
    requires n == d && d > 0
    ensures n as real / d as real == 1.0
  {
  }

  lemma AddFractions(x: real, y: real, d: real)
    requires d != 0.0
    ensures x / d + y / d == (x + y) / d
  {
  }

  /** A split over a whole domain, offset by k per value. */
  lemma SplitMass(data: seq<Row>, q: Query, f: string, dom: seq<Value>, k: nat, d: nat)
    requires d > 0 && Distinct(dom)
    requires forall i :: 0 <= i < |data| && Matches(data[i], q) ==> f in data[i] && data[i][f] in dom
    ensures OffsetMass(data, q, f, dom, k, d) == (Count(data, q) + |dom| * k) as real / d as real
  {
    OffsetMassValue(data, q, f, dom, k, d);
    SplitCountIsCount(data, q, f, dom);
  }

  // ---------------------------------------------------------------------------
  // The Laplace estimates sum to one

  /** Every row with class `cv` has its f-value in the domain of f. */
  predicate InDomainGiven(data: seq<Row>, dict: map<string, seq<Value>>, f: string, classifier: string, cv: Value)
    requires HasKeys(data, {f, classifier}) && f in dict
  {
    forall i :: 0 <= i < |data| && data[i][classifier] == cv ==> data[i][f] in dict[f]
  }

  /** Every row has its f-value in the domain of f. */
  predicate InDomain(data: seq<Row>, dict: map<string, seq<Value>>, f: string)
    requires HasKeys(data, {f}) && f in dict
  {
    forall i :: 0 <= i < |data| ==> data[i][f] in dict[f]
  }

  /** The sum of `probability(fname, v)` over v in vals. */
  function ProbabilityMass(data: seq<Row>, dict: map<string, seq<Value>>, fname: string, vals: seq<Value>): real
    requires HasKeys(data, {fname}) && fname in dict && |dict[fname]| > 0
  {
    if vals == [] then 0.0
    else Probability(data, dict, fname, vals[0], true).value + ProbabilityMass(data, dict, fname, vals[1..])
  }

  lemma {:induction false} ProbabilityMassIsOffset(data: seq<Row>, dict: map<string, seq<Value>>, fname: string,
                                                   vals: seq<Value>)
    requires HasKeys(data, {fname}) && fname in dict && |dict[fname]| > 0
    ensures ProbabilityMass(data, dict, fname, vals) == OffsetMass(data, [], fname, vals, 1, |data| + |dict[fname]|)
  {
    if vals != [] {
      assert [] + [Eq(fname, vals[0])] == [Eq(fname, vals[0])];
      ProbabilityMassIsOffset(data, dict, fname, vals[1..]);
    }
  }

  /** With Laplace smoothing, `probability` over a duplicate-free domain
      that holds every row's value sums to 1. */
  lemma ProbabilitySumsToOne(data: seq<Row>, dict: map<string, seq<Value>>, fname: string)
    requires HasKeys(data, {fname}) && fname in dict && |dict[fname]| > 0 && Distinct(dict[fname])
    requires InDomain(data, dict, fname)
    ensures ProbabilityMass(data, dict, fname, dict[fname]) == 1.0
  {
    var dom := dict[fname];
    ProbabilityMassIsOffset(data, dict, fname, dom);
    SplitMass(data, [], fname, dom, 1, |data| + |dom|);
    CountAll(data);
    DivSelf(Count(data, []) + |dom| * 1, |data| + |dom|);
  }

  /** With Laplace smoothing and no training rows, every value of the domain
      gets probability 1/|domain|. */
  lemma ProbabilityOfEmptyData(dict: map<string, seq<Value>>, fname: string, fval: Value)
    requires fname in dict && |dict[fname]| > 0
    ensures Probability([], dict, fname, fval, true) == Ok(1.0 / |dict[fname]| as real)
  {
  }

  /** The sum of `conditional_probability(fname, v, cv)` over v in vals. */
  function ConditionalMass(data: seq<Row>, dict: map<string, seq<Value>>, fname: string, cv: Value,
                           classifier: string, vals: seq<Value>): real
    requires HasKeys(data, {fname, classifier}) && fname in dict && |dict[fname]| > 0
  {
    if vals == [] then 0.0
    else ConditionalProbability(data, dict, fname, vals[0], cv, classifier, true).value
         + ConditionalMass(data, dict, fname, cv, classifier, vals[1..])
  }

  lemma {:induction false} ConditionalMassIsOffset(data: seq<Row>, dict: map<string, seq<Value>>, fname: string,
                                                   cv: Value, classifier: string, vals: seq<Value>)
    requires HasKeys(data, {fname, classifier}) && fname in dict && |dict[fname]| > 0
    ensures ConditionalMass(data, dict, fname, cv, classifier, vals)
         == OffsetMass(data, [Eq(classifier, cv)], fname, vals, 1,
                       Count(data, [Eq(classifier, cv)]) + |dict[fname]|)
  {
    if vals != [] {
      assert [Eq(classifier, cv)] + [Eq(fname, vals[0])] == [Eq(classifier, cv), Eq(fname, vals[0])];
      ConditionalMassIsOffset(data, dict, fname, cv, classifier, vals[1..]);
    }
  }

  /** With Laplace smoothing, `conditional_probability(fname, v, cv)` sums to
      1 over a duplicate-free domain that holds the value of every row of
      class cv. */
  lemma ConditionalSumsToOne(data: seq<Row>, dict: map<string, seq<Value>>, fname: string, cv: Value,
                             classifier: string)
    requires HasKeys(data, {fname, classifier}) && fname in dict && |dict[fname]| > 0 && Distinct(dict[fname])
    requires InDomainGiven(data, dict, fname, classifier, cv)
    ensures ConditionalMass(data, dict, fname, cv, classifier, dict[fname]) == 1.0
  {
    var dom := dict[fname];
    var q := [Eq(classifier, cv)];
    ConditionalMassIsOffset(data, dict, fname, cv, classifier, dom);
    ClassRowsInDomain(data, dict, fname, classifier, cv);
    SplitMass(data, q, fname, dom, 1, Count(data, q) + |dom|);
    DivSelf(Count(data, q) + |dom| * 1, Count(data, q) + |dom|);
  }

  /** The Laplace denominator of `conditional_probabilty2`. */
  function Conditional2Denominator(data: seq<Row>, dict: map<string, seq<Value>>, fname1: string, fname2: string,
                                   cv: Value, classifier: string): (d: nat)
    requires fname1 in dict && fname2 in dict && |dict[fname1]| > 0 && |dict[fname2]| > 0
    ensures d > 0
  {
    ProductPositive(|dict[fname1]|, |dict[fname2]|);
    Count(data, [Eq(classifier, cv)]) + |dict[fname1]| * |dict[fname2]|
  }

  /** The sum of `conditional_probabilty2(fname1, v1, fname2, v2, cv)` over v2 in vals. */
  function Conditional2Row(data: seq<Row>, dict: map<string, seq<Value>>, fname1: string, v1: Value,
                           fname2: string, cv: Value, classifier: string, vals: seq<Value>): real
    requires HasKeys(data, {fname1, fname2, classifier})
    requires fname1 in dict && fname2 in dict && |dict[fname1]| > 0 && |dict[fname2]| > 0
  {
    if vals == [] then 0.0
    else ConditionalProbability2(data, dict, fname1, v1, fname2, vals[0], cv, classifier, true).value
         + Conditional2Row(data, dict, fname1, v1, fname2, cv, classifier, vals[1..])
  }

  /** The sum of `conditional_probabilty2(fname1, v1, fname2, v2, cv)` over
      v1 in vals and v2 in the domain of fname2. */
  function Conditional2Mass(data: seq<Row>, dict: map<string, seq<Value>>, fname1: string, fname2: string,
                            cv: Value, classifier: string, vals: seq<Value>): real
    requires HasKeys(data, {fname1, fname2, classifier})
    requires fname1 in dict && fname2 in dict && |dict[fname1]| > 0 && |dict[fname2]| > 0
  {
    if vals == [] then 0.0
    else Conditional2Row(data, dict, fname1, vals[0], fname2, cv, classifier, dict[fname2])
         + Conditional2Mass(data, dict, fname1, fname2, cv, classifier, vals[1..])
  }

  lemma {:induction false} Conditional2RowIsOffset(data: seq<Row>, dict: map<string, seq<Value>>, fname1: string,
                                                   v1: Value, fname2: string, cv: Value, classifier: string,
                                                   vals: seq<Value>)
    requires HasKeys(data, {fname1, fname2, classifier})
    requires fname1 in dict && fname2 in dict && |dict[fname1]| > 0 && |dict[fname2]| > 0
    ensures Conditional2Row(data, dict, fname1, v1, fname2, cv, classifier, vals)
         == OffsetMass(data, [Eq(classifier, cv), Eq(fname1, v1)], fname2, vals, 1,
                       Conditional2Denominator(data, dict, fname1, fname2, cv, classifier))
  {
    if vals != [] {
      var a, b, c := Eq(fname1, v1), Eq(fname2, vals[0]), Eq(classifier, cv);
      CountRotate(data, a, b, c);
      assert [c, a] + [b] == [c, a, b];
      Conditional2RowIsOffset(data, dict, fname1, v1, fname2, cv, classifier, vals[1..]);
    }
  }

  lemma {:induction false} Conditional2MassIsOffset(data: seq<Row>, dict: map<string, seq<Value>>, fname1: string,
                                                    fname2: string, cv: Value, classifier: string, vals: seq<Value>)
    requires HasKeys(data, {fname1, fname2, classifier})
    requires fname1 in dict && fname2 in dict && |dict[fname1]| > 0 && |dict[fname2]| > 0
    requires Distinct(dict[fname2]) && InDomainGiven(data, dict, fname2, classifier, cv)
    ensures Conditional2Mass(data, dict, fname1, fname2, cv, classifier, vals)
         == OffsetMass(data, [Eq(classifier, cv)], fname1, vals, |dict[fname2]|,
                       Conditional2Denominator(data, dict, fname1, fname2, cv, classifier))
  {
    if vals != [] {
      var d := Conditional2Denominator(data, dict, fname1, fname2, cv, classifier);
      var q := [Eq(classifier, cv), Eq(fname1, vals[0])];
      assert [Eq(classifier, cv)] + [Eq(fname1, vals[0])] == q;
      Conditional2RowIsOffset(data, dict, fname1, vals[0], fname2, cv, classifier, dict[fname2]);
      ClassFilterNarrows(data, dict, fname2, classifier, cv, Eq(fname1, vals[0]));
      SplitMass(data, q, fname2, dict[fname2], 1, d);
      Conditional2MassIsOffset(data, dict, fname1, fname2, cv, classifier, vals[1..]);
    }
  }

  /** With Laplace smoothing, `conditional_probabilty2(fname1, v1, fname2, v2, cv)`
      sums to 1 over the product of the two domains. */
  lemma Conditional2SumsToOne(data: seq<Row>, dict: map<string, seq<Value>>, fname1: string, fname2: string,
                              cv: Value, classifier: string)
    requires HasKeys(data, {fname1, fname2, classifier})
    requires fname1 in dict && fname2 in dict && |dict[fname1]| > 0 && |dict[fname2]| > 0
    requires Distinct(dict[fname1]) && Distinct(dict[fname2])
    requires InDomainGiven(data, dict, fname1, classifier, cv) && InDomainGiven(data, dict, fname2, classifier, cv)
    ensures Conditional2Mass(data, dict, fname1, fname2, cv, classifier, dict[fname1]) == 1.0
  {
    var q := [Eq(classifier, cv)];
    Conditional2MassIsOffset(data, dict, fname1, fname2, cv, classifier, dict[fname1]);
    ClassRowsInDomain(data, dict, fname1, classifier, cv);
    var d := Conditional2Denominator(data, dict, fname1, fname2, cv, classifier);
    SplitMass(data, q, fname1, dict[fname1], |dict[fname2]|, d);
    DivSelf(Count(data, q) + |dict[fname1]| * |dict[fname2]|, d);
  }

  /** The sum of `joint_probability3(f1, v1, f2, v2, f3, v3)` over v3 in vals. */
  function Joint3Inner(data: seq<Row>, dict: map<string, seq<Value>>, f1: string, v1: Value, f2: string, v2: Value,
                       f3: string, vals: seq<Value>): real
    requires HasKeys(data, {f1, f2, f3}) && f1 in dict && f2 in dict && f3 in dict
    requires |dict[f1]| > 0 && |dict[f2]| > 0 && |dict[f3]| > 0
  {
    if vals == [] then 0.0
    else JointProbability3(data, dict, f1, v1, f2, v2, f3, vals[0], true).value
         + Joint3Inner(data, dict, f1, v1, f2, v2, f3, vals[1..])
  }

  /** The sum of `joint_probability3(f1, v1, f2, v2, f3, v3)` over v2 in vals
      and v3 in the domain of f3. */
  function Joint3Middle(data: seq<Row>, dict: map<string, seq<Value>>, f1: string, v1: Value, f2: string,
                        f3: string, vals: seq<Value>): real
    requires HasKeys(data, {f1, f2, f3}) && f1 in dict && f2 in dict && f3 in dict
    requires |dict[f1]| > 0 && |dict[f2]| > 0 && |dict[f3]| > 0
  {
    if vals == [] then 0.0
    else Joint3Inner(data, dict, f1, v1, f2, vals[0], f3, dict[f3])
         + Joint3Middle(data, dict, f1, v1, f2, f3, vals[1..])
  }

  /** The sum of `joint_probability3(f1, v1, f2, v2, f3, v3)` over v1 in vals
      and (v2, v3) in the product of the other two domains. */
  function Joint3Mass(data: seq<Row>, dict: map<string, seq<Value>>, f1: string, f2: string, f3: string,
                      vals: seq<Value>): real
    requires HasKeys(data, {f1, f2, f3}) && f1 in dict && f2 in dict && f3 in dict
    requires |dict[f1]| > 0 && |dict[f2]| > 0 && |dict[f3]| > 0
  {
    if vals == [] then 0.0
    else Joint3Middle(data, dict, f1, vals[0], f2, f3, dict[f2])
         + Joint3Mass(data, dict, f1, f2, f3, vals[1..])
  }

  /** The Laplace denominator of `joint_probability3`. */
  function Joint3Denominator(data: seq<Row>, dict: map<string, seq<Value>>, f1: string, f2: string, f3: string): (d: nat)
    requires f1 in dict && f2 in dict && f3 in dict
    requires |dict[f1]| > 0 && |dict[f2]| > 0 && |dict[f3]| > 0
    ensures d > 0
  {
    ProductPositive(|dict[f1]|, |dict[f2]|);
    ProductPositive(|dict[f1]| * |dict[f2]|, |dict[f3]|);
    |data| + |dict[f1]| * |dict[f2]| * |dict[f3]|
  }

  lemma {:induction false} Joint3InnerIsOffset(data: seq<Row>, dict: map<string, seq<Value>>, f1: string, v1: Value,
                                               f2: string, v2: Value, f3: string, vals: seq<Value>)
    requires HasKeys(data, {f1, f2, f3}) && f1 in dict && f2 in dict && f3 in dict
    requires |dict[f1]| > 0 && |dict[f2]| > 0 && |dict[f3]| > 0
    ensures Joint3Inner(data, dict, f1, v1, f2, v2, f3, vals)
         == OffsetMass(data, [Eq(f1, v1), Eq(f2, v2)], f3, vals, 1, Joint3Denominator(data, dict, f1, f2, f3))
  {
    if vals != [] {
      assert [Eq(f1, v1), Eq(f2, v2)] + [Eq(f3, vals[0])] == [Eq(f1, v1), Eq(f2, v2), Eq(f3, vals[0])];
      Joint3InnerIsOffset(data, dict, f1, v1, f2, v2, f3, vals[1..]);
    }
  }

  lemma {:induction false} Joint3MiddleIsOffset(data: seq<Row>, dict: map<string, seq<Value>>, f1: string, v1: Value,
                                                f2: string, f3: string, vals: seq<Value>)
    requires HasKeys(data, {f1, f2, f3}) && f1 in dict && f2 in dict && f3 in dict
    requires |dict[f1]| > 0 && |dict[f2]| > 0 && |dict[f3]| > 0
    requires Distinct(dict[f3]) && InDomain(data, dict, f3)
    ensures Joint3Middle(data, dict, f1, v1, f2, f3, vals)
         == OffsetMass(data, [Eq(f1, v1)], f2, vals, |dict[f3]|, Joint3Denominator(data, dict, f1, f2, f3))
  {
    if vals != [] {
      var q := [Eq(f1, v1), Eq(f2, vals[0])];
      assert [Eq(f1, v1)] + [Eq(f2, vals[0])] == q;
      Joint3InnerIsOffset(data, dict, f1, v1, f2, vals[0], f3, dict[f3]);
      SplitMass(data, q, f3, dict[f3], 1, Joint3Denominator(data, dict, f1, f2, f3));
      Joint3MiddleIsOffset(data, dict, f1, v1, f2, f3, vals[1..]);
    }
  }

  lemma {:induction false} Joint3MassIsOffset(data: seq<Row>, dict: map<string, seq<Value>>, f1: string, f2: string,
                                              f3: string, vals: seq<Value>)
    requires HasKeys(data, {f1, f2, f3}) && f1 in dict && f2 in dict && f3 in dict
    requires |dict[f1]| > 0 && |dict[f2]| > 0 && |dict[f3]| > 0
    requires Distinct(dict[f2]) && Distinct(dict[f3]) && InDomain(data, dict, f2) && InDomain(data, dict, f3)
    ensures Joint3Mass(data, dict, f1, f2, f3, vals)
         == OffsetMass(data, [], f1, vals, Pairs(|dict[f2]|, |dict[f3]|), Joint3Denominator(data, dict, f1, f2, f3))
  {
    if vals != [] {
      var q := [Eq(f1, vals[0])];
      assert [] + [Eq(f1, vals[0])] == q;
      Joint3MiddleIsOffset(data, dict, f1, vals[0], f2, f3, dict[f2]);
      SplitMass(data, q, f2, dict[f2], |dict[f3]|, Joint3Denominator(data, dict, f1, f2, f3));
      Joint3MassIsOffset(data, dict, f1, f2, f3, vals[1..]);
    }
  }

  /** With Laplace smoothing, `joint_probability3` sums to 1 over the product
      of the three domains. */
  lemma {:induction false} Joint3SumsToOne(data: seq<Row>, dict: map<string, seq<Value>>, f1: string, f2: string, f3: string)
    requires HasKeys(data, {f1, f2, f3}) && f1 in dict && f2 in dict && f3 in dict
    requires |dict[f1]| > 0 && |dict[f2]| > 0 && |dict[f3]| > 0
    requires Distinct(dict[f1]) && Distinct(dict[f2]) && Distinct(dict[f3])
    requires InDomain(data, dict, f1) && InDomain(data, dict, f2) && InDomain(data, dict, f3)
    ensures Joint3Mass(data, dict, f1, f2, f3, dict[f1]) == 1.0
  {
    Joint3MassValue(data, dict, f1, f2, f3);
    Joint3Total(data, dict, f1, f2, f3);
    DivSelf(Count(data, []) + |dict[f1]| * Pairs(|dict[f2]|, |dict[f3]|), Joint3Denominator(data, dict, f1, f2, f3));
  }

  /** The number of value pairs in the product of two domains. */
  function Pairs(k2: nat, k3: nat): (k: nat)
    ensures k == k2 * k3
  {
    k2 * k3
  }

  /** The mass of `joint_probability3` over the product of the three domains
      as a single fraction: every row once, plus one per value triple. */
  lemma {:induction false} Joint3MassValue(data: seq<Row>, dict: map<string, seq<Value>>, f1: string, f2: string, f3: string)
    requires HasKeys(data, {f1, f2, f3}) && f1 in dict && f2 in dict && f3 in dict
    requires |dict[f1]| > 0 && |dict[f2]| > 0 && |dict[f3]| > 0
    requires Distinct(dict[f1]) && Distinct(dict[f2]) && Distinct(dict[f3])
    requires InDomain(data, dict, f1) && InDomain(data, dict, f2) && InDomain(data, dict, f3)
    ensures Joint3Mass(data, dict, f1, f2, f3, dict[f1])
         == (Count(data, []) + |dict[f1]| * Pairs(|dict[f2]|, |dict[f3]|)) as real
            / Joint3Denominator(data, dict, f1, f2, f3) as real
  {
    var k, d := Pairs(|dict[f2]|, |dict[f3]|), Joint3Denominator(data, dict, f1, f2, f3);
    assert Joint3Mass(data, dict, f1, f2, f3, dict[f1]) == OffsetMass(data, [], f1, dict[f1], k, d) by {
      Joint3MassIsOffset(data, dict, f1, f2, f3, dict[f1]);
    }
    assert OffsetMass(data, [], f1, dict[f1], k, d) == (Count(data, []) + |dict[f1]| * k) as real / d as real by {
      AllRowsInDomain(data, dict, f1);
      SplitMass(data, [], f1, dict[f1], k, d);
    }
  }

  lemma Joint3Total(data: seq<Row>, dict: map<string, seq<Value>>, f1: string, f2: string, f3: string)
    requires f1 in dict && f2 in dict && f3 in dict
    requires |dict[f1]| > 0 && |dict[f2]| > 0 && |dict[f3]| > 0
    ensures Count(data, []) + |dict[f1]| * Pairs(|dict[f2]|, |dict[f3]|) == Joint3Denominator(data, dict, f1, f2, f3)
  {
    CountAll(data);
    MulAssoc(|dict[f1]|, |dict[f2]|, |dict[f3]|);
  }

  lemma MulAssoc(a: nat, b: nat, c: nat)
    ensures a * (b * c) == a * b * c
  {
  }
}
