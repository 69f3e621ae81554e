/** The scoring part of `classify`, which naivebayes.py and naive-bayes.py
    share: the prior of each class value times the class-conditional
    probabilities of the test row's values, the first maximal score as the
    prediction, its share of the total as the confidence, and the number of
    correct predictions. Loading, copying and printing are not modelled; the
    printed lines are returned as `Prediction` values. */
module Scoring {
  import opened Common
  import opened Estimators
  import opened Rows

  /** What `classify` reads: the training rows, the attribute dictionary,
      the class attribute's name, the attribute names in the order a test
      row's items are visited, and the class values in the order the
      priors dictionary `p` is visited. The same order stands for the
      order in which `sum` and `max` walk `cplist`; it decides which class
      value wins a tie. */
  datatype Model = Model(data: seq<Row>, dict: map<string, seq<Value>>, classifier: string,
                         names: seq<string>, order: seq<Value>)

  /** The conditions under which no estimator call raises: every name is
      declared with a non-empty domain, every training row holds every
      declared name, every visited name is declared, and at least one class
      value is visited. That the visiting orders are duplicate-free
      enumerations of the keys is stated separately, where it is needed. */
  predicate Ready(m: Model) {
    && m.classifier in m.dict
    && (forall k :: k in m.dict ==> |m.dict[k]| > 0)
    && HasKeys(m.data, m.dict.Keys)
    && (forall i :: 0 <= i < |m.names| ==> m.names[i] in m.dict)
    && |m.order| > 0
  }

  /** A test row holds every name, the class attribute among them. */
  predicate Covers(m: Model, row: Row) {
    (forall i :: 0 <= i < |m.names| ==> m.names[i] in row) && m.classifier in row
  }

  /** The names enumerate a test row's keys, each once, as the row's item
      iteration does. */
  predicate Enumerates(m: Model, row: Row) {
    Distinct(m.names) && row.Keys == set k | k in m.names
  }

  lemma ProductInUnit(a: real, b: real)
    requires 0.0 < a <= 1.0 && 0.0 < b <= 1.0
    ensures 0.0 < a * b <= 1.0
  {
    assert 0.0 < a * b;
    assert a * b <= a * 1.0 by { assert a * (1.0 - b) >= 0.0; }
  }

  /** Multiplying a product by one more factor: if x = a * b, then x * c
      is a times b * c. */
  lemma MulStep(x: real, a: real, b: real, c: real, y: real, z: real)
    requires x == a * b && y == x * c && z == b * c
    ensures y == a * z
  {
  }

  /** The product, over the first n names other than the class attribute,
      of P(name = row[name] | class = cv). */
  function Likelihood(m: Model, row: Row, cv: Value, n: nat): (r: real)
    requires Ready(m) && Covers(m, row) && n <= |m.names|
    ensures 0.0 < r <= 1.0
  {
    if n == 0 then 1.0
    else
      var rest := Likelihood(m, row, cv, n - 1);
      var k := m.names[n - 1];
      if k == m.classifier then rest
      else
        var c := ConditionalProbability(m.data, m.dict, k, row[k], cv, m.classifier, true).value;
        ProductInUnit(rest, c);
        rest * c
  }

  /** `p[cv] = self.probability(classifier, cv)`. */
  function Prior(m: Model, cv: Value): (r: real)
    requires Ready(m)
    ensures 0.0 < r <= 1.0
  {
    Probability(m.data, m.dict, m.classifier, cv, true).value
  }

  /** The unnormalised posterior of class value cv for a test row. */
  function Score(m: Model, row: Row, cv: Value): (r: real)
    requires Ready(m) && Covers(m, row)
    ensures 0.0 < r <= 1.0
  {
    ProductInUnit(Prior(m, cv), Likelihood(m, row, cv, |m.names|));
    Prior(m, cv) * Likelihood(m, row, cv, |m.names|)
  }

  /** The score as the product of a known prior and a known likelihood. */
  lemma {:induction false} ScoreOf(m: Model, row: Row, cv: Value, prior: real, lik: real, x: real)
    requires Ready(m) && Covers(m, row)
    requires prior == Prior(m, cv) && lik == Likelihood(m, row, cv, |m.names|) && x == prior * lik
    ensures Score(m, row, cv) == x
  {
  }

  /** `cplist`: one score per class value, in the visiting order. */
  function Scores(m: Model, row: Row): (s: seq<real>)
    requires Ready(m) && Covers(m, row)
    ensures |s| == |m.order|
    ensures forall i :: 0 <= i < |s| ==> 0.0 < s[i] <= 1.0
  {
    seq(|m.order|, i requires 0 <= i < |m.order| => Score(m, row, m.order[i]))
  }

  function Sum(xs: seq<real>): real
  {
    if xs == [] then 0.0 else Sum(xs[..|xs| - 1]) + xs[|xs| - 1]
  }

  /** The position `max(..., key=itemgetter(1))` picks: a maximal element,
      the first one when several are equal. */
  function FirstMax(xs: seq<real>): (k: nat)
    requires |xs| > 0
    ensures k < |xs|
  {
    if |xs| == 1 then 0
    else
      var k := FirstMax(xs[..|xs| - 1]);
      if xs[|xs| - 1] > xs[k] then |xs| - 1 else k
  }

  /** The chosen position holds a maximal element, and every earlier
      element is strictly smaller. */
  lemma {:induction false} FirstMaxIsMax(xs: seq<real>)
    requires |xs| > 0
    ensures forall j :: 0 <= j < |xs| ==> xs[j] <= xs[FirstMax(xs)]
    ensures forall j :: 0 <= j < FirstMax(xs) ==> xs[j] < xs[FirstMax(xs)]
  {
    if |xs| > 1 {
      var front := xs[..|xs| - 1];
      FirstMaxIsMax(front);
      assert forall j :: 0 <= j < |front| ==> front[j] == xs[j];
    }
  }

  /** The predicted label `mval[0]`: a class value of maximal score, the
      first such in the visiting order. */
  function Predict(m: Model, row: Row): Value
    requires Ready(m) && Covers(m, row)
  {
    m.order[FirstMax(Scores(m, row))]
  }

  /** The prediction is a class value of maximal score, and every class
      value visited before it scores strictly less. */
  lemma PredictIsFirstMax(m: Model, row: Row)
    requires Ready(m) && Covers(m, row)
    ensures Predict(m, row) in m.order
    ensures forall c :: c in m.order ==> Score(m, row, c) <= Score(m, row, Predict(m, row))
    ensures exists i :: 0 <= i < |m.order| && m.order[i] == Predict(m, row) &&
              forall j :: 0 <= j < i ==> Score(m, row, m.order[j]) < Score(m, row, Predict(m, row))
  {
    var s := Scores(m, row);
    assert forall j :: 0 <= j < |s| ==> s[j] == Score(m, row, m.order[j]);
    var k := FirstMax(s);
    FirstMaxIsMax(s);
    assert forall c :: c in m.order ==> exists j :: 0 <= j < |m.order| && m.order[j] == c && s[j] == Score(m, row, c);
  }

  /** Over positive terms bounded by top, the sum is positive and at most
      the number of terms times top. */
  lemma {:induction false} SumBounds(xs: seq<real>, top: real)
    requires forall i :: 0 <= i < |xs| ==> 0.0 < xs[i] <= top
    ensures |xs| > 0 ==> Sum(xs) > 0.0
    ensures Sum(xs) <= |xs| as real * top
  {
    if xs != [] {
      var front := xs[..|xs| - 1];
      SumBounds(front, top);
      assert forall i :: 0 <= i < |front| ==> front[i] == xs[i];
    }
  }

  /** Over non-negative terms the sum is non-negative. */
  lemma {:induction false} SumNonNegative(xs: seq<real>)
    requires forall i :: 0 <= i < |xs| ==> 0.0 < xs[i]
    ensures 0.0 <= Sum(xs)
  {
    if xs != [] {
      SumNonNegative(xs[..|xs| - 1]);
    }
  }

  /** Over positive terms, each term is at most the sum. */
  lemma {:induction false} SumAtLeast(xs: seq<real>, k: nat)
    requires k < |xs| && forall i :: 0 <= i < |xs| ==> 0.0 < xs[i]
    ensures xs[k] <= Sum(xs)
  {
    var front := xs[..|xs| - 1];
    if k < |xs| - 1 {
      SumAtLeast(front, k);
    }
    SumNonNegative(front);
  }

  lemma {:induction false} RatioBounds(x: real, total: real, n: nat)
    requires 0.0 < x <= total && n > 0 && total <= n as real * x
    ensures 1.0 / n as real <= x / total <= 1.0
  {
    assert x / total <= 1.0;
    calc {
      1.0 / n as real;
    ==
      x / (n as real * x);
    <= { assert n as real * x >= total; }
      x / total;
    }
  }

  /** Over positive terms, a maximal term's share of the sum lies in
      [1/n, 1] for n terms. */
  lemma {:induction false} MaxShareAt(xs: seq<real>, k: nat)
    requires k < |xs| && forall i :: 0 <= i < |xs| ==> 0.0 < xs[i] <= xs[k]
    ensures Sum(xs) > 0.0
    ensures 1.0 / |xs| as real <= xs[k] / Sum(xs) <= 1.0
  {
    SumBounds(xs, xs[k]);
    SumAtLeast(xs, k);
    RatioBounds(xs[k], Sum(xs), |xs|);
  }

  /** One printed line: the predicted label, the true label, and the two
      numbers whose quotient `mval[1] / tval` is printed as the confidence:
      the winning score and the total of all scores. */
  datatype Prediction = Prediction(predicted: Value, actual: Value, best: real, total: real)

  /** The line printed for one test row. */
  function Report(m: Model, row: Row): Prediction
    requires Ready(m) && Covers(m, row)
  {
    var s := Scores(m, row);
    Prediction(Predict(m, row), row[m.classifier], s[FirstMax(s)], Sum(s))
  }

  /** The printed confidence is well defined and lies in [1/k, 1] for k
      class values: the winner holds at least an equal share of the total. */
  lemma ConfidenceBounds(m: Model, row: Row)
    requires Ready(m) && Covers(m, row)
    ensures Report(m, row).total > 0.0
    ensures 1.0 / |m.order| as real <= Report(m, row).best / Report(m, row).total <= 1.0
  {
    var s := Scores(m, row);
    FirstMaxIsMax(s);
    MaxShareAt(s, FirstMax(s));
  }

  /** Appending one element keeps the prefix and places the element last. */
  lemma Snoc<T>(xs: seq<T>, x: T)
    ensures (xs + [x])[..|xs|] == xs && (xs + [x])[|xs|] == x
  {
  }

  /** The printed lines for the first n test rows, one per row in order. */
  function Reports(m: Model, rows: seq<Row>, n: nat): (lines: seq<Prediction>)
    requires Ready(m) && n <= |rows| && forall t :: 0 <= t < |rows| ==> Covers(m, rows[t])
    ensures |lines| == n
  {
    if n == 0 then [] else Reports(m, rows, n - 1) + [Report(m, rows[n - 1])]
  }

  /** The t-th printed line is the report of the t-th test row. */
  lemma {:induction false} ReportAt(m: Model, rows: seq<Row>, n: nat, t: nat)
    requires Ready(m) && n <= |rows| && forall t :: 0 <= t < |rows| ==> Covers(m, rows[t])
    requires t < n
    ensures Reports(m, rows, n)[t] == Report(m, rows[t])
  {
    Snoc(Reports(m, rows, n - 1), Report(m, rows[n - 1]));
    if t < n - 1 {
      ReportAt(m, rows, n - 1, t);
    }
  }

  /** The number of printed lines whose predicted label is the true one. */
  function CorrectLines(lines: seq<Prediction>): (n: nat)
    ensures n <= |lines|
  {
    if lines == [] then 0
    else CorrectLines(lines[..|lines| - 1]) + (if lines[|lines| - 1].predicted == lines[|lines| - 1].actual then 1 else 0)
  }

  /** The number of rows among the first n whose predicted label equals
      their class value. */
  function CorrectCount(m: Model, rows: seq<Row>, n: nat): (c: nat)
    requires Ready(m) && n <= |rows| && forall t :: 0 <= t < |rows| ==> Covers(m, rows[t])
    ensures c <= n
  {
    if n == 0 then 0
    else CorrectCount(m, rows, n - 1) + (if Predict(m, rows[n - 1]) == rows[n - 1][m.classifier] then 1 else 0)
  }

  /** Counting the correct lines of the report counts the correctly
      predicted rows. */
  lemma {:induction false} HitsOfReports(m: Model, rows: seq<Row>, n: nat)
    requires Ready(m) && n <= |rows| && forall t :: 0 <= t < |rows| ==> Covers(m, rows[t])
    ensures CorrectLines(Reports(m, rows, n)) == CorrectCount(m, rows, n)
  {
    if n > 0 {
      HitsOfReports(m, rows, n - 1);
      Snoc(Reports(m, rows, n - 1), Report(m, rows[n - 1]));
    }
  }

  /** One more name: the likelihood is unchanged for the class attribute and
      gains that name's conditional probability otherwise. */
  lemma {:induction false} LikelihoodStep(m: Model, row: Row, cv: Value, n: nat, lik: real, cond: real)
    requires Ready(m) && Covers(m, row) && n < |m.names| && lik == Likelihood(m, row, cv, n)
    requires m.names[n] != m.classifier ==>
               cond == ConditionalProbability(m.data, m.dict, m.names[n], row[m.names[n]], cv, m.classifier, true).value
    ensures Likelihood(m, row, cv, n + 1) == if m.names[n] == m.classifier then lik else lik * cond
  {
  }

  /** One pass of the inner loop of `classify`: the class attribute is
      skipped, any other name multiplies in its conditional probability. */
  method ScoreStep(m: Model, row: Row, ckey: Value, prior: real, n: nat, cp: real) returns (next: real)
    requires Ready(m) && Covers(m, row) && n < |m.names|
    requires cp == prior * Likelihood(m, row, ckey, n)
    ensures next == prior * Likelihood(m, row, ckey, n + 1)
  {
    ghost var lik := Likelihood(m, row, ckey, n);
    var key := m.names[n];
    if key == m.classifier {
      LikelihoodStep(m, row, ckey, n, lik, 0.0);
      return cp;
    }
    var cond := ConditionalProbability(m.data, m.dict, key, row[key], ckey, m.classifier, true).value;
    LikelihoodStep(m, row, ckey, n, lik, cond);
    next := cp * cond;
    MulStep(cp, prior, lik, cond, next, lik * cond);
  }

  /** The score of one class value, by the inner loop of `classify`: start
      from the prior and multiply in the conditional probability of every
      item of the row except the class. */
  method ScoreClass(m: Model, prior: real, row: Row, ckey: Value) returns (cp: real)
    requires Ready(m) && Covers(m, row) && prior == Prior(m, ckey)
    ensures cp == Score(m, row, ckey)
  {
    cp := prior;
    for n := 0 to |m.names|
      invariant cp == prior * Likelihood(m, row, ckey, n)
    {
      cp := ScoreStep(m, row, ckey, prior, n, cp);
    }
    ScoreOf(m, row, ckey, prior, Likelihood(m, row, ckey, |m.names|), cp);
  }

  /** The scores of one test row, one per class value in the order `p` is
      visited. */
  method ScoreClasses(m: Model, p: map<Value, real>, row: Row) returns (cplist: seq<real>)
    requires Ready(m) && Covers(m, row)
    requires forall i :: 0 <= i < |m.order| ==> m.order[i] in p && p[m.order[i]] == Prior(m, m.order[i])
    ensures cplist == Scores(m, row)
  {
    cplist := [];
    for c := 0 to |m.order|
      invariant |cplist| == c
      invariant forall i :: 0 <= i < c ==> cplist[i] == Score(m, row, m.order[i])
    {
      var cp := ScoreClass(m, p[m.order[c]], row, m.order[c]);
      cplist := cplist + [cp];
    }
  }

  /** The declared domain of the class attribute, the last one declared. */
  function ClassDomain(attributes: seq<Attribute>): seq<Value>
    requires |attributes| > 0
  {
    attributes[|attributes| - 1].domain
  }

  /** When the priors are visited in a duplicate-free enumeration of the
      class domain, `cplist` holds every declared class value's score at
      exactly one position. */
  lemma ScoresPerClass(attributes: seq<Attribute>, m: Model, row: Row, cv: Value)
    requires |attributes| > 0 && Ready(m) && Covers(m, row)
    requires Distinct(m.order) && (set v | v in m.order) == (set v | v in ClassDomain(attributes))
    requires cv in ClassDomain(attributes)
    ensures exists i :: 0 <= i < |m.order| && m.order[i] == cv && Scores(m, row)[i] == Score(m, row, cv)
    ensures forall i, j :: 0 <= i < |m.order| && 0 <= j < |m.order| && m.order[i] == cv && m.order[j] == cv ==> i == j
  {
    var visited, declared := set v | v in m.order, set v | v in ClassDomain(attributes);
    assert cv in declared;
    assert visited == declared;
    assert cv in visited;
  }

  /** The priors dictionary `p`: one entry per declared class value. */
  method Priors(m: Model, classDomain: seq<Value>) returns (p: map<Value, real>)
    requires Ready(m)
    ensures p.Keys == set v | v in classDomain
    ensures forall v :: v in p ==> p[v] == Prior(m, v)
  {
    p := map[];
    for i := 0 to |classDomain|
      invariant p.Keys == set v | v in classDomain[..i]
      invariant forall v :: v in p ==> p[v] == Prior(m, v)
    {
      assert classDomain[..i + 1] == classDomain[..i] + [classDomain[i]];
      p := p[classDomain[i] := Probability(m.data, m.dict, m.classifier, classDomain[i], true).value];
    }
    assert classDomain[..|classDomain|] == classDomain;
  }

  /** One test row: its scores, the label of the first maximal score, and
      that score's share of the total. */
  method ClassifyRow(m: Model, p: map<Value, real>, td: Row) returns (line: Prediction)
    requires Ready(m) && Covers(m, td)
    requires forall i :: 0 <= i < |m.order| ==> m.order[i] in p && p[m.order[i]] == Prior(m, m.order[i])
    ensures line == Report(m, td)
  {
    var cplist := ScoreClasses(m, p, td);
    SumBounds(cplist, 1.0);
    var tval := Sum(cplist);
    var k := FirstMax(cplist);
    line := Prediction(m.order[k], td[m.classifier], cplist[k], tval);
  }

  /** Appending the next row's line extends the report by one row and the
      count of correct lines by that line's outcome. */
  lemma {:induction false} ReportsStep(m: Model, rows: seq<Row>, t: nat, report: seq<Prediction>, line: Prediction)
    requires Ready(m) && t < |rows| && forall t :: 0 <= t < |rows| ==> Covers(m, rows[t])
    requires report == Reports(m, rows, t) && line == Report(m, rows[t])
    ensures report + [line] == Reports(m, rows, t + 1)
    ensures CorrectLines(report + [line]) == CorrectLines(report) + if line.predicted == line.actual then 1 else 0
  {
    Snoc(report, line);
  }

  /** The loop of `classify` over the test rows: one printed line per row
      and the running count of correct predictions. */
  method ClassifyRows(m: Model, p: map<Value, real>, testData: seq<Row>)
    returns (report: seq<Prediction>, correct: nat)
    requires Ready(m) && forall t :: 0 <= t < |testData| ==> Covers(m, testData[t])
    requires forall i :: 0 <= i < |m.order| ==> m.order[i] in p && p[m.order[i]] == Prior(m, m.order[i])
    ensures report == Reports(m, testData, |testData|)
    ensures correct == CorrectLines(report)
  {
    report := [];
    correct := 0;
    for t := 0 to |testData|
      invariant report == Reports(m, testData, t)
      invariant correct == CorrectLines(report)
    {
      var line := ClassifyRow(m, p, testData[t]);
      ReportsStep(m, testData, t, report, line);
      if line.predicted == line.actual {
        correct := correct + 1;
      }
      report := report + [line];
    }
  }

  /** `classify` over parsed tables: priors for the declared class values,
      then the loop over the test rows. The class attribute is the last one
      declared. */
  method Classify(attributes: seq<Attribute>, m: Model, testData: seq<Row>)
    returns (report: seq<Prediction>, correct: nat)
    requires |attributes| > 0 && m.classifier == attributes[|attributes| - 1].name && Ready(m)
    requires Distinct(m.order) && (set v | v in m.order) == (set v | v in ClassDomain(attributes))
    requires forall t :: 0 <= t < |testData| ==> Covers(m, testData[t]) && Enumerates(m, testData[t])
    ensures report == Reports(m, testData, |testData|)
    ensures correct == CorrectCount(m, testData, |testData|)
  {
    var p := Priors(m, ClassDomain(attributes));
    assert forall i :: 0 <= i < |m.order| ==> m.order[i] in p;
    report, correct := ClassifyRows(m, p, testData);
    HitsOfReports(m, testData, |testData|);
  }

  /** The attribute dictionary maps the class attribute, the last one
      declared, to the class domain. */
  lemma ClassEntry(attributes: seq<Attribute>)
    requires |attributes| > 0
    ensures attributes[|attributes| - 1].name in AttributeDictionary(attributes)
    ensures AttributeDictionary(attributes)[attributes[|attributes| - 1].name] == ClassDomain(attributes)
  {
    var n := |attributes| - 1;
    AttributeDictionaryLookup(attributes);
    assert LastOccurrence(NameSeq(attributes), n);
    assert attributes[n] in attributes;
  }

  /** Training rows processed from the declared attributes, with every
      declared domain non-empty and the two visiting orders enumerating the
      declared names and the class domain, make a model on which no
      estimator call raises. */
  lemma TrainedReady(attributes: seq<Attribute>, data: seq<Row>, names: seq<string>, order: seq<Value>)
    requires |attributes| > 0
    requires forall i :: 0 <= i < |attributes| ==> |attributes[i].domain| > 0
    requires forall j :: 0 <= j < |data| ==> data[j].Keys == DeclaredNames(attributes)
    requires (set k | k in names) == DeclaredNames(attributes)
    requires (set v | v in order) == (set v | v in ClassDomain(attributes))
    ensures Ready(Model(data, AttributeDictionary(attributes), attributes[|attributes| - 1].name, names, order))
  {
    var dict := AttributeDictionary(attributes);
    AttributeDictionaryLookup(attributes);
    ClassEntry(attributes);
    forall k | k in dict ensures |dict[k]| > 0 {
      var i :| 0 <= i < |attributes| && attributes[i].name == k && LastOccurrence(NameSeq(attributes), i) by {
        assert k in DeclaredNames(attributes);
        var i0 :| 0 <= i0 < |attributes| && attributes[i0].name == k;
        LastIndex(NameSeq(attributes), i0);
      }
    }
    forall i | 0 <= i < |names| ensures names[i] in dict {
      assert names[i] in set k | k in names;
    }
    var first := ClassDomain(attributes)[0];
    var classes := set v | v in ClassDomain(attributes);
    assert first in classes;
    assert first in (set v | v in order);
  }

  /** Some position from i on holds the same key and is its last occurrence. */
  lemma {:induction false} LastIndex(keys: seq<string>, i: nat)
    requires i < |keys|
    ensures exists l :: i <= l < |keys| && keys[l] == keys[i] && LastOccurrence(keys, l)
    decreases |keys| - i
  {
    if !LastOccurrence(keys, i) {
      var j :| i < j < |keys| && keys[j] == keys[i];
      LastIndex(keys, j);
    }
  }

  /** A test row whose keys are exactly the names, the class among them,
      suits the scoring loop. */
  lemma RowFits(m: Model, row: Row)
    requires Distinct(m.names) && m.classifier in m.names && row.Keys == set k | k in m.names
    ensures Covers(m, row) && Enumerates(m, row)
  {
  }

  /** The scoring part of `classify` on processed tables: the class is the
      last declared attribute, and every test row gets its line of the
      report; the count is the number of correct predictions. */
  method ClassifyTables(attributes: seq<Attribute>, trainRaw: seq<seq<Value>>, data: seq<Row>,
                        dict: map<string, seq<Value>>, testRaw: seq<seq<Value>>, rows: seq<Row>,
                        names: seq<string>, order: seq<Value>)
    returns (report: seq<Prediction>, correct: nat)
    requires |attributes| > 0 && dict == AttributeDictionary(attributes)
    requires forall i :: 0 <= i < |attributes| ==> |attributes[i].domain| > 0
    requires Processed(attributes, trainRaw, data) && Processed(attributes, testRaw, rows)
    requires Distinct(names) && (set k | k in names) == DeclaredNames(attributes)
    requires Distinct(order) && (set v | v in order) == (set v | v in ClassDomain(attributes))
    ensures var m := Model(data, dict, attributes[|attributes| - 1].name, names, order);
            && Ready(m) && (forall t :: 0 <= t < |rows| ==> Covers(m, rows[t]))
            && report == Reports(m, rows, |rows|)
            && correct == CorrectCount(m, rows, |rows|)
  {
    var m := Model(data, dict, attributes[|attributes| - 1].name, names, order);
    ProcessedTablesFit(attributes, trainRaw, data, testRaw, rows, names, order);
    report, correct := Classify(attributes, m, rows);
  }

  /** Training and test rows processed from the same declarations give a
      model that is ready and test rows that suit the scoring loop. */
  lemma ProcessedTablesFit(attributes: seq<Attribute>, trainRaw: seq<seq<Value>>, data: seq<Row>,
                           testRaw: seq<seq<Value>>, rows: seq<Row>, names: seq<string>, order: seq<Value>)
    requires |attributes| > 0
    requires forall i :: 0 <= i < |attributes| ==> |attributes[i].domain| > 0
    requires Processed(attributes, trainRaw, data) && Processed(attributes, testRaw, rows)
    requires Distinct(names) && (set k | k in names) == DeclaredNames(attributes)
    requires (set v | v in order) == (set v | v in ClassDomain(attributes))
    ensures var m := Model(data, AttributeDictionary(attributes), attributes[|attributes| - 1].name, names, order);
            Ready(m) && forall t :: 0 <= t < |rows| ==> Covers(m, rows[t]) && Enumerates(m, rows[t])
  {
    var m := Model(data, AttributeDictionary(attributes), attributes[|attributes| - 1].name, names, order);
    ProcessedKeys(attributes, trainRaw, data);
    TrainedReady(attributes, data, names, order);
    ProcessedKeys(attributes, testRaw, rows);
    ClassifierDeclared(attributes);
    forall t | 0 <= t < |rows| ensures Covers(m, rows[t]) && Enumerates(m, rows[t]) {
      RowFits(m, rows[t]);
    }
  }
}
