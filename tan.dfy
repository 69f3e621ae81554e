/** The `Tan` class of tan.py: it processes the training table, builds the
    attribute dictionary and then `create_bayes_net`, which adds one graph
    vertex per non-class attribute and joins every pair of vertices by an
    edge weighted with the pair's class-conditional mutual information.
    `math.log(x, 2)` is the parameter `log2`; the iteration order of the
    attribute dictionary is the parameter `keys`. */
module Tan {
  import opened Common
  import opened Estimators
  import opened Rows
  import opened TanGraph
  import opened BayesNet

  /** The arguments on which `math.log(x, 2)` is defined; Python raises
      ValueError on the others. */
  type Positive = x: real | x > 0.0 witness 1.0

  /** `math.log(x, 2)`, defined on the positive reals. */
  type Log2 = Positive -> real

  /** What the mutual-information sum reads: the training rows, the
      attribute dictionary, the class attribute and the logarithm. */
  datatype Context = Context(data: seq<Row>, dict: map<string, seq<Value>>, classifier: string,
                             log2: Log2)

  /** Every row holds both attributes and the class, and all three are
      dictionary keys, so no lookup of the sum raises KeyError. */
  predicate Sound(ctx: Context, a1: string, a2: string) {
    && HasKeys(ctx.data, {a1, a2, ctx.classifier})
    && a1 in ctx.dict && a2 in ctx.dict && ctx.classifier in ctx.dict
  }

  lemma SoundKeys(ctx: Context, a1: string, a2: string)
    requires Sound(ctx, a1, a2)
    ensures HasKeys(ctx.data, {a1, ctx.classifier}) && HasKeys(ctx.data, {a2, ctx.classifier})
    ensures HasKeys(ctx.data, {a1, a2, ctx.classifier})
  {
  }

  /** The Laplace-smoothed estimates one summand of the sum uses:
      P(a1=v1, a2=v2 | c), P(a1=v1 | c), P(a2=v2 | c) and P(a1=v1, a2=v2, c). */
  function Estimates(ctx: Context, a1: string, v1: Value, a2: string, v2: Value, cv: Value): (e: (real, real, real, real))
    requires Sound(ctx, a1, a2)
    requires v1 in ctx.dict[a1] && v2 in ctx.dict[a2] && cv in ctx.dict[ctx.classifier]
    ensures 0.0 < e.0 <= 1.0 && 0.0 < e.1 <= 1.0 && 0.0 < e.2 <= 1.0 && 0.0 < e.3 <= 1.0
  {
    SoundKeys(ctx, a1, a2);
    var jp2 := ConditionalProbability2(ctx.data, ctx.dict, a1, v1, a2, v2, cv, ctx.classifier, true);
    var jpattr1 := ConditionalProbability(ctx.data, ctx.dict, a1, v1, cv, ctx.classifier, true);
    var jpattr2 := ConditionalProbability(ctx.data, ctx.dict, a2, v2, cv, ctx.classifier, true);
    var jp3 := JointProbability3(ctx.data, ctx.dict, a1, v1, a2, v2, ctx.classifier, cv, true);
    (jp2.value, jpattr1.value, jpattr2.value, jp3.value)
  }

  /** The argument of the logarithm is a quotient of positive estimates. */
  lemma LogArgumentPositive(ctx: Context, a1: string, v1: Value, a2: string, v2: Value, cv: Value)
    requires Sound(ctx, a1, a2)
    requires v1 in ctx.dict[a1] && v2 in ctx.dict[a2] && cv in ctx.dict[ctx.classifier]
    ensures var e := Estimates(ctx, a1, v1, a2, v2, cv); e.1 * e.2 > 0.0 && e.0 / (e.1 * e.2) > 0.0
  {
    var e := Estimates(ctx, a1, v1, a2, v2, cv);
    assert e.1 * e.2 > 0.0;
  }

  /** jp3 * log2(jp2 / (jpattr1 * jpattr2)), the summand of line 103. */
  function Summand(jp2: real, jpattr1: real, jpattr2: real, jp3: real, log2: Log2): real
    requires jpattr1 > 0.0 && jpattr2 > 0.0 && jp2 / (jpattr1 * jpattr2) > 0.0
  {
    assert jpattr1 * jpattr2 > 0.0;
    jp3 * log2(jp2 / (jpattr1 * jpattr2))
  }

  /** The summand for a1 = v1, a2 = v2 and class value cv. */
  function Term(ctx: Context, a1: string, v1: Value, a2: string, v2: Value, cv: Value): real
    requires Sound(ctx, a1, a2)
    requires v1 in ctx.dict[a1] && v2 in ctx.dict[a2] && cv in ctx.dict[ctx.classifier]
  {
    var e := Estimates(ctx, a1, v1, a2, v2, cv);
    LogArgumentPositive(ctx, a1, v1, a2, v2, cv);
    Summand(e.0, e.1, e.2, e.3, ctx.log2)
  }

  /** The summands for the first `j` values of a2's domain, a1 = v1. */
  function CellSum(ctx: Context, a1: string, a2: string, cv: Value, v1: Value, j: nat): real
    requires Sound(ctx, a1, a2) && v1 in ctx.dict[a1] && cv in ctx.dict[ctx.classifier]
    requires j <= |ctx.dict[a2]|
  {
    if j == 0 then 0.0
    else CellSum(ctx, a1, a2, cv, v1, j - 1) + Term(ctx, a1, v1, a2, ctx.dict[a2][j - 1], cv)
  }

  /** The summands for the first `i` values of a1's domain, all of a2's. */
  function ProductSum(ctx: Context, a1: string, a2: string, cv: Value, i: nat): real
    requires Sound(ctx, a1, a2) && cv in ctx.dict[ctx.classifier]
    requires i <= |ctx.dict[a1]|
  {
    if i == 0 then 0.0
    else ProductSum(ctx, a1, a2, cv, i - 1) + CellSum(ctx, a1, a2, cv, ctx.dict[a1][i - 1], |ctx.dict[a2]|)
  }

  /** The summands for the first `k` class values. */
  function ClassSum(ctx: Context, a1: string, a2: string, k: nat): real
    requires Sound(ctx, a1, a2) && k <= |ctx.dict[ctx.classifier]|
  {
    if k == 0 then 0.0
    else
      var classDomain := ctx.dict[ctx.classifier];
      ClassSum(ctx, a1, a2, k - 1) + ProductSum(ctx, a1, a2, classDomain[k - 1], |ctx.dict[a1]|)
  }

  /** The class-conditional mutual information of a1 and a2, summed over
      every class value and every pair of attribute values. */
  function MutualInformation(ctx: Context, a1: string, a2: string): real
    requires Sound(ctx, a1, a2)
  {
    ClassSum(ctx, a1, a2, |ctx.dict[ctx.classifier]|)
  }

  /** The weight create_bayes_net gives the edge between a1 and a2. */

  function PairWeight(ctx: Context, a1: string, a2: string): real {
    if Sound(ctx, a1, a2) then MutualInformation(ctx, a1, a2) else 0.0
  }

  lemma SoundSymmetric(ctx: Context, a1: string, a2: string)
    requires Sound(ctx, a1, a2)
    ensures Sound(ctx, a2, a1)
  {
    assert {a1, a2, ctx.classifier} == {a2, a1, ctx.classifier};
  }

  /** A summand does not depend on which attribute of the pair comes first:
      the pair estimates are symmetric and the two single estimates trade
      places in the product. */
  lemma TermSymmetric(ctx: Context, a1: string, v1: Value, a2: string, v2: Value, cv: Value)
    requires Sound(ctx, a1, a2)
    requires v1 in ctx.dict[a1] && v2 in ctx.dict[a2] && cv in ctx.dict[ctx.classifier]
    ensures Sound(ctx, a2, a1)
    ensures Term(ctx, a1, v1, a2, v2, cv) == Term(ctx, a2, v2, a1, v1, cv)
  {
    SoundSymmetric(ctx, a1, a2);
    SoundKeys(ctx, a1, a2);
    Conditional2Symmetric(ctx.data, ctx.dict, a1, v1, a2, v2, cv, ctx.classifier);
    Joint3Symmetric(ctx.data, ctx.dict, a1, v1, a2, v2, ctx.classifier, cv);
    var e, f := Estimates(ctx, a1, v1, a2, v2, cv), Estimates(ctx, a2, v2, a1, v1, cv);
    assert f == (e.0, e.2, e.1, e.3);
    assert e.1 * e.2 == e.2 * e.1;
  }

  /** The summands for the first `i` values of a1's domain and the first `j`
      values of a2's. */
  function Block(ctx: Context, a1: string, a2: string, cv: Value, i: nat, j: nat): real
    requires Sound(ctx, a1, a2) && cv in ctx.dict[ctx.classifier]
    requires i <= |ctx.dict[a1]| && j <= |ctx.dict[a2]|
  {
    if i == 0 then 0.0
    else Block(ctx, a1, a2, cv, i - 1, j) + CellSum(ctx, a1, a2, cv, ctx.dict[a1][i - 1], j)
  }

  lemma {:induction false} ProductSumIsBlock(ctx: Context, a1: string, a2: string, cv: Value, i: nat)
    requires Sound(ctx, a1, a2) && cv in ctx.dict[ctx.classifier] && i <= |ctx.dict[a1]|
    ensures ProductSum(ctx, a1, a2, cv, i) == Block(ctx, a1, a2, cv, i, |ctx.dict[a2]|)
  {
    if i > 0 {
      ProductSumIsBlock(ctx, a1, a2, cv, i - 1);
    }
  }

  lemma {:induction false} BlockNoColumns(ctx: Context, a1: string, a2: string, cv: Value, i: nat)
    requires Sound(ctx, a1, a2) && cv in ctx.dict[ctx.classifier] && i <= |ctx.dict[a1]|
    ensures Block(ctx, a1, a2, cv, i, 0) == 0.0
  {
    if i > 0 {
      BlockNoColumns(ctx, a1, a2, cv, i - 1);
    }
  }

  /** The j-th value of a2 adds, over the first i values of a1, the cell
      sum taken the other way round. */
  lemma {:induction false} BlockColumn(ctx: Context, a1: string, a2: string, cv: Value, i: nat, j: nat)
    requires Sound(ctx, a1, a2) && cv in ctx.dict[ctx.classifier]
    requires i <= |ctx.dict[a1]| && 0 < j <= |ctx.dict[a2]|
    ensures Sound(ctx, a2, a1)
    ensures Block(ctx, a1, a2, cv, i, j) == Block(ctx, a1, a2, cv, i, j - 1) + CellSum(ctx, a2, a1, cv, ctx.dict[a2][j - 1], i)
  {
    SoundSymmetric(ctx, a1, a2);
    if i > 0 {
      BlockColumn(ctx, a1, a2, cv, i - 1, j);
      TermSymmetric(ctx, a1, ctx.dict[a1][i - 1], a2, ctx.dict[a2][j - 1], cv);
    }
  }

  /** The double sum taken row by row equals the one taken column by column. */
  lemma {:induction false} BlockTranspose(ctx: Context, a1: string, a2: string, cv: Value, i: nat, j: nat)
    requires Sound(ctx, a1, a2) && cv in ctx.dict[ctx.classifier]
    requires i <= |ctx.dict[a1]| && j <= |ctx.dict[a2]|
    ensures Sound(ctx, a2, a1)
    ensures Block(ctx, a1, a2, cv, i, j) == Block(ctx, a2, a1, cv, j, i)
  {
    SoundSymmetric(ctx, a1, a2);
    if j == 0 {
      BlockNoColumns(ctx, a1, a2, cv, i);
    } else {
      BlockColumn(ctx, a1, a2, cv, i, j);
      BlockTranspose(ctx, a1, a2, cv, i, j - 1);
    }
  }

  lemma {:induction false} ClassSumSymmetric(ctx: Context, a1: string, a2: string, k: nat)
    requires Sound(ctx, a1, a2) && k <= |ctx.dict[ctx.classifier]|
    ensures Sound(ctx, a2, a1)
    ensures ClassSum(ctx, a1, a2, k) == ClassSum(ctx, a2, a1, k)
  {
    SoundSymmetric(ctx, a1, a2);
    if k > 0 {
      ClassSumSymmetric(ctx, a1, a2, k - 1);
      var cv := ctx.dict[ctx.classifier][k - 1];
      ProductSumIsBlock(ctx, a1, a2, cv, |ctx.dict[a1]|);
      ProductSumIsBlock(ctx, a2, a1, cv, |ctx.dict[a2]|);
      BlockTranspose(ctx, a1, a2, cv, |ctx.dict[a1]|, |ctx.dict[a2]|);
    }
  }

  /** The mutual information of a pair does not depend on the order of the
      pair, so neither does the weight of its edge. */
  lemma MutualInformationSymmetric(ctx: Context, a1: string, a2: string)
    requires Sound(ctx, a1, a2)
    ensures Sound(ctx, a2, a1)
    ensures MutualInformation(ctx, a1, a2) == MutualInformation(ctx, a2, a1)
  {
    ClassSumSymmetric(ctx, a1, a2, |ctx.dict[ctx.classifier]|);
  }

  /** The edge weight is symmetric in the pair, whatever the pair. */
  lemma PairWeightSymmetric(ctx: Context, a1: string, a2: string)
    ensures PairWeight(ctx, a1, a2) == PairWeight(ctx, a2, a1)
  {
    if Sound(ctx, a1, a2) {
      MutualInformationSymmetric(ctx, a1, a2);
    } else if Sound(ctx, a2, a1) {
      SoundSymmetric(ctx, a2, a1);
    }
  }

  /** One pass of the innermost loop body: the four estimates, then the
      summand added to the running sum. */
  method AddSummand(ctx: Context, a1: string, v1: Value, a2: string, v2: Value, cv: Value, mi: real)
    returns (next: real)
    requires Sound(ctx, a1, a2)
    requires v1 in ctx.dict[a1] && v2 in ctx.dict[a2] && cv in ctx.dict[ctx.classifier]
    ensures next == mi + Term(ctx, a1, v1, a2, v2, cv)
  {
    var estimates := Estimates(ctx, a1, v1, a2, v2, cv);
    LogArgumentPositive(ctx, a1, v1, a2, v2, cv);
    var summand := Summand(estimates.0, estimates.1, estimates.2, estimates.3, ctx.log2);
    assert summand == Term(ctx, a1, v1, a2, v2, cv);
    next := mi + summand;
  }

  /** The accumulation loop of create_bayes_net for one pair: for every class
      value and every pair of values in the product of the two domains, the
      summand is added to `mutual_information`, starting from 0. */
  method AccumulateMutualInformation(ctx: Context, a1: string, a2: string) returns (mi: real)
    requires Sound(ctx, a1, a2)
    ensures mi == MutualInformation(ctx, a1, a2)
  {
    var classDomain, dom1, dom2 := ctx.dict[ctx.classifier], ctx.dict[a1], ctx.dict[a2];
    mi := 0.0;
    for k := 0 to |classDomain|
      invariant mi == ClassSum(ctx, a1, a2, k)
    {
      var cv := classDomain[k];
      for i := 0 to |dom1|
        invariant mi == ClassSum(ctx, a1, a2, k) + ProductSum(ctx, a1, a2, cv, i)
      {
        var v1 := dom1[i];
        for j := 0 to |dom2|
          invariant mi == ClassSum(ctx, a1, a2, k) + ProductSum(ctx, a1, a2, cv, i) + CellSum(ctx, a1, a2, cv, v1, j)
        {
          mi := AddSummand(ctx, a1, v1, a2, dom2[j], cv, mi);
        }
      }
    }
  }

  /** The attribute names other than the class, in the order given. */
  function Without(keys: seq<string>, classifier: string): (r: seq<string>)
    ensures |r| <= |keys|
    ensures forall x :: x in r <==> x in keys && x != classifier
  {
    if keys == [] then []
    else
      var last := keys[|keys| - 1];
      Without(keys[..|keys| - 1], classifier) + (if last == classifier then [] else [last])
  }

  /** Filtering keeps exactly the non-class names and no duplicate. */
  lemma {:induction false} WithoutContents(keys: seq<string>, classifier: string)
    requires Distinct(keys)
    ensures Distinct(Without(keys, classifier))
    ensures (set k | k in Without(keys, classifier)) == (set k | k in keys) - {classifier}
  {
    if keys != [] {
      var init := keys[..|keys| - 1];
      assert Distinct(init);
      WithoutContents(init, classifier);
      var last := keys[|keys| - 1];
      assert keys == init + [last];
      assert last !in init;
      var r := Without(init, classifier);
      assert last !in r;
      assert (set k | k in keys) == (set k | k in init) + {last};
      if last != classifier {
        assert Without(keys, classifier) == r + [last];
        assert (set k | k in r + [last]) == (set k | k in r) + {last};
      }
    }
  }

  /** The ids of a vertex list. */
  function Ids(vs: seq<Vertex>): seq<string>
  {
    seq(|vs|, k requires 0 <= k < |vs| => vs[k].id)
  }

  /** The vertex loop of create_bayes_net: every dictionary key except the
      class becomes a vertex, in the order the keys are visited. */
  method AddAttributeVertices(g: Graph, keys: seq<string>, classifier: string)
    requires g.Valid() && g.vlist == []
    modifies g
    ensures g.Valid() && Ids(g.vlist) == Without(keys, classifier)
    ensures forall v :: v in g.vlist ==> fresh(v) && v.neighbors == map[] && g.adjacencyList[v] == []
  {
    for t := 0 to |keys|
      invariant g.Valid() && Ids(g.vlist) == Without(keys[..t], classifier)
      invariant forall v :: v in g.vlist ==> fresh(v) && v.neighbors == map[] && g.adjacencyList[v] == []
    {
      assert keys[..t + 1][..t] == keys[..t];
      if keys[t] != classifier {
        ghost var before := g.vlist;
        g.AddVertex(keys[t]);
        assert Ids(g.vlist) == Ids(before) + [keys[t]];
        forall v | v in g.vlist
          ensures fresh(v) && v.neighbors == map[] && g.adjacencyList[v] == []
        {
          if v != g.vlist[|before|] {
            assert v in before;
          }
        }
      }
    }
    assert keys[..|keys|] == keys;
  }

  /** The edge weights of create_bayes_net as a function of the two ids. */
  function Weights(ctx: Context): Weight {
    (a1: string, a2: string) => PairWeight(ctx, a1, a2)
  }

  /** In the finished Bayes net, `get_edge__weight` between two distinct
      vertices is the mutual information of their attributes, asked from
      either end. */
  lemma NetEdgeWeight(g: Graph, ctx: Context, k: nat, l: nat)
    requires Complete(g, Weights(ctx)) && k < |g.vlist| && l < |g.vlist| && k != l
    ensures g.vlist[k].EdgeWeight(g.vlist[l]) == Ok(PairWeight(ctx, g.vlist[k].id, g.vlist[l].id))
  {
    var vs := g.vlist;
    if k < l {
      CompleteEdgeWeight(g, Weights(ctx), k, l);
    } else {
      CompleteEdgeWeight(g, Weights(ctx), l, k);
      PairWeightSymmetric(ctx, vs[l].id, vs[k].id);
    }
  }

  /** The body of the pair loop of create_bayes_net: the pair's mutual
      information, then the edge between the two vertices with that weight;
      `next` is the pair index after j. */
  method JoinPair(g: Graph, ctx: Context, i: nat, j: nat) returns (next: nat)
    requires Linked(g, Weights(ctx), i, j) && j < |g.vlist|
    requires Sound(ctx, g.vlist[i].id, g.vlist[j].id)
    modifies g, set v | v in g.vlist
    ensures next == j + 1 && g.vlist == old(g.vlist) && Linked(g, Weights(ctx), i, next)
  {
    var mutualInformation := AccumulateMutualInformation(ctx, g.vlist[i].id, g.vlist[j].id);
    next := LinkPair(g, Weights(ctx), i, j, mutualInformation);
  }

  /** One row of the pair loop of create_bayes_net: vertex i is joined to
      every later vertex. */
  method ConnectRow(g: Graph, ctx: Context, i: nat)
    requires Linked(g, Weights(ctx), i, i + 1) && i < |g.vlist|
    requires forall l :: i < l < |g.vlist| ==> Sound(ctx, g.vlist[i].id, g.vlist[l].id)
    modifies g, set v | v in g.vlist
    ensures g.vlist == old(g.vlist) && Linked(g, Weights(ctx), i, |g.vlist|)
  {
    var vs, j := g.vlist, i + 1;
    while j < |vs|
      invariant i < j <= |vs| && g.vlist == vs
      invariant Linked(g, Weights(ctx), i, j)
    {
      j := JoinPair(g, ctx, i, j);
    }
  }

  /** The pair loop of create_bayes_net: the pairs of `combinations`, in
      order, each joined by an edge weighted with its mutual information. */
  method ConnectAll(g: Graph, ctx: Context)
    requires Linked(g, Weights(ctx), 0, 1)
    requires forall k, l :: 0 <= k < l < |g.vlist| ==> Sound(ctx, g.vlist[k].id, g.vlist[l].id)
    modifies g, set v | v in g.vlist
    ensures g.vlist == old(g.vlist) && Complete(g, Weights(ctx))
  {
    var n := |g.vlist|;
    for i := 0 to n
      invariant g.vlist == old(g.vlist) && Linked(g, Weights(ctx), i, i + 1)
    {
      ConnectRow(g, ctx, i);
      StageAdvance(g.vlist, g.adjacencyList, Neighborhoods(g.vlist), Weights(ctx), i);
    }
    LinkedComplete(g, Weights(ctx));
  }

  class Tan {
    /** `raw_data`: the training table. */
    var rawData: Table
    /** `data`: its processed rows. */
    var data: seq<Row>
    /** `raw_test_data` and `test_data`: never set by the modelled code. */
    var rawTestData: Option<Table>
    var testData: Option<seq<Row>>
    /** `attribute_dictionary`: attribute name to declared domain. */
    var attributeDictionary: map<string, seq<Value>>
    /** `bayes_net`: the attribute graph. */
    var bayesNet: Graph

    /** The model rows are the processed training rows and the dictionary
        describes the training table's attributes. */
    ghost predicate Valid()
      reads this
    {
      && Processed(rawData.attributes, rawData.data, data)
      && attributeDictionary == AttributeDictionary(rawData.attributes)
    }

    /** `__init__(fname)`: an empty graph, the processed training rows, the
        attribute dictionary, then `create_bayes_net`. A short row (IndexError
        while processing) and an empty attribute list (IndexError in
        `create_bayes_net`) make the constructor raise; both are excluded. */
    constructor (rawTable: Table, keys: seq<string>, log2: Log2)
      requires Shaped(rawTable.attributes, rawTable.data) && |rawTable.attributes| > 0
      requires Distinct(keys) && (set k | k in keys) == DeclaredNames(rawTable.attributes)
      ensures Valid() && rawData == rawTable && rawTestData == None && testData == None
      ensures Ids(bayesNet.vlist) == Without(keys, Summing(log2).classifier)
      ensures Complete(bayesNet, Weights(Summing(log2)))
    {
      rawData := rawTable;
      rawTestData := None;
      testData := None;
      attributeDictionary := map[];
      bayesNet := new Graph();
      var processed := ProcessRawData(rawTable.attributes, rawTable.data);
      data := processed.value;
      new;
      MakeAttributeDictionary();
      assert attributeDictionary == AttributeDictionary(rawTable.attributes);
      AttributeDictionaryLookup(rawTable.attributes);
      var outcome := CreateBayesNet(keys, log2);
      assert outcome.Pass?;
    }

    /** What the mutual-information sums of `create_bayes_net` read: the
        processed rows, the dictionary and the class, the last declared
        attribute. */
    function Summing(log2: Log2): Context
      reads this
      requires |rawData.attributes| > 0
    {
      Context(data, attributeDictionary, rawData.attributes[|rawData.attributes| - 1].name, log2)
    }

    /** `make_attribute_dictionary`: every declared attribute is written into
        the dictionary, over what it held. */
    method MakeAttributeDictionary()
      modifies this
      ensures attributeDictionary == old(attributeDictionary) + AttributeDictionary(rawData.attributes)
      ensures rawData == old(rawData) && data == old(data) && bayesNet == old(bayesNet)
      ensures rawTestData == old(rawTestData) && testData == old(testData)
    {
      var entries := Rows.MakeAttributeDictionary(rawData.attributes);
      attributeDictionary := attributeDictionary + entries;
    }

    /** `create_bayes_net`: IndexError when no attribute is declared;
        otherwise one vertex per non-class key of the dictionary, visited in
        the order `keys`, and one edge per pair of vertices, weighted with
        the pair's mutual information. */
    method CreateBayesNet(keys: seq<string>, log2: Log2) returns (outcome: Outcome)
      requires Valid() && bayesNet.Valid() && bayesNet.vlist == []
      requires Distinct(keys) && (set k | k in keys) == attributeDictionary.Keys
      modifies bayesNet
      ensures outcome.Fail? <==> |rawData.attributes| == 0
      ensures outcome.Fail? ==> outcome.error == IndexError && unchanged(bayesNet)
      ensures outcome.Pass? ==>
                && Ids(bayesNet.vlist) == Without(keys, Summing(log2).classifier)
                && (forall v :: v in bayesNet.vlist ==> fresh(v))
                && Complete(bayesNet, Weights(Summing(log2)))
                && (forall k, l :: 0 <= k < l < |bayesNet.vlist| ==>
                      Sound(Summing(log2), bayesNet.vlist[k].id, bayesNet.vlist[l].id))
    {
      var attributes := rawData.attributes;
      if |attributes| == 0 {
        return Fail(IndexError);
      }
      var ctx := Summing(log2);
      AddAttributeVertices(bayesNet, keys, ctx.classifier);
      NetReady(attributes, rawData.data, keys, bayesNet, ctx);
      ConnectAll(bayesNet, ctx);
      return Pass;
    }
  }

  /** Two declared attributes of a processed table can be summed over:
      every row holds them and the class, and the dictionary knows all three. */
  lemma DeclaredSound(ctx: Context, attributes: seq<Attribute>, raw: seq<seq<Value>>, a1: string, a2: string)
    requires |attributes| > 0 && Processed(attributes, raw, ctx.data)
    requires ctx.dict == AttributeDictionary(attributes) && ctx.classifier == attributes[|attributes| - 1].name
    requires a1 in ctx.dict && a2 in ctx.dict
    ensures Sound(ctx, a1, a2)
  {
    AttributeDictionaryLookup(attributes);
    ProcessedKeys(attributes, raw, ctx.data);
    ClassifierDeclared(attributes);
  }

  /** The freshly added vertices form the start of the pair loop, and every
      pair of them can be summed over. */
  lemma NetReady(attributes: seq<Attribute>, raw: seq<seq<Value>>, keys: seq<string>, g: Graph, ctx: Context)
    requires |attributes| > 0 && Processed(attributes, raw, ctx.data)
    requires ctx.dict == AttributeDictionary(attributes) && ctx.classifier == attributes[|attributes| - 1].name
    requires Distinct(keys) && (set k | k in keys) == ctx.dict.Keys
    requires g.Valid() && Ids(g.vlist) == Without(keys, ctx.classifier)
    requires forall v :: v in g.vlist ==> v.neighbors == map[] && g.adjacencyList[v] == []
    ensures Linked(g, Weights(ctx), 0, 1)
    ensures forall k, l :: 0 <= k < l < |g.vlist| ==> Sound(ctx, g.vlist[k].id, g.vlist[l].id)
  {
    var vs, names := g.vlist, Without(keys, ctx.classifier);
    WithoutContents(keys, ctx.classifier);
    forall k | 0 <= k < |vs|
      ensures vs[k].id in ctx.dict
    {
      assert vs[k].id == names[k] && names[k] in keys;
    }
    forall k, l | 0 <= k < l < |vs|
      ensures vs[k].id != vs[l].id && Sound(ctx, vs[k].id, vs[l].id)
    {
      assert vs[k].id == names[k] && vs[l].id == names[l];
      DeclaredSound(ctx, attributes, raw, vs[k].id, vs[l].id);
    }
    EmptyStage(g, Weights(ctx));
  }
}
