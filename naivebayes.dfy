/** The `NaiveBayes` class of naivebayes.py: a classifier object that keeps
    the evaluation table, the training table and its processed rows, the
    last test table and its processed rows, and the attribute dictionary,
    and classifies a test table against the training rows. Tables arrive
    already parsed; the printed lines are returned as `Prediction` values. */
module NaiveBayesClassifier {
  import opened Common
  import opened Rows
  import opened Scoring

  class NaiveBayes {
    /** `eval_data`: the table given to the constructor. */
    var evalData: Table
    /** `raw_data`: the training table; absent until one is chosen. */
    var rawData: Option<Table>
    /** `data`: the processed training rows, or None. */
    var data: Option<seq<Row>>
    /** `raw_test_data`: the last test table, or None. */
    var rawTestData: Option<Table>
    /** `test_data`: its processed rows, or None. */
    var testData: Option<seq<Row>>
    /** `attribute_dictionary`: attribute name to declared domain. */
    var attributeDictionary: map<string, seq<Value>>

    /** The dictionary describes the evaluation table, a training table
        declares the same attributes, and the model rows, when present, are
        the processed rows of the training table. */
    ghost predicate Valid()
      reads this
    {
      && attributeDictionary == AttributeDictionary(evalData.attributes)
      && (rawData.Some? ==> rawData.value.attributes == evalData.attributes)
      && (data.Some? ==> rawData.Some? && Processed(rawData.value.attributes, rawData.value.data, data.value))
    }

    /** `__init__(fname, evaluate)`. Unless `evaluate` is set, the table
        itself becomes the training table and the model is generated, which
        raises IndexError on a short row; such a table is excluded here. */
    constructor (evalTable: Table, evaluate: bool)
      requires !evaluate ==> Shaped(evalTable.attributes, evalTable.data)
      ensures Valid()
      ensures evalData == evalTable && rawTestData == None && testData == None
      ensures attributeDictionary == AttributeDictionary(evalTable.attributes)
      ensures evaluate ==> rawData == None && data == None
      ensures !evaluate ==> rawData == Some(evalTable) && data.Some? &&
                            Processed(evalTable.attributes, evalTable.data, data.value)
    {
      evalData := evalTable;
      rawData := None;
      data := None;
      rawTestData := None;
      testData := None;
      attributeDictionary := map[];
      new;
      MakeAttributeDictionary();
      assert attributeDictionary == AttributeDictionary(evalTable.attributes);
      if !evaluate {
        rawData := Some(evalData);
        var outcome := GenerateModel();
      }
    }

    /** `make_attribute_dictionary`: every declared attribute of the
        evaluation table is written into the dictionary, over what it held. */
    method MakeAttributeDictionary()
      modifies this
      ensures attributeDictionary == old(attributeDictionary) + AttributeDictionary(evalData.attributes)
      ensures evalData == old(evalData) && rawData == old(rawData) && data == old(data)
      ensures rawTestData == old(rawTestData) && testData == old(testData)
    {
      var entries := Rows.MakeAttributeDictionary(evalData.attributes);
      attributeDictionary := attributeDictionary + entries;
    }

    /** `generate_model`: the processed rows of the training table become
        the model; a short row raises IndexError and leaves the model as it
        was. */
    method GenerateModel() returns (outcome: Outcome)
      requires Valid() && rawData.Some?
      modifies this
      ensures evalData == old(evalData) && rawData == old(rawData) && attributeDictionary == old(attributeDictionary)
      ensures rawTestData == old(rawTestData) && testData == old(testData)
      ensures Valid()
      ensures outcome.Pass? <==> Shaped(rawData.value.attributes, rawData.value.data)
      ensures outcome.Fail? ==> outcome.error == IndexError && data == old(data)
      ensures outcome.Pass? ==> data.Some? && Processed(rawData.value.attributes, rawData.value.data, data.value)
    {
      var processed := ProcessRawData(rawData.value.attributes, rawData.value.data);
      if processed.Err? {
        return Fail(processed.error);
      }
      data := Some(processed.value);
      return Pass;
    }

    /** `clean_training_data`: the model and the test table are dropped;
        the tables and the dictionary stay. */
    method CleanTrainingData()
      requires Valid()
      modifies this
      ensures Valid()
      ensures data == None && rawTestData == None && testData == None
      ensures evalData == old(evalData) && rawData == old(rawData) && attributeDictionary == old(attributeDictionary)
    {
      data := None;
      rawTestData := None;
      testData := None;
    }

    /** `classify(testf)`: the class attribute is the last declared one (an
        empty declaration list raises IndexError before anything changes);
        the test table is stored and processed with the training
        attributes (a short row raises IndexError); then every test row is
        scored and the pair (correct predictions, test rows) is returned.
        `names` is the order a test row's items are visited and `order` the
        order the priors are visited. */
    method Classify(testTable: Table, names: seq<string>, order: seq<Value>)
      returns (r: Result<(nat, nat)>, report: seq<Prediction>)
      requires Valid() && rawData.Some? && data.Some?
      requires forall i :: 0 <= i < |rawData.value.attributes| ==> |rawData.value.attributes[i].domain| > 0
      requires Distinct(names) && (set k | k in names) == DeclaredNames(rawData.value.attributes)
      requires |rawData.value.attributes| > 0 ==>
                 Distinct(order) && (set v | v in order) == (set v | v in ClassDomain(rawData.value.attributes))
      modifies this
      ensures evalData == old(evalData) && rawData == old(rawData) && data == old(data)
      ensures attributeDictionary == old(attributeDictionary)
      ensures Valid()
      ensures |rawData.value.attributes| == 0 ==>
                r == Err(IndexError) && report == [] && rawTestData == old(rawTestData) && testData == old(testData)
      ensures |rawData.value.attributes| > 0 ==> rawTestData == Some(testTable)
      ensures |rawData.value.attributes| > 0 ==> (r.Ok? <==> Shaped(rawData.value.attributes, testTable.data))
      ensures |rawData.value.attributes| > 0 && r.Err? ==>
                r.error == IndexError && report == [] && testData == old(testData)
      ensures r.Ok? ==>
                var attributes := rawData.value.attributes;
                var m := Model(data.value, attributeDictionary, attributes[|attributes| - 1].name, names, order);
                && testData.Some? && Processed(attributes, testTable.data, testData.value)
                && Ready(m) && (forall t :: 0 <= t < |testTable.data| ==> Covers(m, testData.value[t]))
                && report == Reports(m, testData.value, |testTable.data|)
                && r.value == (CorrectCount(m, testData.value, |testTable.data|), |testTable.data|)
    {
      var attributes := rawData.value.attributes;
      if |attributes| == 0 {
        return Err(IndexError), [];
      }
      var classifier := attributes[|attributes| - 1].name;
      rawTestData := Some(testTable);
      var processed := ProcessRawData(attributes, testTable.data);
      if processed.Err? {
        return Err(processed.error), [];
      }
      var rows := processed.value;
      testData := Some(rows);
      var correct;
      report, correct := ClassifyTables(attributes, rawData.value.data, data.value, attributeDictionary,
                                        testTable.data, rows, names, order);
      r := Ok((correct, |testTable.data|));
    }
  }
}
