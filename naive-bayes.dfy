/** The `NaiveBayes` class of naive-bayes.py: the
    constructor processes the training table at once, and `classify`
    processes the test table, scores it and ends with the number of correct
    predictions (printed there, returned here). */
module NaiveBayesScript {
  import opened Common
  import opened Rows
  import opened Scoring

  class NaiveBayes {
    /** `raw_data`: the training table. */
    var rawData: Table
    /** `data`: its processed rows. */
    var data: seq<Row>
    /** `raw_test_data`: the last test table, or None. */
    var rawTestData: Option<Table>
    /** `test_data`: its processed rows, or None. */
    var testData: Option<seq<Row>>
    /** `attribute_dictionary`: attribute name to declared domain. */
    var attributeDictionary: map<string, seq<Value>>

    /** The model rows are the processed training rows and the dictionary
        describes the training table's attributes. */
    ghost predicate Valid()
      reads this
    {
      && Processed(rawData.attributes, rawData.data, data)
      && attributeDictionary == AttributeDictionary(rawData.attributes)
    }

    /** `__init__(fname)`: process the training table, then build the
        attribute dictionary. Processing raises IndexError on a short row;
        such a table is excluded here. */
    constructor (rawTable: Table)
      requires Shaped(rawTable.attributes, rawTable.data)
      ensures Valid()
      ensures rawData == rawTable && rawTestData == None && testData == None
    {
      rawData := rawTable;
      var processed := ProcessRawData(rawTable.attributes, rawTable.data);
      data := processed.value;
      rawTestData := None;
      testData := None;
      attributeDictionary := map[];
      new;
      MakeAttributeDictionary();
      assert attributeDictionary == AttributeDictionary(rawTable.attributes);
    }

    /** `make_attribute_dictionary`: every declared attribute of the
        training table is written into the dictionary, over what it held. */
    method MakeAttributeDictionary()
      modifies this
      ensures attributeDictionary == old(attributeDictionary) + AttributeDictionary(rawData.attributes)
      ensures rawData == old(rawData) && data == old(data)
      ensures rawTestData == old(rawTestData) && testData == old(testData)
    {
      var entries := Rows.MakeAttributeDictionary(rawData.attributes);
      attributeDictionary := attributeDictionary + entries;
    }

    /** `classify(testf)`: the test table is stored and processed with the
        training attributes (a short row raises IndexError), the class
        attribute is the last declared one (an empty declaration list raises
        IndexError, after the test rows are stored), and every test row is
        scored; the result is the final count of correct predictions.
        `names` is the order a test row's items are visited and `order` the
        order the priors are visited. */
    method Classify(testTable: Table, names: seq<string>, order: seq<Value>)
      returns (r: Result<nat>, report: seq<Prediction>)
      requires Valid()
      requires forall i :: 0 <= i < |rawData.attributes| ==> |rawData.attributes[i].domain| > 0
      requires Distinct(names) && (set k | k in names) == DeclaredNames(rawData.attributes)
      requires |rawData.attributes| > 0 ==>
                 Distinct(order) && (set v | v in order) == (set v | v in ClassDomain(rawData.attributes))
      modifies this
      ensures rawData == old(rawData) && data == old(data) && attributeDictionary == old(attributeDictionary)
      ensures Valid()
      ensures rawTestData == Some(testTable)
      ensures !Shaped(rawData.attributes, testTable.data) ==>
                r == Err(IndexError) && report == [] && testData == old(testData)
      ensures Shaped(rawData.attributes, testTable.data) ==>
                testData.Some? && Processed(rawData.attributes, testTable.data, testData.value)
      ensures Shaped(rawData.attributes, testTable.data) && |rawData.attributes| == 0 ==>
                r == Err(IndexError) && report == []
      ensures r.Ok? ==>
                var attributes := rawData.attributes;
                |attributes| > 0 && testData.Some? &&
                var m := Model(data, attributeDictionary, attributes[|attributes| - 1].name, names, order);
                && Ready(m) && (forall t :: 0 <= t < |testData.value| ==> Covers(m, testData.value[t]))
                && report == Reports(m, testData.value, |testData.value|)
                && r.value == CorrectCount(m, testData.value, |testData.value|)
      ensures r.Ok? <==> Shaped(rawData.attributes, testTable.data) && |rawData.attributes| > 0
    {
      rawTestData := Some(testTable);
      var attributes := rawData.attributes;
      var processed := ProcessRawData(attributes, testTable.data);
      if processed.Err? {
        return Err(processed.error), [];
      }
      var rows := processed.value;
      testData := Some(rows);
      if |attributes| == 0 {
        return Err(IndexError), [];
      }
      var correct;
      report, correct := ClassifyTables(attributes, rawData.data, data, attributeDictionary, testTable.data, rows,
                                        names, order);
      r := Ok(correct);
    }
  }
}
