/** Row shaping, the same in tan.py, naivebayes.py and naive-bayes.py:
    `make_attribute_dictionary` maps each declared attribute name to its
    domain, and `process_raw_data` turns each positional raw row into a
    dictionary keyed by the declared names. */
module Rows {
  import opened Common

  /** The declared names, in declaration order. */
  function NameSeq(attributes: seq<Attribute>): seq<string>
  {
    seq(|attributes|, i requires 0 <= i < |attributes| => attributes[i].name)
  }

  /** The declared domains, in declaration order. */
  function DomainSeq(attributes: seq<Attribute>): seq<seq<Value>>
  {
    seq(|attributes|, i requires 0 <= i < |attributes| => attributes[i].domain)
  }

  /** The dictionary built by `d[keys[i]] = vals[i]` for i = 0, 1, ... in
      turn, so a later duplicate key overwrites an earlier one. */
  function Assign<V>(keys: seq<string>, vals: seq<V>): map<string, V>
    requires |keys| <= |vals|
  {
    if keys == [] then map[]
    else Assign(keys[..|keys| - 1], vals)[keys[|keys| - 1] := vals[|keys| - 1]]
  }

  /** No key after position i repeats keys[i]. */
  predicate LastOccurrence(keys: seq<string>, i: int)
    requires 0 <= i < |keys|
  {
    forall j :: i < j < |keys| ==> keys[j] != keys[i]
  }

  /** The assigned dictionary has exactly the keys, and each key holds the
      value given at its last occurrence. */
  lemma {:induction false} AssignLookup<V>(keys: seq<string>, vals: seq<V>)
    requires |keys| <= |vals|
    ensures Assign(keys, vals).Keys == set k | k in keys
    ensures forall i :: 0 <= i < |keys| && LastOccurrence(keys, i) ==> Assign(keys, vals)[keys[i]] == vals[i]
  {
    if keys != [] {
      var n := |keys| - 1;
      var front := keys[..n];
      AssignLookup(front, vals);
      assert keys == front + [keys[n]];
      forall i | 0 <= i < |keys| && LastOccurrence(keys, i) ensures Assign(keys, vals)[keys[i]] == vals[i] {
        if i < n {
          assert front[i] == keys[i];
          assert LastOccurrence(front, i);
        }
      }
    }
  }

  /** `make_attribute_dictionary`, as a value. */
  function AttributeDictionary(attributes: seq<Attribute>): map<string, seq<Value>>
  {
    Assign(NameSeq(attributes), DomainSeq(attributes))
  }

  /** The dictionary of one raw row, as `process_raw_data` builds it. */
  function Zip(attributes: seq<Attribute>, rd: seq<Value>): Row
    requires |attributes| <= |rd|
  {
    Assign(NameSeq(attributes), rd)
  }

  /** The names listed by NameSeq are the declared names. */
  lemma NameSeqNames(attributes: seq<Attribute>)
    ensures (set k | k in NameSeq(attributes)) == set a | a in attributes :: a.name
  {
    var names := NameSeq(attributes);
    forall k | k in names ensures k in set a | a in attributes :: a.name {
      var i :| 0 <= i < |names| && names[i] == k;
      assert attributes[i] in attributes;
    }
    forall a | a in attributes ensures a.name in names {
      var i :| 0 <= i < |attributes| && attributes[i] == a;
      assert names[i] == a.name;
    }
  }

  /** Every declared name is a key of the attribute dictionary and nothing
      else is; each name maps to the domain of its last declaration. */
  lemma AttributeDictionaryLookup(attributes: seq<Attribute>)
    ensures AttributeDictionary(attributes).Keys == set a | a in attributes :: a.name
    ensures forall i :: 0 <= i < |attributes| && LastOccurrence(NameSeq(attributes), i) ==>
              AttributeDictionary(attributes)[attributes[i].name] == attributes[i].domain
  {
    var names := NameSeq(attributes);
    AssignLookup(names, DomainSeq(attributes));
    NameSeqNames(attributes);
  }

  /** A processed row has exactly the declared names as keys; the name
      declared at position i maps to the row's i-th value (the last position,
      for a name declared twice). */
  lemma ZipLookup(attributes: seq<Attribute>, rd: seq<Value>)
    requires |attributes| <= |rd|
    ensures Zip(attributes, rd).Keys == set a | a in attributes :: a.name
    ensures forall i :: 0 <= i < |attributes| && LastOccurrence(NameSeq(attributes), i) ==>
              Zip(attributes, rd)[attributes[i].name] == rd[i]
  {
    var names := NameSeq(attributes);
    AssignLookup(names, rd);
    NameSeqNames(attributes);
  }

  /** `make_attribute_dictionary`: one assignment per declared attribute, in order. */
  method MakeAttributeDictionary(attributes: seq<Attribute>) returns (dict: map<string, seq<Value>>)
    ensures dict == AttributeDictionary(attributes)
  {
    var names, domains := NameSeq(attributes), DomainSeq(attributes);
    dict := map[];
    for k := 0 to |attributes|
      invariant dict == Assign(names[..k], domains)
    {
      assert names[..k + 1][..k] == names[..k];
      dict := dict[attributes[k].name := attributes[k].domain];
    }
    assert names[..|attributes|] == names;
  }

  /** The declared names, as a set. */
  function DeclaredNames(attributes: seq<Attribute>): set<string>
  {
    set a | a in attributes :: a.name
  }

  /** The last declared attribute, the class, is among the declared names. */
  lemma ClassifierDeclared(attributes: seq<Attribute>)
    requires |attributes| > 0
    ensures attributes[|attributes| - 1].name in DeclaredNames(attributes)
  {
    assert attributes[|attributes| - 1] in attributes;
  }

  /** Every raw row has a value for every declared attribute. */
  predicate Shaped(attributes: seq<Attribute>, raw: seq<seq<Value>>) {
    forall j :: 0 <= j < |raw| ==> |attributes| <= |raw[j]|
  }

  /** `rows` is what `process_raw_data` makes of `raw`: one dictionary per
      raw row, in order. */
  predicate Processed(attributes: seq<Attribute>, raw: seq<seq<Value>>, rows: seq<Row>) {
    Shaped(attributes, raw) && |rows| == |raw| &&
    forall j :: 0 <= j < |raw| ==> rows[j] == Zip(attributes, raw[j])
  }

  /** Every processed row has exactly the declared names as keys. */
  lemma ProcessedKeys(attributes: seq<Attribute>, raw: seq<seq<Value>>, rows: seq<Row>)
    requires Processed(attributes, raw, rows)
    ensures forall j :: 0 <= j < |rows| ==> rows[j].Keys == DeclaredNames(attributes)
  {
    forall j | 0 <= j < |rows| ensures rows[j].Keys == DeclaredNames(attributes) {
      ZipLookup(attributes, raw[j]);
    }
  }

  /** `process_raw_data`: one dictionary per raw row, in order. A raw row
      shorter than the attribute list raises IndexError. */
  method ProcessRawData(attributes: seq<Attribute>, raw: seq<seq<Value>>) returns (r: Result<seq<Row>>)
    ensures r.Ok? <==> Shaped(attributes, raw)
    ensures r.Err? ==> r.error == IndexError
    ensures r.Ok? ==> Processed(attributes, raw, r.value)
  {
    var names := NameSeq(attributes);
    var res: seq<Row> := [];
    for j := 0 to |raw|
      invariant |res| == j
      invariant forall t :: 0 <= t < j ==> |attributes| <= |raw[t]| && res[t] == Zip(attributes, raw[t])
    {
      var rd := raw[j];
      var di: Row := map[];
      for i := 0 to |attributes|
        invariant i <= |rd| && di == Assign(names[..i], rd)
      {
        if i >= |rd| {
          return Err(IndexError);
        }
        assert names[..i + 1][..i] == names[..i];
        di := di[attributes[i].name := rd[i]];
      }
      assert names[..|attributes|] == names;
      res := res + [di];
    }
    return Ok(res);
  }
}
