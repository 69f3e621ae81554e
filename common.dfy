/** Types shared by both classifiers: categorical values, rows, declared
    attributes, and the errors the Python code raises on the modelled paths. */
module Common {

  /** A categorical value as it appears in a data set. */
  type Value = string

  /** A processed row: attribute name to the row's value for it. */
  type Row = map<string, Value>

  /** A declared attribute: its name and its ordered domain of values. */
  datatype Attribute = Attribute(name: string, domain: seq<Value>)

  /** A loaded ARFF table: the declared attributes, the last one being the
      class, and the raw rows, one value per attribute in declaration order. */
  datatype Table = Table(attributes: seq<Attribute>, data: seq<seq<Value>>)

  /** The exceptions the modelled code can raise. */
  datatype Error =
    | KeyError(key: string)   // a dictionary lookup of an absent key
    | ZeroDivisionError       // an estimator whose denominator is 0
    | IndexError              // a raw row shorter than the attribute list
    | VertexNotFound          // NameError('VertexNotFound') in the graph

  datatype Result<T> = Ok(value: T) | Err(error: Error)

  datatype Option<T> = None | Some(value: T)

  /** A statement that succeeds or raises. */
  datatype Outcome = Pass | Fail(error: Error)

  /** No element occurs twice. */
  predicate Distinct<T(==)>(s: seq<T>) {
    forall i, j :: 0 <= i < j < |s| ==> s[i] != s[j]
  }
}
