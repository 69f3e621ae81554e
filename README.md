# bayesian-classifiers in Dafny

A Dafny model of the counting-and-scoring core of the bayesian-classifiers
repository. That core has three parts:

- the naive Bayes classifier, in two variants: `naivebayes.py` and
  `naive-bayes.py`;
- the tree-augmented naive Bayes (TAN) start-up in `tan.py`. It builds a
  complete graph over the non-class attributes. Each edge is weighted with
  the class-conditional mutual information of its two attributes.

The three files share the same Laplace-smoothed frequency estimators and the
same row shaping. The model therefore states those once:

- `estimators.dfy` (module `Estimators`): `probability`,
  `conditional_probability`, `conditional_probabilty2`, `joint_probability3`.
  Each is a count of matching rows divided by a total, as an exact `real`.
  Division by zero and lookups of absent dictionary keys are `Err` results.
  With Laplace smoothing every estimate is in (0, 1] when the domains
  involved are non-empty. Each estimator sums to 1 over its domain (or over
  the product of its domains) when those domains are duplicate-free and
  hold every row's value.
- `rows.dfy` (module `Rows`): `process_raw_data` and
  `make_attribute_dictionary`. Positional rows are zipped with the declared
  names. A later duplicate name overwrites an earlier one. A short row raises
  IndexError.
- `scoring.dfy` (module `Scoring`): the part of `classify` that both naive
  Bayes files share.
  - Each class value gets a score: its prior times the class-conditional
    probabilities of the row's non-class values.
  - The prediction is the first maximal score.
  - The confidence is that score's share of the total.
  - The correct predictions are counted.
- `naivebayes.dfy` (module `NaiveBayesClassifier`) and `naive-bayes.dfy`
  (module `NaiveBayesScript`): the two `NaiveBayes` classes. Their fields
  are updated in place by the constructor, `generate_model`,
  `clean_training_data` and `classify`.
- `graph.dfy` (module `TanGraph`): the `Vertex` and `Graph` classes of
  `tan.py`: adding vertices, finding a vertex by id, and adding an edge by
  ids in both directions (or raising `VertexNotFound`).
- `bayesnet.dfy` (module `BayesNet`): the shape of the graph after each
  iteration of the pair loop of `create_bayes_net`, visited in the order of
  `itertools.combinations`. After the last pair the graph is complete: every
  vertex is joined to every other and to nothing else, with the same weight
  both ways.
- `tan.dfy` (module `Tan`): the `Tan` class, the accumulation loop of the
  mutual information, the vertex loop and the pair loop of
  `create_bayes_net`. The mutual information of a pair is proved symmetric,
  so an edge's weight does not depend on the order in which the pair is
  visited.

ARFF files arrive already parsed as `Table` values. The lines `classify`
prints are returned as `Prediction` values.

## Model

| member | source | states |
|---|---|---|
| Estimators.Count | tan.py:118-119 | a count of matching rows never exceeds the number of rows |
| Estimators.CountPositive | tan.py:118-119 | a count is positive exactly when some row matches every condition |
| Estimators.CountAll | tan.py:158 | the count with no condition is `len(data)` |
| Estimators.Divide | tan.py:125 | the quotient of two counts is defined exactly when the denominator is non-zero (ZeroDivisionError otherwise); it is non-negative, at most 1 when the numerator is at most the denominator, and positive when the numerator is |
| Estimators.Probability | naivebayes.py:75-90 | with Laplace smoothing: KeyError exactly when the name is not in the dictionary, and a value in (0, 1] for a non-empty domain; without it: defined exactly when there is training data, and then in [0, 1] (the same code is at naive-bayes.py:65-80 and tan.py:140-155) |
| Estimators.ConditionalProbability | naivebayes.py:56-73 | with Laplace smoothing: KeyError exactly when the attribute is not in the dictionary, and a value in (0, 1] for a non-empty domain; without it: defined exactly when some row has the class value, and then in [0, 1] (the same code is at naive-bayes.py:46-63 and tan.py:108-125) |
| Estimators.ConditionalProbability2 | tan.py:127-137 | with Laplace smoothing: KeyError exactly when either attribute is not in the dictionary, and a value in (0, 1] for non-empty domains; without it: defined exactly when some row has the class value, and then in [0, 1] |
| Estimators.JointProbability3 | tan.py:157-166 | with Laplace smoothing: KeyError exactly when one of the three names is not in the dictionary, and a value in (0, 1] for non-empty domains; without it: defined exactly when there is training data, and then in [0, 1] |
| Estimators.SplitCountIsCount | tan.py:118-119 | when every matching row's value lies in a duplicate-free domain, the counts per domain value add up to the count |
| Estimators.ProbabilitySumsToOne | naivebayes.py:75-90 | with Laplace smoothing, `probability` summed over a duplicate-free domain that holds every row's value is exactly 1 |
| Estimators.ProbabilityOfEmptyData | naivebayes.py:83-90 | with Laplace smoothing and no training rows, `probability` is 1/\|domain\| |
| Estimators.ConditionalSumsToOne | naivebayes.py:56-73 | with Laplace smoothing, `conditional_probability` for a fixed class value, summed over the attribute's duplicate-free domain, is exactly 1 |
| Estimators.Conditional2SumsToOne | tan.py:127-137 | with Laplace smoothing, `conditional_probabilty2` for a fixed class value, summed over the product of the two domains, is exactly 1 |
| Estimators.Joint3SumsToOne | tan.py:157-166 | with Laplace smoothing, `joint_probability3` summed over the product of the three domains is exactly 1 |
| Estimators.Conditional2Symmetric | tan.py:127-137 | with Laplace smoothing and both attributes in the dictionary, `conditional_probabilty2` gives the same value whichever attribute is named first |
| Estimators.Joint3Symmetric | tan.py:157-166 | with Laplace smoothing and all three names in the dictionary, `joint_probability3` gives the same value when the first two name-value pairs trade places |
| Rows.AttributeDictionaryLookup | naive-bayes.py:30-32 | the dictionary's keys are the declared names, and each name maps to the domain of its last declaration |
| Rows.MakeAttributeDictionary | naive-bayes.py:30-32 | the loop over the declared attributes builds exactly that dictionary |
| Rows.ZipLookup | naive-bayes.py:36-43 | a zipped row's keys are the declared names, and each name holds the raw value at the position of its last declaration |
| Rows.ClassifierDeclared | tan.py:84 | the class, the last declared attribute, is a declared name |
| Rows.ProcessedKeys | naivebayes.py:44-54 | every processed row has exactly the declared names as keys |
| Rows.ProcessRawData | naive-bayes.py:34-44 | IndexError exactly when some raw row is shorter than the attribute list; otherwise one zipped row per raw row, in order (the same code is at naivebayes.py:44-54 and tan.py:70-80) |
| Scoring.Prior | naivebayes.py:106-107 | the prior of a class value, `probability(classifier, v)`, is in (0, 1] |
| Scoring.Likelihood | naivebayes.py:113-116 | the product of the class-conditional probabilities of a row's values, skipping the class, is in (0, 1] |
| Scoring.Score | naivebayes.py:111-118 | a class value's score is in (0, 1] |
| Scoring.Scores | naivebayes.py:110-118 | `cplist` has one entry per class value visited, and every entry is in (0, 1] |
| Scoring.FirstMaxIsMax | naivebayes.py:121 | the chosen index holds a maximal element, and every earlier element is strictly smaller (the first maximum, as `max` keeps it) |
| Scoring.PredictIsFirstMax | naivebayes.py:121 | the predicted label is a class value with maximal score, and every class value visited before it scores strictly less |
| Scoring.SumBounds | naivebayes.py:120 | a sum of k values in (0, top] is positive and at most k times top |
| Scoring.MaxShareAt | naivebayes.py:120-125 | the share of a maximal positive element in the total is in [1/k, 1] |
| Scoring.ConfidenceBounds | naivebayes.py:120-125 | the printed confidence `mval/tval` has a positive denominator and lies in [1/k, 1] for k class values |
| Scoring.ReportAt | naivebayes.py:109-125 | the t-th reported line is the prediction for the t-th test row |
| Scoring.CorrectCount | naivebayes.py:123-127 | the number of correct predictions never exceeds the number of test rows |
| Scoring.HitsOfReports | naivebayes.py:123-124 | the lines whose predicted label equals the actual one are exactly the correct predictions |
| Scoring.ReportsStep | naivebayes.py:123-124 | a new line extends the report, and `correct` grows by one exactly when its prediction equals the row's class |
| Scoring.ScoreStep | naivebayes.py:113-116 | the inner loop body keeps `cp` equal to the prior times the product so far |
| Scoring.ScoreClass | naivebayes.py:111-118 | the inner loop ends with `cp` equal to the class value's score |
| Scoring.ScoreClasses | naivebayes.py:110-118 | `cplist` holds every class value's score, in order |
| Scoring.ScoresPerClass | naivebayes.py:104-118 | when the priors are visited in a duplicate-free enumeration of the class domain, every declared class value's score appears in `cplist` at exactly one position |
| Scoring.Priors | naivebayes.py:104-107 | `p` has exactly the class domain as keys, each mapped to its prior |
| Scoring.ClassifyRow | naivebayes.py:109-125 | one test row yields the line for the first maximal score |
| Scoring.ClassifyRows | naivebayes.py:109-126 | the loop over the test rows yields one line per row, in order, and `correct` is the number of lines with a correct prediction |
| Scoring.Classify | naivebayes.py:104-127 | the priors and the row loop together give the report for every test row and the number of correct predictions |
| Scoring.ClassifyTables | naivebayes.py:101-127 | over training and test rows processed from the same declarations, with the class as the last declared attribute, the model is ready and `classify` gives the report for every test row and the number of correct predictions |
| Scoring.ClassEntry | naivebayes.py:106 | the dictionary entry for the class is the last declared attribute's domain |
| Scoring.TrainedReady | naivebayes.py:104-116 | over processed training rows with non-empty declared domains, no estimator call of `classify` raises |
| Scoring.RowFits | naivebayes.py:113-116 | a row with exactly the declared names has a value for every name visited |
| Scoring.ProcessedTablesFit | naivebayes.py:102 | processed test rows fit the model built from processed training rows |
| NaiveBayesClassifier.NaiveBayes.constructor | naivebayes.py:18-30 | the dictionary describes the given table; with `evaluate` set there is no training table or model, and otherwise the table is the training table and the model is its processed rows |
| NaiveBayesClassifier.NaiveBayes.MakeAttributeDictionary | naivebayes.py:40-42 | every attribute of the evaluation table is written into the dictionary, over what it held; nothing else changes |
| NaiveBayesClassifier.NaiveBayes.GenerateModel | naivebayes.py:32-33 | the model becomes the processed training rows; IndexError on a short row, leaving the model as it was |
| NaiveBayesClassifier.NaiveBayes.CleanTrainingData | naivebayes.py:35-38 | the model and both test fields become None; the tables and the dictionary are unchanged |
| NaiveBayesClassifier.NaiveBayes.Classify | naivebayes.py:92-127 | IndexError with no declared attribute or a short test row; otherwise the test table and its rows are stored, every row is scored, and the result is (correct predictions, number of test rows) |
| NaiveBayesScript.NaiveBayes.constructor | naive-bayes.py:17-28 | the model is the processed training rows and the dictionary describes the training table |
| NaiveBayesScript.NaiveBayes.MakeAttributeDictionary | naive-bayes.py:30-32 | every declared attribute is written into the dictionary, over what it held; nothing else changes |
| NaiveBayesScript.NaiveBayes.Classify | naive-bayes.py:82-110 | the test table is stored first; IndexError on a short test row or with no declared attribute; otherwise every row is scored and the result is the number of correct predictions |
| TanGraph.Vertex.constructor | tan.py:8-10 | a vertex with the given id and no neighbours |
| TanGraph.Vertex.AddNeighbor | tan.py:12-16 | the weight towards the neighbour is set or overwritten, and `get_edge__weight` then returns it; the weight towards every other vertex stays as it was |
| TanGraph.FindById | tan.py:30-34 | a found vertex is listed and carries the id; nothing is found exactly when no vertex carries it |
| TanGraph.FindFirst | tan.py:31-33 | the search stops at the first vertex carrying the id |
| TanGraph.FindOwnId | tan.py:30-34 | with unique ids, each vertex is found by its own id |
| TanGraph.Graph.constructor | tan.py:19-22 | an empty adjacency list and vertex list |
| TanGraph.Graph.AddVertex | tan.py:24-28 | a fresh vertex with the id, no neighbours and an empty adjacency list is appended; existing vertices keep their neighbours |
| TanGraph.Graph.GetVertexById | tan.py:30-34 | the search loop returns the first vertex with the id, or None when there is none |
| TanGraph.Graph.AddEdgeById | tan.py:36-47 | VertexNotFound exactly when either id is missing, and then nothing changes; otherwise each endpoint is appended to the other's adjacency list, the weight is set both ways, and no other vertex changes |
| TanGraph.Graph.Join | tan.py:43-47 | the success path of `add_edge_by_id`: each endpoint is appended to the other's adjacency list and the weight is set both ways; nothing else changes |
| BayesNet.EmptyStage | tan.py:84-90 | vertices with unique ids, no neighbours and empty adjacency lists are the start of the pair loop |
| BayesNet.StageStep | tan.py:105 | joining the current pair, as `add_edge_by_id` does, advances the graph to the state after that pair |
| BayesNet.StageAdvance | tan.py:90 | after the last partner of vertex i the pair loop goes on with vertex i + 1, in the order of `combinations` |
| BayesNet.LinkPair | tan.py:105 | `add_edge_by_id` on the current pair succeeds and leaves the graph in the state after that pair |
| BayesNet.LinkedComplete | tan.py:90-105 | once every pair is visited, each vertex is adjacent to all the others in list order and to nothing else, and every edge carries the pair's weight both ways |
| BayesNet.CompleteDegree | tan.py:90-105 | in the finished graph on n vertices every vertex has n - 1 neighbours |
| BayesNet.CompleteEdgeWeight | tan.py:15-16 | in the finished graph `get_edge__weight` gives the pair's weight from both ends of every edge, and KeyError for a vertex asked about itself |
| Tan.Estimates | tan.py:98-101 | the four Laplace estimates of one summand are all in (0, 1] |
| Tan.LogArgumentPositive | tan.py:103 | the argument of `math.log`, `jp2/(jpattr1*jpattr2)`, always has a positive denominator and is positive, so the logarithm never raises ValueError |
| Tan.AddSummand | tan.py:98-103 | one pass of the innermost body adds that summand to `mutual_information` |
| Tan.AccumulateMutualInformation | tan.py:93-103 | the nested loops over the class values and the product of the two domains end with the class-conditional mutual information sum |
| Tan.Without | tan.py:85-88 | the names kept by the vertex loop are exactly the keys other than the class |
| Tan.WithoutContents | tan.py:85-88 | from duplicate-free keys the kept names are duplicate-free and form the key set minus the class |
| Tan.AddAttributeVertices | tan.py:84-88 | the vertex loop gives one fresh vertex per non-class key, in the order the keys are visited, each with no neighbours and an empty adjacency list |
| Tan.TermSymmetric | tan.py:98-103 | a summand is the same when the two attributes of the pair trade places |
| Tan.BlockTranspose | tan.py:95-103 | the double sum over the two domains for one class value is the same taken in either nesting order |
| Tan.ClassSumSymmetric | tan.py:93-103 | the sum over the class values is the same for the pair in either order |
| Tan.MutualInformationSymmetric | tan.py:91-103 | the mutual information of a pair does not depend on which attribute comes first |
| Tan.PairWeightSymmetric | tan.py:90-105 | the weight `create_bayes_net` would give the edge between two attributes is the same in either order |
| Tan.NetEdgeWeight | tan.py:15-16 | in the finished Bayes net, `get_edge__weight` between any two distinct vertices, asked from either end, is the mutual information of their attributes |
| Tan.DeclaredSound | tan.py:94-101 | for two declared attributes of processed rows, every lookup of the sum succeeds |
| Tan.NetReady | tan.py:84-90 | after the vertex loop the pair loop can start, and every pair of vertices can be summed over |
| Tan.JoinPair | tan.py:91-105 | the pair loop body computes the pair's mutual information and joins the pair with that weight |
| Tan.ConnectRow | tan.py:90-105 | the pairs (i, j) for all later j are joined in order |
| Tan.ConnectAll | tan.py:90-105 | the pair loop leaves the complete graph with mutual-information weights |
| Tan.Tan.constructor | tan.py:50-64 | the model rows are the processed training rows, the dictionary describes the table, and the Bayes net is the complete graph over the non-class attributes with mutual-information weights |
| Tan.Tan.MakeAttributeDictionary | tan.py:66-68 | every declared attribute is written into the dictionary, over what it held; nothing else changes |
| Tan.Tan.CreateBayesNet | tan.py:82-105 | IndexError exactly when no attribute is declared, and then the graph is left unchanged; otherwise one fresh vertex per non-class key and the complete graph over them, weighted with each pair's mutual information |

## Left out

- Loading ARFF files (`__import__("arff")`, `open`) and the `copy.deepcopy` calls: tables arrive as parsed `Table` values.
- Printing and the `%.12f` / `rstrip('0')` formatting: the printed lines are returned as `Prediction` values holding the predicted label, the actual label, the best score and the total.
- Floating point: estimators, scores and sums are exact `real`s.
- `math.log(x, 2)`: it is the parameter `log2` of the Tan constructor, a function defined on the positive reals only. The mutual information is therefore an exact sum of opaque terms, and no bound on its value is stated.
- `evaluate` in naivebayes.py: it draws random samples. evaluate.py and classify.py are not part of this model either, and the maximum spanning tree and a TAN `classify` are absent from tan.py.
- The `self.model` dictionary of tan.py and naive-bayes.py: it is never read.
- Dictionary iteration orders are parameters. These are `names` (the order of a test row's items), `order` (the order of the priors dictionary `p`, which also stands for the order in which `sum` and `max` walk `cplist` and so decides ties) and `keys` (the order of `attribute_dictionary.keys()` in `create_bayes_net`). Each is a duplicate-free enumeration of the keys.
- Vertex order: `get_vertex_by_id` and `combinations` walk the keys of `adjacency_list`, which the model takes in insertion order, i.e. `vlist`. With unique ids the vertex found does not depend on the order.
- Estimators.Probability, Estimators.ConditionalProbability, Estimators.ConditionalProbability2 and Estimators.JointProbability3: the precondition asks every training row to hold every queried name. Python asks less: `and` stops at the first failed test, so a later name is read only on rows that passed the earlier tests, and a row lacking it elsewhere raises no KeyError (only `probability` reads its name on every row). Every call site meets the precondition, because processed rows hold every declared name and every queried name is declared.
- Tan.Tan.constructor: a short row and an empty attribute list, on which Python raises IndexError from the constructor, are excluded by its precondition.
- NaiveBayesScript.NaiveBayes.constructor: a short training row, on which Python raises IndexError from the constructor, is excluded by its precondition.
- NaiveBayesClassifier.NaiveBayes.constructor: a short row with `evaluate` unset is excluded the same way.
- NaiveBayesClassifier.NaiveBayes.Classify: requires a training table and a model. Python raises AttributeError when `classify` is called on an object built with `evaluate` set. It also requires every declared domain to be non-empty. With an empty class domain the priors dictionary is empty and `max` raises ValueError on the first test row. With an empty non-class domain the Laplace estimate raises ZeroDivisionError when no training row has the class value, and can otherwise exceed 1 without any error.
- NaiveBayesScript.NaiveBayes.Classify: requires every declared domain to be non-empty, as above.
- NaiveBayesScript.NaiveBayes.Classify: naive-bayes.py prints the number of correct predictions and returns None. The model returns that number instead, and does not model the print.
- Tan.Tan.CreateBayesNet: requires an empty graph, which is what the constructor passes it, and a duplicate-free `keys` listing the dictionary's keys.
- Tan.PairWeight: the fallback weight 0.0 for a pair that cannot be summed over is never used, because CreateBayesNet proves every pair can be.
- TanGraph.Vertex.EdgeWeight: the KeyError carries the vertex id in place of the vertex object.
