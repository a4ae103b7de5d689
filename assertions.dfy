/**
 * The assertion helpers of the test framework: checks over the documents a
 * query returned, and the classification of a find or aggregate call as
 * passing or failing. The database call is abstracted into its outcome:
 * it completes, or it raises an exception of some class.
 */
module Assertions {
  import opened Exceptions

  /** A decoded BSON value, as the driver hands it to Python. */
  datatype Value =
    | Str(s: string)
    | Int(i: int)
    | Float(f: real)
    | Bool(b: bool)
    | Null
    | Array(items: seq<Value>)
    | Object(fields: map<string, Value>)
    | ObjectId(hex: string)
    | DateTime(millis: int)

  /** The Python type of a value; the tags are disjoint (see README on `bool`). */
  datatype TypeTag = StrType | IntType | FloatType | BoolType | NoneType | ListType | DictType | ObjectIdType | DateTimeType

  function TagOf(v: Value): TypeTag {
    match v
    case Str(_) => StrType
    case Int(_) => IntType
    case Float(_) => FloatType
    case Bool(_) => BoolType
    case Null => NoneType
    case Array(_) => ListType
    case Object(_) => DictType
    case ObjectId(_) => ObjectIdType
    case DateTime(_) => DateTimeType
  }

  /** A result document: its top-level fields. */
  type Document = map<string, Value>

  // ---------------------------------------------------------------------------
  // Result-set checks

  /** `assert_docs_not_empty`. */
  function DocsNotEmpty(docs: seq<Document>): (v: Verdict)
    ensures v.Pass? <==> |docs| > 0
    ensures v.Raises? ==> v.error == AssertionError
  {
    Assert(|docs| > 0)
  }

  /** `assert_field_exists`: a top-level key, not a dotted path. */
  function FieldExists(doc: Document, field: string): (v: Verdict)
    ensures v.Pass? <==> field in doc
    ensures v.Raises? ==> v.error == AssertionError
  {
    Assert(field in doc)
  }

  /** The inner loop of `assert_query_result_structure`: `doc` has every expected field. */
  function HasFields(doc: Document, fields: seq<string>): (b: bool)
    ensures b <==> forall f :: f in fields ==> f in doc
  {
    if fields == [] then true
    else fields[0] in doc && HasFields(doc, fields[1..])
  }

  /** The outer loop: every document has every expected field. */
  function AllHaveFields(docs: seq<Document>, fields: seq<string>): (b: bool)
    ensures b <==> forall i, f :: 0 <= i < |docs| && f in fields ==> f in docs[i]
  {
    if docs == [] then true
    else HasFields(docs[0], fields) && AllHaveFields(docs[1..], fields)
  }

  /** `assert_query_result_structure`: an empty result fails; otherwise every document has every field. */
  function QueryResultStructure(docs: seq<Document>, fields: seq<string>): (v: Verdict)
    ensures v.Pass? <==> |docs| > 0 && forall i, f :: 0 <= i < |docs| && f in fields ==> f in docs[i]
    ensures v.Raises? ==> v.error == AssertionError
  {
    Then(Assert(|docs| > 0), Assert(AllHaveFields(docs, fields)))
  }

  /** Passing with a field list implies passing with any list drawn from it. */
  lemma StructureOfFewerFields(docs: seq<Document>, fields: seq<string>, fewer: seq<string>)
    requires forall f :: f in fewer ==> f in fields
    requires QueryResultStructure(docs, fields).Pass?
    ensures QueryResultStructure(docs, fewer).Pass?
  {
  }

  /** The inner loop of `assert_data_types_correct`: each present field has an accepted type. */
  predicate TypesOk(doc: Document, fieldTypes: map<string, set<TypeTag>>)
    ensures (forall f :: f in fieldTypes ==> f !in doc) ==> TypesOk(doc, fieldTypes)
  {
    forall f :: f in fieldTypes && f in doc ==> TagOf(doc[f]) in fieldTypes[f]
  }

  /** The outer loop, document by document. */
  function AllTypesOk(docs: seq<Document>, fieldTypes: map<string, set<TypeTag>>): (b: bool)
    ensures b <==> forall i :: 0 <= i < |docs| ==> TypesOk(docs[i], fieldTypes)
  {
    if docs == [] then true
    else TypesOk(docs[0], fieldTypes) && AllTypesOk(docs[1..], fieldTypes)
  }

  /**
   * `assert_data_types_correct`: an empty result fails; a field missing from
   * a document is skipped; a present field must carry one of its accepted
   * types (`isinstance` against a type or a tuple of types).
   */
  function DataTypesCorrect(docs: seq<Document>, fieldTypes: map<string, set<TypeTag>>): (v: Verdict)
    ensures v.Pass? <==> (|docs| > 0 &&
      forall i, f :: 0 <= i < |docs| && f in fieldTypes && f in docs[i] ==> TagOf(docs[i][f]) in fieldTypes[f])
    ensures v.Raises? ==> v.error == AssertionError
  {
    Then(Assert(|docs| > 0), Assert(AllTypesOk(docs, fieldTypes)))
  }

  /** `looser` accepts at least as much as `fieldTypes`: fewer fields, wider type sets. */
  predicate Looser(looser: map<string, set<TypeTag>>, fieldTypes: map<string, set<TypeTag>>) {
    forall f :: f in looser ==> f in fieldTypes && fieldTypes[f] <= looser[f]
  }

  /** Widening an accepted type set or removing a field never turns a pass into a failure. */
  lemma LooserTypesKeepPass(docs: seq<Document>, fieldTypes: map<string, set<TypeTag>>, looser: map<string, set<TypeTag>>)
    requires Looser(looser, fieldTypes)
    requires DataTypesCorrect(docs, fieldTypes).Pass?
    ensures DataTypesCorrect(docs, looser).Pass?
  {
  }

  /** A field no document has does not affect the verdict. */
  lemma AbsentFieldIsSkipped(docs: seq<Document>, fieldTypes: map<string, set<TypeTag>>, field: string)
    requires forall i :: 0 <= i < |docs| ==> field !in docs[i]
    ensures DataTypesCorrect(docs, fieldTypes) == DataTypesCorrect(docs, fieldTypes - {field})
  {
  }

  // ---------------------------------------------------------------------------
  // Execution classifiers

  /** What a database call did: `list(collection.find(...))` completed, or raised. */
  datatype Outcome = Ok | Raised(error: ErrorClass)

  /** The database collection: the outcome of a find for each filter, of an aggregate for each pipeline. */
  datatype Collection = Collection(find: Document -> Outcome, aggregate: seq<Document> -> Outcome)

  /**
   * `try: call  except Exception: assert False`. An exception that is not an
   * `Exception` (a `KeyboardInterrupt`) is not caught and escapes unchanged.
   */
  function ExpectSuccess(call: Outcome): (v: Verdict)
    ensures v.Pass? <==> call.Ok?
    ensures call.Raised? && IsSubclass(call.error, Exception) ==> v == Raises(AssertionError)
    ensures call.Raised? && !IsSubclass(call.error, Exception) ==> v == Raises(call.error)
  {
    match call
    case Ok => Pass
    case Raised(c) => if IsSubclass(c, Exception) then Raises(AssertionError) else Raises(c)
  }

  /**
   * `try: call; assert False  except expected: pass  except Exception: assert False`,
   * as written: the `AssertionError` that flags a successful call is raised
   * inside the `try`, so `except expected` sees it first.
   */
  function ExpectFailure(call: Outcome, expected: ErrorClass): (v: Verdict)
    ensures v.Pass? <==>
      (call.Raised? && IsSubclass(call.error, expected)) || (call.Ok? && IsSubclass(AssertionError, expected))
    ensures v.Raises? ==>
      v.error == if call.Raised? && !IsSubclass(call.error, Exception) then call.error else AssertionError
    ensures !IsSubclass(AssertionError, expected) ==>
      (v.Pass? <==> call.Raised? && IsSubclass(call.error, expected))
    ensures call.Ok? && IsSubclass(AssertionError, expected) ==> v == Pass
  {
    var raised := match call case Ok => AssertionError case Raised(c) => c;
    if IsSubclass(raised, expected) then Pass
    else if IsSubclass(raised, Exception) then Raises(AssertionError)
    else Raises(raised)
  }

  /** A successful query passes the failure check when `Exception` is the expected type. */
  lemma ExpectFailureAcceptsSuccess()
    ensures ExpectFailure(Ok, Exception) == Pass
    ensures ExpectFailure(Ok, AssertionError) == Pass
    ensures ExpectFailure(Ok, OperationFailure) == Raises(AssertionError)
  {
  }

  /** The failure check as evidently intended: a successful call always fails it. */
  function ExpectFailureIntended(call: Outcome, expected: ErrorClass): (v: Verdict)
    ensures v.Pass? <==> call.Raised? && IsSubclass(call.error, expected)
    ensures call.Ok? ==> v == Raises(AssertionError)
  {
    match call
    case Ok => Raises(AssertionError)
    case Raised(c) =>
      if IsSubclass(c, expected) then Pass
      else if IsSubclass(c, Exception) then Raises(AssertionError)
      else Raises(c)
  }

  /** The two agree for every expected class that does not catch `AssertionError`, `OperationFailure` among them. */
  lemma ExpectFailureAgreesWithIntended(call: Outcome, expected: ErrorClass)
    requires !IsSubclass(AssertionError, expected)
    ensures ExpectFailure(call, expected) == ExpectFailureIntended(call, expected)
  {
  }

  /** `assert_query_executes_successfully`. */
  function QueryExecutesSuccessfully(collection: Collection, query: Document): (v: Verdict)
    ensures v.Pass? <==> collection.find(query).Ok?
  {
    ExpectSuccess(collection.find(query))
  }

  /** `assert_query_fails_with_error` (the default expected class is `OperationFailure`). */
  function QueryFailsWithError(collection: Collection, query: Document, expected: ErrorClass): (v: Verdict)
    ensures v.Pass? <==>
      (collection.find(query).Raised? && IsSubclass(collection.find(query).error, expected)) ||
      (collection.find(query).Ok? && IsSubclass(AssertionError, expected))
    ensures v.Raises? ==>
      v.error == if collection.find(query).Raised? && !IsSubclass(collection.find(query).error, Exception) then collection.find(query).error else AssertionError
    ensures !IsSubclass(AssertionError, expected) ==>
      (v.Pass? <==> collection.find(query).Raised? && IsSubclass(collection.find(query).error, expected))
  {
    ExpectFailure(collection.find(query), expected)
  }

  /** `assert_aggregation_executes_successfully`. */
  function AggregationExecutesSuccessfully(collection: Collection, pipeline: seq<Document>): (v: Verdict)
    ensures v.Pass? <==> collection.aggregate(pipeline).Ok?
  {
    ExpectSuccess(collection.aggregate(pipeline))
  }

  /** `assert_aggregation_fails_with_error`. */
  function AggregationFailsWithError(collection: Collection, pipeline: seq<Document>, expected: ErrorClass): (v: Verdict)
    ensures v.Pass? <==>
      (collection.aggregate(pipeline).Raised? && IsSubclass(collection.aggregate(pipeline).error, expected)) ||
      (collection.aggregate(pipeline).Ok? && IsSubclass(AssertionError, expected))
    ensures v.Raises? ==>
      v.error == if collection.aggregate(pipeline).Raised? && !IsSubclass(collection.aggregate(pipeline).error, Exception) then collection.aggregate(pipeline).error else AssertionError
    ensures !IsSubclass(AssertionError, expected) ==>
      (v.Pass? <==> collection.aggregate(pipeline).Raised? && IsSubclass(collection.aggregate(pipeline).error, expected))
  {
    ExpectFailure(collection.aggregate(pipeline), expected)
  }

  /** The aggregation classifiers decide exactly as the find classifiers do on the same outcome. */
  lemma AggregationMirrorsFind(collection: Collection, query: Document, pipeline: seq<Document>, expected: ErrorClass)
    requires collection.find(query) == collection.aggregate(pipeline)
    ensures AggregationExecutesSuccessfully(collection, pipeline) == QueryExecutesSuccessfully(collection, query)
    ensures AggregationFailsWithError(collection, pipeline, expected) == QueryFailsWithError(collection, query, expected)
  {
  }
}
