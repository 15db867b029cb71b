/** The request handlers of classifier/views.py that hold logic: the upload
    handler that classifies a table and records one result per row, the
    results page's filters and summary counts, and the CSV export. */
module Views {
  import opened Wrappers
  import opened Seqs
  import opened Frames
  import opened Decimal
  import opened Preprocess
  import opened MlPipeline
  import opened Forms

  /** One row of an uploaded table: column label to cell (`df.iloc[i]`). */
  type Row = map<string, Cell>

  // ---------------------------------------------------------------------
  // Row identifiers

  const ToiAliases: seq<string> := ["toi_id", "toi", "TOI"]
  const TicAliases: seq<string> := ["tid", "tic_id", "tic", "TIC", "TIC ID"]
  const ToiPrefix: string := "TOI"

  /** `name in row and pd.notna(row[name])`: labels are compared exactly. */
  predicate Available(row: Row, name: string) {
    name in row && row[name] != Blank
  }

  /** The position of the first name available in the row, or `|names|`
      when there is none. */
  function FirstAvailable(row: Row, names: seq<string>): (k: nat)
    ensures k <= |names|
    ensures k < |names| ==> Available(row, names[k])
    ensures forall j :: 0 <= j < k ==> !Available(row, names[j])
  {
    if names == [] then 0
    else if Available(row, names[0]) then 0
    else 1 + FirstAvailable(row, names[1..])
  }

  /** The identifier made up for row `i` (counted from zero) when no alias
      column names one: the prefix, a dash and the one-based row number. */
  function SynthesizedId(prefix: string, i: nat): string {
    prefix + "-" + NatToString(i + 1)
  }

  /** Python truthiness of the optional prefix: neither None nor empty. */
  predicate Truthy(prefix: Option<string>) {
    prefix.Some? && prefix.value != ""
  }

  /** `get_id_from_row` for row `i`: the cell of the first alias, in list
      order, that the row holds with a value; otherwise the synthesized
      identifier when a prefix is given, and nothing when not. */
  function GetIdFromRow(row: Row, names: seq<string>, prefix: Option<string>, i: nat): (r: Option<Cell>)
    ensures forall k :: (0 <= k < |names| && Available(row, names[k]) &&
              (forall j :: 0 <= j < k ==> !Available(row, names[j]))) ==> r == Some(row[names[k]])
    ensures (forall k :: 0 <= k < |names| ==> !Available(row, names[k])) ==>
              r == (if Truthy(prefix) then Some(Text(SynthesizedId(prefix.value, i))) else None)
  {
    var k := FirstAvailable(row, names);
    if k < |names| then Some(row[names[k]])
    else if Truthy(prefix) then Some(Text(SynthesizedId(prefix.value, i)))
    else None
  }

  /** `str` of a cell; how a float prints is given by `show`. */
  function CellText(c: Cell, show: real -> string): string {
    match c
    case Text(s) => s
    case Num(x) => show(x)
    case Blank => "nan"
  }

  /** `str` of an optional identifier: None prints as "None". */
  function IdText(id: Option<Cell>, show: real -> string): string {
    match id
    case Some(c) => CellText(c, show)
    case None => "None"
  }

  /** Synthesized identifiers of different rows differ. */
  lemma {:induction false} SynthesizedIdsDistinct(prefix: string, i: nat, j: nat)
    requires i != j
    ensures SynthesizedId(prefix, i) != SynthesizedId(prefix, j)
  {
    var a, b := SynthesizedId(prefix, i), SynthesizedId(prefix, j);
    var n := |prefix| + 1;
    if a == b {
      assert a[n..] == NatToString(i + 1);
      assert b[n..] == NatToString(j + 1);
      NatToStringInjective(i + 1, j + 1);
    }
  }

  /** The first row of a table without identifier columns is "TOI-1". */
  lemma FirstRowId()
    ensures SynthesizedId(ToiPrefix, 0) == "TOI-1"
  {
    assert NatToString(1) == ['1'];
  }

  // ---------------------------------------------------------------------
  // Result records and the job

  /** A stored result (a `TOIResult` row of the database). */
  datatype ToiResult = ToiResult(
    toiId: string,
    ticId: Option<string>,
    prediction: string,
    probability: real,
    confidence: string,
    featureData: Row)

  /** The record stored for row `i` of the table and its prediction. */
  function ResultRecord(row: Row, i: nat, p: Prediction, show: real -> string): (r: ToiResult)
    ensures r.prediction == "Planet" || r.prediction == "False Positive"
    ensures r.prediction == "Planet" <==> p.prediction == Planet
    ensures r.confidence == "High" || r.confidence == "Medium" || r.confidence == "Low"
    ensures r.probability == p.probability && r.featureData == row
  {
    var toi := GetIdFromRow(row, ToiAliases, Some(ToiPrefix), i);
    var tic := GetIdFromRow(row, TicAliases, None, i);
    ToiResult(IdText(toi, show),
              if tic.Some? then Some(CellText(tic.value, show)) else None,
              LabelName(p.prediction), p.probability, ConfidenceName(p.confidence), row)
  }

  /** What a record says about its row: the TOI identifier comes from the
      first available TOI alias, or is synthesized from the row number; the
      TIC identifier is null exactly when no TIC alias is available, and
      otherwise the first available TIC alias's text; the label is "Planet" or "False Positive", the confidence band is stored
      by name, and the probability and row data are carried over. */
  lemma {:induction false} ResultRecordFields(row: Row, i: nat, p: Prediction, show: real -> string)
    ensures var r := ResultRecord(row, i, p, show);
      && (forall k :: (0 <= k < |ToiAliases| && Available(row, ToiAliases[k]) &&
            (forall j :: 0 <= j < k ==> !Available(row, ToiAliases[j]))) ==> r.toiId == CellText(row[ToiAliases[k]], show))
      && ((forall k :: 0 <= k < |ToiAliases| ==> !Available(row, ToiAliases[k])) ==> r.toiId == SynthesizedId(ToiPrefix, i))
      && (r.ticId.None? <==> forall k :: 0 <= k < |TicAliases| ==> !Available(row, TicAliases[k]))
      && (forall k :: (0 <= k < |TicAliases| && Available(row, TicAliases[k]) &&
            (forall j :: 0 <= j < k ==> !Available(row, TicAliases[j]))) ==> r.ticId == Some(CellText(row[TicAliases[k]], show)))
      && r.prediction == LabelName(p.prediction)
      && r.confidence == ConfidenceName(p.confidence)
      && r.probability == p.probability
      && r.featureData == row
  {
    var tic := GetIdFromRow(row, TicAliases, None, i);
    var k := FirstAvailable(row, TicAliases);
    if k < |TicAliases| {
      assert tic == Some(row[TicAliases[k]]);
    }
  }

  datatype Status = Pending | Processing | Completed | Failed

  /** A classification job (`ClassificationJob`) and the results stored
      against it. */
  class ClassificationJob {
    const jobId: string
    var status: Status
    const totalObjects: int
    var processedObjects: int
    const filePath: string
    const fileName: string
    var results: seq<ToiResult>

    constructor (jobId: string, status: Status, totalObjects: int, filePath: string, fileName: string)
      ensures this.jobId == jobId && this.status == status && this.totalObjects == totalObjects
      ensures this.filePath == filePath && this.fileName == fileName
      ensures processedObjects == 0 && results == []
    {
      this.jobId := jobId;
      this.status := status;
      this.totalObjects := totalObjects;
      this.processedObjects := 0;
      this.filePath := filePath;
      this.fileName := fileName;
      this.results := [];
    }
  }

  /** The result-building loop of the upload handler: result `i` pairs
      prediction `i` with row `i`. */
  method BuildResults(table: Frame<Cell>, predictions: seq<Prediction>, show: real -> string)
    returns (records: seq<ToiResult>)
    requires table.WellFormed() && |predictions| <= table.height
    ensures |records| == |predictions|
    ensures forall i :: 0 <= i < |records| ==> records[i] == ResultRecord(table.Row(i), i, predictions[i], show)
  {
    records := [];
    for i := 0 to |predictions|
      invariant |records| == i
      invariant forall k :: 0 <= k < i ==> records[k] == ResultRecord(table.Row(k), k, predictions[k], show)
    {
      records := records + [ResultRecord(table.Row(i), i, predictions[i], show)];
    }
  }

  // ---------------------------------------------------------------------
  // Upload

  /** A column the classifier can read: no text cells. */
  predicate NumericColumn(col: seq<Cell>) {
    forall k :: 0 <= k < |col| ==> !col[k].Text?
  }

  function ToNumeric(col: seq<Cell>): (r: Column)
    requires NumericColumn(col)
    ensures |r| == |col|
    ensures forall k :: 0 <= k < |col| ==> r[k] == (if col[k].Num? then Some(col[k].x) else None)
  {
    seq(|col|, k requires 0 <= k < |col| => if col[k].Num? then Some(col[k].x) else None)
  }

  /** The feature columns of an uploaded table as numbers, in the table's
      order; nothing when one of them holds text, on which the batch median
      of the preprocessing (`Series.median()`, evaluated for every present
      feature, even one with a reference entry) raises. */
  function FeatureView(table: Frame<Cell>, names: seq<string>): (v: Option<Frame<Option<real>>>)
    requires table.WellFormed()
    ensures v.Some? <==> forall c :: c in names && c in table.data ==> NumericColumn(table.data[c])
    ensures v.Some? ==> v.value.WellFormed() && v.value.height == table.height
    ensures v.Some? ==> forall c :: c in v.value.data <==> c in names && c in table.data
    ensures v.Some? ==> forall c :: c in v.value.data ==> v.value.data[c] == ToNumeric(table.data[c])
  {
    var cols := Filter(table.columns, c => c in names);
    FilterMembers(table.columns, c => c in names);
    assert forall c :: c in names && c in table.data ==> c in cols by {
      forall c | c in names && c in table.data
        ensures c in cols
      {
        var k :| 0 <= k < |table.columns| && table.columns[k] == c;
      }
    }
    if forall c :: c in cols ==> NumericColumn(table.data[c]) then
      FilterDistinct(table.columns, c => c in names);
      Some(Frame(cols, map c | c in cols :: ToNumeric(table.data[c]), table.height))
    else
      None
  }

  /** What the upload handler answers. */
  datatype Response =
    | ShowForm(error: string)          // the form again, with its validation error
    | RedirectToResults(jobId: string) // the results page of the new job
    | ErrorJson                        // a 400 response carrying the exception text

  /** `upload_view` on a POST whose file has been stored and parsed into
      `table`: the job id and stored path are what the id generator and the
      storage returned, and `show` prints floats as `str` does. */
  method UploadView(classifier: TessClassifier, file: UploadedFile, table: Frame<Cell>,
                    jobId: string, filePath: string, show: real -> string)
    returns (response: Response, job: ClassificationJob?)
    requires classifier.Valid() && table.WellFormed()
    requires exists k :: 0 <= k < |classifier.featureNames| && classifier.featureNames[k] in table.data
    ensures CleanFile(file).Failure? ==> response == ShowForm(NotCsvMessage) && job == null
    ensures CleanFile(file).Success? ==>
      && job != null && fresh(job)
      && job.jobId == jobId && job.filePath == filePath && job.fileName == file.name
      && job.totalObjects == table.height
    ensures CleanFile(file).Success? && FeatureView(table, classifier.featureNames).None? ==>
      response == ErrorJson && job != null && job.status == Processing && job.processedObjects == 0 && job.results == []
    ensures CleanFile(file).Success? && FeatureView(table, classifier.featureNames).Some? ==>
      var x := FeatureMatrix(classifier.featureNames, classifier.featureMedians, FeatureView(table, classifier.featureNames).value);
      && response == RedirectToResults(jobId) && job != null
      && job.status == Completed && job.processedObjects == table.height
      && |job.results| == table.height == |x|
      && forall i :: 0 <= i < table.height ==>
           job.results[i] == ResultRecord(table.Row(i), i, Classify(classifier.model, x[i]), show)
  {
    var cleaned := CleanFile(file);
    if cleaned.Failure? {
      return ShowForm(cleaned.error), null;
    }
    job := new ClassificationJob(jobId, Processing, table.height, filePath, file.name);
    var numeric := FeatureView(table, classifier.featureNames);
    if numeric.None? {
      return ErrorJson, job;
    }
    var k :| 0 <= k < |classifier.featureNames| && classifier.featureNames[k] in table.data;
    assert classifier.featureNames[k] in numeric.value.data;
    var predictions := classifier.PredictBatch(numeric.value);
    var records := BuildResults(table, predictions, show);
    job.results := records;
    job.status := Completed;
    job.processedObjects := |predictions|;
    response := RedirectToResults(jobId);
  }

  // ---------------------------------------------------------------------
  // Results page

  /** A query string as Django's `QueryDict`: keys in first-seen order,
      each with every value given for it. Only the first entry for a key is
      ever read. */
  type Query = seq<(string, seq<string>)>

  /** The values listed under `key`, taken from its first entry. */
  function Lookup(q: Query, key: string): (r: Option<seq<string>>)
    ensures r.None? <==> forall k :: 0 <= k < |q| ==> q[k].0 != key
    ensures r.Some? ==> exists k :: (0 <= k < |q| && q[k] == (key, r.value) &&
                                     forall j :: 0 <= j < k ==> q[j].0 != key)
  {
    if q == [] then None
    else if q[0].0 == key then Some(q[0].1)
    else Lookup(q[1..], key)
  }

  /** `QueryDict.get(key, default)`: the last value given for the key, or
      the default when the key is absent or has no value. */
  function Get(q: Query, key: string, default: string): (v: string)
    ensures Lookup(q, key).Some? && Lookup(q, key).value != [] ==> v in Lookup(q, key).value
    ensures Lookup(q, key).Some? && Lookup(q, key).value != [] ==>
      v == Lookup(q, key).value[|Lookup(q, key).value| - 1]
    ensures Lookup(q, key).None? ==> v == default
    ensures Lookup(q, key) == Some([]) ==> v == default
  {
    match Lookup(q, key)
    case Some(values) => if values == [] then default else values[|values| - 1]
    case None => default
  }

  /** The query without its page number (`del filter_params['page']`). */
  function WithoutPage(q: Query): (r: Query)
    ensures forall k :: 0 <= k < |r| ==> r[k].0 != "page"
  {
    FilterMembers(q, (e: (string, seq<string>)) => e.0 != "page");
    Filter(q, (e: (string, seq<string>)) => e.0 != "page")
  }

  /** Removing the page number hides `page` and keeps every other
      parameter as it was. */
  lemma {:induction false} WithoutPageLookup(q: Query, key: string)
    ensures Lookup(WithoutPage(q), key) == if key == "page" then None else Lookup(q, key)
  {
    if q != [] {
      WithoutPageLookup(q[1..], key);
      if q[0].0 != "page" {
        assert WithoutPage(q) == [q[0]] + WithoutPage(q[1..]);
      }
    }
  }

  /** The four filters of the results page as the query gives them; the
      empty string means "not given". */
  datatype Filters = Filters(confidence: string, prediction: string, probMin: string, probMax: string)

  /** Whether `v` is what the query gives for `key`: the last value given
      for it when it has any, and "" (the filter is off) otherwise. */
  predicate FromQuery(q: Query, key: string, v: string) {
    if Lookup(q, key).Some? && Lookup(q, key).value != [] then
      v == Lookup(q, key).value[|Lookup(q, key).value| - 1]
    else v == ""
  }

  /** The filters read from the query, each from its own parameter. */
  function FiltersOf(q: Query): (f: Filters)
    ensures FromQuery(q, "confidence", f.confidence) && FromQuery(q, "prediction", f.prediction)
    ensures FromQuery(q, "prob_min", f.probMin) && FromQuery(q, "prob_max", f.probMax)
  {
    Filters(Get(q, "confidence", ""), Get(q, "prediction", ""), Get(q, "prob_min", ""), Get(q, "prob_max", ""))
  }

  /** Each filter holds of a result, or is not given. A bound that `parse`
      (Python's `float`) refuses is ignored. */
  predicate ConfidenceMatches(f: Filters, r: ToiResult) {
    f.confidence == "" || r.confidence == f.confidence
  }

  predicate PredictionMatches(f: Filters, r: ToiResult) {
    f.prediction == "" || r.prediction == f.prediction
  }

  predicate AboveMinimum(f: Filters, parse: string -> Option<real>, r: ToiResult) {
    f.probMin == "" || parse(f.probMin).None? || r.probability >= parse(f.probMin).value
  }

  predicate BelowMaximum(f: Filters, parse: string -> Option<real>, r: ToiResult) {
    f.probMax == "" || parse(f.probMax).None? || r.probability <= parse(f.probMax).value
  }

  /** Whether a result passes all of the filters: with none given every
      result passes, and a given filter admits only results that meet it. */
  predicate Selected(f: Filters, parse: string -> Option<real>, r: ToiResult)
    ensures f == Filters("", "", "", "") ==> Selected(f, parse, r)
    ensures Selected(f, parse, r) && f.confidence != "" ==> r.confidence == f.confidence
    ensures Selected(f, parse, r) && f.prediction != "" ==> r.prediction == f.prediction
    ensures Selected(f, parse, r) && f.probMin != "" && parse(f.probMin).Some? ==> r.probability >= parse(f.probMin).value
    ensures Selected(f, parse, r) && f.probMax != "" && parse(f.probMax).Some? ==> r.probability <= parse(f.probMax).value
  {
    ConfidenceMatches(f, r) && PredictionMatches(f, r) && AboveMinimum(f, parse, r) && BelowMaximum(f, parse, r)
  }

  /** Whether a result passes the first `n` filters, in the order the view
      applies them. */
  predicate PassesFirst(f: Filters, parse: string -> Option<real>, n: nat, r: ToiResult) {
    && (n >= 1 ==> ConfidenceMatches(f, r))
    && (n >= 2 ==> PredictionMatches(f, r))
    && (n >= 3 ==> AboveMinimum(f, parse, r))
    && (n >= 4 ==> BelowMaximum(f, parse, r))
  }

  predicate IsPlanet(r: ToiResult) {
    r.prediction == LabelName(Planet)
  }

  predicate IsFalsePositive(r: ToiResult) {
    !IsPlanet(r)
  }

  predicate IsHighConfidence(r: ToiResult) {
    r.confidence == ConfidenceName(High)
  }

  /** The share of planets in percent, 0 for a job without results. */
  function PlanetPercentage(planets: nat, total: nat): (pct: real)
    requires planets <= total
    ensures 0.0 <= pct <= 100.0
    ensures total > 0 ==> pct * total as real == 100.0 * planets as real
    ensures total == 0 ==> pct == 0.0
  {
    if total > 0 then planets as real / total as real * 100.0 else 0.0
  }

  /** Whether the `n`-th filter (counted from zero) is given in a form the
      view applies. */
  predicate Applied(f: Filters, parse: string -> Option<real>, n: nat) {
    if n == 0 then f.confidence != ""
    else if n == 1 then f.prediction != ""
    else if n == 2 then f.probMin != "" && parse(f.probMin).Some?
    else f.probMax != "" && parse(f.probMax).Some?
  }

  /** A filter that is not applied lets every result through. */
  lemma {:induction false} SkipFilter(all: seq<ToiResult>, f: Filters, parse: string -> Option<real>, n: nat)
    requires n < 4 && !Applied(f, parse, n)
    ensures Filter(all, (r: ToiResult) => PassesFirst(f, parse, n, r)) ==
            Filter(all, (r: ToiResult) => PassesFirst(f, parse, n + 1, r))
  {
    FilterExt(all, (r: ToiResult) => PassesFirst(f, parse, n, r), (r: ToiResult) => PassesFirst(f, parse, n + 1, r));
  }

  lemma {:induction false} ConfidenceStep(all: seq<ToiResult>, f: Filters, parse: string -> Option<real>)
    requires f.confidence != ""
    ensures Filter(Filter(all, (r: ToiResult) => PassesFirst(f, parse, 0, r)), (r: ToiResult) => r.confidence == f.confidence) ==
            Filter(all, (r: ToiResult) => PassesFirst(f, parse, 1, r))
  {
    FilterRefine(all, (r: ToiResult) => PassesFirst(f, parse, 0, r), (r: ToiResult) => r.confidence == f.confidence,
                 (r: ToiResult) => PassesFirst(f, parse, 1, r));
  }

  lemma {:induction false} PredictionStep(all: seq<ToiResult>, f: Filters, parse: string -> Option<real>)
    requires f.prediction != ""
    ensures Filter(Filter(all, (r: ToiResult) => PassesFirst(f, parse, 1, r)), (r: ToiResult) => r.prediction == f.prediction) ==
            Filter(all, (r: ToiResult) => PassesFirst(f, parse, 2, r))
  {
    FilterRefine(all, (r: ToiResult) => PassesFirst(f, parse, 1, r), (r: ToiResult) => r.prediction == f.prediction,
                 (r: ToiResult) => PassesFirst(f, parse, 2, r));
  }

  lemma {:induction false} MinimumStep(all: seq<ToiResult>, f: Filters, parse: string -> Option<real>, bound: real)
    requires f.probMin != "" && parse(f.probMin) == Some(bound)
    ensures Filter(Filter(all, (r: ToiResult) => PassesFirst(f, parse, 2, r)), (r: ToiResult) => r.probability >= bound) ==
            Filter(all, (r: ToiResult) => PassesFirst(f, parse, 3, r))
  {
    FilterRefine(all, (r: ToiResult) => PassesFirst(f, parse, 2, r), (r: ToiResult) => r.probability >= bound,
                 (r: ToiResult) => PassesFirst(f, parse, 3, r));
  }

  lemma {:induction false} MaximumStep(all: seq<ToiResult>, f: Filters, parse: string -> Option<real>, bound: real)
    requires f.probMax != "" && parse(f.probMax) == Some(bound)
    ensures Filter(Filter(all, (r: ToiResult) => PassesFirst(f, parse, 3, r)), (r: ToiResult) => r.probability <= bound) ==
            Filter(all, (r: ToiResult) => PassesFirst(f, parse, 4, r))
  {
    FilterRefine(all, (r: ToiResult) => PassesFirst(f, parse, 3, r), (r: ToiResult) => r.probability <= bound,
                 (r: ToiResult) => PassesFirst(f, parse, 4, r));
  }

  /** The successive filters of `results_view`, each applied only when
      given: the outcome is one filter by all of them together. */
  method ApplyFilters(all: seq<ToiResult>, f: Filters, parse: string -> Option<real>)
    returns (resultsList: seq<ToiResult>)
    ensures resultsList == Filter(all, (r: ToiResult) => Selected(f, parse, r))
  {
    resultsList := all;
    assert resultsList == Filter(all, (r: ToiResult) => PassesFirst(f, parse, 0, r)) by {
      FilterAll(all, (r: ToiResult) => PassesFirst(f, parse, 0, r));
    }
    if f.confidence != "" {
      resultsList := Filter(resultsList, (r: ToiResult) => r.confidence == f.confidence);
      assert resultsList == Filter(all, (r: ToiResult) => PassesFirst(f, parse, 1, r)) by {
        ConfidenceStep(all, f, parse);
      }
    } else {
      assert resultsList == Filter(all, (r: ToiResult) => PassesFirst(f, parse, 1, r)) by {
        SkipFilter(all, f, parse, 0);
      }
    }
    if f.prediction != "" {
      resultsList := Filter(resultsList, (r: ToiResult) => r.prediction == f.prediction);
      assert resultsList == Filter(all, (r: ToiResult) => PassesFirst(f, parse, 2, r)) by {
        PredictionStep(all, f, parse);
      }
    } else {
      assert resultsList == Filter(all, (r: ToiResult) => PassesFirst(f, parse, 2, r)) by {
        SkipFilter(all, f, parse, 1);
      }
    }
    if f.probMin != "" && parse(f.probMin).Some? {
      var bound := parse(f.probMin).value;
      resultsList := Filter(resultsList, (r: ToiResult) => r.probability >= bound);
      assert resultsList == Filter(all, (r: ToiResult) => PassesFirst(f, parse, 3, r)) by {
        MinimumStep(all, f, parse, bound);
      }
    } else {
      assert resultsList == Filter(all, (r: ToiResult) => PassesFirst(f, parse, 3, r)) by {
        SkipFilter(all, f, parse, 2);
      }
    }
    if f.probMax != "" && parse(f.probMax).Some? {
      var bound := parse(f.probMax).value;
      resultsList := Filter(resultsList, (r: ToiResult) => r.probability <= bound);
      assert resultsList == Filter(all, (r: ToiResult) => PassesFirst(f, parse, 4, r)) by {
        MaximumStep(all, f, parse, bound);
      }
    } else {
      assert resultsList == Filter(all, (r: ToiResult) => PassesFirst(f, parse, 4, r)) by {
        SkipFilter(all, f, parse, 3);
      }
    }
    FilterExt(all, (r: ToiResult) => PassesFirst(f, parse, 4, r), (r: ToiResult) => Selected(f, parse, r));
  }

  /** The data handed to the results template. */
  datatype ResultsContext = ResultsContext(
    results: seq<ToiResult>,
    totalResults: nat,
    planetCount: nat,
    fpCount: int,
    highConfCount: nat,
    planetPercentage: real,
    filters: Filters,
    filterParams: Query)

  /** `results_view` for a job: the filtered results in stored order, and
      summary counts taken over all of the job's results. */
  method ResultsView(job: ClassificationJob, query: Query, parse: string -> Option<real>)
    returns (ctx: ResultsContext)
    ensures ctx.filters == FiltersOf(query)
    ensures ctx.results == Filter(job.results, (r: ToiResult) => Selected(ctx.filters, parse, r))
    ensures ctx.totalResults == |job.results|
    ensures ctx.planetCount == Count(job.results, IsPlanet)
    ensures ctx.fpCount == Count(job.results, IsFalsePositive)
    ensures ctx.highConfCount == Count(job.results, IsHighConfidence)
    ensures ctx.planetPercentage == PlanetPercentage(ctx.planetCount, ctx.totalResults)
    ensures ctx.filterParams == WithoutPage(query)
  {
    var all := job.results;
    var f := FiltersOf(query);
    var resultsList := ApplyFilters(all, f, parse);
    var totalResults := |all|;
    var planetCount := Count(all, IsPlanet);
    CountsAddUp(all);
    var fpCount := totalResults - planetCount;
    var highConfCount := Count(all, IsHighConfidence);
    var planetPercentage := PlanetPercentage(planetCount, totalResults);
    ctx := ResultsContext(resultsList, totalResults, planetCount, fpCount, highConfCount,
                          planetPercentage, f, WithoutPage(query));
  }

  /** The filtered list is the stored list with some results removed: order
      is kept and every kept result passes the filters. */
  lemma FilteredResultsInOrder(results: seq<ToiResult>, f: Filters, parse: string -> Option<real>)
    ensures IsSubsequence(Filter(results, (r: ToiResult) => Selected(f, parse, r)), results)
  {
    FilterIsSubsequence(results, (r: ToiResult) => Selected(f, parse, r));
  }

  /** Every result is either a planet or a false positive, so the
      false-positive count is the total minus the planet count. */
  lemma {:induction false} CountsAddUp(results: seq<ToiResult>)
    ensures Count(results, IsPlanet) + Count(results, IsFalsePositive) == |results|
  {
    if results != [] {
      CountsAddUp(results[1..]);
    }
  }

  // ---------------------------------------------------------------------
  // Export

  const ExportColumns: seq<string> := ["toi_id", "tic_id", "prediction", "probability", "confidence"]

  /** A value of the exported table. */
  datatype Field = FText(s: string) | FNull | FReal(x: real)

  /** The value of the field `name` of a stored result. */
  function Attribute(r: ToiResult, name: string): Field {
    if name == "toi_id" then FText(r.toiId)
    else if name == "tic_id" then (if r.ticId.Some? then FText(r.ticId.value) else FNull)
    else if name == "prediction" then FText(r.prediction)
    else if name == "probability" then FReal(r.probability)
    else if name == "confidence" then FText(r.confidence)
    else FNull
  }

  datatype Table = Table(header: seq<string>, rows: seq<seq<Field>>)

  /** One exported row: the five fields of a result in column order. */
  function ExportRow(r: ToiResult): (row: seq<Field>)
    ensures |row| == |ExportColumns|
    ensures forall k :: 0 <= k < |ExportColumns| ==> row[k] == Attribute(r, ExportColumns[k])
  {
    [FText(r.toiId), if r.ticId.Some? then FText(r.ticId.value) else FNull,
     FText(r.prediction), FReal(r.probability), FText(r.confidence)]
  }

  /** `download_results_csv` before serialisation: the five columns in
      their fixed order, one row per result of the sequence it is given.
      The view's query names no order, so which sequence that is depends on
      the database. */
  function ExportTable(results: seq<ToiResult>): (t: Table)
    ensures t.header == ExportColumns && |t.rows| == |results|
    ensures forall i :: 0 <= i < |results| ==> t.rows[i] == ExportRow(results[i])
  {
    Table(ExportColumns, seq(|results|, i requires 0 <= i < |results| => ExportRow(results[i])))
  }

  /** The part of a result the export keeps. */
  datatype Exported = Exported(toiId: string, ticId: Option<string>, prediction: string,
                               probability: real, confidence: string)

  function Summary(r: ToiResult): Exported {
    Exported(r.toiId, r.ticId, r.prediction, r.probability, r.confidence)
  }

  /** The position of `name` in the header. */
  function IndexOf(header: seq<string>, name: string): (k: nat)
    ensures k <= |header|
    ensures k < |header| ==> header[k] == name
  {
    if header == [] then 0
    else if header[0] == name then 0
    else 1 + IndexOf(header[1..], name)
  }

  function FieldAt(header: seq<string>, row: seq<Field>, name: string): Field {
    var k := IndexOf(header, name);
    if k < |row| then row[k] else FNull
  }

  /** A reader of the exported table that looks every column up by name. */
  function ReadRow(header: seq<string>, row: seq<Field>): Option<Exported> {
    match (FieldAt(header, row, "toi_id"), FieldAt(header, row, "tic_id"), FieldAt(header, row, "prediction"),
           FieldAt(header, row, "probability"), FieldAt(header, row, "confidence"))
    case (FText(toi), FText(tic), FText(pred), FReal(p), FText(conf)) => Some(Exported(toi, Some(tic), pred, p, conf))
    case (FText(toi), FNull, FText(pred), FReal(p), FText(conf)) => Some(Exported(toi, None, pred, p, conf))
    case _ => None
  }

  function ReadTable(t: Table): Option<seq<Exported>>
    decreases |t.rows|
  {
    if t.rows == [] then Some([])
    else match (ReadRow(t.header, t.rows[0]), ReadTable(Table(t.header, t.rows[1..])))
      case (Some(e), Some(rest)) => Some([e] + rest)
      case _ => None
  }

  /** A reader that finds each column by name recovers an exported row. */
  lemma ReadExportRow(r: ToiResult)
    ensures ReadRow(ExportColumns, ExportRow(r)) == Some(Summary(r))
  {
    assert IndexOf(ExportColumns, "toi_id") == 0;
    assert IndexOf(ExportColumns, "tic_id") == 1;
    assert IndexOf(ExportColumns, "prediction") == 2;
    assert IndexOf(ExportColumns, "probability") == 3;
    assert IndexOf(ExportColumns, "confidence") == 4;
  }

  /** Reading the export back by column name gives every result's exported
      fields, in order, with a null TIC identifier read back as null. */
  lemma {:induction false} ExportRoundTrip(results: seq<ToiResult>)
    ensures ReadTable(ExportTable(results)) == Some(seq(|results|, i requires 0 <= i < |results| => Summary(results[i])))
  {
    var t := ExportTable(results);
    if results == [] {
      assert ReadTable(t) == Some([]);
      assert |seq(|results|, i requires 0 <= i < |results| => Summary(results[i]))| == 0;
    } else {
      var rest := results[1..];
      ExportRoundTrip(rest);
      assert Table(t.header, t.rows[1..]) == ExportTable(rest);
      ReadExportRow(results[0]);
      var tailRead := seq(|rest|, i requires 0 <= i < |rest| => Summary(rest[i]));
      assert seq(|results|, i requires 0 <= i < |results| => Summary(results[i])) == [Summary(results[0])] + tailRead;
    }
  }
}
