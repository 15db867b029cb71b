# TESS candidate classifier: a verified model of its core

This is a Dafny model of the web application that classifies TESS Objects of
Interest (TOIs) as planets or false positives. Three parts of the
application are modelled:

- **The batch predictor** (`classifier/ml_pipeline.py`). A `TessClassifier`
  object holds a frozen feature schema, reference medians and a trained
  model. `predict_batch` does the following:
  - it projects an input frame onto the schema;
  - it imputes every feature column. The fill value is the reference entry
    when the feature has one (0.0 if that entry is NaN), else the batch
    median, else 0.0;
  - it winsorises each column to its interquartile fences when the
    interquartile range is positive;
  - it zero-fills what is still missing;
  - it maps each decision of the classifier to a label, and each
    positive-class probability to a High/Medium/Low confidence band.
- **The upload and results handlers** (`classifier/views.py`):
  - finding a row's TOI and TIC identifiers through ordered alias lists,
    with a synthesized `TOI-<n>` fallback;
  - building one stored result per prediction and completing the job;
  - the results page's four optional filters, its summary counts and its
    planet percentage;
  - the column order of the CSV export.
- **The upload form** (`classifier/forms.py`): a case-sensitive `.csv`
  suffix check.

Modules:

- `Wrappers`: `Option` and `Result`.
- `Seqs`: distinctness, order-preserving `Filter`, and `Count`.
- `Stats`: insertion sort, pandas' default linear-interpolation quantile
  (Hyndman and Fan type 7) and the median.
- `Frames`: a data frame as ordered column labels, columns and a height,
  plus the cells of an uploaded table.
- `Preprocess`: the column pipeline and the classifier input, as
  specification functions.
- `MlPipeline`: labels, confidence bands and the `TessClassifier` class,
  whose methods are proved against `Preprocess`.
- `Decimal`: printing of row numbers.
- `Forms`: the form.
- `Views`: the handlers and the `ClassificationJob` class.

Values are `real`, and NaN is `None` in an `Option<real>`. The trained
model is a pair of arbitrary total functions: a class decision and a
positive-class probability, the latter assumed to lie in [0, 1].

Three behaviours of the code are easy to misread, and the model keeps
each of them:

- **Confidence bands.** The code compares `abs(p - 0.5)` strictly
  (`classifier/ml_pipeline.py:66-71`). So High is p > 0.9 or p < 0.1;
  Medium is 0.7 < p ≤ 0.9 or 0.1 ≤ p < 0.3; Low is 0.3 ≤ p ≤ 0.7. As a
  result, 0.9 is Medium, not High, and 0.6 is Low, not Medium.
- **Identifier aliases.** The code tests `name in row`, an exact
  comparison (`classifier/views.py:47`). A column labelled `Toi_ID` or
  `tic id` matches no alias.
- **A NaN reference median.** `feature_medians.get(col, ...)` returns the
  stored entry even when it is NaN, and the NaN is then replaced by 0.0
  (`classifier/ml_pipeline.py:37-39`). The batch median is used only for
  a feature with no stored entry.

## Model

| member | source | states |
|---|---|---|
| MlPipeline.TessClassifier.constructor | classifier/ml_pipeline.py:10-13 | the classifier keeps exactly the feature names, reference medians and model it is given; the feature names are distinct |
| MlPipeline.TessClassifier.PreprocessFeatures | classifier/ml_pipeline.py:32-49 | the loop over the feature names yields `Preprocessed` of the input; columns, column order and height are unchanged |
| MlPipeline.TessClassifier.ProcessFeatureColumn | classifier/ml_pipeline.py:36-48 | one loop iteration: the column becomes `ProcessColumn` of its original values (fill, then clip when IQR > 0) |
| MlPipeline.TessClassifier.ProjectFeatures | classifier/ml_pipeline.py:53-56 | the classifier frame has exactly the schema's columns in schema order, with the input's height; it is `Projected` of the input |
| MlPipeline.TessClassifier.PredictBatch | classifier/ml_pipeline.py:51-78 | one prediction per input row, in row order; prediction i is `Classify` of row i of the feature matrix; every probability lies in [0, 1] |
| MlPipeline.Decisions | classifier/ml_pipeline.py:61 | one class decision per feature row, in order |
| MlPipeline.PositiveProbabilities | classifier/ml_pipeline.py:62 | one positive-class probability per feature row, in order |
| MlPipeline.LabelOf | classifier/ml_pipeline.py:74 | the label is Planet if and only if the decision equals 1; any other decision is a false positive |
| MlPipeline.ConfidenceOf | classifier/ml_pipeline.py:65-71 | High iff p > 0.9 or p < 0.1; Medium iff 0.7 < p ≤ 0.9 or 0.1 ≤ p < 0.3; Low iff 0.3 ≤ p ≤ 0.7 |
| MlPipeline.ConfidenceAtBoundaries | classifier/ml_pipeline.py:66-71 | the strict comparisons put 0.9 and 0.1 in Medium, 0.7, 0.3 and 0.6 in Low, and 0.95 in High |
| MlPipeline.Classify | classifier/ml_pipeline.py:61-76 | for one row: label Planet iff the decision is 1; probability unchanged; confidence is the band of that probability |
| MlPipeline.LabelPredictions | classifier/ml_pipeline.py:64-78 | one result per (decision, probability) pair, in order; label iff decision is 1; probability passed through unchanged; band of the probability |
| Preprocess.Impute | classifier/ml_pipeline.py:40 | same length; every observed entry is unchanged; every missing entry becomes the fill value |
| Preprocess.BatchMedianWithinObserved | classifier/ml_pipeline.py:37 | a column with an observed entry has a batch median, and it lies between two observed entries |
| Preprocess.BatchMedian | classifier/ml_pipeline.py:37 | the batch median is NaN exactly when the column has no observed entry |
| Preprocess.FillValue | classifier/ml_pipeline.py:37-39 | a stored reference entry is used, or 0.0 when that entry is NaN; a feature without an entry whose column is all NaN is filled with 0.0 |
| Preprocess.FillValueChoice | classifier/ml_pipeline.py:37-39 | a feature with a reference entry is filled with it, or with 0.0 when that entry is NaN; otherwise the batch median is used, lying within the observed values; an all-missing column without an entry is filled with 0.0 |
| Preprocess.QuartilesOrdered | classifier/ml_pipeline.py:42-47 | Q1 ≤ Q3, the lower fence is at most Q1 and the upper fence is at least Q3 |
| Preprocess.Clip | classifier/ml_pipeline.py:48 | with lo ≤ hi the result lies in [lo, hi]; a value inside is kept; the result is the value or one of the bounds |
| Preprocess.Winsorize | classifier/ml_pipeline.py:44-48 | same length; unchanged unless the column is non-empty with IQR > 0; when clipped, every value lies within the fences, values inside them are kept, and values beyond a fence become that fence |
| Preprocess.WinsorizeMonotone | classifier/ml_pipeline.py:48 | clipping preserves the order of any two values of a column |
| Preprocess.WinsorizeKeepsQuartileRange | classifier/ml_pipeline.py:42-48 | a value between Q1 and Q3 is never moved |
| Preprocess.WinsorizeWithinSampleRange | classifier/ml_pipeline.py:42-48 | every clipped value lies between the least and greatest value of the column |
| Preprocess.ConstantColumnUnclipped | classifier/ml_pipeline.py:45 | a constant column has IQR 0 and passes through unchanged |
| Preprocess.SingleRowUnclipped | classifier/ml_pipeline.py:45 | a one-row batch passes through unchanged |
| Preprocess.ProcessColumn | classifier/ml_pipeline.py:36-48 | a processed feature column keeps its length and has no missing entry |
| Preprocess.Preprocessed | classifier/ml_pipeline.py:34-35 | preprocessing works on a copy with the same columns, column order, height and keys |
| Preprocess.PreprocessedColumns | classifier/ml_pipeline.py:34-48 | every column that is not a feature is left untouched; every feature column is processed once, from its original values |
| Preprocess.PreprocessedComplete | classifier/ml_pipeline.py:40 | after preprocessing, no entry of a present feature column is missing |
| Preprocess.Projected | classifier/ml_pipeline.py:53-56 | the projection has exactly the schema's columns, in schema order, and the input's height |
| Preprocess.ProjectedColumns | classifier/ml_pipeline.py:53-56 | a present feature is copied as it is, and an absent feature is a column of NaN |
| Preprocess.Rows | classifier/ml_pipeline.py:59 | the zero-filled matrix has one row per frame row and one entry per column |
| Preprocess.FeatureMatrix | classifier/ml_pipeline.py:53-59 | the classifier input has one row per input row and one entry per feature |
| Preprocess.FeatureMatrixEntries | classifier/ml_pipeline.py:53-59 | the zero-fill changes nothing, since every entry of the preprocessed features is present; entry (i, k) is feature k's filled and clipped value |
| Preprocess.PresentFeatureValue | classifier/ml_pipeline.py:53-59 | for a feature the input has, entry (i, k) is row i of its imputed and winsorised column |
| Preprocess.MissingColumnProcessed | classifier/ml_pipeline.py:37-48 | an all-missing column becomes its reference median, or 0.0 when there is no usable one, with no clipping |
| Preprocess.AbsentFeatureValue | classifier/ml_pipeline.py:53-59 | a feature absent from the input reaches the classifier as its reference median in every row, or 0.0 when it has none or it is NaN |
| Stats.Sort | classifier/ml_pipeline.py:42-43 | the values are sorted, with the same multiset |
| Stats.Quantile | classifier/ml_pipeline.py:42-43 | the 0 quantile is the first (least) value and the 1 quantile the last (greatest) |
| Stats.Median | classifier/ml_pipeline.py:37 | on sorted data the median lies between the two middle values |
| Stats.Rank | classifier/ml_pipeline.py:42-43 | the interpolation position (n − 1)·p lies in [0, n − 1] |
| Stats.QuantileMonotone | classifier/ml_pipeline.py:42-43 | on sorted data, a lower probability never gives a higher quantile |
| Stats.QuantileWithinRange | classifier/ml_pipeline.py:42-43 | a quantile lies between the least and the greatest value |
| Stats.QuantileOfConstant | classifier/ml_pipeline.py:42-43 | every quantile of constant data is that constant |
| Stats.MedianIsHalfQuantile | classifier/ml_pipeline.py:37 | the median (middle value, or mean of the two middle values) is the 0.5 quantile |
| Forms.CleanFile | classifier/forms.py:10-14 | a success returns the file unchanged; a failure carries "File must be a CSV" |
| Forms.AcceptsCsvStem | classifier/forms.py:12-14 | every name that ends in ".csv" is accepted, and the file is returned as it is |
| Forms.AcceptedHasCsvStem | classifier/forms.py:12 | an accepted name is some stem followed by ".csv" |
| Forms.RejectsUpperCaseSuffix | classifier/forms.py:12-13 | the check is case-sensitive: a name ending in ".CSV" is rejected with "File must be a CSV" |
| Forms.BareSuffixAccepted | classifier/forms.py:12 | only the suffix is examined, so the name ".csv" is accepted |
| Views.FirstAvailable | classifier/views.py:46-48 | the position of the first alias, in list order, that the row holds with a non-missing value; no earlier alias qualifies |
| Views.GetIdFromRow | classifier/views.py:45-52 | the value of the first available alias; with none, `<prefix>-<i+1>` when the prefix is truthy and None otherwise |
| Decimal.NatToString | classifier/views.py:51 | a row number prints as a non-empty string of decimal digits |
| Decimal.ParseNatToString | classifier/views.py:51 | reading the printed row number back gives the number |
| Decimal.NatToStringInjective | classifier/views.py:51 | different row numbers print differently |
| Views.SynthesizedIdsDistinct | classifier/views.py:50-51 | synthesized identifiers of different rows differ |
| Views.FirstRowId | classifier/views.py:51-56 | the first row without a TOI alias gets "TOI-1" |
| Views.ResultRecord | classifier/views.py:54-70 | the stored label is "Planet" or "False Positive", "Planet" iff the prediction is Planet; the confidence is one of "High", "Medium", "Low"; the probability and the row data are carried over |
| Views.ResultRecordFields | classifier/views.py:54-69 | the stored result's TOI id is the first available TOI alias or `TOI-<i+1>`; its TIC id is null iff no TIC alias is available, and otherwise the text of the first available TIC alias; its label is "Planet" or "False Positive" as the prediction says; its confidence is the band's name; the probability and the row data are carried over |
| Views.ClassificationJob.constructor | classifier/views.py:33-39 | a new job has the given id, status, total, path and name, no processed objects and no results |
| Views.BuildResults | classifier/views.py:42-70 | one record per prediction, in order; record i is built from row i and prediction i |
| Views.FeatureView | classifier/views.py:41 | the feature columns of the table as numbers, present iff no feature column holds text; the columns are exactly the features the table has, with its height |
| Views.UploadView | classifier/views.py:20-78 | a non-CSV name shows the form error and creates no job. Otherwise a job is created with total = row count. A text feature column leaves it PROCESSING with no results and an error answer. Else it becomes COMPLETED, with processed = row count and result i built from row i and the classifier's verdict on feature row i |
| Views.Lookup | classifier/views.py:98-101 | absent iff no entry has the key; otherwise the values of the first entry with that key |
| Views.Get | classifier/views.py:98-101 | a missing key, or a key with no value, gives the default; otherwise the last value given for the key |
| Views.FiltersOf | classifier/views.py:98-101 | each of the four filters comes from its own parameter: the last value given for it when it has any, and "" (filter off) otherwise |
| Views.Selected | classifier/views.py:103-114 | with no filter given every result passes; a given confidence or prediction filter admits only results with that value; a bound that parses admits only results on its side of it |
| Views.WithoutPage | classifier/views.py:122-123 | no entry of the result is `page` |
| Views.WithoutPageLookup | classifier/views.py:122-123 | `page` is gone and every other parameter reads as before |
| Views.ApplyFilters | classifier/views.py:103-114 | the successive filters, each applied only when given and an unparseable bound ignored, equal one filter by their conjunction |
| Views.ResultsView | classifier/views.py:93-136 | the filtered list is the job's results passing the query's filters, in stored order; total, planet, false-positive and high-confidence counts are over all results; percentage as below; `page` dropped from the parameters |
| Views.FilteredResultsInOrder | classifier/views.py:96-114 | the filtered results are a subsequence of the stored ones |
| Views.CountsAddUp | classifier/views.py:116-130 | planets plus false positives make the total, so `fp_count` counts the non-planets |
| Views.PlanetPercentage | classifier/views.py:132 | within [0, 100]; pct · total = 100 · planets when total > 0, and 0 when total is 0 |
| Views.ExportRow | classifier/views.py:155-156 | field k of a row is the result's attribute named by export column k |
| Views.ExportTable | classifier/views.py:155-156 | the header is toi_id, tic_id, prediction, probability, confidence, in that order; row i is the row of result i of the sequence given |
| Views.ReadExportRow | classifier/views.py:155-156 | reading an exported row back by column name recovers the result's five exported fields |
| Views.ExportRoundTrip | classifier/views.py:155-156 | reading the whole export back by column name gives every result's exported fields, in order, with a null TIC id as null |

## Left out

- Model loading (`joblib`, the metadata file, the startup error) is not modelled. The schema, the reference medians and the model are constructor arguments.
- The trained classifier's internals are not modelled. It is two arbitrary functions, with the probability assumed to lie in [0, 1].
- Floating point is not modelled: rounding, NaN propagation and `float(prob)` casts. Values are exact reals, and NaN is `None`.
- pandas' median and quantile code is not modelled. They are defined directly on a sorted sequence with type 7 interpolation.
- The feature names are assumed distinct (a constructor precondition). A trained model's feature list has no repeats, and with a repeated name `df_processed[col]` (`classifier/ml_pipeline.py:37`, `:42`) is a frame rather than a column, so the source raises on it.
- MlPipeline.TessClassifier.PredictBatch requires at least one schema feature among the input's columns. With none, the projection has no rows, and the outcome depends on the libraries.
- MlPipeline.TessClassifier.PredictBatch: on an empty frame the model returns no predictions. The classifier library would raise on zero rows instead, which sends `upload_view` to its error answer.
- Views.UploadView has the same precondition as `PredictBatch`: at least one schema feature among the table's columns.
- Views.UploadView models the error path only for a text cell in a feature column. Other exceptions raised inside the `try` are not modelled.
- Views.UploadView: the error answer does not carry the exception's message.
- Views.UploadView on a table with no rows ends COMPLETED with no results. The source gets the error answer there, because the classifier library raises on zero samples.
- Views.ExportTable lists results in the order of the sequence it is given, which the model takes as the stored order. The source's query (`classifier/views.py:155`) names no order, so its row order is whatever the database returns.
- CSV parsing (`read_csv` with comments and skipped lines), `to_csv` and `json.dumps` of the row are not modelled. The upload is given as a parsed table, and `featureData` holds the row itself.
- Django is not modelled: rendering, the GET form, pagination, redirects, messages, CSRF, `default_storage` and ORM saves. The stored file path is a parameter.
- The job list page and job deletion are not modelled.
- Random job ids (`uuid`) are not modelled. The id is a parameter.
- Python's `str` of a float and `float` of a query string are not modelled. They are the parameters `show` and `parse`.
- `urlencode` of the remaining query parameters is not modelled. The parameters are kept as a list of keys with their values.
- Integer cells are not distinguished from float cells. `str` of an identifier cell goes through `show` either way.
- The single-object API endpoint (`api_classify_single`) is not modelled. It calls `predict_batch` on a one-row frame, which the model covers.
