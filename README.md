# musyc-web core, modelled in Dafny

musyc-web is a Django site where users upload dose-response datasets for drug combinations.
The site fits each drug pair with the MuSyC synergy model and plots the fitted parameters.
This project models the core of that pipeline and proves properties of the model:

- **The upload form** (`CreateDatasetForm`): the header check of the uploaded file, the
  orientation, and the fixed or bounded effect constraints, which the form writes back
  into the cleaned data.
- **`process_dataset`**: the checks on the uploaded table, the default confidence
  intervals, the drug-order canonicalisation, the split into controls, single-agent rows
  and combination rows, the job plan (one job per sample, batch and drug pair, skipping
  pairs that already succeeded), the priority and the global effect constraint. It also
  models submitting the jobs to the broker and recording `DatasetTask` rows.
- **`fit_drug_combination`**: its argument checks, the filling of missing effect
  standard deviations, the drug swaps, the call into MuSyC and the clean-up of the result
  dictionary.
- **`DatasetTask`**: `status`, `error_message`, `result_dict` and the CSV export, with its
  header renames and quoting.
- **The three result plots**: the single-drug bar plot, the combination bar plot and the
  combination scatter plot. The model covers the confidence-interval parsing, links,
  colours per dataset, bar names with batch suffixes, traces, buttons, hover text and axis
  menus.

Modules:

- `Wrappers`: Option and Result.
- `ExtReals`: reals with the two infinities that Python floats carry.
- `Text`: Python string operations (split, join, strip, lower, ordering, `int()`,
  `float()`) and pandas' first-appearance order.
- `Json`: JSON values, dictionaries as ordered member lists, and `str()` of a value.
- `Models`: `DatasetTask` and its CSV export.
- `Forms`: the upload form.
- `TaskData`, `TaskJobs` and `TaskFit`: the three parts of `tasks.py`.
- `PlotText` and `ErrorBars`: what the three plot modules share.
- `SingleDrugBar`, `DrugComboBar` and `DrugComboScatter`: one module per plot.

External calls are parameters:

- MuSyC's fitting routine is a function from the call's arguments to an outcome.
- `float()` on a cell is a `FloatReader` parameter wherever a proof must not depend on
  its details. The concrete reader is `Text.ParseFloat`.
- The Celery broker is a `JobQueue` with a fixed capacity. A submission beyond the
  capacity fails as the broker would. A task id is the job's position in the queue.
- The ORM is a `TaskTable` that `bulk_create` appends to.

## Model

| member | source | states |
|---|---|---|
| ExtReals.LeqTotalOrder | musycweb/forms.py:170-174 | the order used to compare bounds (with minus and plus infinity at the ends) is reflexive, antisymmetric, transitive and total |
| ExtReals.LessIsNotLeq | musycweb/forms.py:127-138 | the strict comparison of the fixed values holds exactly when the reverse non-strict one fails |
| Text.Distinct | musycweb/singleDrugBar.py:104 | `unique()` keeps each value once, loses none and invents none |
| Text.DistinctSnoc | musycweb/tasks.py:344 | appending a value already seen leaves the distinct list alone; a new value goes last |
| Text.FirstIndex | musycweb/tasks.py:344 | the first position holding a value holds it, and no earlier position does |
| Text.DistinctInFirstAppearanceOrder | musycweb/tasks.py:344 | groups come in the order of their first row, as `groupby(sort=False)` and `unique()` give them |
| Text.Filter | musycweb/tasks.py:323-330 | a boolean-mask selection never adds rows |
| Text.FilterMembers | musycweb/tasks.py:323-330 | a mask selection keeps exactly the rows satisfying the mask |
| Text.FilterSnoc | musycweb/tasks.py:323-330 | a mask selection preserves row order |
| Text.FilterAll | musycweb/tasks.py:267 | a mask every row satisfies selects the whole frame |
| Text.Lower | musycweb/forms.py:82 | `lower()` maps each character by itself and keeps the length |
| Text.StripLeft | musycweb/tasks.py:261 | left strip removes a prefix and leaves no leading whitespace, whitespace being every character Python's `str.isspace` accepts, the Unicode spaces included |
| Text.StripRight | musycweb/tasks.py:261 | right strip removes a suffix and leaves no trailing whitespace, in the same `str.isspace` sense |
| Text.StripLeadingSpace | musycweb/tasks.py:261 | `strip()` ignores a leading space |
| Text.StripNoSpace | musycweb/tasks.py:261 | `strip()` leaves a text without spaces alone |
| Text.Split | musycweb/forms.py:85 | `split(c)` gives at least one piece, and no piece holds the separator |
| Text.JoinSplit | musycweb/singleDrugBar.py:18 | joining the pieces of a split with the separator gives back the text |
| Text.SplitPrefix | musycweb/singleDrugBar.py:18 | a separator-free prefix stays in the first piece of a split |
| Text.SplitJoin | musycweb/singleDrugBar.py:18 | splitting a join of separator-free pieces gives back the pieces |
| Text.StrLessIrreflexive | musycweb/tasks.py:316 | Python's string order: no text is before itself |
| Text.StrLessAsymmetric | musycweb/tasks.py:316 | Python's string order: two texts are never each before the other |
| Text.StrLessTotal | musycweb/tasks.py:316 | Python's string order: of two different texts, one comes first |
| Text.StrLessTransitive | musycweb/tasks.py:316 | Python's string order is transitive |
| Text.NatToString | musycweb/forms.py:99 | a decimal numeral is a non-empty string of digits |
| Text.NatToStringValue | musycweb/forms.py:99 | a decimal numeral reads back as its number |
| Text.IntToStringParses | musycweb/forms.py:99 | `int(str(i)) == i` for every integer |
| Text.IntTextHasNoSpace | musycweb/forms.py:99 | the text of an integer holds no white space |
| Text.ExponentMark | musycweb/singleDrugBar.py:19-20 | the exponent marker found by `float()` is the first `e` or `E` |
| Text.DotMark | musycweb/singleDrugBar.py:19-20 | the decimal point found by `float()` is the first `.` |
| Text.FloatOfIntText | musycweb/singleDrugBar.py:19-20 | `float(str(i))` is the integer `i` as a real |
| Text.UnsignedFloatOfDigits | musycweb/singleDrugBar.py:19-20 | `float()` of a digit string is its decimal value |
| Text.MantissaOfDigits | musycweb/singleDrugBar.py:19-20 | a digit string has no exponent and no point, and its mantissa is its decimal value |
| Text.ExponentMarkDigits | musycweb/singleDrugBar.py:19-20 | a digit string has no exponent marker |
| Text.DotMarkDigits | musycweb/singleDrugBar.py:19-20 | a digit string has no decimal point |
| Text.FloatIgnoresLeadingSpace | musycweb/singleDrugBar.py:20 | `float(" " + s) == float(s)`, so the space after the comma of an interval does no harm |
| Json.Get | musycweb/models.py:111-113 | a lookup succeeds exactly when the key is present, and returns a value stored under it |
| Json.Put | musycweb/models.py:111-113 | `d[k] = v` keeps the key order, changes only member `k`, and grows the dictionary only when `k` is new |
| Json.GetPut | musycweb/models.py:111-113 | after `d[k] = v`, `k` reads `v` and every other key reads as before |
| Json.PutKeepsKeysDistinct | musycweb/models.py:111-113 | assignment keeps the keys distinct |
| Json.PutNewKeyLast | musycweb/models.py:111-113 | a new key goes at the end, as in a Python dict |
| Json.Remove | musycweb/tasks.py:143-144 | `del d[k]` never grows the dictionary |
| Json.GetRemove | musycweb/tasks.py:143-144 | after `del d[k]`, `k` is absent and every other key reads as before |
| Json.StrOfPair | musycweb/models.py:124 | `str()` of a pair of floats is `[lo, hi]`, the interval text the plots parse |
| Json.StrRepr | musycweb/models.py:124 | `repr` of a string opens and closes with the same quote: a double quote exactly when the string holds a single quote and no double quote |
| Json.StrReprPlain | musycweb/models.py:124 | a string without quotes, backslashes or control characters is shown as itself in single quotes |
| Json.EscapeAllNoBareQuote | musycweb/models.py:124 | inside the quotes, every occurrence of the quote character is escaped by a backslash |
| Models.Status | musycweb/models.py:83-88 | a task without a Celery result is QUEUED; otherwise the status is the result's own |
| Models.ErrorMessage | musycweb/models.py:90-99 | only a FAILURE has a message; a FAILURE whose result is not an object raises AttributeError |
| Models.ErrorMessageOfFailure | musycweb/models.py:90-99 | for any argument list, a DataError shows its first argument; an empty list raises IndexError, and a message text shows its first character (IndexError when empty); any other failure, or one without `exc_message`, shows "Unknown error" |
| Models.BaseDictContents | musycweb/models.py:101-114 | an unsuccessful task's dictionary holds exactly the drug names and the sample |
| Models.ResultDictContents | musycweb/models.py:101-114 | lists the error case (a successful task whose result is not an object), and gives the value of every key: task id, dataset and status first, then the fit's own keys or the drug names and sample |
| Models.RenameOnlyAlphaNames | musycweb/models.py:72-77 | the header renames change exactly the four `log_alpha1`/`log_alpha2` names |
| Models.HeaderNames | musycweb/models.py:118 | header cell `i` is field `i` renamed |
| Models.ReplaceQuoteByItselfIsIdentity | musycweb/models.py:124 | replacing `"` by `'\"'` (the same one character in Python) changes nothing |
| Models.ReplaceAbsentChar | musycweb/models.py:124 | a replacement of a character the text lacks changes nothing |
| Models.QuoteAll | musycweb/models.py:124 | every cell is quoted by itself, as written or as corrected |
| Models.FieldValues | musycweb/models.py:124 | the CSV line has one value per exported field |
| Models.ResultCsv | musycweb/models.py:127-129 | corrected (quotes doubled, see Findings): the CSV document is the header, a newline and the line, and fails exactly when the line does |
| Models.DecodeBody | musycweb/models.py:124 | decoding a quoted cell consumes input; it helps prove the round trips below |
| Models.DecodeEscaped | musycweb/models.py:124 | a cell with its quotes doubled, then closed, decodes to the cell |
| Models.DecodeLastField | musycweb/models.py:124 | one quoted cell decodes to itself |
| Models.DecodeFieldThen | musycweb/models.py:124 | a quoted cell followed by a comma decodes cell by cell |
| Models.CsvLineReadsBack | musycweb/models.py:121-125 | a line of quoted cells, with quotes doubled, decodes back to the cells |
| Models.ResultCsvLineReadsBack | musycweb/models.py:121-125 | the corrected CSV line decodes to the values of the task's result dictionary, in field order |
| Models.ResultCsvHeaderReadsBack | musycweb/models.py:116-119 | the header has 55 cells that decode to the renamed field names |
| Models.HeaderHasNoNewline | musycweb/models.py:116-119 | the header holds no newline, so it is the document's first line |
| Models.ResultCsvReadsBack | musycweb/models.py:127-129 | corrected line: the downloaded document's first line decodes to the exported column names and the rest to the task's values, field by field |
| Models.AsWrittenAgreesWithoutQuotes | musycweb/models.py:124 | on values without `"`, the line as written equals the corrected one |
| Models.MisreadField | musycweb/models.py:124 | the cell `a"b` as written cannot be decoded |
| Models.LineMisreads | musycweb/models.py:121-125 | a line as written whose first value holds `"` cannot be decoded |
| Models.AsWrittenLineMisreads | musycweb/models.py:121-125 | a queued task whose sample is `a"b` exports a line as written that no CSV reader can split |
| Forms.FirstLine | musycweb/forms.py:77 | the first line is a prefix without line breaks, ended by a break or the end of the chunk |
| Forms.CleanFile | musycweb/forms.py:62-95 | an accepted upload is returned unchanged |
| Forms.CleanFileErrors | musycweb/forms.py:62-95 | a missing chunk is the empty-file error, a first line without a comma the comma error; a missing-fields error comes only after the comma and lower-case checks pass, and names the required fields minus the headers |
| Forms.QuoteAll | musycweb/forms.py:85-88 | quoting a header list quotes each name |
| Forms.HeadersOfPlainLine | musycweb/forms.py:85-88 | the header set of a comma-joined line is its names |
| Forms.HeadersOfQuotedLine | musycweb/forms.py:85-88 | quoted names are unquoted, so a quoted header line gives the same names |
| Forms.FirstLineOfText | musycweb/forms.py:77 | the first line of `line + break + rest` is `line` |
| Forms.JoinHasComma | musycweb/forms.py:79-80 | a line of two or more names passes the comma check |
| Forms.LowerOfLowerCase | musycweb/forms.py:82 | a text without capitals passes the lower-case check |
| Forms.CleanFileAcceptsLine | musycweb/forms.py:62-95 | a lower-case first line with a comma is accepted exactly when its headers include every required field; otherwise the error names the missing ones |
| Forms.EmptyDifference | musycweb/forms.py:89-94 | nothing is missing exactly when the required set is contained in the headers |
| Forms.CleanFileAcceptsHeaderLine | musycweb/forms.py:62-95 | plain and quoted header lines are accepted exactly when the names include every required field |
| Forms.CleanOrientation | musycweb/forms.py:97-105 | an accepted orientation is 0 or 1 |
| Forms.OrientationAccepts | musycweb/forms.py:97-105 | the text of an integer is accepted exactly when it is 0 or 1, as that integer; anything else gets the orientation message |
| Forms.FillBounds | musycweb/forms.py:165-168 | when no bound is missing, both bound keys are present afterwards |
| Forms.UpperBoundWrites | musycweb/forms.py:160-200 | an upper-bound step writes only its own two bound keys |
| Forms.CleanKeepsOtherKeys | musycweb/forms.py:202-212 | `clean()` leaves every key it does not clean exactly as it was |
| Forms.HeadKeeps | musycweb/forms.py:205-207 | the orientation and fixed-value steps leave the other keys alone |
| Forms.LowersKeep | musycweb/forms.py:208-209 | the lower-bound steps leave the other keys alone |
| Forms.UppersKeep | musycweb/forms.py:210-211 | the upper-bound steps leave the other keys alone |
| Forms.CleanRejectsOrientation | musycweb/forms.py:202-212 | a bad orientation stops `clean()` with the data unchanged |
| Forms.CleanNone | musycweb/forms.py:202-212 | with no constraint, every fixed value and bound is cleared to None |
| Forms.FixedSteps | musycweb/forms.py:107-140 | the two fixed-value steps: a lone value is an error, and the order of E0 and Emax must follow the orientation |
| Forms.CleanFixedLone | musycweb/forms.py:107-140 | under a fixed constraint, giving only one of E0 and Emax fails with the both-fixed message |
| Forms.CleanFixedOutOfOrder | musycweb/forms.py:118-140 | fixed values in the wrong order for the orientation fail with the matching message |
| Forms.CleanFixedAccepted | musycweb/forms.py:142-200 | accepted fixed values become both bounds of their parameter |
| Forms.FixedBounds | musycweb/forms.py:142-200 | under a fixed constraint, the bound steps copy the fixed values |
| Forms.CleanFixed | musycweb/forms.py:202-212 | the whole fixed-constraint outcome: a lone value, values out of order, or bounds equal to the fixed values |
| Forms.UpperBoundBounded | musycweb/forms.py:160-200 | under a bounded constraint, missing bounds become minus and plus infinity and are written back; the step fails exactly when lower > upper |
| Forms.BoundedFirstSteps | musycweb/forms.py:205-209 | under a bounded constraint the fixed values are cleared and the lower-bound steps change nothing |
| Forms.UppersBounded | musycweb/forms.py:210-211 | the E0 pair is checked before the Emax pair, and the first inverted pair stops cleaning |
| Forms.CleanBounded | musycweb/forms.py:202-212 | the whole bounded-constraint outcome, one case per inverted pair |
| Forms.CleanedBoundsOrdered | musycweb/forms.py:202-212 | after a successful `clean()`, each parameter's bounds are both None or lower <= upper |
| Forms.CreateDatasetForm.constructor | musycweb/forms.py:54-60 | a form starts with the submitted data as its cleaned data |
| Forms.CreateDatasetForm.FillBoundsInPlace | musycweb/forms.py:165-168 | fills the missing bounds of `cleaned_data` in place, as the bound-filling function does |
| Forms.CreateDatasetForm.CleanUpperBound | musycweb/forms.py:160-200 | the upper-bound method changes `cleaned_data` and returns the value as the upper-bound function specifies |
| Forms.CreateDatasetForm.Store | musycweb/forms.py:205-211 | stores a cleaned value, or records its error |
| Forms.CreateDatasetForm.Clean | musycweb/forms.py:202-212 | leaves `cleaned_data` as the `clean()` function specifies, and returns it on success |
| TaskData.Measured | musycweb/tasks.py:267 | only rows with an effect value are kept |
| TaskData.MinEffect | musycweb/tasks.py:269-273 | the smallest effect is a lower bound of the effects and is attained |
| TaskData.DefaultCi | musycweb/tasks.py:269-273 | the default interval is positive |
| TaskData.DefaultCiValue | musycweb/tasks.py:269-273 | the default interval is 1% of the absolute smallest effect, or 1e-16 when that is 0 |
| TaskData.DefaultCis | musycweb/tasks.py:269-273 | without an interval column, every row gets the default interval |
| TaskData.OwnCis | musycweb/tasks.py:274-281 | with an interval column, every row keeps its own interval |
| TaskData.Points | musycweb/tasks.py:255-282 | one point per measured row |
| TaskData.ValidateErrors | musycweb/tasks.py:255-282 | negative concentrations and blank batches give their messages, in that order; validation fails exactly on those, on no measured rows, or on a bad interval |
| TaskData.ValidatePoints | musycweb/tasks.py:255-282 | on success, point `i` carries row `i`'s values, a positive interval, `sd = ci / 3.92`, and a non-blank batch when batches are used |
| TaskData.PointsKeepRows | musycweb/tasks.py:255-282 | the points carry their rows' values and the chosen intervals |
| TaskData.ValidateAccepts | musycweb/tasks.py:255-282 | a successful validation passed every check and built its points from the right intervals |
| TaskData.MeasuredKeepsChecks | musycweb/tasks.py:255-267 | the row checks still hold on the measured rows |
| TaskData.PointOfRow | musycweb/tasks.py:282 | a point's standard deviation is its interval divided by 3.92 |
| TaskData.PickPriority | musycweb/tasks.py:284-288 | a requested priority is kept; otherwise large datasets get priority 2 or 3, and small ones none |
| TaskData.PriorityBySize | musycweb/tasks.py:284-288 | at least `size_l2` rows gives 2, at least `size_l3` gives 3, fewer gives no priority |
| TaskData.GlobalConstraint | musycweb/tasks.py:294-312 | fixed values and bounds are never both passed |
| TaskData.GlobalConstraintCases | musycweb/tasks.py:294-312 | no bounds gives no constraint; equal bound pairs give fixed values `[E0, Emax, Emax, Emax]`; otherwise bounds with missing ends set to the infinities |
| TaskData.CellOf | musycweb/tasks.py:317-320 | a cell is text exactly in the text columns |
| TaskData.SetCell | musycweb/tasks.py:317-320 | writing a cell changes that cell and no other |
| TaskData.SwapColumnNameInvolution | musycweb/tasks.py:149-157 | the drug-column rename is its own inverse, and moves exactly the six drug columns |
| TaskData.SwapPointIsRename | musycweb/tasks.py:149-157 | swapping a row's drugs is the column rename, and undoes itself |
| TaskData.AlignedAssignChangesNothing | musycweb/tasks.py:317-320 | a `.loc` assignment aligned on column labels writes back what the row already holds |
| TaskData.CanonicalAsWrittenIsIdentity | musycweb/tasks.py:316-320 | as written, the drug-order step changes no row |
| TaskData.CanonicalAsWrittenKeepsOrder | musycweb/tasks.py:316-320 | as written, drug1 "B" with drug2 "A" stays out of order |
| TaskData.PositionalAssignSwaps | musycweb/tasks.py:316-320 | a positional assignment swaps the drugs, the intended step |
| TaskData.CanonicalPointProperties | musycweb/tasks.py:316-320 | the corrected step leaves drug1 <= drug2, swaps exactly the rows out of order, and is idempotent |
| TaskData.Canonicalise | musycweb/tasks.py:316-320 | corrected (see Findings; as written the step changes no row): the frame step puts each row in drug order |
| TaskData.CanonicaliseIdempotent | musycweb/tasks.py:316-320 | corrected: a second pass changes nothing, and no row is left out of order |
| TaskData.CanonicaliseFrame | musycweb/tasks.py:316-320 | corrected: the in-place pass over the frame gives the canonical rows |
| TaskData.PartitionExactlyOne | musycweb/tasks.py:323-330 | every row is a control, drug 1 alone, drug 2 alone, or a combination, and only one of these |
| TaskData.PartitionCovers | musycweb/tasks.py:323-330 | the four selections together hold every row once |
| TaskJobs.TasksToSkip | musycweb/tasks.py:203-217 | only when clearing unsuccessful tasks are pairs skipped, exactly those with a successful task |
| TaskJobs.OuterKeys | musycweb/tasks.py:341-344 | one outer group key per combination row |
| TaskJobs.OuterKeysIndex | musycweb/tasks.py:341-346 | a row's group key is its sample, with its batch when batches are used |
| TaskJobs.DrugPairs | musycweb/tasks.py:363-365 | one drug pair per row of a group |
| TaskJobs.DrugPairsIndex | musycweb/tasks.py:363-365 | a row's pair is its two drug names |
| TaskJobs.Swapped | musycweb/tasks.py:375-376 | `_swap_drug1_drug2` swaps every row of a selection |
| TaskJobs.Lfrom | musycweb/tasks.py:335-336 | `lfrom` gives one value per row of the concatenated frames |
| TaskJobs.LfromIndex | musycweb/tasks.py:335-336 | value `i` of `lfrom` is row `i`'s column |
| TaskJobs.Texts | musycweb/tasks.py:338-339 | one text per row |
| TaskJobs.SfromValues | musycweb/tasks.py:338-339 | `sfrom` holds each value of the column once, and only those |
| TaskJobs.JobFor | musycweb/tasks.py:379-401 | a job carries its key's drugs, sample and batch, and the rows the source assembles in `df_list` |
| TaskJobs.JobsOf | musycweb/tasks.py:379-401 | one job per key |
| TaskJobs.JobsOfIndex | musycweb/tasks.py:379-401 | job `i` is the job of key `i` |
| TaskJobs.RecordsOf | musycweb/tasks.py:404-411 | one `DatasetTask` per key |
| TaskJobs.RecordsOfIndex | musycweb/tasks.py:404-411 | record `i` names its key and the task id of the submission |
| TaskJobs.PlannedInMembers | musycweb/tasks.py:363-367 | a group plans exactly its pairs that are not skipped |
| TaskJobs.PlannedInNoDups | musycweb/tasks.py:363-367 | a group plans each pair once, under its own sample and batch |
| TaskJobs.PlannedUpToMembers | musycweb/tasks.py:344-367 | the plan is the union of the groups' plans |
| TaskJobs.PlannedUpToNoDups | musycweb/tasks.py:344-367 | distinct groups plan distinct keys |
| TaskJobs.InnerFromRow | musycweb/tasks.py:363-364 | every pair of a group comes from a combination row of that group |
| TaskJobs.PlannedSound | musycweb/tasks.py:344-367 | every planned key is not skipped and comes from a combination row |
| TaskJobs.InnerKeyFromDualRow | musycweb/tasks.py:363-364 | a group's pair forms the key of a combination row |
| TaskJobs.PlannedComplete | musycweb/tasks.py:344-367 | every key of a combination row that is not skipped is planned |
| TaskJobs.PlannedExactlyOnce | musycweb/tasks.py:344-367 | every non-skipped key of a combination row is planned exactly once, and nothing else is |
| TaskJobs.AllFitConcat | musycweb/tasks.py:369-377 | concatenated selections that fit a key still fit it |
| TaskJobs.FilterFits | musycweb/tasks.py:369-374 | a selection by the key's outer group and drugs fits the key |
| TaskJobs.SwappedFits | musycweb/tasks.py:375-376 | swapping single-agent rows whose drugs sit in the wrong column makes them fit the key |
| TaskJobs.JobRowsMatchDrugs | musycweb/tasks.py:341-377 | every row sent to a job has the job's outer key (its sample, and its batch when the upload has batches), with drug 1 and drug 2 of the key or with those concentrations at zero |
| TaskJobs.PlannedInPrefix | musycweb/tasks.py:363-367 | submitting a group's first pairs plans a prefix of the group |
| TaskJobs.PlannedUpToPrefix | musycweb/tasks.py:344-367 | the first groups plan a prefix of the plan |
| TaskJobs.AppendAssoc | musycweb/tasks.py:344-411 | concatenation is associative; it helps the prefix proofs |
| TaskJobs.PrefixAppend | musycweb/tasks.py:344-411 | extending a prefix keeps it a prefix; it helps the submission proofs |
| TaskJobs.PlannedUpToSnoc | musycweb/tasks.py:344-367 | one more group adds its own plan at the end |
| TaskJobs.SubmittedAtIsPrefix | musycweb/tasks.py:363-411 | the keys submitted so far are a prefix of the plan |
| TaskJobs.SubmittedAtStep | musycweb/tasks.py:366-367 | a step submits its pair unless it is skipped |
| TaskJobs.SubmitRefused | musycweb/tasks.py:379-401 | when a submission is refused, fewer keys than planned were submitted |
| TaskJobs.SubmittedAtOuterStep | musycweb/tasks.py:363-411 | a finished group has submitted its whole plan |
| TaskJobs.JobQueue.constructor | musycweb/tasks.py:379 | the broker starts empty with its capacity |
| TaskJobs.JobQueue.Submit | musycweb/tasks.py:379-401 | `apply_async` appends the job and returns its id while there is room; otherwise it fails and the queue is unchanged |
| TaskJobs.TaskTable.constructor | musycweb/tasks.py:413 | the task table starts empty |
| TaskJobs.TaskTable.BulkCreate | musycweb/tasks.py:413 | `bulk_create` appends the records |
| TaskJobs.Accepted | musycweb/tasks.py:379-401 | no more jobs are accepted than were wanted |
| TaskJobs.JobsOfSnoc | musycweb/tasks.py:379-411 | one more key adds its job and its record at the end |
| TaskJobs.SubmitOne | musycweb/tasks.py:379-411 | one pair is submitted and recorded exactly when the broker has room |
| TaskJobs.SubmitPair | musycweb/tasks.py:365-411 | the inner loop body keeps queue and records in step with the submitted keys |
| TaskJobs.SubmitGroup | musycweb/tasks.py:363-411 | a group either submits its whole plan or stops short at a full broker |
| TaskJobs.SubmitAll | musycweb/tasks.py:344-411 | the queue receives the first `n` planned jobs, the records match them, and failure means some planned job was not accepted |
| TaskJobs.ProcessDataset | musycweb/tasks.py:168-413 | on the corrected canonicalisation (see Findings): a bad upload leaves the modelled queue and task table unchanged; otherwise the broker gets the planned jobs in order until it is full, `bulk_create` records exactly those (the `finally`), and the result is Ok exactly when every planned job went out |
| TaskFit.ArgsOf | musycweb/tasks.py:379-399 | a job's keyword arguments carry its drugs, batch and value lists, and the task's defaults |
| TaskFit.MinPositive | musycweb/tasks.py:86 | the smallest positive standard deviation is positive, attained and minimal |
| TaskFit.ReplaceNonPositive | musycweb/tasks.py:86 | the repair keeps the length |
| TaskFit.CheckAccepts | musycweb/tasks.py:49-90 | the checks pass exactly on admissible arguments; then the drugs and lists pass unchanged, each unit list has one unit, and every non-positive standard deviation is replaced by the smallest positive one |
| TaskFit.CheckMessages | musycweb/tasks.py:49-90 | the messages for several units, negative concentrations, equal drugs and too few points, in the source's order |
| TaskFit.RelabelInvolution | musycweb/tasks.py:94-111 | exchanging the drugs twice gives back the arguments |
| TaskFit.SwapsKeepDrugsTogether | musycweb/tasks.py:94-111 | corrected, the two swaps either leave the arguments alone or exchange the drugs with all their data, units included; they exchange them exactly when one swap fires (no-effect drug 1, or a two-level drug 1 after that), and cancel when both fire |
| TaskFit.UnitsStayAsWritten | musycweb/tasks.py:97-111 | as written, swapping drug A (uM) with drug B (nM) labels B with uM |
| TaskFit.ExptAndBatch | musycweb/tasks.py:113 | the experiment name gets ` [batch]` exactly when a non-empty batch is given |
| TaskFit.DeleteKeysProperties | musycweb/tasks.py:143-144 | deleting the four keys succeeds exactly when all are present, and removes only them |
| TaskFit.FitSpecProperties | musycweb/tasks.py:28-146 | on the corrected swaps, units exchanged with the drugs (see Findings): inadmissible arguments fail; MuSyC is called with 50000 samples, 5000 burn-in and the PSO settings; a bound-order ValueError from MuSyC becomes a DataError; a result is the fit without the four keys, on drugs kept together |
| TaskFit.MinOfPositive | musycweb/tasks.py:86 | the loop finds the smallest positive value, or reports that there is none |
| TaskFit.FillNonPositive | musycweb/tasks.py:86 | the in-place repair replaces each non-positive value |
| TaskFit.FitDrugCombination | musycweb/tasks.py:28-146 | the task computes the fit specification, on the corrected swaps (see Findings) |
| TaskFit.SwapInPlace | musycweb/tasks.py:94-111 | the swaps step by step give the corrected swaps |
| TaskFit.RemoveKeys | musycweb/tasks.py:143-144 | the deletion loop removes the four keys or fails with KeyError |
| TaskFit.CheckArgs | musycweb/tasks.py:49-90 | the check sequence returns the prepared arguments or the first error |
| TaskFit.CheckDrugs | musycweb/tasks.py:49-81 | the unit, concentration and name checks, made one after the other, give the first failing check's error, or none |
| PlotText.ColumnsAreExportedHeader | musycweb/singleDrugBar.py:41-47 | the plots' column list is the CSV export's header |
| PlotText.ColumnsAgree0 | musycweb/models.py:60-77 | columns 0-4 of the plots are the renamed export fields |
| PlotText.ColumnsAgree1 | musycweb/models.py:60-77 | columns 5-9 of the plots are the renamed export fields |
| PlotText.ColumnsAgree2 | musycweb/models.py:60-77 | columns 10-14 of the plots are the renamed export fields |
| PlotText.ColumnsAgree3 | musycweb/models.py:60-77 | columns 15-19 of the plots are the renamed export fields |
| PlotText.ColumnsAgree4 | musycweb/models.py:60-77 | columns 20-24 of the plots are the renamed export fields |
| PlotText.ColumnsAgree5 | musycweb/models.py:60-77 | columns 25-29 of the plots are the renamed export fields |
| PlotText.ColumnsAgree6 | musycweb/models.py:60-77 | columns 30-34 of the plots are the renamed export fields |
| PlotText.ColumnsAgree7 | musycweb/models.py:60-77 | columns 35-39 of the plots are the renamed export fields |
| PlotText.ColumnsAgree8 | musycweb/models.py:60-77 | columns 40-44 of the plots are the renamed export fields |
| PlotText.ColumnsAgree9 | musycweb/models.py:60-77 | columns 45-49 of the plots are the renamed export fields |
| PlotText.ColumnsAgree10 | musycweb/models.py:60-77 | columns 50-54 of the plots are the renamed export fields |
| PlotText.TranslateCi | musycweb/singleDrugBar.py:13-14 | `translate_ci` leaves no bracket and never lengthens the text |
| PlotText.TranslateCiAppend | musycweb/singleDrugBar.py:13-14 | `translate_ci` works character by character |
| PlotText.TranslateCiKeepsOthers | musycweb/singleDrugBar.py:13-14 | `translate_ci` keeps every other character, in order |
| PlotText.TranslateCiBracketFree | musycweb/singleDrugBar.py:13-14 | text without brackets is unchanged |
| PlotText.TranslateCiIdempotent | musycweb/singleDrugBar.py:13-14 | translating twice is translating once |
| PlotText.ParseCiStepAppendsOne | musycweb/singleDrugBar.py:17-21 | `parse_ci` succeeds exactly on a good interval and appends one bound to each list; without a comma it appends the lower bound and then raises IndexError |
| PlotText.CiRoundTrip | musycweb/singleDrugBar.py:13-21 | an exported interval `[lo, hi]`, translated, parses back to `lo` and `hi` |
| PlotText.CiTextPieces | musycweb/singleDrugBar.py:18 | splitting a translated interval gives the two bound texts |
| PlotText.TranslateCiOfInterval | musycweb/singleDrugBar.py:13-14 | translating `[lo, hi]` gives `lo, hi` |
| PlotText.TranslateCiLiterals | musycweb/singleDrugBar.py:13-14 | the brackets vanish, and the comma and space stay |
| PlotText.Lowers | musycweb/singleDrugBar.py:115 | one lower bound per good interval |
| PlotText.Uppers | musycweb/singleDrugBar.py:115 | one upper bound per good interval |
| PlotText.ParseAllAligned | musycweb/singleDrugBar.py:115 | a column of good intervals appends its lower and upper bounds in row order |
| PlotText.ParseAllStops | musycweb/singleDrugBar.py:115 | the first bad interval stops the column |
| PlotText.CiLists.constructor | musycweb/singleDrugBar.py:112-113 | the bound lists start empty |
| PlotText.CiLists.ParseCi | musycweb/singleDrugBar.py:17-21 | the method changes the lists as the one-interval parse specifies |
| PlotText.CiLists.ParseColumn | musycweb/singleDrugBar.py:115 | the method changes the lists as the column parse specifies |
| PlotText.CreateLink | musycweb/singleDrugBar.py:23-25 | a link is the site's task URL followed by the task id |
| PlotText.Links | musycweb/singleDrugBar.py:50 | one link per task, in order |
| PlotText.LinksNameTheirTasks | musycweb/singleDrugBar.py:50 | each link reads back its task id |
| PlotText.LinksInjective | musycweb/singleDrugBar.py:50 | different task lists give different links |
| PlotText.Frame | musycweb/singleDrugBar.py:53-57 | the frame keeps its rows, and row `i`'s link is task `i`'s, or missing past the last task |
| PlotText.OnlySingleFrame | musycweb/singleDrugBar.py:53 | `len([dataset_list]) == 1` always, so the single-frame branch is the one taken |
| PlotText.PaletteDistinct | musycweb/singleDrugBar.py:87-99 | the palette has 11 different colours |
| PlotText.ColorsOf | musycweb/singleDrugBar.py:101-107 | dataset `k`, in first-appearance order, gets palette colour `k` |
| PlotText.AssignColors | musycweb/singleDrugBar.py:101-107 | the colour loop succeeds exactly when there are at most 11 datasets, and raises IndexError otherwise |
| PlotText.ColorsOfSnoc | musycweb/singleDrugBar.py:104-107 | each loop step adds one dataset's colour |
| PlotText.RowColors | musycweb/singleDrugBar.py:109 | each row gets the colour of its dataset |
| PlotText.RowColorsByName | musycweb/singleDrugBar.py:101-109 | two rows share a colour exactly when they share a dataset |
| PlotText.SameColorSameName | musycweb/singleDrugBar.py:101-107 | no colour serves two datasets |
| ErrorBars.FedInto | musycweb/singleDrugBar.py:112-327 | a list pair holds at most one column per walk |
| ErrorBars.FedIntoUnfilled | musycweb/singleDrugBar.py:112-327 | a list pair no walk fills stays empty |
| ErrorBars.OwnListsFeedOwnColumn | musycweb/singleDrugBar.py:112-327 | with lists of its own, a trace's error bars come from its own column alone |
| ErrorBars.Cells | musycweb/singleDrugBar.py:112-327 | no columns give no cells |
| ErrorBars.OwnListsPlotOwnColumn | musycweb/singleDrugBar.py:112-327 | with lists of its own, a trace's error arrays are its own column parsed |
| ErrorBars.UnfedTraceHasNoErrorBars | musycweb/singleDrugBar.py:178-193 | a trace whose lists nothing filled gets empty error arrays |
| ErrorBars.Permute | musycweb/singleDrugBar.py:116 | the sorted frame's row `i` is the original row `p[i]` |
| ErrorBars.BarsParsedBeforeSort | musycweb/singleDrugBar.py:115-131 | as written, one bar per row |
| ErrorBars.BarsParsedAfterSort | musycweb/singleDrugBar.py:115-131 | corrected, one bar per row |
| ErrorBars.BarsAfterSortCarryOwnInterval | musycweb/singleDrugBar.py:115-131 | parsing after the sort gives each bar the interval of the row it draws, and the bars come largest first |
| ErrorBars.BarsBeforeSortMisplaced | musycweb/drugComboBar.py:109-111 | as written, with heights 1 then 2 and different lower bounds, the tallest bar gets the other row's interval |
| SingleDrugBar.CheckBatch | musycweb/singleDrugBar.py:27-37 | `check_batch` names a bar only for drug 1 or drug 2 |
| SingleDrugBar.CheckBatchNames | musycweb/singleDrugBar.py:27-37 | the bar name starts with the drug name, is the bare name exactly when the batch is 'None', and otherwise reads back the batch after `_b` |
| SingleDrugBar.CheckBatchSeparatesBatches | musycweb/singleDrugBar.py:27-37 | different batches give different bar names |
| SingleDrugBar.WithBatchNames | musycweb/singleDrugBar.py:84-85 | the renaming keeps one row per row |
| SingleDrugBar.WithBatchNamesRowwise | musycweb/singleDrugBar.py:84-85 | each row gets both bar names from its own original fields, and nothing else changes |
| SingleDrugBar.ButtonsOneHot | musycweb/singleDrugBar.py:349-401 | each of the 12 buttons shows exactly its own trace |
| SingleDrugBar.TracesMatchButtons | musycweb/singleDrugBar.py:117-436 | button `k` is labelled with trace `k`'s name; the traces start as the active button sets them, under its title |
| SingleDrugBar.TracesPlotTheirColumns | musycweb/singleDrugBar.py:117-327 | each trace plots the column of its name; a drug-1 parameter is labelled drug 1 first, a drug-2 parameter drug 2 first |
| SingleDrugBar.TraceNames | musycweb/singleDrugBar.py:331-342 | one name per trace |
| SingleDrugBar.E2ObsErrorBarsAsWritten | musycweb/singleDrugBar.py:178-193 | as written, the `E2_obs` trace gets no error bars however good its intervals, while `E1` keeps its own |
| SingleDrugBar.CiStepsOwnLists | musycweb/singleDrugBar.py:112-327 | corrected, every walk reads its own trace's interval column into lists of its own |
| SingleDrugBar.ErrorBarsFromOwnColumn | musycweb/singleDrugBar.py:112-327 | corrected, each trace's error arrays are its own interval column parsed |
| DrugComboBar.CheckBatch | musycweb/drugComboBar.py:26-30 | the bar's drug-2 name starts with the drug name and is the bare name exactly when the batch is 'None' |
| DrugComboBar.CheckBatchReadsBack | musycweb/drugComboBar.py:26-30 | a suffixed name reads back the batch after `_b` |
| DrugComboBar.CheckBatchSeparatesBatches | musycweb/drugComboBar.py:26-30 | one pair in two batches gets two bars |
| DrugComboBar.WithBatchNames | musycweb/drugComboBar.py:75 | the renaming keeps one row per row |
| DrugComboBar.WithBatchNamesKeepsDrug1 | musycweb/drugComboBar.py:75 | only the drug-2 name changes, and it keeps its text as a prefix |
| DrugComboBar.BarLabel | musycweb/drugComboBar.py:113 | the label is the two names and five punctuation characters |
| DrugComboBar.BarLabelShowsBothDrugs | musycweb/drugComboBar.py:113 | the label reads `(drug1 , drug2)` |
| DrugComboBar.ButtonsOneHotThenAll | musycweb/drugComboBar.py:263-298 | each of the first seven buttons shows exactly its own trace, and the last shows all seven |
| DrugComboBar.TracesMatchButtons | musycweb/drugComboBar.py:113-334 | button `k` is labelled with trace `k`'s name; the traces start as the active button sets them, under its title |
| DrugComboBar.TracesPlotTableColumns | musycweb/drugComboBar.py:113-256 | each trace plots a different column of the table |
| DrugComboBar.CiStepsOwnLists | musycweb/drugComboBar.py:107-233 | every walk reads its trace's interval column into lists of its own; R2 has none |
| DrugComboBar.ErrorBarsFromOwnColumn | musycweb/drugComboBar.py:107-233 | each of the first six traces plots its own interval column, parsed |
| DrugComboScatter.SampleText | musycweb/drugComboScatter.py:99 | the sample part of the hover text |
| DrugComboScatter.BatchText | musycweb/drugComboScatter.py:100 | the batch part of the hover text |
| DrugComboScatter.DatasetText | musycweb/drugComboScatter.py:101 | the dataset part of the hover text |
| DrugComboScatter.HoverText | musycweb/drugComboScatter.py:98-112 | the hover text is its four parts and nothing more |
| DrugComboScatter.HoverTexts | musycweb/drugComboScatter.py:112 | one hover text per row |
| DrugComboScatter.HoverTextJoinsLines | musycweb/drugComboScatter.py:98-112 | the hover text is its lines joined at `<br>` |
| DrugComboScatter.HoverTextRoundTrip | musycweb/drugComboScatter.py:98-112 | for fields without `<`, splitting the hover text reads back the sample, the batch and the dataset |
| DrugComboScatter.AxisMenu | musycweb/drugComboScatter.py:118-139 | each axis menu has seven entries, all for that axis |
| DrugComboScatter.MenusStartOnInitialTrace | musycweb/drugComboScatter.py:104-172 | the active entries of the x and y menus are the columns the first trace plots, and both menus offer the same parameters |
| DrugComboScatter.MenusOfferComboParameters | musycweb/drugComboScatter.py:118-172 | the menus offer the combination bar plot's seven parameters, all columns of the table |

## Left out

- Celery itself, the Django ORM and the request object are not modelled. The broker is a queue with a capacity; the table is a list of records.
- Revoking and deleting old tasks (musycweb/tasks.py:178-201) is not modelled. Only the set of pairs to skip is (`TasksToSkip`). These steps run before the data is validated, so in the source a bad upload can still have revoked or deleted old tasks. `ProcessDataset`'s "a bad upload changes nothing" speaks only of the modelled queue and task table.
- `update_state` (musycweb/tasks.py:44-47) and the `test_add` task only report progress, so they are left out.
- Reading the upload with `pd.read_table`, the dtype coercion and its 'could not convert' error (musycweb/tasks.py:222-237) are not modelled. The model starts from typed rows.
- The warnings are not modelled, because they only reach the user interface: surplus columns and empty rows (musycweb/tasks.py:243-253), effect NaN (264-266), priority (289-291), `_warning` (160-165), and the printed non-positive-CI warning of `fit_drug_combination` (83-85).
- UTF-8 decoding of the upload (musycweb/forms.py:69-75) is not modelled. The chunk is already a string.
- The debug `print` in `clean_file` (musycweb/forms.py:84-85) has no effect on results.
- `output_dir` is always None, so it is left out.
- MuSyC's fitting is a parameter: the fit itself is outside the repository. Its outcome (`FitOutcome`) is a result dictionary or a `ValueError`; exceptions of any other type, which the source lets pass through unchanged, are not represented.
- TaskFit.SwapsKeepDrugsTogether: does not cover the `E_fix` branch's `E_bnd` (musycweb/tasks.py:94-98). That branch leaves `E_bnd` unswapped, but `E_fix` and `E_bnd` are never both passed.
- Pandas group keys that are scalars rather than tuples are not distinguished. A batch-less key is modelled as a sample with no batch.
- Text.ParseInt: does not accept digit-group underscores, which Python's `int()` does.
- `dropna` on the effect column is modelled as keeping rows whose effect is present, not as a float NaN test.
- Text.Lower: changes only ASCII capitals.
- Json.StrRepr: non-ASCII characters that Python's Unicode database calls unprintable are written as themselves, not as `\x`, `\u` or `\U` escapes; the model has no Unicode database.
- TaskData.Canonicalise, TaskJobs.ProcessDataset: the job plan is built on the corrected drug-order swap. As written (musycweb/tasks.py:316-320) a dual row with drug1 `B`, drug2 `A` stays as it is, and the job is submitted for (B, A) where the model submits (A, B); `TaskData.CanonicalAsWrittenKeepsOrder` states the as-written step.
- TaskFit.FitSpecProperties, TaskFit.FitDrugCombination: stated for the corrected swaps, which exchange `drug1_units` and `drug2_units` with the drugs; as written (musycweb/tasks.py:97-111) the units stay in place, as `TaskFit.UnitsStayAsWritten` states.
- Models.ResultCsv: built on the corrected quote-doubling line. musycweb/models.py:129 joins the as-written line, which agrees with it whenever no value holds a `"` (`Models.AsWrittenAgreesWithoutQuotes`) and cannot be read back when one does (`Models.AsWrittenLineMisreads`).
- Forms.CleanFileErrors: states the missing fields as a set, while the source's message lists them in set-iteration order.
- TaskJobs.Sfrom: lists the values in first-appearance order, while the source's `list(set(...))` order is unspecified (musycweb/tasks.py:338-339); the unit lists and the `expt` text built from it may therefore list their values in another order.
- NaN, float rounding and the full syntax of `float()` are not modelled. `ParseFloat` reads signed decimals with an optional exponent and `inf`. It does not read `nan`.
- The authentication and admin forms (musycweb/forms.py:215 onwards) are outside this core.
- The assembly of `go.Bar`, `go.Scatter` and the layout (margins, fonts, annotations) is not modelled, nor how plotly draws `error_y`. The model keeps what each trace plots and which lists feed it.
- The Hide/Show menu for confidence intervals (musycweb/singleDrugBar.py:414-419, musycweb/drugComboBar.py:309-320) only toggles drawing, so it is left out.
- ErrorBars.DescendingOrder: the sort is any descending order; ties are left unordered because `sort_values` does not fix them.
- The scatter plot's `parse_ci` (musycweb/drugComboScatter.py:16-19) is never called, so it is not modelled.
- `float()` on an interval cell is a `FloatReader` parameter in the error-bar lemmas. `CiRoundTrip` and the `CiLists` methods use `Text.ParseFloat` itself.
- The model assumes that plotly copies an error list when the trace is built, so later walks do not reach an earlier trace.
- The multi-frame branch of the plots (musycweb/singleDrugBar.py:58-67) is unreachable and left out.
- The CSV write-and-read of the frame (musycweb/singleDrugBar.py:69-71, musycweb/drugComboBar.py:62-64, musycweb/drugComboScatter.py:56-58) is left out: the model assumes every text cell survives it unchanged. `pd.read_csv` re-infers the types. A blank cell comes back as NaN, so `check_batch` would write `_bnan` and `parse_ci` would fail on a NaN interval with an AttributeError, which `PlotError` does not have. Numeric batch text such as `02` comes back as a number (`_b2`). Recent pandas reads the text `None` itself as missing, so the `!= 'None'` test sees NaN. NaN cells are not modelled.
- Line 376 of musycweb/tasks.py selects on `data_sa_2['drug1']`, not `data_sa_2_s['drug1']`. The mask aligns on the row index, so it selects the same rows and is modelled as `data_sa_2_s`.
- A broker failure is modelled as a full queue. Task ids are queue positions, not UUIDs.
- The messages are kept as written, typos included: "drug1.units contains multiple values", which is also the drug-2 message (musycweb/tasks.py:52-53), "Effifacy" and "Synergistsic".

## Findings

| source | as written | input that shows it | evidently intended | confidence | as-written member | corrected member |
|---|---|---|---|---|---|---|
| musycweb/tasks.py:316-320 | `data.loc[mask, drug1 cols] = data.loc[mask, drug2 cols]` aligns the right-hand frame on column labels, so every row is written back unchanged | a row with drug1 "B" and drug2 "A" | swap the drug columns of rows whose drug1 sorts after drug2 | not executed | TaskData.CanonicalAsWrittenKeepsOrder | TaskData.CanonicalPointProperties |
| musycweb/models.py:124 | `str(v).replace('"', '\"')` replaces a quote by the same single quote character, so quotes inside a value are not escaped | a queued task whose sample is `a"b` | double every quote inside a quoted CSV field (RFC 4180, section 2, rule 7) | not executed | Models.AsWrittenLineMisreads | Models.ResultCsvLineReadsBack |
| musycweb/tasks.py:97-111 | the drug swaps exchange names, concentrations and bounds but not `drug1_units` and `drug2_units` | drug A in uM at concentrations [0, 1] with drug B in nM at [0, 2] | swap the units along with the drugs | not executed | TaskFit.UnitsStayAsWritten | TaskFit.SwapsKeepDrugsTogether |
| musycweb/singleDrugBar.py:178 | the `E2_obs_ci` column is parsed into `e1L`/`e1U`, while the `E2_obs` trace plots `e2oL`/`e2oU` | any table with `E2_obs` intervals | parse `E2_obs_ci` into `e2oL`/`e2oU` | not executed | SingleDrugBar.E2ObsErrorBarsAsWritten | SingleDrugBar.ErrorBarsFromOwnColumn |
| musycweb/singleDrugBar.py:115-116 | the intervals are parsed before the frame is sorted, and the trace is drawn from the sorted frame (the same in every walk here and in musycweb/drugComboBar.py:109-111) | two rows with heights 1 then 2 and different lower bounds | parse the intervals of the sorted frame | not executed | ErrorBars.BarsBeforeSortMisplaced | ErrorBars.BarsAfterSortCarryOwnInterval |
