# UAE Promo Pulse data validator, in Dafny

This project models the validation and cleaning-policy engine of the UAE Promo
Pulse dashboard (`validator.py`). It has three parts.

- **Field rules** (`ValidationRules`, module `Rules`). These are stateless checks of one or two cells.
  - The timestamp must match the `YYYY-MM-DD HH:MM:SS` pattern and be a real calendar date and time.
  - The price must lie in [0, 10000].
  - The quantity, truncated to an integer, must lie in [1, 100].
  - City, channel and payment status must be members of their closed sets once the text is trimmed.
  - The unit cost must not exceed the base price.
  - The stock must not be negative.
- **Record and dataset validator** (`DataValidator`, module `Validator`).
  - Each record validator runs its rules in a fixed order.
  - A rule runs only when its column is present.
  - Each failing rule logs one issue, with a fixed issue type and action.
  - `validate_dataset` walks the rows in order and stamps each issue with the row's identifier.
  - It keeps the log in the validator's `issues` field.
- **Policy table** (`CleaningPolicies`, module `Policies`). This maps each issue type to an action and a justification. Any other name falls back to SKIP.

The Python and pandas value semantics the rules depend on live in module `Values`:
- a cell is `Null`, a number (a binary64 value, NaN or an infinity included) or text;
- `float()` on text, `int()` on a float, `pd.isna`, truthiness, `str.strip()`, and `str()` of a row index.

The rules and the policy lookup are functions. `DataValidator` is a class:
- its record validators build their issue lists step by step;
- `ValidateDataset` loops over the rows and the issues and overwrites the `issues` field;
- each method is proved equal to a specification function (`SalesIssues`, `DatasetLog`, …);
- the properties the source promises are proved about those functions.

Two behaviours of the code are worth stating plainly.
- The record identifier (validator.py:253) falls back to `ROW_<idx>` for every falsy identifier (`None`, `''`, `0`), not only for a missing one. A NaN identifier is truthy and is kept.
- The discount check (validator.py:196) is not gated on the column being present: a sales record without a `discount_pct` column always logs MISSING_VALUE.
  - So a record holding only an over-priced `selling_price_aed`, a valid `qty` and a misspelt `city` logs three issues: the price outlier, the invalid city and the missing discount (`Validator.SampleSaleIssues`).

## Model

| member | source | states |
|---|---|---|
| Values.IsSpace | validator.py:63 | the whitespace of `str.isspace()`: tab to carriage return and space are whitespace, and no printable ASCII character is |
| Values.Strip | validator.py:63 | `str.strip()`: the result is the input with its leading and trailing Python whitespace removed, and has no whitespace at either end |
| Values.IsNa | validator.py:26 | `pd.isna`: only None and NaN are NA; no text cell is NA (so the text "nan" is not) |
| Values.Truthy | validator.py:253 | Python truthiness: None, 0 and '' are falsy, non-empty text is truthy, and NaN is truthy although it is NA |
| Values.Less | validator.py:41 | IEEE `<`: on finite values the order of the reals; nothing is related to NaN; +inf is below nothing and nothing is below -inf |
| Values.LessStrictOrder | validator.py:41 | IEEE `<` is asymmetric and transitive |
| Values.IsFloatSpace | validator.py:40 | the whitespace `float()` skips: a `str.isspace()` character that is ASCII tab to carriage return, space, or not ASCII at all; U+001C to U+001F are not skipped |
| Values.FloatStrip | validator.py:40 | the text `float()` reads: the input without the characters `float()` skips at either end, none of which is left at either end |
| Values.ParseFloat | validator.py:40 | `float()` on text: the whitespace `float()` skips around the number is removed and the rest read as a number; text with nothing else does not parse |
| Values.StripIdempotent | validator.py:63 | stripping the stripped text changes nothing |
| Values.ParseFloatIgnoresPadding | validator.py:40 | `float()` on text ignores the whitespace it skips around the number |
| Values.NoNumberStart | validator.py:40 | text that starts with anything but a sign, a digit, a point or the first letter of "nan", "inf" or "infinity" is not a number |
| Values.SeparatorIsNoFloatSpace | validator.py:40 | "\x1c5" strips to "5", yet `float()` rejects it: an information separator is whitespace to `strip()` but not to `float()` |
| Values.SpacePaddedFive | validator.py:40 | `float(" 5\n")` is 5 |
| Values.ParseFloatOfDecimal | validator.py:40 | the text of an integer, with an optional sign, reads back as that integer |
| Values.CoerceOfDecimal | validator.py:40 | a cell holding the text of an integer coerces to that integer |
| Values.ParseNumber | validator.py:40 | a parsed negative value comes only from text that starts with a minus sign; empty text does not parse |
| Values.Coerce | validator.py:40 | `float(v)`: None fails, a number is itself, text is parsed |
| Values.TruncToInt | validator.py:51 | `int()` truncates toward zero: the result is the integer between zero and x that is less than 1 away from x |
| Values.IntOf | validator.py:51 | `int()` on a float has a result exactly when the float is finite (NaN and the infinities raise) |
| Values.DecimalText | validator.py:253 | `str(idx)` is a non-empty digit string that reads back as idx, with no leading zero unless it is "0" itself |
| Values.DecimalTextInjective | validator.py:253 | distinct indices have distinct decimal texts |
| Values.TwoDigits | validator.py:14 | a two-digit group has the value of its two digits |
| Values.FourDigits | validator.py:14 | a four-digit group has the value of its four digits |
| Rules.PatternGroupsAreDigits | validator.py:14 | a text that matches the timestamp pattern has digits in all six groups |
| Rules.MatchesTimestampPattern | validator.py:29 | `re.match` of `^\d{4}-\d{2}-\d{2} \d{2}:\d{2}:\d{2}$`: 19 characters, or 20 with a final newline, with '-', ' ' and ':' at the separator positions |
| Rules.FieldsOf | validator.py:31 | the year, month, day, hour, minute and second read from the six digit groups (characterized by `Rules.FieldsByDigits`) |
| Rules.ValidDateTime | validator.py:31 | what `pd.to_datetime` accepts: a real Gregorian date and time of day inside pandas' range, so the year is in [1677, 2262] |
| Rules.CalendarValid | validator.py:31 | a matching text whose fields form a valid date and time |
| Rules.FieldsByDigits | validator.py:14 | the fields read from a matching text are the values of its digit groups |
| Rules.IsLeapYear | validator.py:31 | the Gregorian leap-year rule: a year not divisible by 4 is common, a century year is common unless divisible by 400, any other multiple of 4 is a leap year |
| Rules.CenturyLeapYear | validator.py:31 | a year divisible by 400 is a leap year |
| Rules.DaysInMonth | validator.py:31 | a month has 28 to 31 days, and February has 29 exactly in a leap year |
| Rules.ValidateTimestamp | validator.py:23-34 | "Missing timestamp" exactly for None, NaN or ''; valid exactly for text that matches the pattern and names a real date and time in pandas' range; "Unparsable" exactly for matching text that does not |
| Rules.LeapYearSampleFields | validator.py:29-31 | "2024-02-29 10:00:00" matches the pattern and has the fields 2024, 2, 29, 10, 0, 0 |
| Rules.CommonYearSampleFields | validator.py:29-31 | "2023-02-29 10:00:00" matches the pattern and has the fields 2023, 2, 29, 10, 0, 0 |
| Rules.SampleDates | validator.py:31 | the calendar admits February 29 in 2024 and rejects it in 2023 |
| Rules.LeapDay | validator.py:23-34 | a February 29 timestamp is valid in 2024 and "Unparsable" in 2023 |
| Rules.IsoSeparatorRejected | validator.py:29-30 | a timestamp with a "T" separator fails as "Invalid format" |
| Rules.ValidatePrice | validator.py:36-45 | "Not numeric" exactly when `float()` fails; valid exactly for NaN or a finite value in [0, 10000], both ends included; any other number is "Outside range" with that value |
| Rules.PriceBoundaries | validator.py:36-45 | 0 and 10000 pass, 10000.01 fails, NaN passes |
| Rules.PaddedPrices | validator.py:36-45 | a price with an information separator in front is "Not numeric"; a price padded with a space and a newline is read and valid |
| Rules.PriceOfFinite | validator.py:36-45 | a cell that coerces to a finite x is a valid price exactly when 0 <= x <= 10000 |
| Rules.PriceOfIntegerText | validator.py:36-45 | a price written as a signed integer is valid exactly when it lies in [0, 10000] |
| Rules.ValidateQuantity | validator.py:47-56 | "Not numeric" exactly when `float()` fails or gives NaN or an infinity; valid exactly when the value lies in [1, 101), that is, its truncation lies in [1, 100] |
| Rules.QuantityBoundaries | validator.py:47-56 | 1, 100 and 100.9 pass; 0, 0.9 and 101 fail with their truncations; NaN is "Not numeric" |
| Rules.QuantityOfFinite | validator.py:47-56 | a cell that coerces to a finite x is a valid quantity exactly when 1 <= x < 101 |
| Rules.QuantityOfIntegerText | validator.py:47-56 | a quantity written as a signed integer is valid exactly when it lies in [1, 100] |
| Rules.MemberRule | validator.py:58-86 | "Missing …" exactly for None, NaN or ''; valid exactly for non-empty text whose stripped form is in the set |
| Rules.ValidateCity | validator.py:58-66 | "Missing city" exactly for None, NaN or ''; valid exactly when the stripped text is Dubai, Abu Dhabi or Sharjah |
| Rules.ValidateChannel | validator.py:68-76 | "Missing channel" exactly for None, NaN or ''; valid exactly when the stripped text is App, Web or Marketplace |
| Rules.ValidatePaymentStatus | validator.py:78-86 | "Missing payment_status" exactly for None, NaN or ''; valid exactly when the stripped text is Paid, Failed or Refunded |
| Rules.ValidateCostConstraint | validator.py:88-98 | valid when either cell cannot be made a float; when both can, invalid exactly when cost > price as IEEE floats (so never with NaN, and always for an infinite cost over any price but NaN and +inf), with both values in the detail |
| Rules.ValidateStock | validator.py:100-109 | "Not numeric" exactly when `float()` fails; valid exactly when the value is not negative (NaN and +inf pass, -inf fails) |
| Policies.GetPolicy | validator.py:314-320 | an unknown name gets (SKIP, "No policy defined"), and only the fallback has action SKIP |
| Policies.TableActions | validator.py:279-312 | the `POLICIES` table gives DROP to INVALID_TIMESTAMP, CAP to OUTLIER_VALUE and CONSTRAINT_VIOLATION, IMPUTE to MISSING_VALUE, and CORRECT to INVALID_CITY, INVALID_CHANNEL, INVALID_VALUE and IMPOSSIBLE_VALUE |
| Policies.IssueType.Name | validator.py:279-312 | the name of each issue type as it appears in the log and as a table key (injective by `Policies.NamesDistinct`) |
| Policies.TableKeysAreIssueNames | validator.py:279-312 | the table's keys are exactly the names of the eight issue types |
| Policies.NamesDistinct | validator.py:279-312 | distinct issue types have distinct names |
| Validator.SalesIssueCounts | validator.py:118-203 | per issue type, a sales record logs one issue for each of its rules that fails on a present column; the discount check counts when the column is absent or NA; IMPOSSIBLE_VALUE never appears |
| Validator.SalesIssuesBound | validator.py:118-203 | a sales record logs at most eight issues |
| Validator.SalesIssuesInRuleOrder | validator.py:118-203 | the issues of a sales record come in the order of the rules that log them |
| Validator.InventoryIssuesShape | validator.py:205-219 | an inventory record logs at most one issue, IMPOSSIBLE_VALUE/CORRECT, exactly when the stock column is present and fails |
| Validator.ProductsIssuesShape | validator.py:221-246 | a product record logs at most one issue: MISSING_VALUE exactly when the cost is absent or NA, CONSTRAINT_VIOLATION exactly when both cost columns are present and the cost exceeds the price, and never both, since a missing or NaN cost never exceeds a price |
| Validator.PolicyActions | validator.py:279-312 | the action the record validators log with each issue type is the one the policy table gives that type |
| Validator.SalesIssuesFollowPolicy | validator.py:118-203 | every issue of a sales record carries its policy's action |
| Validator.ProductsIssuesFollowPolicy | validator.py:221-246 | every issue of a product record carries its policy's action |
| Validator.RecordIssuesFollowPolicy | validator.py:118-246 | every issue of any record, of any dataset type, carries its policy's action |
| Validator.SampleSaleChecks | validator.py:118-203 | what each of the eight sales checks contributes for a record with price 15000, quantity 3 and city "Dubayy" |
| Validator.SampleSaleIssues | validator.py:118-203 | that record logs the price outlier, then the invalid city, then the missing discount |
| Validator.Get | validator.py:196 | `record.get(key)`: None for an absent column, so the cell is NA exactly when the column is absent or its cell is NA |
| Validator.Fails | validator.py:123-181 | a rule fails only on a present column |
| Validator.CheckedIssue | validator.py:123-181 | a one-cell rule logs an issue exactly when its column is present and the rule rejects the cell, and then exactly one issue with the rule's type, detail and action |
| Validator.CostFails | validator.py:183-193 | the cost rule fails exactly when both cost columns are present, both cells can be made floats, and the price is below the cost as IEEE floats |
| Validator.CostCheck | validator.py:183-193 | the cost check logs an issue exactly when the cost rule fails, and then one CONSTRAINT_VIOLATION/CAP with the rule's detail |
| Validator.Missing | validator.py:196-201 | the missing-value check logs an issue exactly when the column is absent or its cell is NA, and then one MISSING_VALUE/IMPUTE with the fixed message |
| Validator.SalesIssues | validator.py:118-203 | the issues of a sales record: the eight checks in source order, each contributing its issue or nothing |
| Validator.InventoryIssues | validator.py:205-219 | the issues of an inventory record: the stock check |
| Validator.ProductsIssues | validator.py:221-246 | the issues of a product record: the missing-cost check, then the cost check |
| Validator.RecordIssues | validator.py:255-262 | the issues of a record of the given dataset type; none for any other type |
| Validator.RowLabelsDistinct | validator.py:253 | distinct row positions get distinct `ROW_<idx>` labels |
| Validator.RowLabel | validator.py:253 | `f'ROW_{idx}'` |
| Validator.RecordIdentifier | validator.py:253 | `order_id or product_id or ROW_<idx>`: the first truthy candidate, and the result is always truthy |
| Validator.Stamp | validator.py:264-270 | each issue of a row becomes one log entry, in order, with the row's identifier |
| Validator.CollectSplit | validator.py:252-270 | the log of two consecutive runs of rows is the log of the first, then the log of the second |
| Validator.DatasetLog | validator.py:248-273 | the log of a dataset: each row's issues stamped with its identifier, row after row |
| Validator.LogAtRow | validator.py:248-273 | the log of a dataset is the log of the rows before row i, then row i's issues stamped with its identifier, then the log of the rows after it |
| Validator.DatasetLogBound | validator.py:248-273 | a dataset of n rows logs at most 8n issues as sales and n as inventory or products; an unknown dataset type logs nothing |
| Validator.DatasetLogFollowsPolicy | validator.py:248-273 | every entry of a dataset log carries its policy's action |
| Validator.DataValidator.constructor | validator.py:115-116 | a new validator has an empty issue log |
| Validator.DataValidator.RunRule | validator.py:123-181 | a one-column check logs the rule's failure with its type and action, and nothing when the column is absent |
| Validator.DataValidator.RunCostRule | validator.py:183-193 | the cost check runs only with both cost columns and logs CONSTRAINT_VIOLATION/CAP on failure |
| Validator.DataValidator.RunMissing | validator.py:196-201 | an absent or NA column logs MISSING_VALUE/IMPUTE |
| Validator.DataValidator.ValidateSalesRecord | validator.py:118-203 | the issues built step by step are `SalesIssues(record)` |
| Validator.DataValidator.ValidateInventoryRecord | validator.py:205-219 | the issues are `InventoryIssues(record)` |
| Validator.DataValidator.ValidateProductsRecord | validator.py:221-246 | the issues built step by step are `ProductsIssues(record)` |
| Validator.DataValidator.ValidateRecord | validator.py:255-262 | dispatch on the dataset type; any other type gives no issues |
| Validator.DataValidator.AppendStamped | validator.py:264-270 | the inner loop appends each issue of the row, in order, stamped with the row's identifier |
| Validator.DataValidator.ValidateDataset | validator.py:248-273 | the log built by the row loop is `DatasetLog(df, datasetType)`, the dataset type defaults to "sales", and `issues` holds the log afterwards |
| Validator.RevalidationAgrees | validator.py:248-273 | validating the same rows twice gives the same log, and `issues` holds it |

## Left out

- `float()` on text reads an optional sign, then ASCII digits with an optional point, or "nan", "inf" or "infinity" in any case. Around it, it skips ASCII tab to carriage return, space, and non-ASCII Unicode whitespace, but not the separators U+001C to U+001F that `str.strip()` removes. Exponents, underscores and non-ASCII digits are not modelled. A finite value is kept exact, so binary64 rounding and overflow to infinity are not modelled.
- Numbers in a cell are kept as exact reals or as NaN or an infinity. Values past binary64 precision and the distinction between -0.0 and 0.0 are not modelled.
- `\d` in the timestamp pattern is read as the ASCII digits. Python's `\d` also accepts other Unicode decimal digits.
- `pd.to_datetime` is modelled as Gregorian validity of the six fields, within pandas' nanosecond Timestamp range and to the whole second.
  - A matching text with one trailing newline (which `$` admits) is judged by its first 19 characters.
  - `pd.to_datetime` on a number cell is not reached, because the text of a number never matches the pattern.
- The text of a number cell (`str(value)`) is not computed. Such a cell is never '', never matches the timestamp pattern, and is never a member of the city, channel or status sets, so its text is not needed for the verdict.
- Diagnostic messages that embed a value (`f"Outside range …: {p}"`, `f"Cost {c} > Price {p}"`, …) are kept as the values they show, not as formatted strings. Constant messages are kept literally.
- The unused `record_id` parameter of the record validators is dropped.
- pandas machinery is not modelled: `iterrows`, `row.to_dict`, and the final `pd.DataFrame` wrap of the log.
  - A dataset is a sequence of records and the log a sequence of entries.
  - A row's index is its position, as with the default index.
- The unused `VALID_CATEGORIES` constant is not modelled.
- The justification texts of the policy table are kept as data; nothing is proved about their wording.
- analytics.py (KPI aggregation and floating-point statistics) is not part of this model.
- create_sample_dataset.py (random data generation and CSV output) is not part of this model.
- test_connection.py and test_ai_integration.py (environment probes and an external API client) are not part of this model.
- Validator.SalesIssuesInRuleOrder: ordering by rule position puts the price and the quantity OUTLIER_VALUE issues at the same rank, so it does not say which of the two comes first. The issues themselves are fixed by `ValidateSalesRecord`'s contract and counted by `SalesIssueCounts`.
