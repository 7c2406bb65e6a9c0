# Budget planner: a verified model of its core

This project models, in Dafny, the logic of a small personal-budget web
application: the income/expense aggregation of `src/lib/finance.ts` and its
copy inside the dashboard page, the request schemas of the transactions
API, the paging arithmetic and gating order of the transactions endpoint,
the CSV import and export endpoints with their line codec, and the chart
palette generator. Each module follows one source file:

| module | file | source |
|---|---|---|
| `Wrappers` | wrappers.dfy | `Option` and `Result` |
| `Text` | text.dfy | ASCII `trim`, case mapping, `split`/`join`, decimal digits |
| `JsNumber` | jsnumber.dfy | `Number(string)` on decimal text |
| `Finance` | finance.dfy | `src/lib/finance.ts` and its unit test |
| `Dashboard` | dashboard.dfy | the memos and the budget bar of `src/pages/index.tsx` |
| `TransactionValidation` | validation.dfy | `src/lib/validation/transaction.ts` |
| `StorageQuery` | storagequery.dfy | the filter chain both endpoints build |
| `TransactionsApi` | api.dfy | `src/pages/api/transactions/index.ts` |
| `CsvCodec` | csvcodec.dfy | `parseCsvLine` (import) and `csvEscape` (export) |
| `CsvImport` | import.dfy | `src/pages/api/transactions/import.ts` |
| `CsvExport` | export.dfy | `src/pages/api/transactions/export.ts` |
| `ChartColors` | chartcolors.dfy | `src/lib/chartColors.ts` |

The loops of the source are methods with loop invariants. Each method is
proved equal to a function that states the result over the whole input:
`Finance.ComputeTotals` against `TotalsOf`, the breakdown loops against
`GroupBy`, `CsvCodec.ParseCsvLine` against `ParsedFields`, the blank-line
`while` loops of the import against `TrimmedLines`, the row loop against
`ErrorsOf`/`RowsOf`, and the chunk loop against `Chunks` and `FirstFailure`.
The properties the application relies on are then lemmas about those
functions.

Points the proofs bring out:

- The budget ranking is specified by `Finance.IsBudgetUsage`. It requires
  one entry per category of either map, each entry's values, and ordering
  by percentage with "no percentage" ranked as -1. The order of ties is
  left open.
- The dashboard's copy of the category breakdown keys on the stored
  category as it is. A blank category is filed under "" there and under
  "Other" in `groupExpensesByCategory` (`Dashboard.BlankCategoryDiverges`).
  The two agree when categories are clean (`Dashboard.CategoryBreakdownsAgree`).
- The import's "No valid rows found" answer cannot happen. After the blank
  edge lines are dropped, the last line is not blank, so a text without line
  errors always yields a row (`CsvImport.NoValidRowsUnreachable`,
  `CsvImport.Handle`).
- The import does not apply the 50-character category limit of the create
  schema. A row that the import stores can be refused by the API
  (`CsvImport.LongCategoryOnlyImported`).
- The export's lines parse back with the import's line parser
  (`CsvExport.RowLineParses`, `CsvCodec.RoundTrip`).

Parameters stand in for what the model cannot see:

- the signed-in user;
- the verdict of the rate limiter;
- the first day of the following month, missing when it is an Invalid Date;
- the replies of the storage service.

## Model

| member | source | states |
|---|---|---|
| Finance.ToAmount | src/lib/finance.ts:8-11 | the amount is present exactly when the coerced number is finite, and is then that number |
| Finance.ComputeTotals | src/lib/finance.ts:13-26 | the loop yields the sums of `TotalsOf`: INCOME rows to income, every other row with a finite amount to expense; balance is income minus expense |
| Finance.TotalsOrderIndependent | src/lib/finance.ts:13-26 | the totals do not depend on the order of the rows |
| Finance.SumPermutation | src/lib/finance.ts:17-23 | a sum over rows is the same for any permutation of the rows |
| Finance.CategoryKey | src/lib/finance.ts:36 | the key is the trimmed category, or "Other" when the category is missing or blank; it is never empty |
| Finance.Bump | src/lib/finance.ts:37 | adds the amount under one key, starting from 0, and leaves every other key unchanged |
| Finance.GroupExpensesByCategory | src/lib/finance.ts:28-41 | the loop yields the breakdown of `GroupBy` with the category key |
| Finance.GroupExpensesByDay | src/lib/finance.ts:43-56 | the loop yields the breakdown of `GroupBy` with the raw date as key |
| Finance.GroupByKeys | src/lib/finance.ts:31-37 | a key is present exactly when some EXPENSE row with a finite amount carries it |
| Finance.GroupByTotal | src/lib/finance.ts:28-56 | the values of a breakdown add up to the amounts of the counted rows |
| Finance.GroupByValue | src/lib/finance.ts:28-41 | the value under each key (0 when absent) is the sum of the finite amounts of the EXPENSE rows carrying that key |
| Finance.BreakdownsSumToExpense | src/lib/finance.ts:21-22 | when every row is INCOME or EXPENSE, both breakdowns add up to the expense total |
| Finance.UsageFor | src/lib/finance.ts:67-72 | spent and limit default to 0; the percentage is absent exactly when the limit is at most 0, and is otherwise spent/limit*100 |
| Finance.SortByPct | src/lib/finance.ts:74 | the result is sorted by percentage, descending, with no percentage as -1, and is a permutation of the input |
| Finance.ComputeBudgetUsage | src/lib/finance.ts:58-76 | the list satisfies `IsBudgetUsage`: sorted, with exactly the entries of the categories of either map |
| Finance.BudgetUsageMembers | src/lib/finance.ts:62-72 | an entry is listed exactly when its category is in either map and its values are those of `UsageFor` |
| Finance.BudgetUsageOnePerCategory | src/lib/finance.ts:62-72 | no category is listed twice, and the list is as long as the union of the two key sets |
| Finance.NoBudgetSinks | src/lib/finance.ts:74 | with no negative spending, every entry without a percentage comes after every entry with one |
| Finance.FixtureAmounts | src/lib/finance.test.ts:15-17 | "10" coerces to 10 and "not-a-number" is dropped |
| Finance.FixtureTotals | src/lib/finance.test.ts:20-25 | the test rows give income 3000, expense 85.5 and balance 2914.5 |
| Finance.FixtureByCategory | src/lib/finance.test.ts:27-32 | the test rows give Food 35.5 and Transport 50, with no Salary key |
| Finance.FixtureByDay | src/lib/finance.test.ts:34-38 | the test rows give 2026-01-05 35.5 and 2026-01-06 50 |
| Finance.FixtureUsages | src/lib/finance.test.ts:40-53 | Transport is at 200%, Food at 80%, and Bills has no percentage |
| Finance.FixtureBudgetUsage | src/lib/finance.test.ts:40-53 | every valid ranking of the test maps is Transport, Food, Bills |
| Finance.ThreeCategoryUsage | src/lib/finance.ts:58-76 | with three categories and strictly decreasing keys, the ranking is in that order |
| Dashboard.DashboardTotals | src/pages/index.tsx:96-109 | the dashboard's totals are those of `computeTotals`, and balance is income minus expense |
| Dashboard.RawCategoryOf | src/pages/index.tsx:118 | the dashboard key is the stored category as it is, or "Other" when it is missing |
| Dashboard.ExpenseByCategory | src/pages/index.tsx:111-122 | the loop yields the breakdown of `GroupBy` with the untrimmed key |
| Dashboard.ExpenseByDay | src/pages/index.tsx:124-135 | the loop yields the same breakdown as `groupExpensesByDay` |
| Dashboard.CategoryBreakdownsAgree | src/pages/index.tsx:118 | when categories are missing or trimmed and non-empty, the two category breakdowns are equal |
| Dashboard.BlankCategoryDiverges | src/pages/index.tsx:118 | a blank category is filed under "" by the dashboard and under "Other" by the library |
| Dashboard.DashboardBreakdownsSumToExpense | src/pages/index.tsx:111-122 | the dashboard's category breakdown adds up to its expense total |
| Dashboard.BuildBudgetMap | src/pages/index.tsx:81-86 | the loop yields `BudgetMapOf`, where each kept row overwrites its category |
| Dashboard.BudgetAmount | src/pages/index.tsx:84 | a null budget amount reads as 0 |
| Dashboard.BudgetMapKeys | src/pages/index.tsx:81-86 | a category has a budget exactly when some row with a non-empty category and a finite amount names it |
| Dashboard.BudgetMapLastWins | src/pages/index.tsx:85 | the budget of a category is the amount of the last kept row that names it |
| Dashboard.BudgetUsage | src/pages/index.tsx:137-152 | the dashboard ranking satisfies `IsBudgetUsage` over its own category breakdown |
| Dashboard.PctClamped | src/pages/index.tsx:245-246 | the bar width lies in [0, 100], is 0 without a percentage, is 0 for a negative one and 100 for one above 100, and equals a percentage already in range |
| Dashboard.BarStates | src/pages/index.tsx:245-248 | warning and over are exclusive and both false without a percentage; over iff the bar is full; warning iff 80 <= width < 100 |
| Dashboard.BarOfUsage | src/pages/index.tsx:244-246 | with no negative spending, a percentage is non-negative and the bar is as wide as it, capped at 100 |
| TransactionValidation.CoerceNumber | src/lib/validation/transaction.ts:5 | a JSON number coerces to itself and a missing value to NaN |
| TransactionValidation.ParseCreate | src/lib/validation/transaction.ts:3-9 | a refusal lists the failing fields in declaration order, and the list is never empty |
| TransactionValidation.CreateAcceptance | src/lib/validation/transaction.ts:3-9 | a body is accepted iff every rule holds of the raw input; the accepted values are the trimmed and coerced ones and satisfy `ValidTransaction` |
| TransactionValidation.CreateRoundTrip | src/lib/validation/transaction.ts:3-9 | every valid transaction sent as a body is accepted back unchanged |
| TransactionValidation.DateLayoutOnly | src/lib/validation/transaction.ts:7 | the date rule checks only the layout: 2026-02-31 passes and 2026-2-3 does not |
| TransactionValidation.ParseList | src/lib/validation/transaction.ts:11-19 | a refusal lists the failing parameters in declaration order, and the list is never empty |
| TransactionValidation.ListAccepted | src/lib/validation/transaction.ts:11-19 | an accepted query is valid, and a missing page or limit defaults to 1 or 10 |
| TransactionValidation.ListDefaults | src/lib/validation/transaction.ts:12-13 | an empty query is page 1 of 10 with no filter |
| TransactionValidation.ListRejectsOutOfRange | src/lib/validation/transaction.ts:13 | a limit of 0 or above 50 is refused with "limit" among the errors |
| TransactionValidation.ListRejectsPageZero | src/lib/validation/transaction.ts:12 | a page of 0 is refused with "page" among the errors |
| TransactionValidation.ThirteenthMonthAccepted | src/lib/validation/transaction.ts:18 | the month rule checks only the layout, so month "2026-13" is accepted |
| TransactionValidation.ListRoundTrip | src/lib/validation/transaction.ts:11-19 | every valid list query sent as a query string is accepted back unchanged |
| StorageQuery.Contains | src/pages/api/transactions/index.ts:35 | the pattern is the text between two `%` |
| StorageQuery.MonthStart | src/pages/api/transactions/index.ts:39 | the start of a month is the month followed by "-01" |
| TransactionsApi.PageRange | src/pages/api/transactions/index.ts:24-25 | for page >= 1 the range starts at or after 0 and holds exactly `limit` slots |
| TransactionsApi.PagesTile | src/pages/api/transactions/index.ts:24-25 | one page ends just before the next begins |
| TransactionsApi.CeilDiv | src/pages/api/transactions/index.ts:54 | the quotient rounded up: b*(q-1) < a <= b*q |
| TransactionsApi.TotalPages | src/pages/api/transactions/index.ts:53-54 | there is at least one page; with rows, the last page is the one that holds the last row |
| TransactionsApi.MissingCountOnePage | src/pages/api/transactions/index.ts:53-54 | a missing count gives one page |
| TransactionsApi.RowOnPage | src/pages/api/transactions/index.ts:24-25 | every row index below the total lies within the range of an existing page |
| TransactionsApi.ListSelection | src/pages/api/transactions/index.ts:27-44 | no query iff a month is given whose end is an Invalid Date (`MonthEndFails`); otherwise `ListFilters`: the owner filter; the type filter iff a type is given; a category pattern iff the trimmed category is non-empty; the month range iff a month is given |
| TransactionsApi.AcceptedMonthIsSet | src/pages/api/transactions/index.ts:38 | an accepted month is never empty, so it always sets the range |
| TransactionsApi.Handle | src/pages/api/transactions/index.ts:7-92 | 401 iff no non-empty user id, then 429, then 405 (allowing "GET, POST") for other methods; a refused query or body iff the schema refuses it, carrying the schema's failing fields; 500 without a query iff the month of a valid list query has an Invalid Date as its end; 500 iff storage reports an error for any other valid request, carrying its message; otherwise the list is answered, with the filters of `ListFilters`, its page arithmetic and total pages, or the parsed row is created for the user |
| CsvCodec.ParsedFields | src/pages/api/transactions/import.ts:14-44 | at least one field, every field trimmed |
| CsvCodec.ParseCsvLine | src/pages/api/transactions/import.ts:14-44 | the character loop yields `ParsedFields` of the line |
| CsvCodec.ParseUnquoted | src/pages/api/transactions/import.ts:33-43 | a line without quotes splits at every comma into trimmed fields |
| CsvCodec.ParseEmptyLine | src/pages/api/transactions/import.ts:42-43 | the empty line gives one empty field |
| CsvCodec.ParseQuotedComma | src/pages/api/transactions/import.ts:22-37 | a comma inside quotes does not split |
| CsvCodec.ParseDoubledQuote | src/pages/api/transactions/import.ts:24-26 | `""` inside quotes gives one literal quote |
| CsvCodec.ParseMidFieldQuote | src/pages/api/transactions/import.ts:27-29 | a quote in mid-field toggles quoting and is dropped |
| CsvCodec.CsvEscape | src/pages/api/transactions/export.ts:5-10 | null gives ""; a value without `,`, `"`, LF or CR is unchanged; a value is quoted iff it holds one of them |
| CsvCodec.PlainEscapes | src/pages/api/transactions/export.ts:9 | escaping is the identity on values that need no quotes |
| CsvCodec.QuotedCommaLine | src/pages/api/transactions/export.ts:8 | a value with a comma is written in quotes |
| CsvCodec.DoubledQuoteLine | src/pages/api/transactions/export.ts:8 | a quote inside a value is doubled |
| CsvCodec.RoundTrip | src/pages/api/transactions/export.ts:5-10 | the import parser reads the comma-join of escaped fields back as those fields, for any non-empty list of fields trimmed at both ends |
| CsvExport.RowValues | src/pages/api/transactions/export.ts:50-61 | six values per row, in header order |
| CsvExport.RowLineOfValues | src/pages/api/transactions/export.ts:50-61 | a row's line is the comma-join of its escaped values, a missing value written empty |
| CsvExport.RowLines | src/pages/api/transactions/export.ts:50-61 | one line per row, in the order storage returned them |
| CsvExport.BuildCsv | src/pages/api/transactions/export.ts:47-63 | the text is the header line, then the row lines, joined by LF |
| CsvExport.HeaderLine | src/pages/api/transactions/export.ts:47-48 | the header line is `type,amount,category,date,note,created_at` |
| CsvExport.CsvLines | src/pages/api/transactions/export.ts:47-63 | without line breaks in the values, the text splits into rows + 1 lines, with no trailing newline |
| CsvExport.RowLineParses | src/pages/api/transactions/export.ts:50-61 | a row's line parses back into its six values |
| CsvExport.HeaderParses | src/pages/api/transactions/export.ts:47-48 | the header line parses back into the column names |
| CsvExport.ExportSelection | src/pages/api/transactions/export.ts:21-41 | no query iff the month is non-empty and its end is an Invalid Date (`MonthEndFails`); otherwise `ExportFilters`: the owner filter; the type filter iff the type is exactly INCOME or EXPENSE; the trimmed category iff non-empty; the month range iff a month is given |
| CsvExport.FileName | src/pages/api/transactions/export.ts:64 | the name starts with "transactions" and ends with ".csv" |
| CsvExport.FileNameMonth | src/pages/api/transactions/export.ts:64 | no month gives "transactions.csv"; otherwise the month reads back from between `_` and ".csv" |
| CsvExport.Handle | src/pages/api/transactions/export.ts:12-69 | 405 iff the method is not GET; 401 iff a GET without a non-empty user id; 500 without a query iff a signed-in GET names a non-empty month whose end is an Invalid Date; otherwise a signed-in GET queries with the filters of `ExportFilters`; 500 iff that query fails, with its message; otherwise the CSV file is answered, named from the date, with the text of `BuildCsv` over the rows, null read as none |
| CsvImport.ReplaceCr | src/pages/api/transactions/import.ts:66 | every CR becomes LF, and nothing else changes |
| CsvImport.NormalizeNewlines | src/pages/api/transactions/import.ts:66 | no CR is left |
| CsvImport.MixedLineEndings | src/pages/api/transactions/import.ts:66 | lines joined by any mix of CRLF, lone CR and LF normalise to the same lines joined by LF |
| CsvImport.NormalizeStep | src/pages/api/transactions/import.ts:66 | one line with a CRLF, CR or LF ending normalises to the line and one LF |
| CsvImport.NormalizeWithoutCr | src/pages/api/transactions/import.ts:66 | text without CR is left unchanged |
| CsvImport.CrLfJoin | src/pages/api/transactions/import.ts:66 | lines joined by CRLF become the lines joined by LF |
| CsvImport.WindowsLineEndings | src/pages/api/transactions/import.ts:66 | lines joined by CRLF split back into the same lines |
| Text.SplitJoin | src/pages/api/transactions/import.ts:66 | lines without the separator, joined by it, split back into the same lines |
| Text.JoinSplit | src/pages/api/transactions/import.ts:66 | splitting a text and joining it again gives the text |
| CsvImport.TrimmedLines | src/pages/api/transactions/import.ts:69-70 | the kept lines start and end with a line that is not blank |
| CsvImport.TrimmedLinesExact | src/pages/api/transactions/import.ts:69-70 | the kept lines are a contiguous run of the lines, and every line outside it is blank |
| CsvImport.DropBlankEdges | src/pages/api/transactions/import.ts:69-70 | the two `while` loops yield `TrimmedLines` |
| CsvImport.ShiftBlank | src/pages/api/transactions/import.ts:69 | the shift loop drops exactly the leading blank lines |
| CsvImport.PopBlank | src/pages/api/transactions/import.ts:70 | the pop loop drops exactly the trailing blank lines |
| CsvImport.HeaderCells | src/pages/api/transactions/import.ts:76 | one cell per parsed header field, trimmed and lower-cased |
| CsvImport.IndexOf | src/pages/api/transactions/import.ts:78-82 | -1 iff the name is absent, otherwise the position of its first occurrence |
| CsvImport.MissingColumnsExact | src/pages/api/transactions/import.ts:84-88 | a name is reported iff it is required and absent from the header |
| CsvImport.MissingColumnsOrdered | src/pages/api/transactions/import.ts:84-88 | the missing names come in the order type, amount, category, date |
| CsvImport.ColumnsOf | src/pages/api/transactions/import.ts:78-82 | each required column points at its name; note is -1 iff absent, otherwise it points at "note" |
| CsvImport.HeaderAnyCase | src/pages/api/transactions/import.ts:46-48 | a header naming the four required columns in any letter case misses none |
| CsvImport.Cell | src/pages/api/transactions/import.ts:106-110 | a cell past the end of the line reads as "" |
| CsvImport.MessageLine | src/pages/api/transactions/import.ts:114-130 | every message starts with "Line ", then the line number, then ": " |
| CsvImport.CheckCells | src/pages/api/transactions/import.ts:104-141 | a non-blank line is rejected with its own line number, or accepted as a row satisfying `ValidImportRow` |
| CsvImport.CheckOrder | src/pages/api/transactions/import.ts:104-141 | the checks run in order type, amount, category, date, the first failing one naming the error; a line is accepted iff all pass, as the row of the upper-cased type, the number, the category, the date and the note when non-empty |
| CsvImport.CheckLine | src/pages/api/transactions/import.ts:100-102 | a line is skipped iff it is blank |
| CsvImport.FourCellsAccepted | src/pages/api/transactions/import.ts:104-141 | four cells that pass the checks give the row with the upper-cased type, the parsed amount, and no note |
| CsvImport.TypeCaseInsensitive | src/pages/api/transactions/import.ts:106 | "income" is accepted as INCOME |
| CsvImport.ImportedRowPassesSchema | src/pages/api/transactions/import.ts:113-141 | an accepted row within the length limits is also accepted by the create schema, unchanged |
| CsvImport.LongCategoryOnlyImported | src/pages/api/transactions/import.ts:124-141 | a 51-character category passes the import and fails the create schema |
| CsvImport.ValidateRows | src/pages/api/transactions/import.ts:97-142 | the row loop yields the errors and rows of `ErrorsOf` and `RowsOf` |
| CsvImport.EveryLineCounted | src/pages/api/transactions/import.ts:100-142 | every non-blank data line gives exactly one error or one row |
| CsvImport.ErrorLines | src/pages/api/transactions/import.ts:114-130 | every error names a data line, from 2 to the line count, whose check gives that error |
| CsvImport.ErrorsOrdered | src/pages/api/transactions/import.ts:100-142 | errors come in strictly increasing line order |
| CsvImport.RowsValid | src/pages/api/transactions/import.ts:134-141 | every accepted row satisfies `ValidImportRow` |
| CsvImport.NoValidRowsUnreachable | src/pages/api/transactions/import.ts:69-72 | with a non-blank last line and no errors, some row is accepted |
| CsvImport.Details | src/pages/api/transactions/import.ts:148 | the messages of the first 25 errors, in order |
| CsvImport.ChunkCount | src/pages/api/transactions/import.ts:157-160 | the fewest chunks of 500 that hold the rows |
| CsvImport.Chunks | src/pages/api/transactions/import.ts:160-161 | chunk k holds between 1 and 500 rows |
| CsvImport.ChunksPartition | src/pages/api/transactions/import.ts:160-161 | the chunks, concatenated, are the rows in order |
| CsvImport.FirstFailure | src/pages/api/transactions/import.ts:162-163 | the first chunk whose insert fails; every earlier chunk succeeded |
| CsvImport.InsertChunks | src/pages/api/transactions/import.ts:157-167 | all rows are counted and every chunk sent when none fails; otherwise the chunks up to the failing one are sent and 500 rows per earlier chunk are counted |
| CsvImport.PartialCommit | src/pages/api/transactions/import.ts:160-165 | before a failing chunk, the stored rows are exactly the prefix of 500 per earlier chunk, and it is shorter than all rows |
| CsvImport.ImportLines | src/pages/api/transactions/import.ts:76-167 | the missing columns, else the first 25 errors, else the insert outcome; never "No valid rows found" |
| CsvImport.Handle | src/pages/api/transactions/import.ts:50-168 | 405 before 401, and 401 for a POST without a non-empty user id; "CSV is empty" iff the text is blank; too few lines iff fewer than two kept lines; otherwise the outcome of `ImportLines`; nothing is stored on an early answer; never "No valid rows found" |
| JsNumber.StringToNumber | src/lib/finance.ts:9 | blank text is 0; decimal digits read as their value; a negative value needs a leading minus |
| JsNumber.NotANumberIsNaN | src/lib/finance.test.ts:17 | "not-a-number" is NaN |
| JsNumber.NatRoundTrip | src/lib/validation/transaction.ts:12-13 | a natural number written in decimal reads back as itself |
| ChartColors.RoundHalfUp | src/lib/chartColors.ts:4 | the nearest integer to num/den, a half rounding up |
| ChartColors.MakeHslPalette | src/lib/chartColors.ts:1-7 | n colours for n >= 1 and none otherwise, with no division by zero |
| ChartColors.PaletteEntry | src/lib/chartColors.ts:3-5 | colour i is "hsl(" + hue + " 70% 55%)" with hue in [0, 360], and the hue reads back from its digits |
| ChartColors.HueBounds | src/lib/chartColors.ts:4 | every hue lies in [0, 360] |
| ChartColors.FirstHueIsZero | src/lib/chartColors.ts:4 | the first hue is 0 |
| ChartColors.HueMonotone | src/lib/chartColors.ts:4 | hues never decrease along the palette |
| ChartColors.HueStrictWhenFew | src/lib/chartColors.ts:4 | with at most 360 colours the hues strictly increase |
| ChartColors.LastHueCanBe360 | src/lib/chartColors.ts:4 | with 1000 colours the last hue is 360 |

## Left out

- Amounts are exact reals. IEEE-754 rounding is not modelled, nor is `toFixed` money formatting. The unit test's `toBeCloseTo` expectations are therefore stated as exact equalities.
- JsNumber.StringToNumber: models `Number(text)` for trimmed decimal text. This covers an optional sign, digits with an optional fraction, and `Infinity`. Hexadecimal, binary, octal and exponent forms read as NaN here, unlike JavaScript.
- TransactionValidation.CreateAcceptance: the caps (category 1 to 50, note at most 200, list category at most 100) count characters, while Zod counts UTF-16 code units; text outside the Basic Multilingual Plane is therefore measured shorter than the source measures it. The same holds for TrimmedField, NoteField, CategoryParam, ValidTransaction and ValidListQuery.
- ChartColors.MakeHslPalette: n is an integer; a fractional count, which `Array.from` would truncate, is not modelled.
- Text.Trim: trimming and case mapping cover ASCII only. Unicode whitespace and case folding are not modelled.
- Stored values reach the export as the text `String(value)` gives them. Number-to-string formatting is not modelled.
- JSON bodies are modelled as missing, null, text or number. Booleans, arrays and objects are left out.
- Zod's error object is reduced to the list of failing field names; its flattening is not modelled.
- The end of a month comes from `Date.setMonth`/`toISOString`. It depends on the runtime clock and time zone, so it is a parameter. Its absence stands for an Invalid Date (month "2026-13" in the list, any non-date month in the export), on which `toISOString` throws; the model answers that with `MonthEndFailed`, a 500, as the framework does for an uncaught error. Which months give an Invalid Date is left to the parameter.
- Storage, sign-in and the rate limiter are parameters. The Supabase query builders, response headers and JSON bodies are not part of this model, and neither is the `@/lib/rateLimit` module. The `X-RateLimit-*` headers are left out.
- The `.order`/`.range` of the list query is not modelled: storage does the ordering and slicing.
- Finance.Bump: maps stand for JavaScript objects used as records, without their prototype. A category or date naming an `Object.prototype` member ("constructor", "toString", "__proto__", …) reads an inherited value or is dropped by the source, but adds plainly here. This holds equally for Finance.GroupExpensesByCategory, Finance.GroupExpensesByDay, Finance.UsageFor, Finance.ComputeBudgetUsage, Dashboard.BuildBudgetMap, Dashboard.ExpenseByCategory and Dashboard.ExpenseByDay.
- Finance.SortByPct: `Array.prototype.sort` is modelled as an insertion sort. The contract states only sortedness and permutation, because the order of ties depends on JavaScript's insertion order.
- Finance.ComputeBudgetUsage: builds its list by walking a Dafny set, so the insertion order of object keys and `Set` is not modelled. Only `IsBudgetUsage` is promised.
- CsvImport.InsertChunks: a reply missing for a chunk is read as success.
- CsvImport.PartialCommit: rows of earlier chunks stay stored after a later chunk fails. This is stated, not prevented, as in the source.
- CsvCodec.ParsedFields: records are split at line breaks before they are parsed, as in the source, so quoted line breaks are not supported. The field count is stated for lines without quotes (`CsvCodec.ParseUnquoted`) and through examples.
- Line numbers in import errors count the kept lines, after leading blank lines are dropped, as the source does.
- The React rendering, the chart components, the data-fetching hooks, the settings and transactions pages and the preferences context are not part of this model.
