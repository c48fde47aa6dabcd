# Exceptions versus TryParse: a model of the benchmark data rules

The repository times two ways of turning strings into integers when some of
the strings are malformed: `Int32.Parse` under a `try`/`catch`, and
`Int32.TryParse`, which reports failure through its return value. It does this
twice. `ParsingPerformance` converts bare strings and uses the fallback `-1`.
`XmlParsingExample` builds a document of item records, maps each record to an
`ItemEntity` and uses the fallback `0` for the cost field.

This project models the data rules around the stopwatch calls and proves
what they guarantee:

- **Corrupted inputs.** Each input is the decimal rendering of a draw
  from `Random.Next()`. It gets the prefix `"X"` exactly when the following
  `Random.NextDouble()` draw is below the error rate (module `InputGeneration`).
- **The random stream.** `System.Random` is a class over an abstract stream
  of samples, one for each seed (module `SystemRandom`). Each call consumes
  the next sample. `Next()` reads the sample as an integer in
  `[0, Int32.MaxValue)` and `NextDouble()` reads it as a fraction in `[0, 1)`.
  Iteration `k` therefore reads samples `2k` and `2k + 1`. Both benchmark
  loops read the stream this way, so with equal seed and count they see
  identical inputs.
- **Base-10 text** (module `Int32Text`). `ToDecimal` renders a natural number
  in base 10. `Int32Parse` turns a digit string into its value: a string with
  any other character fails with a format error, and a value above
  `Int32.MaxValue` fails with an overflow error. `Int32TryParse` is the
  non-throwing form, and its out value is `0` on failure. Both directions of
  the round trip between rendering and parsing are proved.
- **The two conversion strategies and the loops** (module
  `ParsingPerformance`, and `XmlParsingExample` for the record version).
- **Item records** (module `XmlParsingExample`): building item `i`, the lookup
  that returns the first property with a given name or null, and the two
  mapping loops.

C# `null` is `None` of `Wrappers.Option`. An exception is `Failure` of
`Wrappers.Result`, or `Escaped` of `ParsingPerformance.Conversion` when it
leaves a handler that does not catch it. The error rate and the
`NextDouble()` draws are Dafny `real` values, which are exact rationals. The
timed loops in the source throw away what they compute. Here they return
the inputs they drew and the values or entities they produced, so that
their contracts can say what those are.

The code and its design intent differ in two places, and the model follows
the code in both:

- The benchmark compares the exception-guarded loop at
  `ExceptionsPerformance/ParsingPerformance.cs:46-51` with the `TryParse` loop
  at `ExceptionsPerformance/ParsingPerformance.cs:71-74` as if they computed the same value.
  They do not on every string. The handler there catches only `FormatException`,
  so a digit string above `Int32.MaxValue` ends in an uncaught
  `OverflowException` on the guarded path but gives `-1` on the `TryParse`
  path. This is proved for `"2147483648"`. Generated draws never reach this
  case, and the loops are proved never to let an exception escape.
- The `TryParse` loop of `XmlParsingExample` parses `ItemCode`, not
  `ItemCost`. The model shows that every cost it produces is `0` (see
  Findings).

## Model

| member | source | states |
|---|---|---|
| Int32Text.ToDecimal | ExceptionsPerformance/ParsingPerformance.cs:42 | the rendering of a number is a non-empty digit string with no superfluous leading zero; it starts with '0' exactly for 0 |
| Int32Text.DigitsValueOfToDecimal | ExceptionsPerformance/ParsingPerformance.cs:42 | the digits of a rendering denote the rendered number |
| Int32Text.ParseToDecimal | ExceptionsPerformance/ParsingPerformance.cs:42-48 | parsing the rendering of n gives n when n is at most Int32.MaxValue, and an overflow error otherwise |
| Int32Text.ToDecimalOfDigitsValue | ExceptionsPerformance/ParsingPerformance.cs:42-48 | reverse round trip: a canonical digit string is the rendering of the number it denotes |
| Int32Text.NonDigitIsFormatError | ExceptionsPerformance/ParsingPerformance.cs:47-49 | a string containing any non-digit, and the empty string, is a format error |
| Int32Text.Int32Parse | ExceptionsPerformance/ParsingPerformance.cs:48 | a successful parse yields a value in [0, Int32.MaxValue] |
| Int32Text.Int32ParseNullable | ExceptionsPerformance/XmlParsingExample.cs:63 | null throws ArgumentNullException and nothing else does; a non-null string parses exactly when it is a digit string within range, to the value of its digits |
| Int32Text.Int32TryParse | ExceptionsPerformance/ParsingPerformance.cs:72 | TryParse succeeds exactly when Parse would, that is on a non-null digit string within range; the out value is the parsed number on success and 0 on every failure, null included |
| SystemRandom.Random.constructor | ExceptionsPerformance/ParsingPerformance.cs:37 | a new generator reads the stream its seed determines, from the start |
| SystemRandom.Random.Next | ExceptionsPerformance/ParsingPerformance.cs:42 | returns the current sample as an integer in [0, Int32.MaxValue) and moves past it |
| SystemRandom.Random.NextDouble | ExceptionsPerformance/ParsingPerformance.cs:43 | returns the current sample as a fraction in [0, 1) and moves past it |
| InputGeneration.CorruptedInput | ExceptionsPerformance/ParsingPerformance.cs:42-45 | the input starts with "X" exactly when the switch is below the error rate; it then fails with a format error, and otherwise parses to the drawn integer |
| InputGeneration.GeneratedInputs | ExceptionsPerformance/ParsingPerformance.cs:41-45 | a loop of count iterations yields exactly count inputs (none when count is not positive), the k-th made from samples 2k and 2k+1 |
| InputGeneration.DrawInput | ExceptionsPerformance/ParsingPerformance.cs:42-45 | one iteration's draws consume two samples, Next before NextDouble, and give that iteration's input |
| InputGeneration.PrefixedNeverParses | ExceptionsPerformance/ParsingPerformance.cs:44-48 | no X-prefixed string parses |
| InputGeneration.GeneratedInputsPrefix | ExceptionsPerformance/ParsingPerformance.cs:41-45 | the inputs of a shorter run are a prefix of those of a longer run on the same stream |
| InputGeneration.NoCorruptionAtRateZero | ExceptionsPerformance/ParsingPerformance.cs:43-45 | at error rate 0 every input parses to its drawn integer |
| InputGeneration.AllCorruptedAtRateOne | ExceptionsPerformance/XmlParsingExample.cs:187-191 | at error rate 1 every input carries the prefix and fails with a format error |
| ParsingPerformance.ExceptionGuarded | ExceptionsPerformance/ParsingPerformance.cs:46-51 | a digit string within range converts to its value, a string with a non-digit to the fallback, and only an out-of-range digit string lets an exception escape, which is then an OverflowException |
| ParsingPerformance.StatusReturn | ExceptionsPerformance/ParsingPerformance.cs:71-74 | a digit string within range converts to its value, every other string to the fallback |
| ParsingPerformance.StrategiesAgree | ExceptionsPerformance/ParsingPerformance.cs:46-74 | the two strategies give the same value on every string that does not overflow |
| ParsingPerformance.StrategiesDivergeOnOverflow | ExceptionsPerformance/ParsingPerformance.cs:46-51 | on "2147483648" the guarded strategy lets an OverflowException escape while TryParse gives -1 |
| ParsingPerformance.ConvertGenerated | ExceptionsPerformance/ParsingPerformance.cs:42-51 | on a generated input both strategies give the drawn integer, or the fallback when the input was corrupted |
| ParsingPerformance.TimeTryCatch | ExceptionsPerformance/ParsingPerformance.cs:35-56 | the loop processes exactly the generated inputs of its seed and count; each value is the drawn integer, or -1 for a corrupted input |
| ParsingPerformance.TimeTryParse | ExceptionsPerformance/ParsingPerformance.cs:60-79 | the same inputs and the same values as the exception-guarded loop |
| ParsingPerformance.TimeStringParsePoint | ExceptionsPerformance/ParsingPerformance.cs:18-24 | at one sweep point (seed 1, 50000 iterations) both loops see identical inputs and compute identical values |
| XmlParsingExample.GetPropertyValue | ExceptionsPerformance/XmlParsingExample.cs:225-230 | null exactly when no property has the name; otherwise the value of a property with that name that no earlier property shares |
| XmlParsingExample.SampleItem | ExceptionsPerformance/XmlParsingExample.cs:192-206 | a sample item has four properties whose names are pairwise distinct |
| XmlParsingExample.SampleItemLookup | ExceptionsPerformance/XmlParsingExample.cs:192-206 | item i's ItemId is i, ItemDescription "ItemId: i Desc", ItemCode "P123-456-i", and ItemCost the payload |
| XmlParsingExample.SampleItemMissingName | ExceptionsPerformance/XmlParsingExample.cs:225-230 | looking up a name a sample item lacks gives null, not an error |
| XmlParsingExample.SampleData | ExceptionsPerformance/XmlParsingExample.cs:186-208 | count items (none when count is not positive) in index order, item k carrying the k-th generated input as its cost |
| XmlParsingExample.BuildSampleDataBadString | ExceptionsPerformance/XmlParsingExample.cs:177-210 | the document built in the loop is the sample data of the stream for seed 1 |
| XmlParsingExample.CatchAllParse | ExceptionsPerformance/XmlParsingExample.cs:143-147 | a non-null digit string within range converts to its value; anything else, null included, to the fallback |
| XmlParsingExample.TryCatchEntity | ExceptionsPerformance/XmlParsingExample.cs:140-147 | the entity carries the looked-up id, description and code; its cost lies in [0, Int32.MaxValue], is the parsed ItemCost when that parses and 0 otherwise, a missing ItemCost included |
| XmlParsingExample.TryParseEntity | ExceptionsPerformance/XmlParsingExample.cs:163-169 | the entity carries the looked-up id, description and code; its cost lies in [0, Int32.MaxValue], is the parsed value of the named property when that parses and 0 otherwise, a missing property included |
| XmlParsingExample.CatchAllMatchesTryParse | ExceptionsPerformance/XmlParsingExample.cs:143-169 | catching every exception with fallback 0 gives TryParse's out value, for every string and for null |
| XmlParsingExample.TryParseCostMatchesTryCatch | ExceptionsPerformance/XmlParsingExample.cs:161-172 | a try-parse mapping that reads ItemCost builds the same entity as the exception-guarded mapping, for every item |
| XmlParsingExample.TryParseCodeCostIsZero | ExceptionsPerformance/XmlParsingExample.cs:167-169 | on a sample item, parsing ItemCode gives cost 0 whatever the payload |
| XmlParsingExample.TryParseCodeDisagrees | ExceptionsPerformance/XmlParsingExample.cs:143-169 | on an item whose ItemCost is "5", the exception-guarded mapping gives cost 5 and the try-parse one as written gives 0 |
| XmlParsingExample.MapTryCatch | ExceptionsPerformance/XmlParsingExample.cs:138-149 | one entity per item, in order: ids and texts from the lookup, the cost parsed under a catch-all with fallback 0 |
| XmlParsingExample.MapTryParse | ExceptionsPerformance/XmlParsingExample.cs:161-172 | one entity per item, in order: ids and texts from the lookup, the cost TryParse's out value for the named property |
| XmlParsingExample.TimeTryCatch | ExceptionsPerformance/XmlParsingExample.cs:131-152 | entity k carries item k's id, description and code, and as cost the drawn integer, or 0 when the input was corrupted |
| XmlParsingExample.TimeTryParse | ExceptionsPerformance/XmlParsingExample.cs:154-175 | as written: entity k carries item k's id, description and code, and cost 0 whatever the input |
| XmlParsingExample.TimeTryParseCorrected | ExceptionsPerformance/XmlParsingExample.cs:154-175 | with ItemCost parsed: the same entities as the exception-guarded pipeline |
| XmlParsingExample.BenchmarksPoint | ExceptionsPerformance/XmlParsingExample.cs:89-94 | at one sweep point (50000 items) the pipelines as written agree on entity k exactly when its input was corrupted or its draw was 0 |
| XmlParsingExample.StrictEntity | ExceptionsPerformance/XmlParsingExample.cs:59-64 | building the entity succeeds exactly when ItemCost is present and parses; a missing ItemCost throws ArgumentNullException, a present one the parse error; on success the cost is the parsed value, the id and the code are ItemCode and the description ItemDescription |
| XmlParsingExample.StrictMapping | ExceptionsPerformance/XmlParsingExample.cs:57-67 | materialising the unguarded mapping succeeds exactly when every item's cost parses, with one matching entity per item; otherwise it throws the error of the first item that fails |
| XmlParsingExample.StrictMappingThrowsAtRateOne | ExceptionsPerformance/XmlParsingExample.cs:54-67 | with error rate 1 and a non-empty document, the unguarded mapping throws a FormatException |

## Left out

- Stopwatch and TimeSpan timing, including `TimeSpan.Subtract`: these are clock readings, so the loops return what they compute instead of their elapsed time. The split between parse-only and full-pipeline timing windows disappears with them.
- The `for (double i = 0; i < 1; i += .1)` sweeps in `Time_string_parse`, `Benchmarks`, `Benchmark_try_catch` and `Benchmark_tryparse`: how many points they visit depends on floating-point accumulation. One point of each sweep is modelled for a given error rate (`TimeStringParsePoint`, `BenchmarksPoint`). The single-strategy sweeps add nothing beyond `TimeTryCatch` and `TimeTryParse`.
- `ITestOutputHelper` output, the xUnit wiring, the report formats and `Build_sample_data`, which only prints: these are presentation.
- `XDocument`/`XElement` construction and `XmlSerializer.Deserialize` (`DeserializeRawData`): these are foreign libraries driven by reflection. The document is its sequence of items, and deserialising it gives that sequence back.
- The internals of `System.Random`: the stream for each seed is a parameter (`Seeding`). Nothing is assumed about which values it holds beyond the ranges of `Next()` and `NextDouble()`.
- Floating-point semantics: the error rate and the fractions are exact rationals.
- `Int32.Parse` and `Int32.TryParse` handling of signs, white space, culture settings and non-ASCII digits: the model rejects every string that is not made of ASCII digits. The generated inputs never hold any of these.
- `Deserialize_xml_to_item_class_no_linq_try_catch` and `..._try_parse` only call the pipelines and print. The `int.TryParse(null, ...)` call in the first is covered by `Int32TryParse` (null gives `(false, 0)`).
- The lazy `Select(...).ToList()` of the unguarded test builds a one-element list per item. `StrictMapping` keeps the entity itself and throws the first failure, as `ToList` would.
- 32-bit wrap-around of the loop counters: the counts never come near `Int32.MaxValue`.

## Findings

| source | as written | input that shows it | evidently intended | confidence | as-written member | corrected member |
|---|---|---|---|---|---|---|
| ExceptionsPerformance/XmlParsingExample.cs:168 | the try-parse loop parses the `ItemCode` property, whose value `"P123-456-i"` never parses, so every entity's cost is 0 | an item whose ItemCost is `"5"`: the exception-guarded loop gives cost 5, the try-parse loop gives 0 | parse `ItemCost`, as the exception-guarded loop does at line 144 | high; not executed | XmlParsingExample.TryParseCodeDisagrees | XmlParsingExample.TimeTryParseCorrected |
