# timeconv: a verified model of the provider's own conversion logic

This project models the parts of the `timeconv` Terraform provider that the
provider itself decides, rather than delegating to Go's `time` package or the
`cronplan` parser:

- the `aws_cron` and `unix_cron` functions, which parse a six-field AWS
  EventBridge cron expression and render it as `cron(...)`, either unchanged
  or collapsed to five Unix fields with `?` turned into `*` and the year
  dropped (`cron_function.dfy`, module `CronFunction`);
- the `aws_at` function, which renders an RFC 3339 time as
  `at(YYYY-MM-DDTHH:MM:SS)` in the time's own zone (`aws_at_function.dfy`,
  module `AwsAtFunction`);
- the `time` data source read, which applies default layouts, checks the
  input location, the input and the output location in that order, and
  assembles its state, including the six-field AWS cron string `cron(t)`
  (`time_data_source.dfy`, module `TimeDataSource`).

Library calls are parameters. `cronplan.Parse` is a function
`string -> Result<CronExpr, string>`; a `CronExpr` holds the string form of
each field and of the whole expression. The time library is a `TimeEnv`: the
current time, `LoadLocation`, `ParseInLocation`, the wall clock of an instant
in a location, and `Format`. A time value (`CivilTime.Time`) is an instant in whole
Unix seconds, its wall clock, and its location.

Supporting modules: `Wrappers` (`Option`, `Result`), `Decimal` (Go's `%d`
and the zero-padded numeric layout elements, with their parsers), `Fields`
(`strings.Join` on one character and the matching split), `CivilTime`.
`TestCases` restates the repository's tests as lemmas, with the library
results they depend on as hypotheses.

## Model

| member | source | states |
|---|---|---|
| `CronFunction.AwsCron` | internal/provider/cron_function.go:40-53 | A parse failure gives an error carrying the parser's message and no result; on success the result unwraps from `cron(...)` to exactly the parser's canonical string. |
| `CronFunction.UnixFields` | internal/provider/cron_function.go:97-106 | Exactly five fields; minute, hour and month copied; day-of-month and day-of-week become `*` when they are `?` and are copied otherwise; neither is ever `?`. |
| `CronFunction.UnixCron` | internal/provider/cron_function.go:86-109 | A parse failure gives an error carrying the parser's message and no result; on success the result unwraps from `cron(...)` to the five Unix fields joined by single spaces. |
| `CronFunction.DayFieldToUnix` | internal/provider/cron_function.go:100-106 | The Unix reading of a day field is never `?`. |
| `CronFunction.UnixCronFiveFields` | internal/provider/cron_function.go:97-107 | When the five fields `unix_cron` reuses hold no space (the year may), a successful body splits on spaces into exactly five fields: minute, hour, translated day-of-month, month, translated day-of-week; neither day field is `?`. |
| `CronFunction.UnixCronIgnoresYear` | internal/provider/cron_function.go:97-107 | Two parses that differ only in year give the same `unix_cron` result: the year never reaches the output. |
| `CronFunction.AwsAndUnixCronAgree` | internal/provider/cron_function.go:46-107 | When the canonical string is the six fields, `aws_cron` has six fields and the `unix_cron` fields are its first five with each day field translated `?` to `*`. |
| `CronFunction.UnwrapWrapCron` | internal/provider/cron_function.go:51 | Removing the `cron(` and `)` wrapper recovers the wrapped body. |
| `Fields.SplitJoin` | internal/provider/cron_function.go:107 | Splitting a `Join` (Go's `strings.Join` on one character) of separator-free strings on the separator gives back the strings. |
| `AwsAtFunction.AtLayout` | internal/provider/aws_at_function.go:47 | Go's layout `2006-01-02T15:04:05` of a renderable wall clock (four-digit year, in-range fields) is 19 characters, with `-`, `-`, `T`, `:`, `:` at positions 4, 7, 10, 13 and 16. |
| `AwsAtFunction.AwsAt` | internal/provider/aws_at_function.go:40-49 | The result starts with `at(` and ends with `)`. |
| `AwsAtFunction.AwsAtRoundTrip` | internal/provider/aws_at_function.go:47 | For a renderable wall clock (four-digit year, in-range fields) the result is 23 characters and reads back through the fixed layout as exactly the input's wall clock. |
| `AwsAtFunction.AwsAtUsesOwnWallClock` | internal/provider/aws_at_function.go:46-47 | Two times with the same wall clock render the same, whatever their instant or zone: no conversion and no offset. |
| `Decimal.PadIntRoundTrip` | internal/provider/aws_at_function.go:47 | A numeric layout element (`PadInt`, Go's `appendInt`) of a value below 10^width is exactly width digits and reads back as the value. |
| `Decimal.IntToString` | internal/provider/time_data_source.go:172 | Go's `%d` is non-empty, starts with `-` exactly for negative values, and carries no padding: no leading zero except in `0` itself, and no `-0`. |
| `Decimal.IsDecimalOfIff` | internal/provider/time_data_source.go:172 | A string reads back as `x` and carries no padding exactly when it is the `%d` rendering of `x`: that rendering is the only unpadded spelling of the number. |
| `Decimal.IntToStringRoundTrip` | internal/provider/time_data_source.go:172 | The `%d` rendering of any integer reads back as that integer. |
| `Decimal.IntToStringHasNoSpace` | internal/provider/time_data_source.go:172 | A `%d` rendering never contains a space, so it stays one cron field. |
| `TimeDataSource.ResolveLayout` | internal/provider/time_data_source.go:89-92 | An empty or null layout resolves to RFC 3339; any other value is used as given; the result is never empty. |
| `TimeDataSource.DiagnosticTextDetermines` | internal/provider/time_data_source.go:94-133 | Two diagnostics with the same summary and detail are the same diagnostic: the summary names the failing step and the detail ends with the library's error text. |
| `TimeDataSource.Read` | internal/provider/time_data_source.go:76-152 | A failed input location ends the read with that one error and no state; otherwise a failed parse does the same with the parse error; a failed output location is recorded and then panics; otherwise there are no errors and the state (`AssembleState` of `t.In(outloc)`, modelled by `In`) records `input` as configured, the resolved layouts, both locations, and equal `aws_cron` and `cron`. |
| `TimeDataSource.CronFieldsOf` | internal/provider/time_data_source.go:171-173 | Six fields: the fifth is `?`, and the others are the unpadded `%d` renderings of minute, hour, day, month and year, each reading back as its value; no field holds a space. |
| `TimeDataSource.CronOf` | internal/provider/time_data_source.go:171-173 | Splitting `cron(t)` on single spaces gives back exactly those six fields. |
| `TimeDataSource.ReadUnixIsInputInstant` | internal/provider/time_data_source.go:135-148 | The recorded `unix` is the instant that was read. |
| `TimeDataSource.ReadUnixIgnoresOutputLocation` | internal/provider/time_data_source.go:123-148 | Reads that differ only in `output_location` record the same `unix`. |
| `TimeDataSource.ReadRendersOutputTime` | internal/provider/time_data_source.go:123-148 | `output`, `aws_cron` and `cron` all render the read instant on the output location's wall clock, with `time.Local` when no location is given. |
| `TimeDataSource.ReadStopsAtInputLocation` | internal/provider/time_data_source.go:94-104 | Once the input location fails, nothing but the input location and the loader affects the result: the parser is never consulted. |
| `TimeDataSource.ReadStopsAtParse` | internal/provider/time_data_source.go:106-116 | Once the parse fails, the output layout, output location, conversion and formatting do not affect the result. |
| `TimeDataSource.ReadChecked` | internal/provider/time_data_source.go:123-135 | The corrected read always returns; it has a state exactly when it has no errors; its state records the configuration as `Read` does; a failed output location yields that one error. |
| `TimeDataSource.ReadCheckedAgrees` | internal/provider/time_data_source.go:123-135 | Where `Read` returns, the corrected read returns the same; where `Read` panics, the corrected read returns the same errors and no state. |
| `TimeDataSource.UnknownOutputLocationPanics` | internal/provider/time_data_source.go:123-135 | With an empty input and an unknown output location, `Read` records the error and panics, and the corrected read returns the error alone. |
| `TestCases.NoonDailyExample` | internal/provider/cron_function_test.go:26-65 | `aws_cron("0 12 * * ? *")` is `cron(0 12 * * ? *)` and `unix_cron` of it is `cron(0 12 * * *)`. |
| `TestCases.FridayHourlyExample` | internal/provider/cron_function_test.go:34-73 | `aws_cron("0 * ? * FRI *")` is `cron(0 * ? * FRI *)` and `unix_cron` of it is `cron(0 * * * FRI)`. |
| `TestCases.RejectedExample` | internal/provider/cron_function_test.go:41-46 | When the parser refuses `0 12 * * * *`, both `aws_cron` and `unix_cron` (lines 76-81) fail with its message. |
| `TestCases.AwsAtExample` | internal/provider/aws_at_function_test.go:26-30 | A time whose wall clock is 2024-08-31T01:23:45 renders as `at(2024-08-31T01:23:45)`. |
| `TestCases.AwsAtUnreadableArgument` | internal/provider/aws_at_function.go:46 | An argument that does not read as RFC 3339 renders as Go's zero time: `at(0001-01-01T00:00:00)`. |
| `TestCases.DataSourceOutputLocations` | internal/provider/time_data_source_test.go:17-42 | The same input shown in Los Angeles and in UTC records the same `unix` 1676446500, RFC 3339 layouts, and `cron(t)` of each location's wall clock in `aws_cron` and `cron`. |
| `TestCases.DataSourceExplicitLayouts` | internal/provider/time_data_source_test.go:47-60 | Configured layouts and input location are used for the parse and recorded as given; `unix` is 1676414165. |
| `TestCases.CronOfLosAngelesExample` | internal/provider/time_data_source_test.go:25 | `cron(t)` of the wall clock 2023-02-14 23:35 is `35 23 14 2 ? 2023`. |
| `TestCases.CronOfUtcExample` | internal/provider/time_data_source_test.go:40 | `cron(t)` of the wall clock 2023-02-15 07:35 is `35 7 15 2 ? 2023`. |
| `TestCases.CronOfExplicitLayoutsExample` | internal/provider/time_data_source_test.go:58-59 | `cron(t)` of the wall clock 2023-02-14 22:36:05 is `36 22 14 2 ? 2023`: the seconds are dropped. |

## Left out

- The `parse`, `parse_in_location`, `format`, `timezone`, `zone_name` and `zone_offset` functions: each is a single call into Go's `time` package and the zone database, which are not part of this model.
- cronplan's validation and canonical rendering: the parser is a parameter. The lemmas that relate `aws_cron` to `unix_cron` assume the fields they read back contain no spaces, and that the canonical string is the six fields joined by spaces.
- Converting an instant to a wall clock and `time.Now()`: these are library behaviour and not deterministic, so they are fields of `TimeEnv` (`wallClock` and `now`). `time.Local` is the fixed location `CivilTime.Local`; only its wall clock, like every location's, comes from `TimeEnv.wallClock`.
- Sub-second precision: a `Time` is a whole number of Unix seconds, so the nanoseconds of `time.Now()`, a fractional second that `ParseInLocation` accepts after the seconds field, and the fraction that `Format` prints for a layout such as RFC 3339 with nanoseconds are not modelled. `output` under a fractional-second layout is therefore not modelled either; `unix`, `aws_cron` and `cron` use whole seconds in the source too.
- Plugin framework plumbing: `Schema`, `Metadata`, `Definition`, `Configure`, provider registration, argument decoding errors, `ConcatFuncErrors`, and the diagnostics of `Config.Get`, `Result.Set` and `State.Set`.
- The framework's rejection of a non-RFC 3339 argument to `aws_at` before the function runs. The model covers only the function's own handling, where the ignored reading error leaves the zero time.
- Unknown (not yet computed) attribute values: `TfString` is null or known.
- The unexported `input` and `output` time fields of the state struct: they are not part of the recorded state.
- The `at` attribute that the data source tests check: the data source's schema does not declare it.
- `unix` as a 64-bit integer: the model keeps it unbounded, since the time library's instants fit in 64 bits.
- `AwsAtFunction.AwsAt`: years outside 0..9999 follow Go's layout rule (sign, then at least four digits), but the length and read-back lemmas cover only four-digit years, which is all RFC 3339 input can give.
- `TestCases.DataSourceExplicitLayouts`: the `output` string `14 Feb 23 22:36 UTC` depends on Go's formatting and is stated only as `Format` of the UTC time with the configured layout; the `aws_cron` and `cron` strings are stated as `cron(t)` of the UTC wall clock, spelled out separately by `CronOfExplicitLayoutsExample`.
- `TestCases.DataSourceOutputLocations`: the `output` strings depend on Go's formatting and are not checked; the `aws_cron` and `cron` strings are stated as `cron(t)` of each wall clock, spelled out separately by `CronOfLosAngelesExample` and `CronOfUtcExample`.

## Findings

| source | as written | input that shows it | evidently intended | confidence | as-written member | corrected member |
|---|---|---|---|---|---|---|
| internal/provider/time_data_source.go:123-135 | A failed `output_location` load adds an error but does not return. Go's `time.LoadLocation` returns a nil location with its error, so `outloc` becomes nil and `t.In(outloc)` panics. | `output_location = "Nowhere/Bogus"` with any loadable input (lemma `TimeDataSource.UnknownOutputLocationPanics`) | Report the error and return without a state, as the input-location and parse failures do | high; relies on Go's documented `Time.In` panic on a nil location; not executed | `TimeDataSource.Read` | `TimeDataSource.ReadChecked` |
