/**
 * The `aws_cron` and `unix_cron` provider functions. Both parse a six-field
 * AWS EventBridge cron expression (minute hour day-of-month month day-of-week
 * year) with the cronplan library, which is not modelled: it is a parameter
 * of type `CronParser`. `aws_cron` re-renders the parsed expression inside
 * `cron(...)`; `unix_cron` keeps the first five fields, turns the "no specific
 * value" marker `?` into the wildcard `*`, and drops the year.
 */
module CronFunction {
  import opened Wrappers
  import opened Fields

  /**
   * A parsed expression: the string form of each field, and the string form
   * of the whole expression (cronplan's `Expression.String()`).
   */
  datatype CronExpr = CronExpr(
    minute: string,
    hour: string,
    dayOfMonth: string,
    month: string,
    dayOfWeek: string,
    year: string,
    canonical: string)

  /** cronplan.Parse: the parsed expression, or the text of its error. */
  type CronParser = string -> Result<CronExpr, string>

  /** The AWS marker for "no specific value" in day-of-month or day-of-week. */
  const NoSpecificValue := "?"

  /** The Unix wildcard. */
  const Wildcard := "*"

  /** The separator between cron fields. */
  const Space := ' '

  /** The six fields of an AWS expression, in AWS order. */
  function AwsFields(e: CronExpr): seq<string> {
    [e.minute, e.hour, e.dayOfMonth, e.month, e.dayOfWeek, e.year]
  }

  /** No field contains the separator, as holds for fields the parser split on whitespace. */
  predicate Tokenized(e: CronExpr) {
    NoSeparator(AwsFields(e), Space)
  }

  /** The five fields `unix_cron` reuses (all but the year) contain no separator. */
  predicate UnixTokenized(e: CronExpr) {
    NoSeparator([e.minute, e.hour, e.dayOfMonth, e.month, e.dayOfWeek], Space)
  }

  /** The canonical string is the six fields joined by single spaces. */
  predicate CanonicalIsFields(e: CronExpr) {
    e.canonical == Join(AwsFields(e), Space)
  }

  /** Both functions' output form: `cron(` + body + `)`. */
  function WrapCron(body: string): string {
    "cron(" + body + ")"
  }

  /** The inverse of `WrapCron`: the body of a `cron(...)` string, if it has that form. */
  function UnwrapCron(s: string): (body: Option<string>)
    ensures body.Some? ==> WrapCron(body.value) == s
  {
    if |s| >= 6 && s[..5] == "cron(" && s[|s| - 1] == ')' then Some(s[5..|s| - 1]) else None
  }

  lemma UnwrapWrapCron(body: string)
    ensures UnwrapCron(WrapCron(body)) == Some(body)
  {
    var s := WrapCron(body);
    assert s[..5] == "cron(";
    assert s[5..|s| - 1] == body;
  }

  /**
   * `aws_cron`: on a parse failure the function's error carries the parser's
   * message and no result is set; otherwise the result is the canonical
   * expression inside `cron(...)`.
   */
  function AwsCron(input: string, parse: CronParser): (r: Result<string, string>)
    ensures r.Failure? <==> parse(input).Failure?
    ensures r.Failure? ==> r.error == parse(input).error
    ensures r.Success? ==> UnwrapCron(r.value) == Some(parse(input).value.canonical)
  {
    match parse(input)
    case Failure(err) => Failure(err)
    case Success(expr) =>
      UnwrapWrapCron(expr.canonical);
      Success(WrapCron(expr.canonical))
  }

  /**
   * The five Unix fields of a parsed expression: every position starts as the
   * wildcard, minute, hour and month are copied, and day-of-month and
   * day-of-week are copied unless they are the `?` marker.
   */
  function UnixFields(e: CronExpr): (fs: seq<string>)
    ensures |fs| == 5
    ensures fs[0] == e.minute && fs[1] == e.hour && fs[3] == e.month
    ensures e.dayOfMonth == NoSpecificValue ==> fs[2] == Wildcard
    ensures e.dayOfMonth != NoSpecificValue ==> fs[2] == e.dayOfMonth
    ensures e.dayOfWeek == NoSpecificValue ==> fs[4] == Wildcard
    ensures e.dayOfWeek != NoSpecificValue ==> fs[4] == e.dayOfWeek
    ensures fs[2] != NoSpecificValue && fs[4] != NoSpecificValue
  {
    var fs := [Wildcard, Wildcard, Wildcard, Wildcard, Wildcard];
    var fs := fs[0 := e.minute][1 := e.hour];
    var fs := if e.dayOfMonth != NoSpecificValue then fs[2 := e.dayOfMonth] else fs;
    var fs := fs[3 := e.month];
    if e.dayOfWeek != NoSpecificValue then fs[4 := e.dayOfWeek] else fs
  }

  /**
   * `unix_cron`: on a parse failure the function's error carries the parser's
   * message and no result is set; otherwise the result is the five Unix fields
   * joined by spaces inside `cron(...)`.
   */
  function UnixCron(input: string, parse: CronParser): (r: Result<string, string>)
    ensures r.Failure? <==> parse(input).Failure?
    ensures r.Failure? ==> r.error == parse(input).error
    ensures r.Success? ==> UnwrapCron(r.value) == Some(Join(UnixFields(parse(input).value), Space))
  {
    match parse(input)
    case Failure(err) => Failure(err)
    case Success(expr) =>
      var body := Join(UnixFields(expr), Space);
      UnwrapWrapCron(body);
      Success(WrapCron(body))
  }

  /** The AWS-to-Unix reading of one day field: `?` becomes `*`, anything else stays. */
  function DayFieldToUnix(f: string): (u: string)
    ensures u != NoSpecificValue
  {
    if f == NoSpecificValue then Wildcard else f
  }

  /**
   * A successful `unix_cron` result splits into exactly five fields, in the
   * order minute, hour, day-of-month, month, day-of-week, and neither day
   * field is `?`.
   */
  lemma UnixCronFiveFields(input: string, parse: CronParser)
    requires parse(input).Success? && UnixTokenized(parse(input).value)
    ensures UnixCron(input, parse).Success?
    ensures UnwrapCron(UnixCron(input, parse).value).Some?
    ensures
      var e := parse(input).value;
      var fs := Split(UnwrapCron(UnixCron(input, parse).value).value, Space);
      && fs == [e.minute, e.hour, DayFieldToUnix(e.dayOfMonth), e.month, DayFieldToUnix(e.dayOfWeek)]
      && fs[2] != NoSpecificValue && fs[4] != NoSpecificValue
  {
    var e := parse(input).value;
    var fs := UnixFields(e);
    var a := [e.minute, e.hour, e.dayOfMonth, e.month, e.dayOfWeek];
    assert Space !in a[0] && Space !in a[1] && Space !in a[2] && Space !in a[3] && Space !in a[4];
    assert Space !in Wildcard;
    assert NoSeparator(fs, Space);
    SplitJoin(fs, Space);
  }

  /** The year of the parsed expression has no influence on `unix_cron`'s result. */
  lemma UnixCronIgnoresYear(input: string, parse1: CronParser, parse2: CronParser)
    requires parse1(input).Success? && parse2(input).Success?
    requires parse1(input).value.(year := "", canonical := "") == parse2(input).value.(year := "", canonical := "")
    ensures UnixCron(input, parse1) == UnixCron(input, parse2)
  {
  }

  /**
   * When the canonical string is the six parsed fields, the two functions
   * agree: the `unix_cron` fields are the `aws_cron` fields with the year
   * dropped and each day field translated by `DayFieldToUnix`.
   */
  lemma AwsAndUnixCronAgree(input: string, parse: CronParser)
    requires parse(input).Success?
    requires Tokenized(parse(input).value) && CanonicalIsFields(parse(input).value)
    ensures AwsCron(input, parse).Success? && UnixCron(input, parse).Success?
    ensures
      var aws := Split(UnwrapCron(AwsCron(input, parse).value).value, Space);
      var unix := Split(UnwrapCron(UnixCron(input, parse).value).value, Space);
      && |aws| == 6
      && unix == [aws[0], aws[1], DayFieldToUnix(aws[2]), aws[3], DayFieldToUnix(aws[4])]
  {
    var e := parse(input).value;
    var a := AwsFields(e);
    assert Space !in a[0] && Space !in a[1] && Space !in a[2] && Space !in a[3] && Space !in a[4];
    assert UnixTokenized(e);
    SplitJoin(a, Space);
    UnixCronFiveFields(input, parse);
  }
}
