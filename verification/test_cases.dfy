/**
 * The repository's test cases, restated as lemmas about the model. Library
 * results the tests rely on (what cronplan parses, which instant a time
 * string denotes) become hypotheses.
 */
module TestCases {
  import opened Wrappers
  import opened Decimal
  import opened Fields
  import opened CivilTime
  import opened CronFunction
  import opened AwsAtFunction
  import opened TimeDataSource

  // `aws_cron` and `unix_cron` (cron_function_test.go).

  /** The pieces of the noon-daily case: the Unix fields, their join, and both wrapped forms. */
  lemma NoonDailyPieces(e: CronExpr)
    requires e == CronExpr("0", "12", "*", "*", "?", "*", "0 12 * * ? *")
    ensures UnixFields(e) == ["0", "12", "*", "*", "*"]
    ensures WrapCron("0 12 * * ? *") == "cron(0 12 * * ? *)"
    ensures WrapCron("0 12 * * *") == "cron(0 12 * * *)"
  {
  }

  lemma NoonDailyJoin()
    ensures Join(["0", "12", "*", "*", "*"], Space) == "0 12 * * *"
  {
    assert Join(["*"], Space) == "*";
    assert Join(["*", "*"], Space) == "* *";
    assert Join(["*", "*", "*"], Space) == "* * *";
    assert Join(["12", "*", "*", "*"], Space) == "12 * * *";
  }

  /**
   * `aws_cron("0 12 * * ? *")` is `cron(0 12 * * ? *)` and `unix_cron("0 12 * * ? *")` is
   * `cron(0 12 * * *)`, for a parser that reads the input field by field.
   */
  lemma NoonDailyExample(parse: CronParser)
    requires parse("0 12 * * ? *") == Success(CronExpr("0", "12", "*", "*", "?", "*", "0 12 * * ? *"))
    ensures AwsCron("0 12 * * ? *", parse) == Success("cron(0 12 * * ? *)")
    ensures UnixCron("0 12 * * ? *", parse) == Success("cron(0 12 * * *)")
  {
    NoonDailyPieces(parse("0 12 * * ? *").value);
    NoonDailyJoin();
  }

  /** The pieces of the Friday-hourly case: the Unix fields, their join, and both wrapped forms. */
  lemma FridayHourlyPieces(e: CronExpr)
    requires e == CronExpr("0", "*", "?", "*", "FRI", "*", "0 * ? * FRI *")
    ensures UnixFields(e) == ["0", "*", "*", "*", "FRI"]
    ensures WrapCron("0 * ? * FRI *") == "cron(0 * ? * FRI *)"
    ensures WrapCron("0 * * * FRI") == "cron(0 * * * FRI)"
  {
  }

  lemma FridayHourlyJoin()
    ensures Join(["0", "*", "*", "*", "FRI"], Space) == "0 * * * FRI"
  {
    assert Join(["FRI"], Space) == "FRI";
    assert Join(["*", "FRI"], Space) == "* FRI";
    assert Join(["*", "*", "FRI"], Space) == "* * FRI";
    assert Join(["*", "*", "*", "FRI"], Space) == "* * * FRI";
  }

  /**
   * `aws_cron("0 * ? * FRI *")` is `cron(0 * ? * FRI *)` and `unix_cron("0 * ? * FRI *")` is
   * `cron(0 * * * FRI)`, for a parser that reads the input field by field.
   */
  lemma FridayHourlyExample(parse: CronParser)
    requires parse("0 * ? * FRI *") == Success(CronExpr("0", "*", "?", "*", "FRI", "*", "0 * ? * FRI *"))
    ensures AwsCron("0 * ? * FRI *", parse) == Success("cron(0 * ? * FRI *)")
    ensures UnixCron("0 * ? * FRI *", parse) == Success("cron(0 * * * FRI)")
  {
    FridayHourlyPieces(parse("0 * ? * FRI *").value);
    FridayHourlyJoin();
  }

  /**
   * "0 12 * * * *" gives both day fields a value, which AWS does not allow:
   * when the parser refuses it, both functions fail with the parser's message.
   */
  lemma RejectedExample(parse: CronParser)
    requires parse("0 12 * * * *").Failure?
    ensures AwsCron("0 12 * * * *", parse) == Failure(parse("0 12 * * * *").error)
    ensures UnixCron("0 12 * * * *", parse) == Failure(parse("0 12 * * * *").error)
  {
  }

  // `aws_at` (aws_at_function_test.go).

  lemma AtExampleYear()
    ensures PadInt(2024, 4) == "2024"
  {
    assert Digits(2024) == "2024";
  }

  lemma AtExampleTwoDigits()
    ensures PadInt(8, 2) == "08" && PadInt(31, 2) == "31" && PadInt(1, 2) == "01"
    ensures PadInt(23, 2) == "23" && PadInt(45, 2) == "45" && PadInt(0, 2) == "00"
  {
  }

  lemma AtExamplePieces(c: Civil)
    requires c == Civil(2024, 8, 31, 1, 23, 45)
    ensures AtLayout(c) == "2024" + "-" + "08" + "-" + "31" + "T" + "01" + ":" + "23" + ":" + "45"
  {
    AtExampleYear();
    AtExampleTwoDigits();
  }

  lemma AtExampleConcat()
    ensures "2024" + "-" + "08" + "-" + "31" + "T" + "01" + ":" + "23" + ":" + "45" == "2024-08-31T01:23:45"
  {
  }

  lemma AtExampleLayout(c: Civil)
    requires c == Civil(2024, 8, 31, 1, 23, 45)
    ensures AtLayout(c) == "2024-08-31T01:23:45"
  {
    AtExamplePieces(c);
    AtExampleConcat();
  }

  lemma AtExampleText()
    ensures "at(" + "2024-08-31T01:23:45" + ")" == "at(2024-08-31T01:23:45)"
  {
  }

  /** 2024-08-31T01:23:45Z renders as at(2024-08-31T01:23:45). */
  lemma AwsAtExample(t: Time)
    requires t.wall == Civil(2024, 8, 31, 1, 23, 45)
    ensures AwsAt(Some(t)) == "at(2024-08-31T01:23:45)"
  {
    AtExampleLayout(t.wall);
    AtExampleText();
  }

  lemma ZeroTimePieces(c: Civil)
    requires c == Civil(1, 1, 1, 0, 0, 0)
    ensures AtLayout(c) == "0001" + "-" + "01" + "-" + "01" + "T" + "00" + ":" + "00" + ":" + "00"
  {
    assert PadInt(1, 4) == "0001";
    AtExampleTwoDigits();
  }

  lemma ZeroTimeConcat()
    ensures "0001" + "-" + "01" + "-" + "01" + "T" + "00" + ":" + "00" + ":" + "00" == "0001-01-01T00:00:00"
  {
  }

  lemma ZeroTimeLayout(c: Civil)
    requires c == Civil(1, 1, 1, 0, 0, 0)
    ensures AtLayout(c) == "0001-01-01T00:00:00"
  {
    ZeroTimePieces(c);
    ZeroTimeConcat();
  }

  lemma ZeroTimeText()
    ensures "at(" + "0001-01-01T00:00:00" + ")" == "at(0001-01-01T00:00:00)"
  {
  }

  /**
   * An argument that does not read as RFC 3339 is rendered as Go's zero
   * time: at(0001-01-01T00:00:00).
   */
  lemma AwsAtUnreadableArgument()
    ensures AwsAt(None) == "at(0001-01-01T00:00:00)"
  {
    ZeroTimeLayout(ZeroTime.wall);
    ZeroTimeText();
  }

  // The `time` data source (time_data_source_test.go).

  /** `Join` of six strings, unrolled. */
  lemma JoinSix(a: string, b: string, c: string, d: string, e: string, f: string, sep: char)
    ensures Join([a, b, c, d, e, f], sep) == a + ([sep] + (b + ([sep] + (c + ([sep] + (d + ([sep] + (e + ([sep] + f)))))))))
  {
    assert Join([e, f], sep) == e + ([sep] + f);
    assert Join([d, e, f], sep) == d + ([sep] + Join([e, f], sep));
    assert Join([c, d, e, f], sep) == c + ([sep] + Join([d, e, f], sep));
    assert Join([b, c, d, e, f], sep) == b + ([sep] + Join([c, d, e, f], sep));
  }

  lemma CronNumbers()
    ensures IntToString(35) == "35" && IntToString(7) == "7" && IntToString(15) == "15"
    ensures IntToString(2) == "2" && IntToString(23) == "23" && IntToString(14) == "14"
    ensures IntToString(22) == "22" && IntToString(36) == "36" && IntToString(2023) == "2023"
  {
    assert Digits(2023) == "2023";
  }

  lemma UtcCronFields(c: Civil)
    requires c == Civil(2023, 2, 15, 7, 35, 0)
    ensures CronFieldsOf(c) == ["35", "7", "15", "2", "?", "2023"]
  {
    CronNumbers();
  }

  lemma UtcCronText()
    ensures Join(["35", "7", "15", "2", "?", "2023"], ' ') == "35 7 15 2 ? 2023"
  {
    JoinSix("35", "7", "15", "2", "?", "2023", ' ');
  }

  /** The UTC case renders `cron` as "35 7 15 2 ? 2023". */
  lemma CronOfUtcExample(c: Civil)
    requires c == Civil(2023, 2, 15, 7, 35, 0)
    ensures CronOf(c) == "35 7 15 2 ? 2023"
  {
    UtcCronFields(c);
    UtcCronText();
  }

  lemma LosAngelesCronFields(c: Civil)
    requires c == Civil(2023, 2, 14, 23, 35, 0)
    ensures CronFieldsOf(c) == ["35", "23", "14", "2", "?", "2023"]
  {
    CronNumbers();
  }

  lemma LosAngelesCronText()
    ensures Join(["35", "23", "14", "2", "?", "2023"], ' ') == "35 23 14 2 ? 2023"
  {
    JoinSix("35", "23", "14", "2", "?", "2023", ' ');
  }

  /** The Los Angeles case renders `cron` as "35 23 14 2 ? 2023". */
  lemma CronOfLosAngelesExample(c: Civil)
    requires c == Civil(2023, 2, 14, 23, 35, 0)
    ensures CronOf(c) == "35 23 14 2 ? 2023"
  {
    LosAngelesCronFields(c);
    LosAngelesCronText();
  }

  lemma ExplicitLayoutsCronFields(c: Civil)
    requires c == Civil(2023, 2, 14, 22, 36, 5)
    ensures CronFieldsOf(c) == ["36", "22", "14", "2", "?", "2023"]
  {
    CronNumbers();
  }

  lemma ExplicitLayoutsCronText()
    ensures Join(["36", "22", "14", "2", "?", "2023"], ' ') == "36 22 14 2 ? 2023"
  {
    JoinSix("36", "22", "14", "2", "?", "2023", ' ');
  }

  /** The explicit-layouts case renders `cron` as "36 22 14 2 ? 2023"; the seconds are dropped. */
  lemma CronOfExplicitLayoutsExample(c: Civil)
    requires c == Civil(2023, 2, 14, 22, 36, 5)
    ensures CronOf(c) == "36 22 14 2 ? 2023"
  {
    ExplicitLayoutsCronFields(c);
    ExplicitLayoutsCronText();
  }

  /**
   * The first two data source cases: "2023-02-15T16:35:00+09:00" with the
   * default layout, shown in Los Angeles and in UTC. Both record the same
   * Unix time and the RFC 3339 layouts; `aws_cron` and `cron` render each
   * location's wall clock, which `CronOfLosAngelesExample` and
   * `CronOfUtcExample` spell out.
   */
  lemma DataSourceOutputLocations(env: TimeEnv, t: Time)
    requires env.parseInLocation(RFC3339, "2023-02-15T16:35:00+09:00", Local) == Success(t)
    requires t.unix == 1676446500
    requires env.loadLocation("America/Los_Angeles") == Success(Location("America/Los_Angeles"))
    requires env.loadLocation("UTC") == Success(Location("UTC"))
    requires env.wallClock(1676446500, Location("America/Los_Angeles")) == Civil(2023, 2, 14, 23, 35, 0)
    requires env.wallClock(1676446500, Location("UTC")) == Civil(2023, 2, 15, 7, 35, 0)
    ensures
      var la := Read(TimeConfig(Known("2023-02-15T16:35:00+09:00"), Null, Null, Null, Known("America/Los_Angeles")), env);
      var utc := Read(TimeConfig(Known("2023-02-15T16:35:00+09:00"), Null, Null, Null, Known("UTC")), env);
      && la.Finished? && la.state.Some? && utc.Finished? && utc.state.Some?
      && la.state.value.unix == 1676446500 && utc.state.value.unix == 1676446500
      && la.state.value.inputFormat == Known(RFC3339) && la.state.value.outputFormat == Known(RFC3339)
      && la.state.value.awsCron == Known(CronOf(Civil(2023, 2, 14, 23, 35, 0)))
      && la.state.value.cron == la.state.value.awsCron
      && utc.state.value.awsCron == Known(CronOf(Civil(2023, 2, 15, 7, 35, 0)))
  {
  }

  /**
   * The third data source case: explicit layouts and an input location. The
   * input is parsed with the configured layout in Asia/Tokyo, and the
   * configured values, not the defaults, are recorded. `aws_cron` renders the
   * UTC wall clock, which `CronOfExplicitLayoutsExample` spells out.
   */
  lemma DataSourceExplicitLayouts(env: TimeEnv, t: Time)
    requires env.loadLocation("Asia/Tokyo") == Success(Location("Asia/Tokyo"))
    requires env.parseInLocation("2006-01-02 15:04:05", "2023-02-15 07:36:05", Location("Asia/Tokyo")) == Success(t)
    requires t.unix == 1676414165
    requires env.loadLocation("UTC") == Success(Location("UTC"))
    requires env.wallClock(1676414165, Location("UTC")) == Civil(2023, 2, 14, 22, 36, 5)
    ensures
      var cfg := TimeConfig(Known("2023-02-15 07:36:05"), Known("2006-01-02 15:04:05"), Known("Asia/Tokyo"),
                            Known("02 Jan 06 15:04 MST"), Known("UTC"));
      var r := Read(cfg, env);
      var out := Time(1676414165, Civil(2023, 2, 14, 22, 36, 5), Location("UTC"));
      && r.Finished? && r.diags == [] && r.state.Some?
      && r.state.value.unix == 1676414165
      && r.state.value.inputFormat == Known("2006-01-02 15:04:05")
      && r.state.value.outputFormat == Known("02 Jan 06 15:04 MST")
      && r.state.value.inputLocation == Known("Asia/Tokyo")
      && r.state.value.output == Known(env.format(out, "02 Jan 06 15:04 MST"))
      && r.state.value.awsCron == Known(CronOf(Civil(2023, 2, 14, 22, 36, 5)))
  {
  }

}
