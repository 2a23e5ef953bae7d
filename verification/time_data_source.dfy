/**
 * The `time` data source. Its read fills in default layouts, loads the input
 * location, parses the input (or takes the current time), loads the output
 * location, converts the time there, and records the inputs together with the
 * rendered output, an AWS cron string and the Unix time in its state.
 *
 * The Go time library is not modelled: the current time, location loading,
 * parsing, the wall clock of an instant in a location, and layout formatting
 * are the fields of a `TimeEnv`.
 */
module TimeDataSource {
  import opened Wrappers
  import opened Decimal
  import opened Fields
  import opened CivilTime

  /** A string attribute of the Terraform plugin framework: null, or a known value. */
  datatype TfString = Null | Known(text: string) {
    /** `ValueString()`: the value, or "" when null. */
    function ValueString(): string {
      if Known? then text else ""
    }
  }

  /** Go's `time.RFC3339` layout, the default for both layouts. */
  const RFC3339 := "2006-01-02T15:04:05Z07:00"

  /** The configurable attributes. */
  datatype TimeConfig = TimeConfig(
    input: TfString,
    inputFormat: TfString,
    inputLocation: TfString,
    outputFormat: TfString,
    outputLocation: TfString)

  /** The state a successful read records. */
  datatype TimeState = TimeState(
    input: TfString,
    inputFormat: TfString,
    inputLocation: TfString,
    output: TfString,
    outputFormat: TfString,
    outputLocation: TfString,
    awsCron: TfString,
    cron: TfString,
    unix: int)

  /** The error diagnostics a read can record, each with the library's error text. */
  datatype Diagnostic =
    | InputLocationError(err: string)
    | InputParseError(err: string)
    | OutputLocationError(err: string)
  {
    /** The diagnostic's summary line. */
    function Summary(): string {
      match this
      case InputLocationError(_) => "Input location loading error"
      case InputParseError(_) => "Input time string parsing error"
      case OutputLocationError(_) => "Output location loading error"
    }

    /** The diagnostic's detail text, which ends with the library's error. */
    function Detail(): (d: string)
      ensures |d| > |err| && d[|d| - |err|..] == err
    {
      match this
      case InputLocationError(e) => "Cannot load the input_location.\n\nError: " + e
      case InputParseError(e) => "Cannot parse the input time string.\n\nError: " + e
      case OutputLocationError(e) => "Cannot load the output_location.\n\nError: " + e
    }
  }

  /** The summary and detail a diagnostic shows determine it: kind and library error alike. */
  lemma DiagnosticTextDetermines(d1: Diagnostic, d2: Diagnostic)
    requires d1.Summary() == d2.Summary() && d1.Detail() == d2.Detail()
    ensures d1 == d2
  {
  }

  /** The time library as the read uses it. */
  datatype TimeEnv = TimeEnv(
    now: Time,
    loadLocation: string -> Result<Location, string>,
    parseInLocation: (string, string, Location) -> Result<Time, string>,
    wallClock: (int, Location) -> Civil,
    format: (Time, string) -> string)

  /**
   * How a read ends: it returns with its diagnostics and possibly a state, or
   * it panics after recording the diagnostics so far.
   */
  datatype ReadOutcome =
    | Finished(diags: seq<Diagnostic>, state: Option<TimeState>)
    | Panicked(diags: seq<Diagnostic>, message: string)

  /** Go's panic message for `Time.In` with a nil location. */
  const InPanicMessage := "time: missing Location in call to Time.In"

  /** A layout attribute with the default applied: empty or null means RFC 3339. */
  function ResolveLayout(configured: TfString): (layout: string)
    ensures layout != ""
    ensures configured.ValueString() != "" ==> layout == configured.ValueString()
    ensures configured.ValueString() == "" ==> layout == RFC3339
  {
    var layout := configured.ValueString();
    if layout == "" then RFC3339 else layout
  }

  /** `t.In(loc)`: the same instant, shown on the wall clock of `loc`. */
  function In(env: TimeEnv, t: Time, loc: Location): Time {
    Time(t.unix, env.wallClock(t.unix, loc), loc)
  }

  /**
   * The six fields `cron(t)` prints: minute, hour, day and month, the `?`
   * marker, and the year, each number in `%d` form (no sign for
   * non-negative values, no zero padding), none containing a space.
   */
  function CronFieldsOf(c: Civil): (fs: seq<string>)
    ensures |fs| == 6 && fs[4] == "?"
    ensures IsDecimalOf(fs[0], c.minute) && IsDecimalOf(fs[1], c.hour) && IsDecimalOf(fs[2], c.day)
    ensures IsDecimalOf(fs[3], c.month) && IsDecimalOf(fs[5], c.year)
    ensures NoSeparator(fs, ' ')
  {
    var fs := [IntToString(c.minute), IntToString(c.hour), IntToString(c.day),
               IntToString(c.month), "?", IntToString(c.year)];
    IsDecimalOfIff(fs[0], c.minute);
    IsDecimalOfIff(fs[1], c.hour);
    IsDecimalOfIff(fs[2], c.day);
    IsDecimalOfIff(fs[3], c.month);
    IsDecimalOfIff(fs[5], c.year);
    IntToStringHasNoSpace(c.minute);
    IntToStringHasNoSpace(c.hour);
    IntToStringHasNoSpace(c.day);
    IntToStringHasNoSpace(c.month);
    IntToStringHasNoSpace(c.year);
    assert NoSeparator(fs, ' ');
    fs
  }

  /**
   * `cron(t)`: the format "%d %d %d %d ? %d", that is, the six fields
   * separated by single spaces. Splitting on spaces gives the fields back.
   */
  function CronOf(c: Civil): (s: string)
    ensures Split(s, ' ') == CronFieldsOf(c)
  {
    SplitJoin(CronFieldsOf(c), ' ');
    Join(CronFieldsOf(c), ' ')
  }

  // The stages of a read, named so that contracts can refer to them.

  /** A non-empty input_location that the library cannot load. */
  predicate InputLocationFails(cfg: TimeConfig, env: TimeEnv) {
    var name := cfg.inputLocation.ValueString();
    name != "" && env.loadLocation(name).Failure?
  }

  /** The location the input is parsed in: the loaded input_location, or `time.Local`. */
  function InputLocation(cfg: TimeConfig, env: TimeEnv): Location
    requires !InputLocationFails(cfg, env)
  {
    var name := cfg.inputLocation.ValueString();
    if name == "" then Local else env.loadLocation(name).value
  }

  /** The time read: the current time for an empty input, otherwise the parse of the input. */
  function InputTime(cfg: TimeConfig, env: TimeEnv): Result<Time, string>
    requires !InputLocationFails(cfg, env)
  {
    var input := cfg.input.ValueString();
    if input == "" then Success(env.now)
    else env.parseInLocation(ResolveLayout(cfg.inputFormat), input, InputLocation(cfg, env))
  }

  /** The read stops with an error before it reaches the output location. */
  predicate StopsEarly(cfg: TimeConfig, env: TimeEnv) {
    InputLocationFails(cfg, env) || InputTime(cfg, env).Failure?
  }

  /** A non-empty output_location that the library cannot load. */
  predicate OutputLocationFails(cfg: TimeConfig, env: TimeEnv) {
    var name := cfg.outputLocation.ValueString();
    name != "" && env.loadLocation(name).Failure?
  }

  /** The state assembled for a converted time `out`. */
  function AssembleState(cfg: TimeConfig, out: Time, env: TimeEnv): TimeState {
    var outputFormat := ResolveLayout(cfg.outputFormat);
    TimeState(
      input := cfg.input,
      inputFormat := Known(ResolveLayout(cfg.inputFormat)),
      inputLocation := Known(cfg.inputLocation.ValueString()),
      output := Known(env.format(out, outputFormat)),
      outputFormat := Known(outputFormat),
      outputLocation := Known(cfg.outputLocation.ValueString()),
      awsCron := Known(CronOf(out.wall)),
      cron := Known(CronOf(out.wall)),
      unix := out.unix)
  }

  /**
   * What the read records about its configuration: `input` exactly as
   * configured, both layouts with their default applied, both locations as
   * their string values, and the same string for `aws_cron` and `cron`.
   */
  predicate RecordsConfig(cfg: TimeConfig, s: TimeState) {
    && s.input == cfg.input
    && s.inputFormat == Known(ResolveLayout(cfg.inputFormat))
    && s.outputFormat == Known(ResolveLayout(cfg.outputFormat))
    && s.inputLocation == Known(cfg.inputLocation.ValueString())
    && s.outputLocation == Known(cfg.outputLocation.ValueString())
    && s.awsCron == s.cron
  }

  /**
   * The read as written. Its checks run in order: input location, input
   * parse, output location. The first two return at once with one error and
   * no state. A failed output location is recorded but does not return: Go's
   * `time.LoadLocation` hands back a nil location with its error, and the
   * following `t.In(outloc)` panics on it.
   */
  function Read(cfg: TimeConfig, env: TimeEnv): (r: ReadOutcome)
    ensures InputLocationFails(cfg, env) ==>
      r == Finished([InputLocationError(env.loadLocation(cfg.inputLocation.ValueString()).error)], None)
    ensures !InputLocationFails(cfg, env) && InputTime(cfg, env).Failure? ==>
      r == Finished([InputParseError(InputTime(cfg, env).error)], None)
    ensures r.Panicked? <==> !StopsEarly(cfg, env) && OutputLocationFails(cfg, env)
    ensures r.Panicked? ==>
      r.diags == [OutputLocationError(env.loadLocation(cfg.outputLocation.ValueString()).error)]
    ensures r.Finished? && r.state.Some? <==> !StopsEarly(cfg, env) && !OutputLocationFails(cfg, env)
    ensures r.Finished? && r.state.Some? ==> r.diags == [] && RecordsConfig(cfg, r.state.value)
  {
    var inputFormat := ResolveLayout(cfg.inputFormat);
    var inputLocation := cfg.inputLocation.ValueString();
    var loc := if inputLocation != "" then env.loadLocation(inputLocation) else Success(Local);
    if loc.Failure? then
      Finished([InputLocationError(loc.error)], None)
    else
      var input := cfg.input.ValueString();
      var t := if input != "" then env.parseInLocation(inputFormat, input, loc.value) else Success(env.now);
      if t.Failure? then
        Finished([InputParseError(t.error)], None)
      else
        var outputLocation := cfg.outputLocation.ValueString();
        var loaded: (Option<Location>, seq<Diagnostic>) :=
          if outputLocation == "" then (Some(Local), [])
          else
            match env.loadLocation(outputLocation)
            case Success(l) => (Some(l), [])
            case Failure(err) => (None, [OutputLocationError(err)]);
        var (outloc, diags) := loaded;
        match outloc
        case None => Panicked(diags, InPanicMessage)
        case Some(l) => Finished(diags, Some(AssembleState(cfg, In(env, t.value, l), env)))
  }

  /**
   * The recorded Unix time is the instant that was read; the output location
   * only changes how that instant is shown.
   */
  lemma ReadUnixIsInputInstant(cfg: TimeConfig, env: TimeEnv)
    requires Read(cfg, env).Finished? && Read(cfg, env).state.Some?
    ensures !StopsEarly(cfg, env)
    ensures Read(cfg, env).state.value.unix == InputTime(cfg, env).value.unix
  {
  }

  /** Two reads that differ only in output_location record the same Unix time. */
  lemma ReadUnixIgnoresOutputLocation(cfg: TimeConfig, env: TimeEnv, outputLocation: TfString)
    requires Read(cfg, env).Finished? && Read(cfg, env).state.Some?
    requires Read(cfg.(outputLocation := outputLocation), env).Finished?
    requires Read(cfg.(outputLocation := outputLocation), env).state.Some?
    ensures Read(cfg.(outputLocation := outputLocation), env).state.value.unix == Read(cfg, env).state.value.unix
  {
    ReadUnixIsInputInstant(cfg, env);
    ReadUnixIsInputInstant(cfg.(outputLocation := outputLocation), env);
  }

  /**
   * `output`, `aws_cron` and `cron` all show the read instant in the output
   * location (the loaded output_location, or `time.Local` when none is
   * given): `output` through the resolved output layout, the cron strings
   * through `cron(t)` of that location's wall clock.
   */
  lemma ReadRendersOutputTime(cfg: TimeConfig, env: TimeEnv)
    requires Read(cfg, env).Finished? && Read(cfg, env).state.Some?
    ensures !StopsEarly(cfg, env) && !OutputLocationFails(cfg, env)
    ensures
      var name := cfg.outputLocation.ValueString();
      var outloc := if name == "" then Local else env.loadLocation(name).value;
      var unix := InputTime(cfg, env).value.unix;
      var out := Time(unix, env.wallClock(unix, outloc), outloc);
      var s := Read(cfg, env).state.value;
      && s.output == Known(env.format(out, ResolveLayout(cfg.outputFormat)))
      && s.awsCron == Known(CronOf(out.wall))
      && s.cron == Known(CronOf(out.wall))
  {
  }

  /**
   * A failed input location ends the read before anything else is consulted:
   * the parser, the clock and the output side cannot change the result.
   */
  lemma ReadStopsAtInputLocation(cfg: TimeConfig, env: TimeEnv, cfg2: TimeConfig, env2: TimeEnv)
    requires InputLocationFails(cfg, env)
    requires cfg2.inputLocation == cfg.inputLocation && env2.loadLocation == env.loadLocation
    ensures Read(cfg2, env2) == Read(cfg, env)
  {
  }

  /**
   * A failed parse ends the read before the output side: output_format,
   * output_location, and the conversion and formatting of the time cannot
   * change the result.
   */
  lemma ReadStopsAtParse(cfg: TimeConfig, env: TimeEnv, outputFormat: TfString, outputLocation: TfString,
                         wallClock: (int, Location) -> Civil, format: (Time, string) -> string)
    requires !InputLocationFails(cfg, env) && InputTime(cfg, env).Failure?
    ensures
      Read(cfg.(outputFormat := outputFormat, outputLocation := outputLocation),
           env.(wallClock := wallClock, format := format))
      == Read(cfg, env)
  {
  }

  /**
   * The read with the output-location failure handled like the other two:
   * the error is recorded and the read returns without a state.
   */
  function ReadChecked(cfg: TimeConfig, env: TimeEnv): (r: ReadOutcome)
    ensures r.Finished?
    ensures r.state.Some? <==> r.diags == []
    ensures r.state.Some? ==> RecordsConfig(cfg, r.state.value)
    ensures OutputLocationFails(cfg, env) && !StopsEarly(cfg, env) ==>
      r.diags == [OutputLocationError(env.loadLocation(cfg.outputLocation.ValueString()).error)]
  {
    var inputFormat := ResolveLayout(cfg.inputFormat);
    var inputLocation := cfg.inputLocation.ValueString();
    var loc := if inputLocation != "" then env.loadLocation(inputLocation) else Success(Local);
    if loc.Failure? then
      Finished([InputLocationError(loc.error)], None)
    else
      var input := cfg.input.ValueString();
      var t := if input != "" then env.parseInLocation(inputFormat, input, loc.value) else Success(env.now);
      if t.Failure? then
        Finished([InputParseError(t.error)], None)
      else
        var outputLocation := cfg.outputLocation.ValueString();
        var outloc := if outputLocation != "" then env.loadLocation(outputLocation) else Success(Local);
        if outloc.Failure? then
          Finished([OutputLocationError(outloc.error)], None)
        else
          Finished([], Some(AssembleState(cfg, In(env, t.value, outloc.value), env)))
  }

  /** Wherever the read as written does not panic, the corrected read gives the same outcome. */
  lemma ReadCheckedAgrees(cfg: TimeConfig, env: TimeEnv)
    ensures Read(cfg, env).Finished? ==> ReadChecked(cfg, env) == Read(cfg, env)
    ensures Read(cfg, env).Panicked? ==>
      ReadChecked(cfg, env) == Finished(Read(cfg, env).diags, None)
  {
  }

  /**
   * The discrepancy on a concrete input: an empty input and an output_location
   * the library does not know make the read as written panic after recording
   * its error, where the corrected read returns that error alone.
   */
  lemma UnknownOutputLocationPanics(env: TimeEnv)
    requires env.loadLocation("Nowhere/Bogus") == Failure("unknown time zone Nowhere/Bogus")
    ensures
      var cfg := TimeConfig(Null, Null, Null, Null, Known("Nowhere/Bogus"));
      && Read(cfg, env) == Panicked([OutputLocationError("unknown time zone Nowhere/Bogus")], InPanicMessage)
      && ReadChecked(cfg, env) == Finished([OutputLocationError("unknown time zone Nowhere/Bogus")], None)
  {
  }
}
