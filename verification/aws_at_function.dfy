/**
 * The `aws_at` provider function: renders an RFC 3339 time as an AWS
 * scheduled-action `at(...)` expression, using the wall clock of the time's
 * own zone and no offset.
 */
module AwsAtFunction {
  import opened Wrappers
  import opened Decimal
  import opened CivilTime

  /**
   * Go's layout "2006-01-02T15:04:05" applied to a wall clock: a year of at
   * least four digits, then month, day, hour, minute and second in two digits
   * each. For a renderable wall clock (a four-digit year and in-range fields)
   * the body is 19 characters with the separators at fixed positions.
   */
  function AtLayout(c: Civil): (s: string)
    ensures RenderableWallClock(c) ==> |s| == 19
    ensures RenderableWallClock(c) ==> s[4] == '-' && s[7] == '-' && s[10] == 'T' && s[13] == ':' && s[16] == ':'
  {
    var y, mo, d := PadInt(c.year, 4), PadInt(c.month, 2), PadInt(c.day, 2);
    var h, mi, sec := PadInt(c.hour, 2), PadInt(c.minute, 2), PadInt(c.second, 2);
    var s := y + "-" + mo + "-" + d + "T" + h + ":" + mi + ":" + sec;
    if RenderableWallClock(c) then
      PadIntRoundTrip(c.year, 4);
      PadIntRoundTrip(c.month, 2);
      PadIntRoundTrip(c.day, 2);
      PadIntRoundTrip(c.hour, 2);
      PadIntRoundTrip(c.minute, 2);
      PadIntRoundTrip(c.second, 2);
      LayoutPieces(y, mo, d, h, mi, sec);
      s
    else
      s
  }

  /**
   * `aws_at`. The argument arrives as its RFC 3339 reading; when that reading
   * fails (`None`) the function does not stop but renders Go's zero time.
   */
  function AwsAt(input: Option<Time>): (r: string)
    ensures |r| >= 4 && r[..3] == "at(" && r[|r| - 1] == ')'
  {
    var t := if input.Some? then input.value else ZeroTime;
    "at(" + AtLayout(t.wall) + ")"
  }

  /** Reads a fixed-layout body `YYYY-MM-DDTHH:MM:SS` back into a wall clock. */
  function ParseAtLayout(s: string): Option<Civil> {
    if |s| == 19 && s[4] == '-' && s[7] == '-' && s[10] == 'T' && s[13] == ':' && s[16] == ':' then
      match (ParseNat(s[..4]), ParseNat(s[5..7]), ParseNat(s[8..10]),
             ParseNat(s[11..13]), ParseNat(s[14..16]), ParseNat(s[17..]))
      case (Some(y), Some(mo), Some(d), Some(h), Some(mi), Some(sec)) =>
        Some(Civil(y, mo, d, h, mi, sec))
      case _ => None
    else
      None
  }

  /** Reads an `at(...)` expression back into a wall clock. */
  function ParseAt(s: string): Option<Civil> {
    if |s| >= 4 && s[..3] == "at(" && s[|s| - 1] == ')' then ParseAtLayout(s[3..|s| - 1]) else None
  }

  /** A wall clock `aws_at` can render in the fixed layout: a four-digit year and in-range fields. */
  predicate RenderableWallClock(c: Civil) {
    0 <= c.year <= 9999 && ValidCivil(c)
  }

  /** The fixed-layout body assembled from six pieces of the right widths splits back into them. */
  lemma {:induction false} LayoutPieces(y: string, mo: string, d: string, h: string, mi: string, sec: string)
    requires |y| == 4 && |mo| == 2 && |d| == 2 && |h| == 2 && |mi| == 2 && |sec| == 2
    ensures
      var body := y + "-" + mo + "-" + d + "T" + h + ":" + mi + ":" + sec;
      && |body| == 19
      && body[4] == '-' && body[7] == '-' && body[10] == 'T' && body[13] == ':' && body[16] == ':'
      && body[..4] == y && body[5..7] == mo && body[8..10] == d
      && body[11..13] == h && body[14..16] == mi && body[17..] == sec
  {
    var body := y + "-" + mo + "-" + d + "T" + h + ":" + mi + ":" + sec;
    assert body[5..7] == mo by {
      assert body[5] == mo[0] && body[6] == mo[1];
    }
  }

  /**
   * For a renderable wall clock the result is 23 characters, `at(` + the fixed
   * layout + `)`, and it reads back as exactly the input's own wall clock.
   */
  lemma AwsAtRoundTrip(t: Time)
    requires RenderableWallClock(t.wall)
    ensures |AwsAt(Some(t))| == 23
    ensures ParseAt(AwsAt(Some(t))) == Some(t.wall)
  {
    var c := t.wall;
    PadIntRoundTrip(c.year, 4);
    PadIntRoundTrip(c.month, 2);
    PadIntRoundTrip(c.day, 2);
    PadIntRoundTrip(c.hour, 2);
    PadIntRoundTrip(c.minute, 2);
    PadIntRoundTrip(c.second, 2);
    LayoutPieces(PadInt(c.year, 4), PadInt(c.month, 2), PadInt(c.day, 2),
                 PadInt(c.hour, 2), PadInt(c.minute, 2), PadInt(c.second, 2));
    var body := AtLayout(c);
    assert ParseAtLayout(body) == Some(c);
    var r := AwsAt(Some(t));
    assert r[3..|r| - 1] == body;
  }

  /** The rendering depends on the wall clock only: neither the instant nor the zone enters it. */
  lemma AwsAtUsesOwnWallClock(t1: Time, t2: Time)
    requires t1.wall == t2.wall
    ensures AwsAt(Some(t1)) == AwsAt(Some(t2))
  {
  }
}
