/**
 Expiry arithmetic.  Clocks are integers counting nanoseconds since the Unix epoch; the database
 keeps whole seconds.  The services compare the nanosecond clock with the stored second, the
 sweeper compares the current whole second with it.
 */
module Expiry {
  import opened Wrappers

  const SECOND: int := 1_000_000_000
  const MINUTE: int := 60 * SECOND
  const HOUR: int := 60 * MINUTE
  const DAY: int := 24 * HOUR

  /** The preset table; file, bucket and paste repeat it literally.  Zero means "never". */
  const PRESETS: map<string, int> := map[
    "10m" := 10 * MINUTE,
    "1h" := HOUR,
    "6h" := 6 * HOUR,
    "1d" := DAY,
    "7d" := 7 * DAY,
    "30d" := 30 * DAY,
    "90d" := 90 * DAY,
    "1y" := 365 * DAY,
    "never" := 0
  ]

  /** Go's Time.Unix and SQLite's unixepoch(): the whole second containing instant t. */
  function Unix(t: int): int {
    t / SECOND
  }

  /** The deadline computed by the services at creation, in nanoseconds. */
  function Deadline(preset: string, created: int): Option<int>
    requires preset in PRESETS
  {
    if PRESETS[preset] > 0 then Some(created + PRESETS[preset]) else None
  }

  /** What the repositories write into the expires_at column. */
  function Column(deadline: Option<int>): Option<int> {
    match deadline
    case None => None
    case Some(t) => Some(Unix(t))
  }

  /** The services' test: time.Now().After(time.Unix(expires_at, 0)). */
  predicate Lapsed(column: Option<int>, now: int) {
    column.Some? && now > column.value * SECOND
  }

  /** The sweeper's test: expires_at IS NOT NULL AND expires_at < unixepoch(). */
  predicate Sweepable(column: Option<int>, now: int) {
    column.Some? && column.value < Unix(now)
  }

  /** Anything the sweeper may remove is already refused by every service read, now and later. */
  lemma SweepableIsLapsed(column: Option<int>, listed: int, now: int)
    requires listed <= now
    requires Sweepable(column, listed)
    ensures Lapsed(column, now)
    ensures Sweepable(column, now)
  {
    assert Unix(listed) <= Unix(now);
    assert (column.value + 1) * SECOND <= Unix(listed) * SECOND;
  }

  /** The two tests disagree exactly during the second that begins at the stored deadline. */
  lemma TestsDisagreeExactly(column: Option<int>, now: int)
    ensures Lapsed(column, now) && !Sweepable(column, now) <==>
            column.Some? && column.value * SECOND < now < (column.value + 1) * SECOND
    ensures Lapsed(column, now) ==> Sweepable(column, now + SECOND)
  {
    if column.Some? {
      assert column.value < Unix(now) <==> (column.value + 1) * SECOND <= now;
      assert Unix(now + SECOND) == Unix(now) + 1;
    }
  }

  /**
   A share made at `created` with a finite preset is accepted at every instant up to
   created + d - 1s and beyond (strictly more than d minus one second), and at none after
   created + d.
   */
  lemma AcceptanceWindow(preset: string, created: int, now: int)
    requires preset in PRESETS && PRESETS[preset] > 0
    ensures var d := PRESETS[preset]; var column := Column(Deadline(preset, created));
            && (now <= created + d - SECOND + 1 ==> !Lapsed(column, now))
            && (now > created + d ==> Lapsed(column, now))
            && (Lapsed(column, now) <==> now > created + d - (created + d) % SECOND)
  {
    var t := created + PRESETS[preset];
    assert t == Unix(t) * SECOND + t % SECOND;
  }

  /** "never" is the only preset that never lapses and is never swept. */
  lemma NeverIsForever(preset: string, created: int)
    requires preset in PRESETS
    ensures preset == "never" <==> forall now :: !Lapsed(Column(Deadline(preset, created)), now)
    ensures preset == "never" <==> forall now :: !Sweepable(Column(Deadline(preset, created)), now)
  {
    if preset != "never" {
      assert PRESETS[preset] > 0;
      var column := Column(Deadline(preset, created));
      var late := (column.value + 1) * SECOND;
      assert Unix(late) == column.value + 1;
      assert Lapsed(column, late);
      assert Sweepable(column, late);
    }
  }

  /** An RFC 3339 (section 5.6) UTC timestamp without a fraction: day number and time of day. */
  datatype Stamp = Stamp(day: int, hour: nat, minute: nat, second: nat)

  /** time.Format(time.RFC3339) drops everything below the second. */
  function Show(t: int): Stamp {
    var inDay := t - DAY * (t / DAY);
    Stamp(t / DAY, inDay / HOUR, (inDay % HOUR) / MINUTE, (inDay % MINUTE) / SECOND)
  }

  function Instant(s: Stamp): int {
    s.day * 86400 + s.hour * 3600 + s.minute * 60 + s.second
  }

  lemma SecondsInMinutes(x: int)
    ensures x / MINUTE == (x / SECOND) / 60 && (x % MINUTE) / SECOND == (x / SECOND) % 60
  {
    var a := (x / SECOND) / 60;
    var rest := SECOND * ((x / SECOND) % 60) + x % SECOND;
    assert x == MINUTE * a + rest && 0 <= rest < MINUTE;
  }

  lemma MinutesInHours(x: int)
    ensures x / HOUR == (x / MINUTE) / 60 && (x % HOUR) / MINUTE == (x / MINUTE) % 60 &&
            (x % HOUR) % MINUTE == x % MINUTE
  {
    var a := (x / MINUTE) / 60;
    var rest := MINUTE * ((x / MINUTE) % 60) + x % MINUTE;
    assert x == HOUR * a + rest && 0 <= rest < HOUR;
  }

  lemma HoursInDays(x: int)
    ensures x / DAY == (x / HOUR) / 24 && (x % DAY) / HOUR == (x / HOUR) % 24 && (x % DAY) % HOUR == x % HOUR
  {
    var a := (x / HOUR) / 24;
    var rest := HOUR * ((x / HOUR) % 24) + x % HOUR;
    assert x == DAY * a + rest && 0 <= rest < DAY;
  }

  lemma MinutesInDays(x: int)
    ensures (x % DAY) % MINUTE == x % MINUTE
  {
    HoursInDays(x);
    MinutesInHours(x);
    MinutesInHours(x % DAY);
  }

  lemma ShownHour(t: int)
    ensures Show(t).day == (t / HOUR) / 24 && Show(t).hour == (t / HOUR) % 24
  {
    HoursInDays(t);
    assert t - DAY * (t / DAY) == t % DAY;
  }

  lemma ShownMinute(t: int)
    ensures Show(t).minute == (t / MINUTE) % 60
  {
    HoursInDays(t);
    MinutesInHours(t);
    assert t - DAY * (t / DAY) == t % DAY;
  }

  lemma ShownSecond(t: int)
    ensures Show(t).second == (t / SECOND) % 60
  {
    MinutesInDays(t);
    SecondsInMinutes(t);
    assert t - DAY * (t / DAY) == t % DAY;
  }

  /** The fields of the shown time are the digits of the second in base 60, 60 and 24. */
  lemma ShownFields(t: int)
    ensures var u := Unix(t);
            Show(t) == Stamp(((u / 60) / 60) / 24, ((u / 60) / 60) % 24, (u / 60) % 60, u % 60)
  {
    ShownHour(t);
    ShownMinute(t);
    ShownSecond(t);
    MinutesInHours(t);
    SecondsInMinutes(t);
  }

  /** The uploader is shown the unrounded deadline; it names exactly the stored, enforced second. */
  lemma ShownDeadlineIsEnforced(t: int, now: int)
    ensures Some(Instant(Show(t))) == Column(Some(t))
    ensures Show(t).hour < 24 && Show(t).minute < 60 && Show(t).second < 60
    ensures Lapsed(Column(Some(t)), now) <==> now > Instant(Show(t)) * SECOND
  {
    ShownFields(t);
    var u := Unix(t);
    assert u == 60 * (u / 60) + u % 60;
  }

  /* ---------- what a preset promises ---------- */

  /** The column does to a share created then what its preset promises, at every instant `now`. */
  ghost predicate Honours(preset: string, created: int, column: Option<int>)
    requires preset in PRESETS
  {
    forall now {:trigger Lapsed(column, now)} ::
      && (PRESETS[preset] == 0 ==> !Lapsed(column, now))
      && (PRESETS[preset] > 0 && now <= created + PRESETS[preset] - SECOND + 1 ==> !Lapsed(column, now))
      && (PRESETS[preset] > 0 && now > created + PRESETS[preset] ==> Lapsed(column, now))
  }

  lemma NoPresetIsNegative(preset: string)
    requires preset in PRESETS
    ensures PRESETS[preset] >= 0
  {
  }

  lemma DeadlineHonours(preset: string, created: int)
    requires preset in PRESETS
    ensures Honours(preset, created, Column(Deadline(preset, created)))
  {
    var column := Column(Deadline(preset, created));
    NoPresetIsNegative(preset);
    forall now ensures
        && (PRESETS[preset] == 0 ==> !Lapsed(column, now))
        && (PRESETS[preset] > 0 && now <= created + PRESETS[preset] - SECOND + 1 ==> !Lapsed(column, now))
        && (PRESETS[preset] > 0 && now > created + PRESETS[preset] ==> Lapsed(column, now))
    {
      if PRESETS[preset] > 0 { AcceptanceWindow(preset, created, now); }
    }
  }

  /** The promise leaves no choice: only one column keeps it. */
  lemma OneColumnHonours(preset: string, created: int, column: Option<int>, other: Option<int>)
    requires preset in PRESETS && Honours(preset, created, column) && Honours(preset, created, other)
    ensures column == other
  {
    NoPresetIsNegative(preset);
    var late := created + PRESETS[preset] + 1;
    assert PRESETS[preset] > 0 ==> Lapsed(column, late) && Lapsed(other, late);
    if PRESETS[preset] > 0 {
      var last := late - SECOND;
      assert !Lapsed(column, last) && !Lapsed(other, last);
    } else {
      NeverLapses(column);
      NeverLapses(other);
    }
  }

  lemma NeverLapses(column: Option<int>)
    requires forall now {:trigger Lapsed(column, now)} :: !Lapsed(column, now)
    ensures column.None?
  {
    if column.Some? { assert Lapsed(column, column.value * SECOND + 1); }
  }

  /* ---------- what a preset is called ---------- */

  function Digits(s: string): nat {
    if s == [] then 0
    else if '0' <= s[|s| - 1] <= '9' then 10 * Digits(s[..|s| - 1]) + (s[|s| - 1] as int - '0' as int)
    else 0
  }

  /** Minutes, hours, days and years of 365 days, in nanoseconds. */
  function Unit(c: char): int {
    match c
    case 'm' => 60_000_000_000
    case 'h' => 3_600_000_000_000
    case 'd' => 86_400_000_000_000
    case 'y' => 31_536_000_000_000_000
    case _ => 0
  }

  lemma DigitsOf(a: char, b: char)
    requires '0' <= a <= '9' && '0' <= b <= '9'
    ensures Digits([a]) == a as int - '0' as int
    ensures Digits([a, b]) == 10 * (a as int - '0' as int) + (b as int - '0' as int)
  {
    assert [a, b][..1] == [a] && [a][..0] == [];
  }

  /** Every preset lasts as long as its name says, and there are these nine. */
  lemma PresetsMeanTheirNames(preset: string)
    ensures preset in PRESETS <==> preset in ["10m", "1h", "6h", "1d", "7d", "30d", "90d", "1y", "never"]
    ensures preset in PRESETS ==>
              PRESETS[preset] == if preset == "never" then 0
                                 else Digits(preset[..|preset| - 1]) * Unit(preset[|preset| - 1])
  {
    if preset in PRESETS && preset != "never" {
      var n := |preset| - 1;
      if n == 1 { DigitsOf(preset[0], '0'); } else { DigitsOf(preset[0], preset[1]); }
      assert preset[..n] == if n == 1 then [preset[0]] else [preset[0], preset[1]];
    }
  }

  lemma SweepableIsPastDeadline(preset: string, created: int, at: int)
    requires preset in PRESETS && Sweepable(Column(Deadline(preset, created)), at)
    ensures PRESETS[preset] > 0 && at > created + PRESETS[preset]
  {
    var t := created + PRESETS[preset];
    assert t == Unix(t) * SECOND + t % SECOND && at == Unix(at) * SECOND + at % SECOND;
  }
}
