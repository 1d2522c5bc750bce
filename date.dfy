/**
 * The date input of src/date_component.rs.
 *
 * The user types a year and a day and picks a season; each field is kept
 * only when it is valid, and after every message the component reports the
 * day count of the date (112 days a year, 28 a season, starting at 1) when
 * all three fields are set, and nothing otherwise.
 */
module DateComponent {
  import opened Wrappers
  import opened Ints
  import opened Decimal

  const DAYS_PER_SEASON: int := 28
  const SEASONS_PER_YEAR: int := 4
  const DAYS_PER_YEAR: int := DAYS_PER_SEASON * SEASONS_PER_YEAR

  datatype DateMessage = YearValue(yearText: string) | SeasonFocus(focus: bool) | SeasonValue(season: u8) | DayValue(dayText: string)

  predicate ValidYear(year: int) { 1 <= year <= U16_MAX }
  predicate ValidSeason(season: int) { 1 <= season <= SEASONS_PER_YEAR }
  predicate ValidDay(day: int) { 1 <= day <= DAYS_PER_SEASON }

  /** The day count of a date. */
  function DateOf(year: int, season: int, day: int): int
  {
    DAYS_PER_SEASON * SEASONS_PER_YEAR * (year - 1) + DAYS_PER_SEASON * (season - 1) + day
  }

  /** The date a day count falls on, year, season and day. */
  function YearOf(date: int): int { (date - 1) / DAYS_PER_YEAR + 1 }
  function SeasonOf(date: int): int { (date - 1) % DAYS_PER_YEAR / DAYS_PER_SEASON + 1 }
  function DayOf(date: int): int { (date - 1) % DAYS_PER_SEASON + 1 }

  /** The day count of a valid date is positive and fits in `i32`, so the source's `i32` arithmetic does not overflow. */
  lemma DateBounds(year: int, season: int, day: int)
    requires ValidYear(year) && ValidSeason(season) && ValidDay(day)
    ensures 1 <= DateOf(year, season, day) <= I32_MAX
    ensures DateOf(year, season, day) <= DAYS_PER_YEAR * U16_MAX
  {
    assert DAYS_PER_YEAR * (year - 1) <= DAYS_PER_YEAR * (U16_MAX - 1);
  }

  /** Division by a positive constant splits `d * q + r` back into `q` and `r`. */
  lemma DivModParts(d: int, q: int, r: int)
    requires d == DAYS_PER_YEAR || d == DAYS_PER_SEASON
    requires 0 <= r < d
    ensures (d * q + r) / d == q && (d * q + r) % d == r
  {
  }

  /** The year, season and day can be read back from the day count. */
  lemma DateRoundTrip(year: int, season: int, day: int)
    requires ValidYear(year) && ValidSeason(season) && ValidDay(day)
    ensures YearOf(DateOf(year, season, day)) == year
    ensures SeasonOf(DateOf(year, season, day)) == season
    ensures DayOf(DateOf(year, season, day)) == day
  {
    var within := DAYS_PER_SEASON * (season - 1) + (day - 1);
    var date := DateOf(year, season, day);
    assert date - 1 == DAYS_PER_YEAR * (year - 1) + within;
    DivModParts(DAYS_PER_YEAR, year - 1, within);
    DivModParts(DAYS_PER_SEASON, season - 1, day - 1);
    assert date - 1 == DAYS_PER_SEASON * (SEASONS_PER_YEAR * (year - 1) + season - 1) + (day - 1);
    DivModParts(DAYS_PER_SEASON, SEASONS_PER_YEAR * (year - 1) + season - 1, day - 1);
  }

  /** Different dates have different day counts. */
  lemma DateInjective(y1: int, s1: int, d1: int, y2: int, s2: int, d2: int)
    requires ValidYear(y1) && ValidSeason(s1) && ValidDay(d1)
    requires ValidYear(y2) && ValidSeason(s2) && ValidDay(d2)
    requires DateOf(y1, s1, d1) == DateOf(y2, s2, d2)
    ensures y1 == y2 && s1 == s2 && d1 == d2
  {
    DateRoundTrip(y1, s1, d1);
    DateRoundTrip(y2, s2, d2);
  }

  /** The year field after typing `text`: a `u16` above zero, else cleared. */
  function ParsedYear(text: string): (r: Option<u16>)
    ensures r.Some? ==> ValidYear(r.value)
  {
    match ParseUnsigned(text, U16_MAX)
    case Some(year) => if year > 0 then Some(year) else None
    case None => None
  }

  /** The day field after typing `text`: a `u8` from 1 to 28, else cleared. */
  function ParsedDay(text: string): (r: Option<u8>)
    ensures r.Some? ==> ValidDay(r.value)
  {
    match ParseUnsigned(text, U8_MAX)
    case Some(day) => if 1 <= day <= DAYS_PER_SEASON then Some(day) else None
    case None => None
  }

  /** Typing a year as it prints, or with a leading `+`, keeps it. */
  lemma ParsedYearAccepts(year: int)
    requires ValidYear(year)
    ensures ParsedYear(ToDecimal(year)) == Some(year)
    ensures ParsedYear("+" + ToDecimal(year)) == Some(year)
  {
    ParseToDecimal(year, U16_MAX);
    var signed := "+" + ToDecimal(year);
    assert signed[1..] == ToDecimal(year);
    DigitsValueOfToDecimal(year);
  }

  /** Typing a day as it prints keeps it exactly when it is a day of a season. */
  lemma ParsedDayAccepts(day: nat)
    requires day <= U8_MAX
    ensures ParsedDay(ToDecimal(day)).Some? <==> ValidDay(day)
    ensures ValidDay(day) ==> ParsedDay(ToDecimal(day)) == Some(day)
  {
    ParseToDecimal(day, U8_MAX);
  }

  datatype DateState = DateState(yearValue: Option<u16>, seasonFocus: bool, seasonValue: Option<u8>, dayValue: Option<u8>)

  /** The new fields after one message. */
  function DateStep(s: DateState, msg: DateMessage): DateState
  {
    match msg
    case YearValue(text) => s.(yearValue := ParsedYear(text))
    case SeasonFocus(focus) => s.(seasonFocus := focus)
    case SeasonValue(season) => s.(seasonValue := if ValidSeason(season) then Some(season) else None)
    case DayValue(text) => s.(dayValue := ParsedDay(text))
  }

  /** What the component reports for its fields. */
  function Reported(s: DateState): Option<int>
  {
    match (s.yearValue, s.seasonValue, s.dayValue)
    case (Some(year), Some(season), Some(day)) => Some(DateOf(year, season, day))
    case _ => None
  }

  /** The fields the component keeps are always valid. */
  predicate FieldsValid(s: DateState)
  {
    && (s.yearValue.Some? ==> ValidYear(s.yearValue.value))
    && (s.seasonValue.Some? ==> ValidSeason(s.seasonValue.value))
    && (s.dayValue.Some? ==> ValidDay(s.dayValue.value))
  }

  /**
   * Every message keeps the fields valid, and the component reports a date
   * exactly when all three are set, one it can be read back from.
   */
  lemma ReportedDate(s: DateState, msg: DateMessage)
    requires FieldsValid(s)
    ensures FieldsValid(DateStep(s, msg))
    ensures var t := DateStep(s, msg);
      && (Reported(t).Some? <==> t.yearValue.Some? && t.seasonValue.Some? && t.dayValue.Some?)
      && (Reported(t).Some? ==>
            && 1 <= Reported(t).value <= I32_MAX
            && YearOf(Reported(t).value) == t.yearValue.value
            && SeasonOf(Reported(t).value) == t.seasonValue.value
            && DayOf(Reported(t).value) == t.dayValue.value)
  {
    var t := DateStep(s, msg);
    if Reported(t).Some? {
      DateBounds(t.yearValue.value, t.seasonValue.value, t.dayValue.value);
      DateRoundTrip(t.yearValue.value, t.seasonValue.value, t.dayValue.value);
    }
  }

  /** The season focus message changes the focus flag only. */
  lemma SeasonFocusOnly(s: DateState, focus: bool)
    ensures DateStep(s, SeasonFocus(focus)) == s.(seasonFocus := focus)
    ensures Reported(DateStep(s, SeasonFocus(focus))) == Reported(s)
  {
  }

  /**
   * The component as the source runs it: `Update` assigns the fields one
   * handler at a time, as date_component.rs does. `ParsedYear`, `ParsedDay`,
   * `DateStep` and `Reported` above are the specification these statements
   * are proved against; the methods are the implementation, not a second
   * definition.
   */
  class DateComponent {
    var yearValue: Option<u16>
    var seasonFocus: bool
    var seasonValue: Option<u8>
    var dayValue: Option<u8>

    function State(): DateState
      reads this
    {
      DateState(yearValue, seasonFocus, seasonValue, dayValue)
    }

    constructor ()
      ensures State() == DateState(None, false, None, None)
    {
      yearValue := None;
      seasonFocus := false;
      seasonValue := None;
      dayValue := None;
    }

    method Update(msg: DateMessage) returns (emitted: Option<i32>)
      requires FieldsValid(State())
      modifies this
      ensures State() == DateStep(old(State()), msg)
      ensures emitted == Reported(State())
      ensures FieldsValid(State())
    {
      match msg {
        case YearValue(yearString) =>
          yearValue := YearField(yearString);
        case SeasonFocus(focus) =>
          seasonFocus := focus;
        case SeasonValue(season) =>
          if 1 <= season <= 4 {
            seasonValue := Some(season);
          } else {
            seasonValue := None;
          }
        case DayValue(dayString) =>
          dayValue := DayField(dayString);
      }
      assert State() == DateStep(old(State()), msg);

      emitted := Emitted();
    }

    /** The year input's handler: a positive `u16`, else cleared. */
    static method YearField(yearString: string) returns (yearValue: Option<u16>)
      ensures yearValue == ParsedYear(yearString)
    {
      match ParseUnsigned(yearString, U16_MAX) {
        case Some(yearInt) =>
          if yearInt > 0 {
            yearValue := Some(yearInt);
          } else {
            yearValue := None;
          }
        case None =>
          yearValue := None;
      }
    }

    /** The day input's handler: a `u8` from 1 to 28, else cleared. */
    static method DayField(dayString: string) returns (dayValue: Option<u8>)
      ensures dayValue == ParsedDay(dayString)
    {
      match ParseUnsigned(dayString, U8_MAX) {
        case Some(dayInt) =>
          if 1 <= dayInt <= 28 {
            dayValue := Some(dayInt);
          } else {
            dayValue := None;
          }
        case None =>
          dayValue := None;
      }
    }

    /** The date the component emits after an update, when all three fields are set. */
    method Emitted() returns (emitted: Option<i32>)
      requires FieldsValid(State())
      ensures emitted == Reported(State())
    {
      match (yearValue, seasonValue, dayValue) {
        case (Some(year), Some(season), Some(day)) =>
          DateBounds(year, season, day);
          var date: i32 := 28 * 4 * (year as int - 1) + 28 * (season as int - 1) + day as int;
          emitted := Some(date);
        case _ =>
          emitted := None;
      }
    }
  }
}
