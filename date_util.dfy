/**
 * The date-time helpers of Util: the tolerant ISO-8601 parser (normalisation of
 * PostgreSQL-style text, then a chain of three java.time parsers) and the
 * conversion of an arbitrary object to a LocalDateTime.
 *
 * The java.time parsers and conversions are library code; they are parameters
 * of the model, gathered in a TimeLibrary value.
 */
module DateUtil {
  import opened Wrappers

  datatype LocalDate = LocalDate(year: int, month: int, day: int)
  datatype LocalTime = LocalTime(hour: int, minute: int, second: int, nano: int)
  datatype LocalDateTime = LocalDateTime(date: LocalDate, time: LocalTime)
  datatype ZonedDateTime = ZonedDateTime(dateTime: LocalDateTime, zone: string)

  /** LocalTime.MIDNIGHT */
  const Midnight := LocalTime(0, 0, 0, 0)

  /**
   * The library code the parser relies on: LocalDateTime.parse, LocalDate.parse,
   * ZonedDateTime.parse (None where they throw DateTimeParseException), the
   * conversion of a zoned date-time to its UTC wall-clock time (None where
   * LocalDateTime.ofInstant throws DateTimeException because the instant lies
   * beyond the years LocalDateTime can hold), and the conversion of epoch
   * milliseconds to UTC, which every long value survives.
   */
  datatype TimeLibrary = TimeLibrary(
    parseDateTime: string -> Option<LocalDateTime>,
    parseDate: string -> Option<LocalDate>,
    parseZoned: string -> Option<ZonedDateTime>,
    zonedToUtc: ZonedDateTime -> Option<LocalDateTime>,
    epochMillisToUtc: int -> LocalDateTime)

  /**
   * DateTimeParseException(message, parsedData, errorIndex); the DateTimeException
   * of an out-of-range conversion, which is not a DateTimeParseException and so
   * escapes every catch of the parser; or a NullPointerException.
   */
  datatype DateError =
    | DateTimeParseError(message: string, parsed: string, index: int)
    | DateTimeOutOfRange
    | NullPointer

  /** The argument of dateTimeFromObject, by its run-time class. */
  datatype JavaObject =
    | JNull
    | JString(text: string)
    | JLocalDateTime(dateTime: LocalDateTime)
    | JNumber(longValue: int)   // the value of Number.longValue()
    | JOther(simpleName: string)

  const DelimitationIndex := 10
  const NullMessage := "ISO-8601 string is null."
  const UnsupportedMessage := "DateTime not provided in any supported ISO-8601 format."
  const WrongTypeMessage := "expected String, LocalDateTime, or Number object; received "

  /** The text with a space at the date/time delimitation index turned into 'T'. */
  function WithDelimiter(s: string): (t: string)
    ensures |t| == |s|
    ensures forall i | 0 <= i < |s| && i != DelimitationIndex :: t[i] == s[i]
    ensures |s| > DelimitationIndex && s[DelimitationIndex] == ' ' ==> t[DelimitationIndex] == 'T'
    ensures !(|s| > DelimitationIndex && s[DelimitationIndex] == ' ') ==> t == s
  {
    if |s| > DelimitationIndex && s[DelimitationIndex] == ' ' then s[DelimitationIndex := 'T'] else s
  }

  predicate IsDigit(c: char) {
    '0' <= c <= '9'
  }

  /** The text is longer than three characters and ends in a two-digit zone offset `[+-]HH`. */
  predicate HasHourOffset(s: string) {
    && |s| > 3
    && (s[|s| - 3] == '+' || s[|s| - 3] == '-')
    && IsDigit(s[|s| - 2])
    && IsDigit(s[|s| - 1])
  }

  /**
   * The text handed to the java.time parsers: the delimiter fixed, then ":00"
   * appended to a two-digit zone offset.
   */
  function Normalised(s: string): (t: string)
    ensures WithDelimiter(s) <= t
    ensures |t| == |s| + 3 <==> HasHourOffset(WithDelimiter(s))
    ensures |t| == |s| || |t| == |s| + 3
    ensures |t| == |s| + 3 ==> t[|s|..] == ":00"
  {
    var fixed := WithDelimiter(s);
    if HasHourOffset(fixed) then fixed + ":00" else fixed
  }

  /**
   * The normalisation as Util.dateTimeFromISO8601 performs it: the string is
   * copied into a character array, index 10 overwritten, and a new string made
   * from the array; then the offset suffix is appended.
   */
  method NormaliseIso8601(input: string) returns (s: string)
    ensures s == Normalised(input)
  {
    s := input;
    if |s| > DelimitationIndex && s[DelimitationIndex] == ' ' {
      var characters := new char[|s|](i requires 0 <= i < |s| => s[i]);
      characters[DelimitationIndex] := 'T';
      s := characters[..];
    }
    var length := |s|;
    if length > 3 {
      var sign := s[length - 3];
      if sign == '+' || sign == '-' {
        var d1 := s[length - 2];
        var d2 := s[length - 1];
        if d1 >= '0' && d1 <= '9' && d2 >= '0' && d2 <= '9' {
          s := s + ":00";
        }
      }
    }
  }

  /**
   * The fallback chain over already normalised text: a date-time, else a date
   * at midnight, else a zoned date-time converted to UTC, else a parse error
   * that reports the normalised text. A zoned date-time whose UTC time is out
   * of range fails with the conversion's own exception.
   */
  function ParseNormalised(lib: TimeLibrary, s: string): (r: Result<LocalDateTime, DateError>)
    ensures r.Success? <==>
              || lib.parseDateTime(s).Some?
              || lib.parseDate(s).Some?
              || (lib.parseZoned(s).Some? && lib.zonedToUtc(lib.parseZoned(s).value).Some?)
    ensures lib.parseDateTime(s).Some? ==> r == Success(lib.parseDateTime(s).value)
    ensures lib.parseDateTime(s).None? && lib.parseDate(s).Some? ==>
              r.Success? && r.value.date == lib.parseDate(s).value && r.value.time == Midnight
    ensures lib.parseDateTime(s).None? && lib.parseDate(s).None? && lib.parseZoned(s).Some? && r.Success? ==>
              lib.zonedToUtc(lib.parseZoned(s).value) == Some(r.value)
    ensures r.Failure? ==>
              r.error == if lib.parseZoned(s).Some? then DateTimeOutOfRange else DateTimeParseError(UnsupportedMessage, s, 0)
  {
    match lib.parseDateTime(s)
    case Some(dateTime) => Success(dateTime)
    case None =>
      match lib.parseDate(s)
      case Some(date) => Success(LocalDateTime(date, Midnight))
      case None =>
        match lib.parseZoned(s)
        case Some(zoned) =>
          (match lib.zonedToUtc(zoned)
           case Some(dateTime) => Success(dateTime)
           case None => Failure(DateTimeOutOfRange))
        case None => Failure(DateTimeParseError(UnsupportedMessage, s, 0))
  }

  /**
   * Util.dateTimeFromISO8601: null is a parse error; other text is normalised,
   * then parsed. The normalisation hides every text LocalDate.parse accepts
   * from it, so the date-only fallback is never taken (DateFallbackUnreachable).
   */
  method DateTimeFromIso8601(lib: TimeLibrary, input: Option<string>) returns (r: Result<LocalDateTime, DateError>)
    ensures input.None? ==> r == Failure(DateTimeParseError(NullMessage, "", 0))
    ensures input.Some? ==> r == ParseNormalised(lib, Normalised(input.value))
    ensures input.Some? && ParsesIsoDatesOnly(lib) ==> lib.parseDate(Normalised(input.value)).None?
  {
    if input.None? {
      return Failure(DateTimeParseError(NullMessage, "", 0));
    }
    var s := NormaliseIso8601(input.value);
    r := ParseNormalised(lib, s);
    assert ParsesIsoDatesOnly(lib) ==> lib.parseDate(s).None? by {
      if ParsesIsoDatesOnly(lib) {
        DateFallbackUnreachable(lib, input.value);
      }
    }
  }

  /**
   * Util.dateTimeFromObject: text is parsed (a parse failure is re-reported
   * against the caller's text; an out-of-range conversion passes through), a
   * LocalDateTime is returned as it is, a number is epoch milliseconds, any
   * other class is a parse error naming it, and null fails with a
   * NullPointerException when its class is asked for.
   */
  method DateTimeFromObject(lib: TimeLibrary, value: JavaObject) returns (r: Result<LocalDateTime, DateError>)
    ensures value.JString? ==>
              r == match ParseNormalised(lib, Normalised(value.text))
                   case Success(dateTime) => Success(dateTime)
                   case Failure(DateTimeOutOfRange) => Failure(DateTimeOutOfRange)
                   case Failure(_) => Failure(DateTimeParseError(UnsupportedMessage, value.text, 0))
    ensures value.JLocalDateTime? ==> r == Success(value.dateTime)
    ensures value.JNumber? ==> r == Success(lib.epochMillisToUtc(value.longValue))
    ensures value.JOther? ==> r == Failure(DateTimeParseError(WrongTypeMessage + value.simpleName, "", 0))
    ensures value.JNull? ==> r == Failure(NullPointer)
  {
    match value
    case JString(text) =>
      var parsed := DateTimeFromIso8601(lib, Some(text));
      if parsed.Failure? && parsed.error != DateTimeOutOfRange {
        r := Failure(DateTimeParseError(UnsupportedMessage, text, 0));
      } else {
        r := parsed;
      }
    case JLocalDateTime(dateTime) =>
      r := Success(dateTime);
    case JNumber(millis) =>
      r := Success(lib.epochMillisToUtc(millis));
    case JOther(name) =>
      r := Failure(DateTimeParseError(WrongTypeMessage + name, "", 0));
    case JNull =>
      r := Failure(NullPointer);
  }

  /** Normalised text is left alone by a second normalisation. */
  lemma NormalisedIsFixedPoint(s: string)
    ensures Normalised(Normalised(s)) == Normalised(s)
  {
    var fixed := WithDelimiter(s);
    var t := Normalised(s);
    assert WithDelimiter(t) == t by {
      if |t| > DelimitationIndex {
        if DelimitationIndex < |s| {
          assert t[DelimitationIndex] == fixed[DelimitationIndex];
        } else {
          assert t[DelimitationIndex] in ":0";
        }
      }
    }
    if HasHourOffset(fixed) {
      assert t[|t| - 3] == ':';
    } else {
      assert t == fixed;
    }
  }

  /**
   * A PostgreSQL-style time with a space delimiter and an hour-only offset
   * normalises to the ISO-8601 form, so both texts parse alike whatever the parsers.
   */
  lemma PostgresStyleParsesAsIso(lib: TimeLibrary)
    ensures Normalised("2024-01-02 03:04:05+05") == "2024-01-02T03:04:05+05:00"
    ensures ParseNormalised(lib, Normalised("2024-01-02 03:04:05+05"))
         == ParseNormalised(lib, Normalised("2024-01-02T03:04:05+05:00"))
  {
    var pg := "2024-01-02 03:04:05+05";
    var iso := "2024-01-02T03:04:05+05:00";
    assert WithDelimiter(pg) == "2024-01-02T03:04:05+05";
    assert HasHourOffset(WithDelimiter(pg));
    assert WithDelimiter(iso) == iso;
    assert !HasHourOffset(iso);
  }

  // ------------------------------------------------------- the date-only fallback

  /**
   * Text in the shape of ISO_LOCAL_DATE, the one format LocalDate.parse
   * accepts: at least ten characters of digits, '-' and a year sign, ending
   * in '-' and the two digits of the day.
   */
  predicate IsoDateShape(t: string) {
    && |t| >= 10
    && (forall i | 0 <= i < |t| :: IsDigit(t[i]) || t[i] == '-' || t[i] == '+')
    && t[|t| - 3] == '-'
    && IsDigit(t[|t| - 2])
    && IsDigit(t[|t| - 1])
  }

  /** The date parser accepts nothing but text in the ISO_LOCAL_DATE shape. */
  ghost predicate ParsesIsoDatesOnly(lib: TimeLibrary) {
    forall t :: lib.parseDate(t).Some? ==> IsoDateShape(t)
  }

  /** A date ends in '-' and two digits, which the normalisation takes for an hour offset. */
  lemma NormalisedIsNeverADate(s: string)
    ensures !IsoDateShape(Normalised(s))
  {
    var t := Normalised(s);
    if HasHourOffset(WithDelimiter(s)) {
      assert t[|t| - 3] == ':';
    } else {
      assert t == WithDelimiter(s);
    }
  }

  /**
   * As written, the date-only fallback of dateTimeFromISO8601 cannot succeed:
   * a bare date gets ":00" appended, and no normalised text is a date. The
   * parser then succeeds only through the date-time or the zoned parser.
   */
  lemma DateFallbackUnreachable(lib: TimeLibrary, s: string)
    requires ParsesIsoDatesOnly(lib)
    ensures Normalised("2024-01-02") == "2024-01-02:00"
    ensures lib.parseDate(Normalised(s)).None?
    ensures ParseNormalised(lib, Normalised(s)).Success? <==>
              || lib.parseDateTime(Normalised(s)).Some?
              || (lib.parseZoned(Normalised(s)).Some? && lib.zonedToUtc(lib.parseZoned(Normalised(s)).value).Some?)
  {
    NormalisedIsNeverADate(s);
    assert HasHourOffset(WithDelimiter("2024-01-02"));
  }

  /**
   * The normalisation as evidently intended: ":00" completes an hour offset
   * only when the text has a time part, so a bare date is left alone.
   */
  function NormalisedWithTime(s: string): string {
    var fixed := WithDelimiter(s);
    if HasHourOffset(fixed) && 'T' in fixed then fixed + ":00" else fixed
  }

  /**
   * Under the intended normalisation a bare date reaches LocalDate.parse
   * unchanged and is parsed as that date at midnight, as the javadoc of
   * dateTimeFromISO8601 promises.
   */
  lemma BareDateParsesAtMidnight(lib: TimeLibrary, d: string)
    requires IsoDateShape(d)
    requires lib.parseDateTime(d).None? && lib.parseDate(d).Some?
    ensures NormalisedWithTime(d) == d
    ensures ParseNormalised(lib, NormalisedWithTime(d)) == Success(LocalDateTime(lib.parseDate(d).value, Midnight))
  {
    assert WithDelimiter(d) == d by {
      if |d| > DelimitationIndex {
        assert IsDigit(d[DelimitationIndex]) || d[DelimitationIndex] == '-' || d[DelimitationIndex] == '+';
      }
    }
    assert 'T' !in d by {
      forall i | 0 <= i < |d| ensures d[i] != 'T' {
        assert IsDigit(d[i]) || d[i] == '-' || d[i] == '+';
      }
    }
  }

  /**
   * The intended normalisation keeps the PostgreSQL tolerance: wherever the
   * text has a time part it agrees with the normalisation as written.
   */
  lemma NormalisedWithTimeKeepsOffsets(s: string)
    ensures 'T' in WithDelimiter(s) ==> NormalisedWithTime(s) == Normalised(s)
    ensures NormalisedWithTime("2024-01-02 03:04:05+05") == "2024-01-02T03:04:05+05:00"
  {
    assert WithDelimiter("2024-01-02 03:04:05+05") == "2024-01-02T03:04:05+05";
    assert "2024-01-02T03:04:05+05"[10] == 'T';
  }
}
