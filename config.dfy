/**
 * backend/internals/config/config.go: the logger configuration. The date-time
 * format and the logger level are string types whose Set method folds the input
 * to lower case and accepts only the names of the declared constants; String maps
 * a format to its Go time layout and a level to its own name. NewLogger builds
 * the appender configuration. Everything that talks to zap or the file system is
 * not part of this model.
 */
module Config {
  import opened Wrappers
  import opened GoText

  // ------------------------------------------------------------ DateTimeFormat

  /** DateTimeFormat is a Go string type: any string is a value of it. */
  type DateTimeFormat = string

  const ANSIC: DateTimeFormat := "ansic"
  const UnixDate: DateTimeFormat := "unixDate"
  const RubyDate: DateTimeFormat := "rubyDate"
  const RFC822: DateTimeFormat := "rfc822"
  const RFC822Z: DateTimeFormat := "rfc822z"
  const RFC850: DateTimeFormat := "rfc850"
  const RFC1123: DateTimeFormat := "rfc1123"
  const RFC1123Z: DateTimeFormat := "rfc1123z"
  const RFC3339: DateTimeFormat := "rfc3339"
  const RFC3339Nano: DateTimeFormat := "rfc3339nano"
  const Kitchen: DateTimeFormat := "kitchen"
  const Stamp: DateTimeFormat := "stamp"
  const StampMilli: DateTimeFormat := "stampMilli"
  const StampMicro: DateTimeFormat := "stampMicro"
  const StampNano: DateTimeFormat := "stampNano"

  /** Every declared format constant. */
  const Formats: set<DateTimeFormat> := {
    ANSIC, UnixDate, RubyDate, RFC822, RFC822Z, RFC850, RFC1123, RFC1123Z,
    RFC3339, RFC3339Nano, Kitchen, Stamp, StampMilli, StampMicro, StampNano
  }

  /**
   * DateTimeFormat.unmarshal as the source writes it: a lower-case format name
   * gives its constant. The case for "rfc1123z" is missing from the switch.
   */
  function UnmarshalDateTimeFormatAsWritten(input: string): (r: Option<DateTimeFormat>)
    ensures r.Some? ==> r.value in Formats && r.value != RFC1123Z
  {
    match input
    case "ansic" => Some(ANSIC)
    case "unixdate" => Some(UnixDate)
    case "rubydate" => Some(RubyDate)
    case "rfc822" => Some(RFC822)
    case "rfc822z" => Some(RFC822Z)
    case "rfc850" => Some(RFC850)
    case "rfc1123" => Some(RFC1123)
    case "rfc3339" => Some(RFC3339)
    case "rfc3339nano" => Some(RFC3339Nano)
    case "kitchen" => Some(Kitchen)
    case "stamp" => Some(Stamp)
    case "stampmilli" => Some(StampMilli)
    case "stampmicro" => Some(StampMicro)
    case "stampnano" => Some(StampNano)
    case _ => None
  }

  /** DateTimeFormat.unmarshal with the missing "rfc1123z" case: the corrected definition. */
  function UnmarshalDateTimeFormat(input: string): (r: Option<DateTimeFormat>)
    ensures r.Some? ==> r.value in Formats
  {
    if input == "rfc1123z" then Some(RFC1123Z) else UnmarshalDateTimeFormatAsWritten(input)
  }

  /**
   * DateTimeFormat.String as the source writes it: the Go time layout of the
   * format, "" for any other value. The RFC1123Z case is missing.
   */
  function DateTimeLayoutAsWritten(d: DateTimeFormat): (r: string)
    ensures r != "" <==> d in Formats && d != RFC1123Z
  {
    match d
    case "ansic" => "Mon Jan _2 15:04:05 2006"
    case "unixDate" => "Mon Jan _2 15:04:05 MST 2006"
    case "rubyDate" => "Mon Jan 02 15:04:05 -0700 2006"
    case "rfc822" => "02 Jan 06 15:04 MST"
    case "rfc822z" => "02 Jan 06 15:04 -0700"
    case "rfc850" => "Monday, 02-Jan-06 15:04:05 MST"
    case "rfc1123" => "Mon, 02 Jan 2006 15:04:05 MST"
    case "rfc3339" => "2006-01-02T15:04:05Z07:00"
    case "rfc3339nano" => "2006-01-02T15:04:05.999999999Z07:00"
    case "kitchen" => "3:04PM"
    case "stamp" => "Jan _2 15:04:05"
    case "stampMilli" => "Jan _2 15:04:05.000"
    case "stampMicro" => "Jan _2 15:04:05.000000"
    case "stampNano" => "Jan _2 15:04:05.000000000"
    case _ => ""
  }

  /** DateTimeFormat.String with the missing RFC1123Z layout: the corrected definition. */
  function DateTimeLayout(d: DateTimeFormat): (r: string)
    ensures r != "" <==> d in Formats
  {
    if d == RFC1123Z then "Mon, 02 Jan 2006 15:04:05 -0700" else DateTimeLayoutAsWritten(d)
  }

  /** The lower-case forms of the camel-case constant names. */
  lemma LowerFormatNames()
    ensures ToLower(UnixDate) == "unixdate"
    ensures ToLower(RubyDate) == "rubydate"
    ensures ToLower(StampMilli) == "stampmilli"
    ensures ToLower(StampMicro) == "stampmicro"
    ensures ToLower(StampNano) == "stampnano"
  {
    assert ToLower(UnixDate) == "unixdate" by {
      assert ToLower(UnixDate)[4] == 'd';
    }
    assert ToLower(RubyDate) == "rubydate" by {
      assert ToLower(RubyDate)[4] == 'd';
    }
    assert ToLower(StampMilli) == "stampmilli" by {
      assert ToLower(StampMilli)[5] == 'm';
    }
    assert ToLower(StampMicro) == "stampmicro" by {
      assert ToLower(StampMicro)[5] == 'm';
    }
    assert ToLower(StampNano) == "stampnano" by {
      assert ToLower(StampNano)[5] == 'n';
    }
  }

  /** Every ASCII lower-case constant name is its own lower-case form. */
  lemma LowerCaseFormatNames()
    ensures ToLower(ANSIC) == ANSIC && ToLower(RFC822) == RFC822 && ToLower(RFC822Z) == RFC822Z
    ensures ToLower(RFC850) == RFC850 && ToLower(RFC1123) == RFC1123 && ToLower(RFC1123Z) == RFC1123Z
    ensures ToLower(RFC3339) == RFC3339 && ToLower(RFC3339Nano) == RFC3339Nano
    ensures ToLower(Kitchen) == Kitchen && ToLower(Stamp) == Stamp
  {
    ToLowerOfLower(ANSIC);
    ToLowerOfLower(RFC822);
    ToLowerOfLower(RFC822Z);
    ToLowerOfLower(RFC850);
    ToLowerOfLower(RFC1123);
    ToLowerOfLower(RFC1123Z);
    ToLowerOfLower(RFC3339);
    ToLowerOfLower(RFC3339Nano);
    ToLowerOfLower(Kitchen);
    ToLowerOfLower(Stamp);
  }

  /** Whatever unmarshal accepts is the lower-case form of the constant it gives. */
  lemma UnmarshalDateTimeFormatSound(input: string)
    ensures UnmarshalDateTimeFormat(input).Some? ==> ToLower(UnmarshalDateTimeFormat(input).value) == input
  {
    LowerFormatNames();
    LowerCaseFormatNames();
  }

  /** Set(c) of a constant's own name, in whatever case it is written, stores that constant. */
  lemma DateTimeFormatRoundTrip(c: DateTimeFormat)
    requires c in Formats
    ensures UnmarshalDateTimeFormat(ToLower(c)) == Some(c)
  {
    LowerFormatNames();
    LowerCaseFormatNames();
  }

  /**
   * Set accepts exactly the constant names, in any letter case, and stores the
   * constant so named: unmarshal succeeds on `input` if and only if `input` is
   * the lower-case form of a constant, and then gives that constant.
   */
  lemma UnmarshalDateTimeFormatMeaning(input: string)
    ensures UnmarshalDateTimeFormat(input).Some? <==> exists c | c in Formats :: ToLower(c) == input
    ensures UnmarshalDateTimeFormat(input).Some? ==> ToLower(UnmarshalDateTimeFormat(input).value) == input
  {
    UnmarshalDateTimeFormatSound(input);
    forall c | c in Formats && ToLower(c) == input
      ensures UnmarshalDateTimeFormat(input).Some?
    {
      DateTimeFormatRoundTrip(c);
    }
  }

  /**
   * As written, Set accepts exactly the names of the constants other than
   * RFC1123Z, in any letter case, and stores the constant so named.
   */
  lemma UnmarshalDateTimeFormatAsWrittenMeaning(input: string)
    ensures UnmarshalDateTimeFormatAsWritten(input).Some?
        <==> exists c | c in Formats && c != RFC1123Z :: ToLower(c) == input
    ensures UnmarshalDateTimeFormatAsWritten(input).Some? ==> ToLower(UnmarshalDateTimeFormatAsWritten(input).value) == input
  {
    ToLowerOfLower(RFC1123Z);
    UnmarshalDateTimeFormatSound(input);
    forall c | c in Formats && c != RFC1123Z && ToLower(c) == input
      ensures UnmarshalDateTimeFormatAsWritten(input).Some?
    {
      DateTimeFormatRoundTrip(c);
      DateTimeFormatRoundTrip(RFC1123Z);
    }
  }

  /**
   * The format whose Go layout is `layout`, if any: the inverse of String on
   * the constants. Layouts are told apart by their length first.
   */
  function FormatOfLayout(layout: string): (r: Option<DateTimeFormat>)
    ensures r.Some? ==> r.value in Formats
  {
    match |layout|
    case 6 => if layout == "3:04PM" then Some(Kitchen) else None
    case 15 => if layout == "Jan _2 15:04:05" then Some(Stamp) else None
    case 19 =>
      if layout == "02 Jan 06 15:04 MST" then Some(RFC822)
      else if layout == "Jan _2 15:04:05.000" then Some(StampMilli)
      else None
    case 21 => if layout == "02 Jan 06 15:04 -0700" then Some(RFC822Z) else None
    case 22 => if layout == "Jan _2 15:04:05.000000" then Some(StampMicro) else None
    case 24 => if layout == "Mon Jan _2 15:04:05 2006" then Some(ANSIC) else None
    case 25 =>
      if layout == "2006-01-02T15:04:05Z07:00" then Some(RFC3339)
      else if layout == "Jan _2 15:04:05.000000000" then Some(StampNano)
      else None
    case 28 => if layout == "Mon Jan _2 15:04:05 MST 2006" then Some(UnixDate) else None
    case 29 => if layout == "Mon, 02 Jan 2006 15:04:05 MST" then Some(RFC1123) else None
    case 30 =>
      if layout == "Mon Jan 02 15:04:05 -0700 2006" then Some(RubyDate)
      else if layout == "Monday, 02-Jan-06 15:04:05 MST" then Some(RFC850)
      else None
    case 31 => if layout == "Mon, 02 Jan 2006 15:04:05 -0700" then Some(RFC1123Z) else None
    case 35 => if layout == "2006-01-02T15:04:05.999999999Z07:00" then Some(RFC3339Nano) else None
    case _ => None
  }

  // The round trip of String, five constants at a time.

  lemma LayoutsOfFirstFive()
    ensures FormatOfLayout(DateTimeLayout(ANSIC)) == Some(ANSIC)
    ensures FormatOfLayout(DateTimeLayout(UnixDate)) == Some(UnixDate)
    ensures FormatOfLayout(DateTimeLayout(RubyDate)) == Some(RubyDate)
    ensures FormatOfLayout(DateTimeLayout(RFC822)) == Some(RFC822)
    ensures FormatOfLayout(DateTimeLayout(RFC822Z)) == Some(RFC822Z)
  {
  }

  lemma LayoutsOfSecondFive()
    ensures FormatOfLayout(DateTimeLayout(RFC850)) == Some(RFC850)
    ensures FormatOfLayout(DateTimeLayout(RFC1123)) == Some(RFC1123)
    ensures FormatOfLayout(DateTimeLayout(RFC1123Z)) == Some(RFC1123Z)
    ensures FormatOfLayout(DateTimeLayout(RFC3339)) == Some(RFC3339)
    ensures FormatOfLayout(DateTimeLayout(RFC3339Nano)) == Some(RFC3339Nano)
  {
  }

  lemma LayoutsOfLastFive()
    ensures FormatOfLayout(DateTimeLayout(Kitchen)) == Some(Kitchen)
    ensures FormatOfLayout(DateTimeLayout(Stamp)) == Some(Stamp)
    ensures FormatOfLayout(DateTimeLayout(StampMilli)) == Some(StampMilli)
    ensures FormatOfLayout(DateTimeLayout(StampMicro)) == Some(StampMicro)
    ensures FormatOfLayout(DateTimeLayout(StampNano)) == Some(StampNano)
  {
  }

  /**
   * String loses no information on the constants: each format's layout leads
   * back to the format, so different formats have different layouts.
   */
  lemma DateTimeLayoutRoundTrip(c: DateTimeFormat)
    requires c in Formats
    ensures FormatOfLayout(DateTimeLayout(c)) == Some(c)
  {
    if c in {ANSIC, UnixDate, RubyDate, RFC822, RFC822Z} {
      LayoutsOfFirstFive();
    } else if c in {RFC850, RFC1123, RFC1123Z, RFC3339, RFC3339Nano} {
      LayoutsOfSecondFive();
    } else {
      LayoutsOfLastFive();
    }
  }

  lemma DateTimeLayoutInjective(c: DateTimeFormat, c': DateTimeFormat)
    requires c in Formats && c' in Formats
    requires DateTimeLayout(c) == DateTimeLayout(c')
    ensures c == c'
  {
    DateTimeLayoutRoundTrip(c);
    DateTimeLayoutRoundTrip(c');
  }

  /** The format cases of config_test.go: camel case accepted, anything else refused. */
  lemma DateTimeFormatExamples()
    ensures UnmarshalDateTimeFormatAsWritten(ToLower("unixDate")) == Some(UnixDate)
    ensures UnmarshalDateTimeFormatAsWritten(ToLower("stampMilli")) == Some(StampMilli)
    ensures UnmarshalDateTimeFormatAsWritten(ToLower("incorrectDateTimeFormat")) == None
  {
    LowerFormatNames();
    var s := ToLower("incorrectDateTimeFormat");
    assert |s| == 23;
  }

  /**
   * The as-written functions drop RFC1123Z: Set refuses its own name and String
   * gives the empty layout for it, so unmarshal(String()) does not come back.
   */
  lemma RFC1123ZDroppedAsWritten()
    ensures RFC1123Z in Formats
    ensures UnmarshalDateTimeFormatAsWritten(ToLower(RFC1123Z)) == None
    ensures DateTimeLayoutAsWritten(RFC1123Z) == ""
  {
    ToLowerOfLower(RFC1123Z);
  }

  /** On every other input the corrected functions behave as the source does. */
  lemma CorrectionOnlyAddsRFC1123Z(input: string, d: DateTimeFormat)
    ensures input != ToLower(RFC1123Z) ==> UnmarshalDateTimeFormat(input) == UnmarshalDateTimeFormatAsWritten(input)
    ensures d != RFC1123Z ==> DateTimeLayout(d) == DateTimeLayoutAsWritten(d)
  {
    ToLowerOfLower(RFC1123Z);
  }

  /** A DateTimeFormat variable: the receiver of the pointer methods. */
  class DateTimeFormatVar {
    var value: DateTimeFormat

    /** `var d DateTimeFormat`: the zero value. */
    constructor ()
      ensures value == ""
    {
      value := "";
    }

    /** DateTimeFormat.Set: unmarshal the lower-cased input, ErrDateTimeFormatNotAllowed on refusal. */
    method Set(input: string) returns (err: Option<Error>)
      modifies this
      ensures err == if UnmarshalDateTimeFormatAsWritten(ToLower(input)).Some? then None else Some(DateTimeFormatNotAllowed)
      ensures value == UnmarshalDateTimeFormatAsWritten(ToLower(input)).GetOr(old(value))
    {
      var ok := Unmarshal(ToLower(input));
      if !ok {
        return Some(DateTimeFormatNotAllowed);
      }
      return None;
    }

    /** DateTimeFormat.unmarshal: store the named constant, or report false and leave the value. */
    method Unmarshal(input: string) returns (ok: bool)
      modifies this
      ensures ok <==> UnmarshalDateTimeFormatAsWritten(input).Some?
      ensures value == UnmarshalDateTimeFormatAsWritten(input).GetOr(old(value))
    {
      var r := UnmarshalDateTimeFormatAsWritten(input);
      if r.None? {
        return false;
      }
      value := r.value;
      return true;
    }

    /** DateTimeFormat.String: the layout of the stored format, "" when it is no constant or is RFC1123Z. */
    function String(): (r: string)
      reads this
      ensures r != "" <==> value in Formats - {RFC1123Z}
    {
      DateTimeLayoutAsWritten(value)
    }
  }

  // --------------------------------------------------------------- LoggerLevel

  /** LoggerLevel is a Go string type: any string is a value of it. */
  type LoggerLevel = string

  const DebugLevel: LoggerLevel := "debug"
  const InfoLevel: LoggerLevel := "info"
  const WarnLevel: LoggerLevel := "warn"
  const ErrorLevel: LoggerLevel := "error"
  const DPanicLevel: LoggerLevel := "dpanic"
  const PanicLevel: LoggerLevel := "panic"
  const FatalLevel: LoggerLevel := "fatal"

  /** Every declared level constant. */
  const Levels: set<LoggerLevel> := {DebugLevel, InfoLevel, WarnLevel, ErrorLevel, DPanicLevel, PanicLevel, FatalLevel}

  /** LoggerLevel.unmarshal: a level name gives that level; everything else is refused. */
  function UnmarshalLoggerLevel(input: string): (r: Option<LoggerLevel>)
    ensures r.Some? <==> input in Levels
    ensures r.Some? ==> r.value == input
  {
    match input
    case "debug" => Some(DebugLevel)
    case "info" => Some(InfoLevel)
    case "warn" => Some(WarnLevel)
    case "error" => Some(ErrorLevel)
    case "dpanic" => Some(DPanicLevel)
    case "panic" => Some(PanicLevel)
    case "fatal" => Some(FatalLevel)
    case _ => None
  }

  /** LoggerLevel.String: the level's own name, "" for any value that is no level. */
  function LoggerLevelString(l: LoggerLevel): (r: string)
    ensures l in Levels ==> r == l
    ensures l !in Levels ==> r == ""
  {
    match l
    case "debug" => "debug"
    case "info" => "info"
    case "warn" => "warn"
    case "error" => "error"
    case "dpanic" => "dpanic"
    case "panic" => "panic"
    case "fatal" => "fatal"
    case _ => ""
  }

  /** Every level name is already lower case. */
  lemma LowerCaseLevelNames()
    ensures forall l | l in Levels :: ToLower(l) == l
  {
    ToLowerOfLower(DebugLevel);
    ToLowerOfLower(InfoLevel);
    ToLowerOfLower(WarnLevel);
    ToLowerOfLower(ErrorLevel);
    ToLowerOfLower(DPanicLevel);
    ToLowerOfLower(PanicLevel);
    ToLowerOfLower(FatalLevel);
  }

  /** Set(l.String()) gives back l for every level. */
  lemma LoggerLevelRoundTrip(l: LoggerLevel)
    requires l in Levels
    ensures UnmarshalLoggerLevel(ToLower(LoggerLevelString(l))) == Some(l)
  {
    LowerCaseLevelNames();
  }

  /** Set accepts a level name in any letter case; it refuses every input whose lower-case form is no level name. */
  lemma SetLoggerLevelMeaning(input: string)
    ensures UnmarshalLoggerLevel(ToLower(input)).Some? <==> exists l | l in Levels :: ToLower(input) == ToLower(l)
  {
    LowerCaseLevelNames();
  }

  /** The level cases of config_test.go, and an upper-case name. */
  lemma LoggerLevelExamples()
    ensures UnmarshalLoggerLevel(ToLower("DPANIC")) == Some(DPanicLevel)
    ensures UnmarshalLoggerLevel(ToLower("incorrectLoggerLevel")) == None
  {
    assert ToLower("DPANIC") == "dpanic" by {
      assert ToLower("DPANIC")[0] == 'd';
    }
    var s := ToLower("incorrectLoggerLevel");
    assert |s| == 20;
  }

  /** A LoggerLevel variable: the receiver of the pointer methods. */
  class LoggerLevelVar {
    var value: LoggerLevel

    /** `var l LoggerLevel`: the zero value. */
    constructor ()
      ensures value == ""
    {
      value := "";
    }

    /** LoggerLevel.Set: unmarshal the lower-cased input, ErrLoggerLevelNotAllowed on refusal. */
    method Set(input: string) returns (err: Option<Error>)
      modifies this
      ensures err == if UnmarshalLoggerLevel(ToLower(input)).Some? then None else Some(LoggerLevelNotAllowed)
      ensures value == UnmarshalLoggerLevel(ToLower(input)).GetOr(old(value))
    {
      var ok := Unmarshal(ToLower(input));
      if !ok {
        return Some(LoggerLevelNotAllowed);
      }
      return None;
    }

    /** LoggerLevel.unmarshal: store the named level, or report false and leave the value. */
    method Unmarshal(input: string) returns (ok: bool)
      modifies this
      ensures ok <==> UnmarshalLoggerLevel(input).Some?
      ensures value == UnmarshalLoggerLevel(input).GetOr(old(value))
    {
      var r := UnmarshalLoggerLevel(input);
      if r.None? {
        return false;
      }
      value := r.value;
      return true;
    }

    /** LoggerLevel.String: the stored level's name, "" when it is no level. */
    function String(): (r: string)
      reads this
      ensures r != "" <==> value in Levels
    {
      LoggerLevelString(value)
    }
  }

  // ----------------------------------------------------------------- appenders

  datatype ConsoleAppender = ConsoleAppender(level: LoggerLevel, dateTimeFormat: DateTimeFormat)

  datatype FileLoggerAppender = FileLoggerAppender(level: LoggerLevel, fileName: string, dateTimeFormat: DateTimeFormat)

  datatype Logger = Logger(production: bool, fileAppenders: seq<FileLoggerAppender>, consoleAppender: ConsoleAppender)

  /** The zero ConsoleAppender: no level, no format. */
  const NoConsole: ConsoleAppender := ConsoleAppender("", "")

  /** NewConsoleAppender: the given level, RFC3339 timestamps. */
  function NewConsoleAppender(level: LoggerLevel): (r: ConsoleAppender)
    ensures r.level == level
    ensures DateTimeLayoutAsWritten(r.dateTimeFormat) == "2006-01-02T15:04:05Z07:00"
  {
    ConsoleAppender(level, RFC3339)
  }

  /** NewFileLoggerAppender: the three given values. */
  function NewFileLoggerAppender(level: LoggerLevel, fileName: string, format: DateTimeFormat): FileLoggerAppender {
    FileLoggerAppender(level, fileName, format)
  }

  /**
   * NewLogger: one file appender per file name, in order, each at the given
   * level with RFC3339 timestamps; a console appender at that level only when
   * `console` is set (the zero appender otherwise); never production.
   */
  method NewLogger(console: bool, level: LoggerLevel, fileNames: seq<string>) returns (l: Logger)
    ensures !l.production
    ensures |l.fileAppenders| == |fileNames|
    ensures forall i | 0 <= i < |fileNames| ::
              && l.fileAppenders[i].fileName == fileNames[i]
              && l.fileAppenders[i].level == level
              && l.fileAppenders[i].dateTimeFormat == RFC3339
    ensures console ==> l.consoleAppender.level == level && l.consoleAppender.dateTimeFormat == RFC3339
    ensures !console ==> l.consoleAppender == NoConsole
  {
    var appenders := new FileLoggerAppender[|fileNames|];
    for i := 0 to |fileNames|
      invariant forall k | 0 <= k < i :: appenders[k] == NewFileLoggerAppender(level, fileNames[k], RFC3339)
    {
      appenders[i] := NewFileLoggerAppender(level, fileNames[i], RFC3339);
    }
    var consoleAppender := NoConsole;
    if console {
      consoleAppender := NewConsoleAppender(level);
    }
    l := Logger(false, appenders[..], consoleAppender);
  }
}
