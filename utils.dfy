/**
  Model of src/utils.rs: the configuration record, its builder with fixed defaults,
  its JSON encoding and decoding, and the load/save cycle of the configuration file.

  The file is one cell holding either nothing (no file on disk) or its text. Reading
  and writing can fail for reasons outside the program; each such failure is a boolean
  parameter of the operation that meets it.
 */
module Utils {
  import opened Wrappers
  import opened RustText
  import opened Json
  import opened Core

  const DEFAULT_START_TIME: Time := Time(21, 0)
  const DEFAULT_END_TIME: Time := Time(7, 0)

  datatype Configuration = Configuration(
    enabled: bool,
    backlightingLevel: Int32,
    startTime: Time,
    endTime: Time)

  /** What `ConfigurationBuilder::new().finalize()` yields. */
  function DefaultConfiguration(): Configuration {
    Configuration(false, 0, DEFAULT_START_TIME, DEFAULT_END_TIME)
  }

  /** The default times render as `21:0` and `7:0`: no zero padding. */
  lemma DefaultTimesText()
    ensures ToString(DEFAULT_START_TIME) == "21:0"
    ensures ToString(DEFAULT_END_TIME) == "7:0"
  {
    assert FormatNat(21) == FormatNat(2) + [DigitChar(1)];
  }

  /**
    `Configuration::from_json`. `enabled` and `backlighting_level` fall back to false
    and 0 on their own; `start_time` and `end_time` must be strings (otherwise
    `unwrap` panics) and go through `Time::from_string`, which panics on a string
    without a divider.
   */
  function FromJson(input: JsonValue): (r: Outcome<Configuration>)
    ensures r.Ok? <==>
      && Index(input, "start_time").Str? && DIVIDER in Index(input, "start_time").s
      && Index(input, "end_time").Str? && DIVIDER in Index(input, "end_time").s
    ensures r.Ok? && !Index(input, "enabled").Boolean? ==> !r.value.enabled
    ensures r.Ok? && Index(input, "enabled").Boolean? ==> r.value.enabled == Index(input, "enabled").b
    ensures r.Ok? && !Index(input, "backlighting_level").Number? ==> r.value.backlightingLevel == 0
    ensures r.Ok? && Index(input, "backlighting_level").Number? ==>
      var n := Index(input, "backlighting_level").n;
      r.value.backlightingLevel == if I32_MIN <= n <= I32_MAX then n else 0
    ensures r.Ok? ==> r.value.startTime == FromString(Index(input, "start_time").s).value
    ensures r.Ok? ==> r.value.endTime == FromString(Index(input, "end_time").s).value
  {
    var enabled := AsBool(Index(input, "enabled")).GetOr(false);
    var backlightingLevel := AsI32(Index(input, "backlighting_level")).GetOr(0);
    match AsStr(Index(input, "start_time"))
    case None => Panicked(UnwrapOnNone)
    case Some(startText) =>
      match FromString(startText)
      case Panicked(cause) => Panicked(cause)
      case Ok(startTime) =>
        match AsStr(Index(input, "end_time"))
        case None => Panicked(UnwrapOnNone)
        case Some(endText) =>
          match FromString(endText)
          case Panicked(cause) => Panicked(cause)
          case Ok(endTime) => Ok(Configuration(enabled, backlightingLevel, startTime, endTime))
  }

  /** `Configuration::to_json`: an object with exactly the four configuration keys. */
  function ToJson(c: Configuration): (r: JsonValue)
    ensures r.Object? && r.members.Keys == {"enabled", "backlighting_level", "start_time", "end_time"}
    ensures Index(r, "enabled") == Boolean(c.enabled)
    ensures Index(r, "backlighting_level") == Number(c.backlightingLevel)
    ensures Index(r, "start_time") == Str(ToString(c.startTime))
    ensures Index(r, "end_time") == Str(ToString(c.endTime))
  {
    Object(map[
      "enabled" := Boolean(c.enabled),
      "backlighting_level" := Number(c.backlightingLevel),
      "start_time" := Str(ToString(c.startTime)),
      "end_time" := Str(ToString(c.endTime))])
  }

  /** Decoding the encoding of a configuration gives it back, field for field. */
  lemma FromJsonToJson(c: Configuration)
    ensures FromJson(ToJson(c)) == Ok(c)
  {
    var j := ToJson(c);
    assert Index(j, "enabled") == Boolean(c.enabled);
    assert Index(j, "backlighting_level") == Number(c.backlightingLevel);
    assert Index(j, "start_time") == Str(ToString(c.startTime));
    assert Index(j, "end_time") == Str(ToString(c.endTime));
    FromStringRoundTrip(c.startTime);
    FromStringRoundTrip(c.endTime);
  }

  /** A start time with a bad minute field loads with 0 minutes, the hour and the other fields intact. */
  lemma FromJsonBadStartMinutes(input: JsonValue)
    requires Index(input, "start_time") == Str("21:xx")
    requires Index(input, "end_time").Str? && DIVIDER in Index(input, "end_time").s
    ensures FromJson(input).Ok?
    ensures FromJson(input).value.startTime == Time(21, 0)
    ensures FromJson(input).value.endTime == FromString(Index(input, "end_time").s).value
  {
    FromStringBadMinutesTwoDigitHour();
  }

  /** Whatever `enabled` holds, the other three fields and the failure behaviour stay the same. */
  lemma EnabledKeyIsIndependent(members: map<string, JsonValue>, v: JsonValue)
    ensures var before, after := FromJson(Object(members)), FromJson(Object(members["enabled" := v]));
      && before.Ok? == after.Ok?
      && (before.Ok? ==> after.value.(enabled := before.value.enabled) == before.value)
  {
    var m' := members["enabled" := v];
    assert Index(Object(m'), "backlighting_level") == Index(Object(members), "backlighting_level");
    assert Index(Object(m'), "start_time") == Index(Object(members), "start_time");
    assert Index(Object(m'), "end_time") == Index(Object(members), "end_time");
  }

  /** Whatever `backlighting_level` holds, the other three fields and the failure behaviour stay the same. */
  lemma LevelKeyIsIndependent(members: map<string, JsonValue>, v: JsonValue)
    ensures var before, after := FromJson(Object(members)), FromJson(Object(members["backlighting_level" := v]));
      && before.Ok? == after.Ok?
      && (before.Ok? ==> after.value.(backlightingLevel := before.value.backlightingLevel) == before.value)
  {
    var m' := members["backlighting_level" := v];
    assert Index(Object(m'), "enabled") == Index(Object(members), "enabled");
    assert Index(Object(m'), "start_time") == Index(Object(members), "start_time");
    assert Index(Object(m'), "end_time") == Index(Object(members), "end_time");
  }

  /** `Configuration::from_str`: the defaults when the text is not JSON, `from_json` otherwise. */
  function FromStr(configuration: string, parse: Parser): (r: Outcome<Configuration>)
    ensures parse(configuration).None? ==> r == Ok(DefaultConfiguration())
  {
    match parse(configuration)
    case Some(value) => FromJson(value)
    case None => Ok(DefaultConfiguration())
  }

  /**
    The text `get_config_file` leaves in the file: the existing contents, or an empty
    file created on the spot when there was none. Only an existing file is opened for
    reading; a created one is opened write-only.
   */
  function OpenedContents(file: Option<string>): string {
    file.GetOr("")
  }

  /**
    `get_configuration` as a function of the file cell before the call. Reading a file
    that `get_config_file` had to create fails, since `File::create` opens it write-only,
    so a missing file always loads as the defaults, whatever `parse` does; an existing
    file goes through `from_str` unless its read fails.
   */
  function Load(file: Option<string>, readFails: bool, parse: Parser): (r: Outcome<Configuration>)
    ensures readFails ==> r == Ok(DefaultConfiguration())
    ensures file.None? ==> r == Ok(DefaultConfiguration())
  {
    if readFails || file.None? then Ok(DefaultConfiguration()) else FromStr(file.value, parse)
  }

  /**
    `save_configuration` as a function of the file cell before the call: removing a file
    that is not there panics (`remove_file(..).unwrap()`); otherwise the file is created
    anew and holds the dumped JSON, or stays empty when the write fails.
   */
  function Save(file: Option<string>, c: Configuration, writeFails: bool, dump: Dumper): (Outcome<()>, Option<string>)
  {
    if file.None? then (Panicked(UnwrapOnErr), None)
    else if writeFails then (Ok(()), Some(""))
    else (Ok(()), Some(dump(ToJson(c))))
  }

  /** A configuration that was saved successfully is what the next load returns, when `parse` inverts `dump`. */
  lemma SaveThenLoad(file: Option<string>, c: Configuration, parse: Parser, dump: Dumper)
    requires file.Some?
    requires parse(dump(ToJson(c))) == Some(ToJson(c))
    ensures Save(file, c, false, dump).0 == Ok(())
    ensures Load(Save(file, c, false, dump).1, false, parse) == Ok(c)
  {
    FromJsonToJson(c);
  }

  /**
    A missing file, or content that `parse` rejects, loads as the defaults; so does the
    empty file a failed write leaves behind, when `parse` rejects the empty text.
   */
  lemma RejectedContentLoadsDefaults(file: Option<string>, c: Configuration, parse: Parser, dump: Dumper)
    requires file.Some? ==> parse(file.value) == None
    ensures Load(file, false, parse) == Ok(DefaultConfiguration())
    ensures parse("") == None ==> Load(Save(file, c, true, dump).1, false, parse) == Ok(DefaultConfiguration())
  {
  }

  /**
    The first run: loading creates the empty file and yields the defaults, and the load
    after it reads that empty text through `from_str`.
   */
  lemma FirstRunThenReload(readFails: bool, parse: Parser)
    ensures Load(None, readFails, parse) == Ok(DefaultConfiguration())
    ensures Load(Some(OpenedContents(None)), false, parse) == FromStr("", parse)
  {
  }

  /** `ConfigurationBuilder`: four fields with fixed defaults, overwritten one at a time. */
  class ConfigurationBuilder {
    var enabled: bool
    var backlightingLevel: Int32
    var startTime: Time
    var endTime: Time

    /** `ConfigurationBuilder::new`. */
    constructor ()
      ensures Finalize() == DefaultConfiguration()
    {
      enabled := false;
      backlightingLevel := 0;
      startTime := DEFAULT_START_TIME;
      endTime := DEFAULT_END_TIME;
    }

    /** The `enabled` setter; the other three fields keep their values. */
    method Enabled(enabled: bool)
      modifies this
      ensures Finalize() == old(Finalize()).(enabled := enabled)
    {
      this.enabled := enabled;
    }

    /** The `backlight_level` setter; the other three fields keep their values. */
    method BacklightLevel(backlightingLevel: Int32)
      modifies this
      ensures Finalize() == old(Finalize()).(backlightingLevel := backlightingLevel)
    {
      this.backlightingLevel := backlightingLevel;
    }

    /** The `start_time` setter; the other three fields keep their values. */
    method StartTime(startTime: Time)
      modifies this
      ensures Finalize() == old(Finalize()).(startTime := startTime)
    {
      this.startTime := startTime;
    }

    /** The `end_time` setter; the other three fields keep their values. */
    method EndTime(endTime: Time)
      modifies this
      ensures Finalize() == old(Finalize()).(endTime := endTime)
    {
      this.endTime := endTime;
    }

    /** `finalize`: the record holding the builder's four fields; the builder is only read. */
    function Finalize(): (c: Configuration)
      reads this
      ensures c.enabled == enabled && c.backlightingLevel == backlightingLevel
      ensures c.startTime == startTime && c.endTime == endTime
    {
      Configuration(enabled, backlightingLevel, startTime, endTime)
    }
  }

  /** The configuration file: absent, or present with its text. */
  class ConfigFile {
    var contents: Option<string>

    constructor (contents: Option<string>)
      ensures this.contents == contents
    {
      this.contents := contents;
    }

    /** `get_config_file`: opens the file, creating it empty when it does not exist. */
    method GetConfigFile()
      modifies this
      ensures contents == Some(OpenedContents(old(contents)))
    {
      if contents.None? {
        contents := Some("");
      }
    }

    /**
      `get_configuration`: defaults on a read error, `from_str` of the contents otherwise.
      The read of a file that had to be created always fails (write-only handle).
     */
    method GetConfiguration(readFails: bool, parse: Parser) returns (r: Outcome<Configuration>)
      modifies this
      ensures contents == Some(OpenedContents(old(contents)))
      ensures r == Load(old(contents), readFails, parse)
    {
      var writeOnly := contents.None?;
      GetConfigFile();
      if readFails || writeOnly {
        var builder := new ConfigurationBuilder();
        r := Ok(builder.Finalize());
      } else {
        r := FromStr(contents.value, parse);
      }
    }

    /** `save_configuration`: remove the file, create it again, write the dumped JSON. */
    method SaveConfiguration(configuration: Configuration, writeFails: bool, dump: Dumper) returns (r: Outcome<()>)
      modifies this
      ensures (r, contents) == Save(old(contents), configuration, writeFails, dump)
    {
      if contents.None? {
        return Panicked(UnwrapOnErr);
      }
      contents := None;
      GetConfigFile();
      if !writeFails {
        contents := Some(dump(ToJson(configuration)));
      }
      r := Ok(());
    }
  }
}
