/**
  Model of keyboard-controller-gtk/src/keyboard_controller/mod.rs: the one-second
  scheduler tick, and the copying of configuration between the widgets and the file.

  Each widget is an integer or boolean cell of a `Window` object. The scale and the
  adjustment behind it share one value, `level`. The keyboard backlight is an actuator
  whose `set` calls are recorded in a log. The clock reading is a parameter of the tick.
 */
module KeyboardController {
  import opened Wrappers
  import opened RustText
  import opened Json
  import opened Core
  import opened Utils

  /** The widgets the application keeps a handle on. */
  class Window {
    var level: Int32            // the backlight scale and its adjustment
    var switchState: bool       // the night-mode switch
    var startHourSpin: Int32
    var startMinuteSpin: Int32
    var endHourSpin: Int32
    var endMinuteSpin: Int32

    constructor (level: Int32, switchState: bool, startHour: Int32, startMinute: Int32, endHour: Int32, endMinute: Int32)
      ensures Widgets() == Configuration(switchState, level, Time(startHour, startMinute), Time(endHour, endMinute))
    {
      this.level := level;
      this.switchState := switchState;
      this.startHourSpin := startHour;
      this.startMinuteSpin := startMinute;
      this.endHourSpin := endHour;
      this.endMinuteSpin := endMinute;
    }

    /** The configuration the widgets currently show, times paired up by `construct_time`. */
    function Widgets(): Configuration
      reads this
    {
      Configuration(switchState, level,
        ConstructTime(startHourSpin, startMinuteSpin), ConstructTime(endHourSpin, endMinuteSpin))
    }
  }

  /** `construct_time`: the time made of an hour spin button and a minute spin button. */
  function ConstructTime(hourSpin: Int32, minuteSpin: Int32): Time {
    Time(hourSpin, minuteSpin)
  }

  /** The keyboard backlight: every `set` is recorded, in order. */
  class Actuator {
    var log: seq<Int32>

    constructor ()
      ensures log == []
    {
      log := [];
    }

    /** `KeyboardBrightness::set`. */
    method Set(value: Int32)
      modifies this
      ensures log == old(log) + [value]
    {
      log := log + [value];
    }
  }

  /**
    The brightness one tick commands for a snapshot of the widgets: the scale level while
    the switch is on and the clock is inside the night window, 0 otherwise.
   */
  function Command(snapshot: Configuration, now: Tm): (level: Int32)
    ensures level == 0 || level == snapshot.backlightingLevel
    ensures level != 0 <==>
      snapshot.enabled && IsNightTime(now, snapshot.startTime, snapshot.endTime) && snapshot.backlightingLevel != 0
  {
    if !snapshot.enabled then 0
    else if IsNightTime(now, snapshot.startTime, snapshot.endTime) then snapshot.backlightingLevel
    else 0
  }

  /** Switch off: brightness 0 whatever the clock and the window. */
  lemma SwitchOffCommandsZero(snapshot: Configuration, now: Tm)
    requires !snapshot.enabled
    ensures Command(snapshot, now) == 0
  {
  }

  /** Switch on: the scale level inside the window, 0 outside it. */
  lemma SwitchOnFollowsWindow(snapshot: Configuration, now: Tm)
    requires snapshot.enabled
    ensures IsNightTime(now, snapshot.startTime, snapshot.endTime) ==> Command(snapshot, now) == snapshot.backlightingLevel
    ensures !IsNightTime(now, snapshot.startTime, snapshot.endTime) ==> Command(snapshot, now) == 0
  {
  }

  /**
    The closure given to `timeout_add_seconds(1, ..)`: rebuild the window from the live
    spin buttons, read the switch, and issue exactly one `set`; always ask to be called
    again. What it commands depends on the widgets and the clock only, never on earlier
    ticks or on the saved file.
   */
  method Tick(window: Window, backlight: Actuator, now: Tm) returns (keepRunning: bool)
    modifies backlight
    ensures backlight.log == old(backlight.log) + [Command(window.Widgets(), now)]
    ensures keepRunning
  {
    var startTime := ConstructTime(window.startHourSpin, window.startMinuteSpin);
    var endTime := ConstructTime(window.endHourSpin, window.endMinuteSpin);
    var isNightTimeEnable := window.switchState;
    if !isNightTimeEnable {
      backlight.Set(0);
    } else {
      var isNightTime := IsNightTime(now, startTime, endTime);
      if isNightTime {
        backlight.Set(window.level);
      } else {
        backlight.Set(0);
      }
    }
    keepRunning := true;
  }

  /** `Application`: the widgets, once the window has been built. */
  class Application {
    var window: Option<Window>

    /** `Application::new`. */
    constructor ()
      ensures window == None
    {
      window := None;
    }

    /** `save_window`. */
    method SaveWindow(window: Window)
      modifies this
      ensures this.window == Some(window)
    {
      this.window := Some(window);
    }

    /**
      `Application::save_configuration`: every builder field is set from the widgets, so
      no builder default reaches the file; nothing happens before a window is stored.
     */
    method SaveConfiguration(file: ConfigFile, writeFails: bool, dump: Dumper) returns (r: Outcome<()>)
      modifies file
      ensures window.None? ==> r == Ok(()) && file.contents == old(file.contents)
      ensures window.Some? ==>
        (r, file.contents) == Save(old(file.contents), window.value.Widgets(), writeFails, dump)
    {
      r := Ok(());
      if window.Some? {
        var w := window.value;
        var builder := new ConfigurationBuilder();
        builder.Enabled(w.switchState);
        builder.BacklightLevel(w.level);
        builder.StartTime(ConstructTime(w.startHourSpin, w.startMinuteSpin));
        builder.EndTime(ConstructTime(w.endHourSpin, w.endMinuteSpin));
        var configuration := builder.Finalize();
        r := file.SaveConfiguration(configuration, writeFails, dump);
      }
    }

    /**
      `Application::restore_configuration`: load the configuration and copy the level,
      the switch and the four time components into their widgets. A load that panics
      leaves the widgets untouched; nothing happens before a window is stored.
     */
    method RestoreConfiguration(file: ConfigFile, readFails: bool, parse: Parser) returns (r: Outcome<()>)
      modifies file, if window.Some? then {window.value} else {}
      ensures window == old(window)
      ensures window.None? ==> r == Ok(()) && file.contents == old(file.contents)
      ensures window.Some? ==> file.contents == Some(OpenedContents(old(file.contents)))
      ensures window.Some? ==>
        var loaded := Load(old(file.contents), readFails, parse);
        && r.Ok? == loaded.Ok?
        && (loaded.Ok? ==> window.value.Widgets() == loaded.value)
        && (loaded.Panicked? ==> window.value.Widgets() == old(window.value.Widgets()))
    {
      r := Ok(());
      if window.Some? {
        var w := window.value;
        var configuration := file.GetConfiguration(readFails, parse);
        if configuration.Panicked? {
          return Panicked(configuration.cause);
        }
        var c := configuration.value;
        w.level := c.backlightingLevel;
        w.switchState := c.enabled;
        w.startHourSpin := c.startTime.hours;
        w.startMinuteSpin := c.startTime.minutes;
        w.endHourSpin := c.endTime.hours;
        w.endMinuteSpin := c.endTime.minutes;
      }
    }
  }
}
