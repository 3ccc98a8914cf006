# keyboard-controller, modelled in Dafny

keyboard-controller is a desktop utility that turns the keyboard backlight on at night.
Every second, a timer compares the clock with a night window. The window has a start
and an end time of day, set with spin buttons. While the night-mode switch is on and
the clock is inside the window, the backlight is set to the level chosen on a scale;
otherwise it is set to 0. The switch, the level and the two times are stored as JSON
in one configuration file. They are restored from it at start-up and saved to it when
the save button is pressed or the scale is moved.

This project models the three pieces that hold the program's logic:

- `core.dfy` (module `Core`, from `src/core/mod.rs`): the `Time` value (two unchecked
  `i32` fields), its `H:M` text form, and the window predicate `is_between` /
  `is_night_time`, reproduced branch by branch.
- `utils.dfy` (module `Utils`, from `src/utils.rs`): the `Configuration` record and
  its defaults (off, level 0, 21:00 to 07:00), the `ConfigurationBuilder` class whose
  setters update its fields in place, `from_str` / `from_json` / `to_json`, and the
  load/save cycle of the configuration file. The file is a `ConfigFile` object whose
  one field is absent or holds the file's text.
- `keyboard_controller.dfy` (module `KeyboardController`, from
  `keyboard-controller-gtk/src/keyboard_controller/mod.rs`): the widgets as the
  integer and boolean fields of a `Window` object, the backlight as an `Actuator`
  object that logs every `set`, the one-second tick, and the copying between
  widgets and file done by `save_configuration` and `restore_configuration`.

Three supporting modules complete the model:

- `rust_text.dfy` (`RustText`): the parts of Rust's standard library that the codec
  depends on. These are the `i32` range, the decimal rendering of an integer,
  `i32::from_str` (an optional `+` or `-`, then one or more ASCII digits, in range) and
  `str::split`.
- `json.dfy` (`Json`): the `JsonValue` variants used, key indexing, and the
  `as_bool` / `as_i32` / `as_str` accessors. `json::parse` and `dump` are function
  parameters.
- `wrappers.dfy` (`Wrappers`): `Option`, and `Outcome`, which is either a value or a
  panic with its cause.

Rust panics are modelled as values: `Panicked(IndexOutOfBounds)`, `Panicked(UnwrapOnNone)`
and `Panicked(UnwrapOnErr)`. That way the model says exactly which inputs reach them.

### Behaviour the code has that a reader might not expect

The model follows the code in each of these cases:

- `Time::from_string` on text without a `:` does not give `0:0`. The index
  `split_time[1]` panics (`Core.FromString`). Three or more fields do give `0:0`.
- `Configuration::from_json` panics when `start_time` or `end_time` is missing or is
  not a string. It also panics when that string has no `:`. It does not fall back to
  a zero or default time.
- In the same-day branch of `is_between`, any hour other than the start and end hours
  is judged by both minute bounds. This holds inside the window as well as outside it.
  So with a 09:00-17:00 window, 12:00 and 03:00 count as inside and 12:30 does not.
  `Core.DiffersFromMinuteWindow` pins these cases against a minute-of-day reference
  definition. `Core.AgreesWithMinuteWindow` states where the two agree.
- `save_configuration` panics when no configuration file exists, because
  `remove_file(..).unwrap()` fails. On start-up the window is restored first, and
  restoring creates the file.
- `get_configuration` on a missing file creates it with `File::create`, which opens it
  write-only. Its read then fails and the defaults are returned without the text ever
  reaching the JSON parser (`Utils.Load`).

## Model

| member | source | states |
|---|---|---|
| RustText.FormatInt | src/core/mod.rs:23-25 | The decimal rendering of a number is non-empty, made of digits after an optional leading `-`, and never contains `:` |
| RustText.ParseI32 | src/core/mod.rs:34-35 | `i32::from_str` accepts exactly an optional `+` or `-` followed by one or more ASCII digits whose value fits in an `i32`. Such a string is worth its decimal value, negated after `-`. Anything else is rejected, including the empty string, a bare sign, a non-digit and an out-of-range value |
| RustText.ParseFormatRoundTrip | src/core/mod.rs:23-35 | Parsing the rendering of any `i32`, negative values included, gives the same `i32` back |
| RustText.Split | src/core/mod.rs:28 | Splitting on `:` yields one more field than there are `:` characters, and no field contains `:` |
| RustText.JoinSplit | src/core/mod.rs:28 | Joining the fields of a split with `:` restores the original text |
| Core.NewTime | src/core/mod.rs:16-21 | The zero time. It has no contract of its own; `Core.FromString` states that two or more `:` give it |
| Core.ToString | src/core/mod.rs:23-25 | Renders hours, `:` and minutes with no padding. It has no contract of its own; `Core.ToStringFields`, `Core.FromStringRoundTrip` and `Utils.DefaultTimesText` state its properties |
| Core.IsBetween | src/core/mod.rs:49-64 | The window predicate, branch for branch. It has no contract of its own; the lemmas `Core.WrapBranch` to `Core.WrapExamples` below state its behaviour in each branch |
| Core.IsNightTime | src/core/mod.rs:67-69 | Delegates to `is_between`; `Core.NightTimeIsBetween` states that the two agree on every input |
| Core.ToStringFields | src/core/mod.rs:23-25 | `to_string` renders hours, `:`, minutes, and the result splits into exactly those two rendered numbers |
| Core.FromString | src/core/mod.rs:27-41 | Panics (index out of bounds) exactly when the text has no `:`, the empty text included; with two or more `:` the result is `0:0` |
| Core.FromStringRoundTrip | src/core/mod.rs:23-41 | `from_string(to_string(t)) == t` for every `Time`, negative fields included |
| Core.FromStringTwoFields | src/core/mod.rs:34-40 | With exactly two fields, each is parsed on its own and an unparseable one becomes 0 while the other keeps its value |
| Core.FromStringBadMinutes | src/core/mod.rs:34-35 | `"9:bad"` parses to 9 hours and 0 minutes |
| Core.FromStringBadMinutesTwoDigitHour | src/core/mod.rs:34-35 | `"21:xx"` parses to 21 hours and 0 minutes |
| Core.NightTimeIsBetween | src/core/mod.rs:67-69 | `is_night_time` always equals `is_between` |
| Core.WrapBranch | src/core/mod.rs:63 | When the start hour is after the end hour, the answer is `hour >= start hour or hour <= end hour` |
| Core.WrapIgnoresMinutes | src/core/mod.rs:63 | In the wrap branch, changing the clock's or either bound's minutes never changes the answer |
| Core.SameDayStartHour | src/core/mod.rs:52-54 | At the start hour of a window whose start hour is before its end hour, the answer is `minute >= start minute` |
| Core.SameDayEndHour | src/core/mod.rs:56-58 | At the end hour, when it is after the start hour, the answer is `minute <= end minute` |
| Core.SameDayOtherHours | src/core/mod.rs:60 | At every other hour of a same-day window (before, after, strictly inside, or a one-hour window) the answer is `start minute <= minute <= end minute` |
| Core.AgreesWithMinuteWindow | src/core/mod.rs:49-64 | For real clock times, the predicate matches the minute-of-day interval reading at the boundary hours of a same-day window and at the non-boundary hours of a wrapping one |
| Core.DiffersFromMinuteWindow | src/core/mod.rs:51-63 | Concrete readings where the predicate and the minute-of-day reading disagree: 12:30 and 03:00 for 09:00-17:00, and 22:00 and 06:45 for 22:30-06:15; 12:00 counts as inside 09:00-17:00 |
| Core.WrapExamples | src/core/mod.rs:63 | For 22:00-06:00, 23:30 and 06:00 are inside and 12:00 is outside |
| Utils.DefaultTimesText | src/utils.rs:15-23 | The default start and end times render as `21:0` and `7:0`, without zero padding |
| Utils.DefaultConfiguration | src/utils.rs:15-23 | The defaults: off, level 0, 21:0, 7:0. `Utils.ConfigurationBuilder.constructor` states that a fresh builder finalizes to it, and `Utils.FromStr` and `Utils.Load` state when loading falls back to it |
| Utils.FromJson | src/utils.rs:44-56 | Succeeds exactly when `start_time` and `end_time` are strings containing `:`. A non-boolean `enabled` gives false and a boolean gives its value. A `backlighting_level` that is not a number, or is out of `i32` range, gives 0; an in-range number gives its value. The two times are `from_string` of the two strings |
| Utils.FromJsonBadStartMinutes | src/utils.rs:47-48 | A `start_time` of `"21:xx"` loads as 21:0, while the end time is still decoded from its own string |
| Utils.EnabledKeyIsIndependent | src/utils.rs:45-48 | Whatever `enabled` holds, the other three decoded fields and whether decoding panics stay the same |
| Utils.LevelKeyIsIndependent | src/utils.rs:45-48 | Whatever `backlighting_level` holds, the other three decoded fields and whether decoding panics stay the same |
| Utils.ToJson | src/utils.rs:58-66 | The encoding is an object with exactly the keys `enabled`, `backlighting_level`, `start_time` and `end_time`. They hold the flag as a boolean, the level as a number, and each time as its `to_string` text |
| Json.Index | src/utils.rs:45-48 | `value[key]`: the member under the key, or null when it is absent or the value is not an object |
| Json.AsBool | src/utils.rs:45 | `as_bool`: the flag of a boolean, nothing otherwise |
| Json.AsI32 | src/utils.rs:46 | `as_i32`: a number within `i32` range, nothing otherwise |
| Json.AsStr | src/utils.rs:47-48 | `as_str`: the text of a string, nothing otherwise |
| Utils.FromJsonToJson | src/utils.rs:44-66 | Decoding the encoding of a configuration gives it back, field for field |
| Utils.FromStr | src/utils.rs:33-42 | Text that `json::parse` rejects decodes to the default configuration |
| Utils.Load | src/utils.rs:132-156 | A read error gives the default configuration, and so does a missing file, whatever `parse` does: `get_config_file` creates it with `File::create`, which opens it write-only, so the read fails |
| Utils.OpenedContents | src/utils.rs:132-140 | The text the file holds once opened: the existing text, or the empty text of a file created on the spot (which that same load cannot read, see `Utils.Load`). `Utils.ConfigFile.GetConfigFile` ties the file cell to it |
| Utils.Save | src/utils.rs:158-173 | The outcome and file after a save. A missing file panics and stays missing; otherwise the file holds the dump or, after a failed write, nothing. `Utils.SaveThenLoad` and `Utils.RejectedContentLoadsDefaults` state what a later load returns, and `Utils.ConfigFile.SaveConfiguration` ties the method to it |
| Utils.SaveThenLoad | src/utils.rs:143-173 | When the file exists and `parse` inverts `dump` on the encoded value, a successful save followed by a load returns the saved configuration |
| Utils.RejectedContentLoadsDefaults | src/utils.rs:33-41 | Loading a missing file, or content that `parse` rejects, gives the defaults; the empty file left by a failed write does too when `parse` rejects the empty text |
| Utils.FirstRunThenReload | src/utils.rs:132-156 | On a first run the load gives the defaults for every `parse` and read outcome; the next load reads the empty file it created through `from_str` |
| Utils.ConfigurationBuilder.constructor | src/utils.rs:77-84 | A fresh builder finalizes to the defaults: off, level 0, 21:00, 07:00 |
| Utils.ConfigurationBuilder.Enabled | src/utils.rs:86-90 | Overwrites `enabled` only; the other three fields are unchanged |
| Utils.ConfigurationBuilder.BacklightLevel | src/utils.rs:92-96 | Overwrites the level only; the other three fields are unchanged |
| Utils.ConfigurationBuilder.StartTime | src/utils.rs:98-102 | Overwrites the start time only; the other three fields are unchanged |
| Utils.ConfigurationBuilder.EndTime | src/utils.rs:104-108 | Overwrites the end time only; the other three fields are unchanged |
| Utils.ConfigurationBuilder.Finalize | src/utils.rs:110-117 | The record holds the builder's four fields verbatim; the builder is only read |
| Utils.ConfigFile.GetConfigFile | src/utils.rs:132-140 | An existing file keeps its text; a missing one is created empty |
| Utils.ConfigFile.GetConfiguration | src/utils.rs:132-156 | The file exists afterwards, and the result is `Load` of the file as it was: defaults on a read error or when the file had to be created, `from_str` of the contents otherwise |
| Utils.ConfigFile.SaveConfiguration | src/utils.rs:158-173 | With no file it panics and changes nothing; otherwise the file holds `dump(to_json(c))`, or is left empty when the write fails |
| KeyboardController.Actuator.Set | src/keyboard_brightness/mod.rs:46-49 | Each `set` appends its value to the actuator log |
| KeyboardController.ConstructTime | keyboard-controller-gtk/src/keyboard_controller/mod.rs:194-195 | The time built from an hour spin button and a minute spin button, used by the tick and by `save_configuration` |
| KeyboardController.Window.Widgets | keyboard-controller-gtk/src/keyboard_controller/mod.rs:21-30 | The configuration the widgets show: switch, scale level and the two spin-button times. `Tick`, `Application.SaveConfiguration` and `Application.RestoreConfiguration` state their effects through it |
| KeyboardController.Command | keyboard-controller-gtk/src/keyboard_controller/mod.rs:197-211 | The commanded level is either 0 or the scale level. It is non-zero exactly when the switch is on, the clock is inside the night window and the level is non-zero |
| KeyboardController.SwitchOffCommandsZero | keyboard-controller-gtk/src/keyboard_controller/mod.rs:197-200 | With the switch off, the tick commands 0 whatever the clock and window |
| KeyboardController.SwitchOnFollowsWindow | keyboard-controller-gtk/src/keyboard_controller/mod.rs:202-210 | With the switch on, the tick commands the scale level inside the window and 0 outside it |
| KeyboardController.Tick | keyboard-controller-gtk/src/keyboard_controller/mod.rs:193-214 | Each tick appends exactly one command to the log and asks to run again. The command is computed from the live widgets (spin buttons, switch, scale) and the clock, never from earlier ticks or from the file |
| KeyboardController.Application.constructor | keyboard-controller-gtk/src/keyboard_controller/mod.rs:38-42 | A new application has no window |
| KeyboardController.Application.SaveWindow | keyboard-controller-gtk/src/keyboard_controller/mod.rs:72-74 | Stores the window |
| KeyboardController.Application.SaveConfiguration | keyboard-controller-gtk/src/keyboard_controller/mod.rs:44-55 | Without a window, nothing changes. With one, the file is saved with exactly the widgets' four values, so no builder default reaches it |
| KeyboardController.Application.RestoreConfiguration | keyboard-controller-gtk/src/keyboard_controller/mod.rs:57-70 | Without a window, nothing changes. With one, a successful load sets all six widgets to the loaded level, switch and time components; a panicking load leaves them untouched |

## Left out

- Logging: the `println!` in `to_json` and the `info!` / `error!` lines of `save_configuration`. They are output only.
- The internals of the `json` crate. `json::parse` and `dump` are parameters. Only integral numbers are modelled, and the crate's `Short` and `String` variants are one `Str` variant.
- Filesystem details: the home-directory lookup and the path join. The panics of `OpenOptions::open(..).unwrap()` and `File::create(..).unwrap()` are not modelled. A read error and a write error are boolean parameters, and a failed write leaves the file empty. Partial writes are not modelled.
- `construct_time` is not part of this model. It is taken to pair an hour spin button with a minute spin button as a `Time`.
- The user-interface description file is not part of this model. The model takes the scale and the adjustment behind it to be one value, `Window.level`. `restore_configuration` writes the adjustment, while `save_configuration` and the tick read the scale.
- Widget values are integers. The scale's rounding in its change-value handler is left out because it is floating point. So are the `f64`/`i32` casts, the adjustment's clamping to its bounds, and the spin buttons' ranges.
- The GTK set-up in `Application::start`: the builder file, CSS, status icon, popup menu and window events. These are UI wiring. The model has the operations they call (`save_window`, `restore_configuration`, `save_configuration`, the tick), not the wiring.
- The D-Bus calls behind the backlight. `set` appends to a log; `get`, `get_max`, timeouts and failures are not modelled.
- `time::now()` is a parameter of the tick. Of the `Tm` record, only the hour and the minute are kept.
- `src/main.rs` and `keyboard-controller-gtk/src/main.rs`. The first is an older revision of the program and the second only starts it.
- Interleaving: the timer and the UI callbacks run on one thread. Each is a separate method call here, and the model does not describe their order.
- Utils.ConfigurationBuilder.Enabled: like the other three setters, it returns nothing. The source returns `&mut self` for chaining, which is the same object, so the calls are made one after another.
