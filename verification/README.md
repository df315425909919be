# mocker configuration registry and logging header, modelled in Dafny

This project models two parts of the mocker server library.

The first part is the configuration-variable registry of `mocker/config.h`. It is a process-wide map from names to typed variables (`Config::s_data`). `Config::lookup(name, default, description)` finds or creates a variable. An entry of the requested type is returned as it is. An entry of another type gives a null pointer. A new name with a character outside `a-z . _ 0-9` throws `std::invalid_argument`. Any other new name gets a fresh variable holding the default. `Config::lookup(name)` only reads the map. A variable (`ConfigVarBase`/`ConfigVar<T>`) lower-cases its name when it is built. It converts its value to and from text through a conversion that may throw.

The second part is what `mocker/log.h` fixes by itself:
- the ordered severity scale `LogLevel::Level`;
- the fields of a `LogEvent`;
- the pattern and error flag of a `LogFormatter`;
- the thresholds and their defaults on appenders and loggers;
- the setters and getters defined inline in the header.

Modelling choices:
- The registry is an immutable `map<string, ConfigVar<V>>`. Every operation that can change it returns the new map next to its result.
- The C++ template parameter `T` becomes a type-name tag, the string `getTypeName()` reports. `std::dynamic_pointer_cast<ConfigVar<T>>` succeeds exactly when the tags are equal. The registry only ever holds `ConfigVar<T>` created by `lookup` with the default conversions, so the tag identifies the dynamic type.
- A value of any type lives in one universe `V`, shared by the whole registry.
- The `LexicalCast` conversions become function parameters returning `Option`, with `None` standing for a thrown exception: `parse: string -> Option<V>` for `fromString` and `render: V -> Option<string>` for `toString`.
- A throw becomes `Err(InvalidArgument(name))` and a null pointer becomes `Ok(None)`.
- C++ fixed-width integers in `LogEvent` become subset types of `int` (`int32`, `uint32`, `uint64`). `size_t` is taken to be 64 bits wide.
- The bodies of the `LogEvent`, `LogFormatter`, `LogAppender` and `Logger` constructors are in `mocker/log.cc`, which is not part of this model. The model takes each constructor to copy its arguments into the members of the same name. Members that the header initialises in class (`m_error`, `m_hasFormatter`, `m_lastTime`) keep those initial values.

In `mocker/config.h` it is the configuration registry, not the logger registry, that lower-cases variable names (`mocker/config.h:28`) and throws on invalid names (`mocker/config.h:368-371`). `mocker/log.h` declares the `Logger` constructor without a body; nothing in the header lower-cases or validates a logger name. `lookup` looks `name` up exactly as given (`mocker/config.h:354`), without lower-casing it first. So an upper-case name is never found in a well-formed registry and always throws (`Config.UppercaseNameRejected`).

Files:
- `wrappers.dfy`: `Option` and `Result`.
- `names.dfy`: lower-casing, `find_first_not_of` and the name alphabet.
- `config_var.dfy`: `ConfigVar`.
- `config.dfy`: the registry and both `lookup` overloads.
- `log_level.dfy`: the severity scale.
- `log_event.dfy`: `LogEvent`.
- `log_state.dfy`: formatter, appender and logger state.

## Model

| member | source | states |
|---|---|---|
| ConfigNames.ToLower | mocker/config.h:28 | C-locale `tolower`: the result is never an upper-case letter; upper-case letters move down by 32 and every other character is kept |
| ConfigNames.Lower | mocker/config.h:28 | the transformed name has the same length and each character is the lower-cased input character |
| ConfigNames.LowerHasNoUpper | mocker/config.h:28 | a lower-cased name contains no upper-case letter |
| ConfigNames.LowerIdempotent | mocker/config.h:28 | lower-casing twice is the same as lower-casing once |
| ConfigNames.LowerOfLowercase | mocker/config.h:28 | a string is left unchanged by lower-casing if and only if it has no upper-case letter |
| ConfigNames.FindFirstNotOf | mocker/config.h:368 | `find_first_not_of` is `npos` iff every character is in the set; otherwise it is the index of the first character not in the set, and every earlier character is in the set |
| ConfigNames.AllowedIsNameChars | mocker/config.h:368 | a character is in the alphabet string iff it is a lower-case letter, `.`, `_` or a digit |
| ConfigNames.FindFirstNotOfDecidesValidName | mocker/config.h:368 | the check on a new name passes exactly for names over the allowed alphabet |
| ConfigNames.ValidNameHasNoUpper | mocker/config.h:368-374 | a name that passes validation has no upper-case letter, so the variable built from it keeps the name unchanged |
| ConfigVars.NewConfigVar | mocker/config.h:25-34 | the stored name has the input's length and is the input lower-cased character by character, with no upper-case letter left; description (default empty), type and default value are stored as given |
| ConfigVars.GetValue | mocker/config.h:336 | returns the held value: writing back what `getValue()` returned leaves the variable unchanged |
| ConfigVars.SetValue | mocker/config.h:337 | after `setValue(x)` the value read back is `x`; name, description and type are unchanged |
| ConfigVars.SetValueThenGetValue | mocker/config.h:336-337 | `getValue` after `setValue(x)` is `x`; a second `setValue` overrides the first; writing back the current value changes nothing |
| ConfigVars.ToString | mocker/config.h:313-322 | `toString` is the rendered value when the conversion succeeds and `""` when it throws |
| ConfigVars.FromString | mocker/config.h:324-334 | returns true iff the conversion succeeds; on success the value becomes the converted result, on failure the variable is unchanged; name, description and type never change |
| ConfigVars.FromStringOfToString | mocker/config.h:313-334 | when the two conversions are inverse on a value, `fromString` of another variable's `toString` succeeds and copies that value |
| ConfigVars.FromStringIdempotent | mocker/config.h:324-334 | a second identical `fromString` returns the same flag and changes nothing further |
| Config.Empty | mocker/config.h:391 | the registry before any lookup is empty and well formed |
| Config.LookupOrCreate | mocker/config.h:349-376 | same-typed existing entry: returned, map unchanged; differently typed existing entry: null, map unchanged, checked before validation; new name with a character outside the alphabet: throws, map unchanged; new valid name: exactly one new key, all other entries unchanged, new entry named `name` holding the default, type and description, and it is the one returned |
| Config.Lookup | mocker/config.h:378-385 | returns an entry iff the name is present with the requested type, and then it is the stored entry; otherwise null; it has no map result, so it never inserts |
| Config.LookupOrCreatePreservesWellFormed | mocker/config.h:368-375 | every key stays a valid name equal to its entry's `getName()` across every lookup with a default |
| Config.FromStringPreservesWellFormed | mocker/config.h:324-337 | updating a registered variable through `fromString` keeps the registry well formed |
| Config.LookupOrCreateIdempotent | mocker/config.h:354-375 | repeating a lookup with a default returns the same outcome and leaves the same map, whichever branch the first call took |
| Config.LookupAfterLookupOrCreate | mocker/config.h:373-385 | after a lookup with a default returns a variable, the plain lookup with the same type returns that variable |
| Config.UppercaseNameRejected | mocker/config.h:354-371 | in a well-formed registry a name with an upper-case letter is never found and always throws without changing the map |
| Config.LookupReturnsNamedVariable | mocker/config.h:354-375 | in a well-formed registry any variable returned by either lookup reports the looked-up name as `getName()` |
| LogLevel.Value | mocker/log.h:32-40 | every level's value is between 0 and 5 or is 100 |
| LogLevel.FromValue | mocker/log.h:32-40 | a value names a level exactly when it is 0 to 5 or 100, and that level carries the value |
| LogLevel.FromValueOfValue | mocker/log.h:32-40 | every level is recovered from its value |
| LogLevel.ValueInjective | mocker/log.h:32-40 | two levels have equal values iff they are the same level |
| LogLevel.LevelsAscend | mocker/log.h:32-40 | UNKNOWN < DEBUG < INFO < WARN < ERROR < FATAL < REMOVED |
| LogLevel.BelowIsStrictTotalOrder | mocker/log.h:32-40 | level comparison is irreflexive, transitive, asymmetric and total on distinct levels |
| LogLevel.Extremes | mocker/log.h:32-40 | UNKNOWN is at or below every level and REMOVED at or above every level, strictly for the others |
| LogEvents.NewLogEvent | mocker/log.h:50-65 | each getter returns its constructor argument (the logger name defaults to empty) and the message body starts empty |
| LogEvents.Append | mocker/log.h:63-64 | writing through `getSS()` extends the body by exactly the written text at the end, and no other field changes |
| LogEvents.AppendAllContent | mocker/log.h:63-64 | after any sequence of writes the body is the earlier body followed by the pieces in order, and the other fields are unchanged |
| LogEvents.NewEventContent | mocker/log.h:50-65 | a new event written piece by piece equals the freshly constructed event with `getContent()` replaced by the concatenated pieces, so every other getter still returns its constructor argument |
| LogState.NewFormatter | mocker/log.h:88-108 | a new formatter's `getPattern()` is the constructor pattern and `isError()` starts false |
| LogState.NewStdoutAppender | mocker/log.h:185 | the threshold is the argument, UNKNOWN by default, and no formatter is set |
| LogState.NewFileAppender | mocker/log.h:198-207 | the threshold is the argument, UNKNOWN by default; the file name is kept; no formatter is set; the last-open time is 0 |
| LogState.DefaultAppenderThresholdIsLowest | mocker/log.h:119-198 | both appenders built with defaults have threshold UNKNOWN, at or below every level |
| LogState.SetAppenderLevel | mocker/log.h:128-129 | after `setLevel(l)` the appender's level is `l` and no other field changes |
| LogState.AppenderSetLevelRoundTrip | mocker/log.h:128-129 | `getLevel` after `setLevel(l)` is `l`; the last `setLevel` wins; setting the current level changes nothing |
| LogState.NewLogger | mocker/log.h:145 | `getName()` is the constructor name, `"root"` by default |
| LogState.SetLoggerLevel | mocker/log.h:159-160 | after `setLevel(l)` the logger's level is `l` and its name is unchanged |
| LogState.LoggerNameRoundTrip | mocker/log.h:145-162 | a logger built without a name is `"root"`; a level change keeps the name; setting the level back restores the logger |

## Left out

- ConfigNames.ToLower: works on Dafny characters (Unicode scalars), while `::tolower` at `mocker/config.h:28` runs over the bytes of a `std::string`. So `|v.name| == |name|` in `ConfigVars.NewConfigVar` counts characters, not bytes. The model also assumes the "C" locale and keeps every non-ASCII character unchanged; in the source, a byte at or above 0x80 reaches `::tolower` as a negative `char`, which is undefined behaviour and depends on the locale. Registry outcomes do not depend on this, because `mocker/config.h:368` rejects every non-ASCII name.
- `LexicalCast` specialisations (`mocker/config.h:51-297`): they wrap boost::lexical_cast and yaml-cpp. Conversions are abstract partial functions here.
- `MOCKER_LOG_*` calls inside `lookup`, `toString` and `fromString`: console output that does not affect any result.
- `Config::loadFromYaml` and `Config::lookupBase`: only declared, and the YAML walking is foreign code.
- Shared-pointer identity: the registry hands out pointers, so a later `fromString` on a returned variable is seen through the map. Here values are copied, and `Config.FromStringPreservesWellFormed` writes the update back into the map.
- `ConfigVar` with non-default `FromStr`/`ToStr` parameters: these have the same `getTypeName()` but a different dynamic type. `lookup` never creates them, so the tag comparison covers every entry the registry can hold.
- `LogLevel::ToString` and `LogLevel::FromString`: their bodies are in `mocker/log.cc`, which is not part of this model.
- `LogEvent::format` (printf-style body building): its body is not part of this model.
- `LogFormatter::init` and `LogFormatter::format`, with the compiled item list: their bodies are not part of this model.
- LogState.NewFormatter: gives the formatter's state before `init` runs, because `init`, which may set the error flag, is not part of this model.
- `Logger::log`, `debug`/`info`/`warn`/`error`/`fatal`, `addAppender`/`delAppender`/`clearAppender`, `setFormatter`/`getFormatter`, `toYamlString` and the root back-reference: only declared in the header.
- Appender `log`, `reopen`, `setFormatter`/`getFormatter`, `toYamlString` and the colour map: only declared in the header.
- `LogEventWrapper`, `LogManager` and the `Singleton` registry of loggers: only declared in the header.
- `LogState.NewLogger`: the initial threshold is a parameter because the header does not fix it.
- Spinlocks and mutexes, `mocker/thread.h`: concurrency is out of scope.
- The `MOCKER_LOG_*` macros: they read `__FILE__`, the clock and the thread and coroutine ids.
