# garden_api — a Dafny model of one pass of the hub poller

The program asks a deCONZ-style smart-home hub for its sensor listing, picks
one sensor id per reading category (temperature, light level, humidity,
pressure) by a substring test on each sensor's `type`, fetches each picked
sensor and prints its reading (temperature and humidity through `trim_temp`),
then asks for the group listing and resolves the id of the group whose name
contains "Garden". All of this is `main` in `src/main.rs`; it runs once and
returns.

The model takes the hub's answers as input (a `Hub` value: what each GET
returns, by request URL, with each category block's sensor request answered on
its own) and proves:

- **Discovery** (`DiscoverSensors`, a method with the source's loop) ends with,
  per category, exactly `LastMatch(listing, OfCategory(c))`: the id of the last
  entry, in iteration order, whose `type` is present and contains the category's
  pattern; None exactly when no entry matches; the four tests are independent,
  so one sensor can fill several categories.
- **Garden group resolution** (`ResolveGardenGroup`) is the same last-write-wins
  rule over group names containing "Garden".
- **`trim_temp`** renders the value in decimal, keeps two characters and parses
  them back. The parse always succeeds, so its `unwrap` never panics. The result
  is the number formed by the leading two decimal digits: at most 99, at most the
  input, the input itself below 100, at least 10 from 10 up. The kept digits do
  not depend on magnitude: 950 becomes 95 and 10000 becomes 10.
- **Request URLs** are exactly `api_url ++ "/api/" ++ api_key ++ path`.
- **One pass of `main`** (`RunOnce`) equals `Cycle`, a fold over the four
  category steps. It finishes exactly when both listings arrive and every picked
  sensor is fetched with its reading present. A finished pass has printed one
  reading per read category, in category order, and resolves the last Garden
  group. Otherwise it stops at the first failing fetch (an error from `?`) or the
  first missing reading (a panic in `.unwrap()`). Each category block prints as
  soon as it has read its value, so a pass that stops has already printed the
  readings of the categories before the stop, and its outcome keeps them.

Files: `wrappers.dfy` (Option, Result), `ints.dfy` (`u32`), `strings.dfy` (`str::contains`,
`chars().take(n)`), `decimal.dfy` (`u32::to_string`, `str::parse::<u32>`),
`mappings.dfy` (the records of `src/mappings/sensor.rs` and
`src/mappings/group.rs`), `selection.dfy` (the last-write-wins rule both loops
share), `garden.dfy` (`src/main.rs`), `scenarios.dfy` (concrete cases).

A hub listing is a `HashMap<String, T>`. It is modelled as the sequence of its
entries in iteration order, `seq<(string, T)>`, for an arbitrary order. Every
property holds for every order, and none needs the keys to be distinct.

`main` runs a single pass: it has no periodic scheduler, no time-of-day window,
no lux threshold and no on/off switching, and its group action block
(src/main.rs:117-127) is commented out.

## Model

| member | source | states |
|---|---|---|
| `Strings.Contains` | src/main.rs:53-62 | `str::contains` never finds a pattern longer than the string, always finds the empty pattern, and on a string of the pattern's length is plain equality |
| `Strings.ContainsIffOccurs` | src/main.rs:53 | `contains` is true exactly when the pattern occurs at some index of the string |
| `Strings.ContainsInContext` | src/main.rs:112 | a string built around the pattern contains it |
| `Strings.Take` | src/main.rs:169 | `chars().take(n)` is the prefix of exactly `n` characters of a longer string, and the whole string when it is no longer |
| `Decimal.ToDecimal` | src/main.rs:169 | `to_string` of an unsigned value is a non-empty digit string with no leading zero; one digit below 10, two digits from 10 to 99 |
| `Decimal.ParseU32` | src/main.rs:170 | `parse::<u32>` reports `Empty` exactly for the empty string; a success means every character after an optional leading '+' is a digit and '+' alone is refused; a leading '-' is an invalid digit |
| `Decimal.Accumulate` | src/main.rs:170 | the digit loop never reports `Empty`; a success means every character is a digit and the value never falls below the starting one; an all-digit string can fail only by overflow |
| `Decimal.ParseToDecimal` | src/main.rs:170 | `parse::<u32>` of the rendering of any `u32` gives that value back |
| `Decimal.AccumulateSnoc` | src/main.rs:170 | parsing one more digit continues from the value of the prefix |
| `Selection.LastMatchNone` | src/main.rs:45-66 | the scan leaves None exactly when no entry matches |
| `Selection.LastMatchSome` | src/main.rs:51-65 | the scan ends with `Some(id)` exactly when `id` belongs to a matching entry followed by no other match |
| `Selection.SelectedIsMatchingKey` | src/main.rs:111-114 | a selected id is a key of the listing whose entry matches |
| `Selection.LastMatchSnoc` | src/main.rs:51-65 | one iteration overwrites the kept id exactly when the new entry matches |
| `GardenApi.RequestUrl` | src/main.rs:133-136 | the URL is as long as base, "/api/", key and path together; its layout is stated in `RequestUrlLayout` |
| `GardenApi.SensorPath` | src/main.rs:72 | the path is nine characters longer than the id; its layout is stated in `SensorPathLayout` |
| `GardenApi.RequestUrlLayout` | src/main.rs:133-136 | the URL is base, "/api/", key and path, with nothing inserted between key and path; `put` (src/main.rs:148-151) uses the same format string, so one function serves both |
| `GardenApi.SensorPathLayout` | src/main.rs:72 | the single-sensor path is "/sensors/" followed by the id unchanged |
| `GardenApi.RequestUrlInjective` | src/main.rs:133-136 | under one configuration, different paths give different URLs |
| `GardenApi.LeadingDigitsBounds` | src/main.rs:164-171 | the leading two digits are at most 99 and at most the value; the value itself below 100; at least 10 from 10 up |
| `GardenApi.LeadingDigitsScale` | src/main.rs:164-167 | the leading two digits times ten to the number of dropped digits bracket the value (2502 lies in 2500..2599) |
| `GardenApi.TakeTwoOfDecimal` | src/main.rs:169 | the first two characters of the decimal rendering are the rendering of the leading two digits |
| `GardenApi.TrimmedDigitsParse` | src/main.rs:169-170 | the kept characters always parse, to the leading two digits, so the `unwrap` never panics |
| `GardenApi.TrimTemp` | src/main.rs:168-171 | `trim_temp` returns the number formed by the leading two decimal digits: at most 99 and at most the input, the input itself below 100, at least 10 from 10 up |
| `GardenApi.DiscoverSensors` | src/main.rs:45-66 | the loop leaves each category id equal to the last-write-wins selection for that category's pattern |
| `GardenApi.DiscoverySound` | src/main.rs:51-65 | a discovered id is a key whose sensor has a `type` that contains the category's pattern, so untyped sensors are never picked |
| `GardenApi.DiscoveryNone` | src/main.rs:45-66 | a category stays None exactly when no sensor's type contains its pattern |
| `GardenApi.DiscoveryLastWins` | src/main.rs:51-65 | a discovered id is that of the last matching sensor in iteration order, and conversely |
| `GardenApi.IndependentCategories` | src/main.rs:53-64 | the four tests are independent: a sensor that is the last match of two categories is recorded in both |
| `GardenApi.ResolveGardenGroup` | src/main.rs:109-115 | the loop leaves the id of the last group whose name contains "Garden", or None |
| `GardenApi.GardenGroupNone` | src/main.rs:109-115 | no group id is resolved exactly when no group name contains "Garden" |
| `GardenApi.GardenGroupLastWins` | src/main.rs:111-115 | a resolved id is that of the last group whose name contains "Garden", and conversely |
| `GardenApi.Extract` | src/main.rs:68-106 | a reading fails exactly when the field is absent; temperature and humidity are trimmed to at most 99, light level and pressure pass unchanged |
| `GardenApi.ReadStep` | src/main.rs:69-106 | a block is skipped exactly when its id is None; it aborts, with the hub's own error, exactly when its sensor request fails; it panics exactly when the fetched sensor lacks the category's field, naming that category; otherwise it prints the field, through `trim_temp`'s leading two digits for temperature and humidity and unchanged for light level and pressure |
| `GardenApi.StepFor` | src/main.rs:45-106 | a category's block is skipped exactly when no sensor's type contains its pattern |
| `GardenApi.Plan` | src/main.rs:68-106 | the four category blocks run in the order temperature, light level, humidity, pressure, each on its discovered id |
| `GardenApi.FirstStop` | src/main.rs:68-106 | every step before the first stop passes, and the step there does not |
| `GardenApi.ReadsOfSound` | src/main.rs:68-106 | every printed reading comes from a step that read that value for that category |
| `GardenApi.ReadsOfComplete` | src/main.rs:68-106 | every step that read a value has it printed |
| `GardenApi.ReadsOfOrdered` | src/main.rs:68-106 | printed readings keep the order of the steps |
| `GardenApi.Collect` | src/main.rs:68-115 | a finished pass has received the group listing and resolves its last Garden group; it keeps what was already printed and adds at most one reading per step |
| `GardenApi.CollectFinished` | src/main.rs:68-115 | the pass runs to the end exactly when every step passes and the group listing arrives, then prints exactly the Read steps' values and resolves the Garden group |
| `GardenApi.CollectStops` | src/main.rs:68-106 | a pass that stops early ends with the outcome of its first failing step, holding the readings printed by the steps before it |
| `GardenApi.CollectGroupsFail` | src/main.rs:68-108 | with every step passed, a failed group listing is the error, and every reading has already been printed |
| `GardenApi.ReadsOfPrefix` | src/main.rs:68-106 | the readings of the first i steps are the first step's reading followed by those of the next i - 1 steps |
| `GardenApi.CollectPasses` | src/main.rs:68-106 | a step that passes adds its reading to what was printed and the pass goes on with the remaining steps |
| `GardenApi.Cycle` | src/main.rs:35-130 | a finished pass has received both listings, resolves the last Garden group; however the pass ends, it has printed at most four readings |
| `GardenApi.CyclePrinted` | src/main.rs:41-106 | the readings of any outcome are those of the categories before the first stop; a failed sensor listing has printed nothing |
| `GardenApi.RunCategory` | src/main.rs:69-106 | one category block either stops the pass with exactly the outcome its step calls for, or lets it continue with its reading printed |
| `GardenApi.RunBlocks` | src/main.rs:68-115 | the four blocks in order, then the group listing, end the pass as the fold over their steps says |
| `GardenApi.RunOnce` | src/main.rs:35-130 | one run of `main` ends as the fold over discovery, the four category steps and the group listing says |
| `GardenApi.CycleFinished` | src/main.rs:41-115 | `main` finishes exactly when both listings arrive and every discovered sensor is fetched with its reading present |
| `GardenApi.PlanReadings` | src/main.rs:68-106 | with one step per category in block order, each printed reading is its category's Read value, every Read step is printed, and readings follow the block order |
| `GardenApi.CycleReadings` | src/main.rs:68-106 | a finished pass prints one reading per category whose sensor was read, that value, in category order, and resolves the last Garden group |
| `GardenApi.CyclePanics` | src/main.rs:68-106 | a panic comes from the first category whose fetched sensor lacks its field, after every earlier category passed |
| `GardenApi.CycleFails` | src/main.rs:41-108 | an error comes from the sensor listing, from the first failed sensor fetch, or, after all categories passed, from the group listing |
| `GardenScenarios.TrimTempExamples` | src/main.rs:164-166 | 2502 gives 25 and 2701 gives 27; 999 gives 99; 42, 5 and 0 are unchanged; 950 gives 95, 10000 gives 10 and 4294967295 gives 42 |
| `GardenScenarios.DuplicateTypeExample` | src/main.rs:53-55 | of two "ZHATemperature" sensors, the one iterated last is kept |
| `GardenScenarios.UntypedSensorExample` | src/main.rs:52 | a sensor without `type` is not picked, even when it carries a temperature |
| `GardenScenarios.SensorUrlExample` | src/main.rs:72 | the request for sensor 7 goes to "http://hub/api/KEY/sensors/7" |
| `GardenScenarios.ThermometerCategory` | src/main.rs:53-64 | a "ZHATemperature" sensor is a temperature sensor and nothing else |
| `GardenScenarios.SmallHubGroupsFail` | src/main.rs:75-108 | when the group listing fails after the temperature block printed 27, the error outcome still holds that reading |
| `GardenScenarios.SmallHubCycle` | src/main.rs:35-130 | with one temperature sensor reading 2701 and one Garden group, a pass prints 27 and resolves that group |

## Left out

- Network I/O. `get` and `put` send requests with reqwest under the tokio runtime. Each response becomes a field of the `Hub` input, keyed by request URL (a sensor fetch also by the category block that sends it, so two blocks fetching one sensor may get different answers), and a failed request or undecodable body becomes a `HubError`.
- `put` itself: its only caller is the commented-out group action block. Only its URL format is modelled.
- The JSON decoding implied by the serde derives. The hub hands over decoded records. A body that does not decode is the `Decode` error.
- Loading `CONFIG` from config.toml, and its panics when the file is missing or malformed. The base URL and key are an `AppConfig` parameter.
- The printed lines. Their values are the `readings` of the outcome, however the pass ends, and their text is not modelled. The line that prints the base URL is left out.
- The `AppSensor` struct, which nothing uses.
- src/deconz/client.rs: it is not compiled, because main.rs declares only `mod mappings`. It repeats `get` and `put`.
- A periodic scheduler, a time-of-day window, a lux threshold and an on/off decision: `main` has none of them.
- Rust `String`s are UTF-8 bytes, and `contains` matches bytes. Strings are modelled as character sequences. For valid UTF-8 the two agree.
- `u32::from_str` is modelled only as far as this program can reach it: an optional sign, the digit loop and overflow. Nothing beyond decimal is modelled.
