/**
 * The program in src/main.rs: one pass that lists the hub's sensors, picks one
 * sensor id per reading category, fetches and normalises each reading, then
 * lists the light groups and resolves the "Garden" group. The hub's answers are
 * inputs (a `Hub` value); the network, the configuration file and the printed
 * lines are not modelled.
 */
module GardenApi {
  import opened Wrappers
  import opened Strings
  import opened Ints
  import opened Decimal
  import opened Mappings
  import opened Selection

  /* ---------------- Requests ---------------- */

  /** `AppConfig`: the hub's base address and API key, read once from config.toml. */
  datatype AppConfig = AppConfig(apiUrl: string, apiKey: string)

  /**
   * The URL `get` and `put` build with `format!("{base_url}/api/{api_key}{param}")`;
   * both calls use the same format string, so one function serves both.
   */
  function RequestUrl(cfg: AppConfig, param: string): (url: string)
    ensures |url| == |cfg.apiUrl| + 5 + |cfg.apiKey| + |param|
  {
    cfg.apiUrl + "/api/" + cfg.apiKey + param
  }

  const SensorsPath: string := "/sensors"
  const GroupsPath: string := "/groups"

  /** `format!("/sensors/{id}")`. */
  function SensorPath(id: string): (path: string)
    ensures |path| == 9 + |id|
  {
    "/sensors/" + id
  }

  /**
   * The URL is the base address, then "/api/", then the key, then the path,
   * with nothing inserted between the key and the path.
   */
  lemma RequestUrlLayout(cfg: AppConfig, param: string)
    ensures var url, b, k := RequestUrl(cfg, param), |cfg.apiUrl|, |cfg.apiKey|;
      && |url| == b + 5 + k + |param|
      && url[..b] == cfg.apiUrl
      && url[b..b + 5] == "/api/"
      && url[b + 5..b + 5 + k] == cfg.apiKey
      && url[b + 5 + k..] == param
  {
  }

  /** The single-sensor path is "/sensors/" followed by the id, unchanged. */
  lemma SensorPathLayout(id: string)
    ensures var path := SensorPath(id);
      |path| == 9 + |id| && path[..9] == "/sensors/" && path[9..] == id
  {
  }

  /** Different paths under one configuration give different URLs. */
  lemma {:induction false} RequestUrlInjective(cfg: AppConfig, p: string, q: string)
    requires RequestUrl(cfg, p) == RequestUrl(cfg, q)
    ensures p == q
  {
    RequestUrlLayout(cfg, p);
    RequestUrlLayout(cfg, q);
  }

  /* ---------------- trim_temp ---------------- */

  /** The number formed by the first two decimal digits of `v` (all of `v` when it has fewer). */
  function LeadingDigits(v: nat): nat {
    if v < 100 then v else LeadingDigits(v / 10)
  }

  function Pow10(k: nat): nat {
    if k == 0 then 1 else 10 * Pow10(k - 1)
  }

  lemma {:induction false} LeadingDigitsBounds(v: nat)
    ensures LeadingDigits(v) <= 99 && LeadingDigits(v) <= v
    ensures v < 100 ==> LeadingDigits(v) == v
    ensures 10 <= v ==> 10 <= LeadingDigits(v)
  {
    if v >= 100 {
      LeadingDigitsBounds(v / 10);
    }
  }

  /**
   * The leading two digits scaled back by the number of dropped digits bracket
   * `v`: for 2502 that is 25 * 100 <= 2502 < 26 * 100.
   */
  lemma {:induction false} LeadingDigitsScale(v: nat)
    requires 10 <= v
    ensures var k := |ToDecimal(v)| - 2;
      Pow10(k) * LeadingDigits(v) <= v < Pow10(k) * (LeadingDigits(v) + 1)
  {
    if v >= 100 {
      var u := v / 10;
      LeadingDigitsScale(u);
      var k', r := |ToDecimal(u)| - 2, LeadingDigits(u);
      var p := Pow10(k');
      assert |ToDecimal(v)| - 2 == k' + 1;
      assert Pow10(k' + 1) == 10 * p;
      ScaleByTen(p, r, u, v);
    }
  }

  /** One more dropped digit multiplies the bracket by ten. */
  lemma ScaleByTen(p: nat, r: nat, u: nat, v: nat)
    requires u == v / 10
    requires p * r <= u < p * (r + 1)
    ensures (10 * p) * r <= v < (10 * p) * (r + 1)
  {
  }

  /** Taking two characters of the decimal rendering renders the leading two digits. */
  lemma {:induction false} TakeTwoOfDecimal(v: nat)
    ensures Take(ToDecimal(v), 2) == ToDecimal(LeadingDigits(v))
  {
    if v >= 100 {
      var front := ToDecimal(v / 10);
      TakeTwoOfDecimal(v / 10);
      assert (front + [DigitChar(v % 10)])[..2] == front[..2];
    }
  }

  /**
   * The two characters `trim_temp` keeps always parse, to the leading two
   * digits, so its `unwrap` never panics.
   */
  lemma TrimmedDigitsParse(v: U32)
    ensures ParseU32(Take(ToDecimal(v), 2)) == Ok(LeadingDigits(v))
  {
    TakeTwoOfDecimal(v);
    LeadingDigitsBounds(v);
    ParseToDecimal(LeadingDigits(v));
  }

  /**
   * `trim_temp`: render the value in decimal, keep at most its first two
   * characters and parse them back.
   */
  function TrimTemp(value: U32): (r: U32)
    ensures r == LeadingDigits(value)
    ensures r <= 99 && r <= value
    ensures value < 100 ==> r == value
    ensures 10 <= value ==> 10 <= r
  {
    var trimmed := Take(ToDecimal(value), 2);
    TrimmedDigitsParse(value);
    LeadingDigitsBounds(value);
    ParseU32(trimmed).value
  }

  /* ---------------- Sensor discovery ---------------- */

  /** The four kinds of reading `main` looks for. */
  datatype Category = Temperature | LightLevel | Humidity | Pressure

  /** The substring of a sensor's `type` that puts it in a category. */
  function Pattern(c: Category): string {
    match c
    case Temperature => "Temperature"
    case LightLevel => "LightLevel"
    case Humidity => "Humidity"
    case Pressure => "Pressure"
  }

  /** A sensor belongs to `c` when it has a `type` and the type contains the category's pattern. */
  predicate HasCategory(s: Sensor, c: Category) {
    s.sensorType.Some? && Contains(s.sensorType.value, Pattern(c))
  }

  function OfCategory(c: Category): Sensor -> bool {
    s => HasCategory(s, c)
  }

  /**
   * The discovery loop of `main`: one pass over the listing with four
   * independent tests, each overwriting its category's id on a match.
   */
  method DiscoverSensors(listing: Listing<Sensor>) returns (temp: Option<string>, lux: Option<string>, hum: Option<string>, pres: Option<string>)
    ensures temp == LastMatch(listing, OfCategory(Temperature))
    ensures lux == LastMatch(listing, OfCategory(LightLevel))
    ensures hum == LastMatch(listing, OfCategory(Humidity))
    ensures pres == LastMatch(listing, OfCategory(Pressure))
  {
    temp, lux, hum, pres := None, None, None, None;
    for k := 0 to |listing|
      invariant temp == LastMatch(listing[..k], OfCategory(Temperature))
      invariant lux == LastMatch(listing[..k], OfCategory(LightLevel))
      invariant hum == LastMatch(listing[..k], OfCategory(Humidity))
      invariant pres == LastMatch(listing[..k], OfCategory(Pressure))
    {
      var (id, sensor) := listing[k];
      assert listing[..k + 1] == listing[..k] + [listing[k]];
      LastMatchSnoc(listing[..k], listing[k], OfCategory(Temperature));
      LastMatchSnoc(listing[..k], listing[k], OfCategory(LightLevel));
      LastMatchSnoc(listing[..k], listing[k], OfCategory(Humidity));
      LastMatchSnoc(listing[..k], listing[k], OfCategory(Pressure));
      if sensor.sensorType.Some? {
        if Contains(sensor.sensorType.value, "Temperature") {
          temp := Some(id);
        }
        assert temp == LastMatch(listing[..k + 1], OfCategory(Temperature));
        if Contains(sensor.sensorType.value, "LightLevel") {
          lux := Some(id);
        }
        assert lux == LastMatch(listing[..k + 1], OfCategory(LightLevel));
        if Contains(sensor.sensorType.value, "Humidity") {
          hum := Some(id);
        }
        assert hum == LastMatch(listing[..k + 1], OfCategory(Humidity));
        if Contains(sensor.sensorType.value, "Pressure") {
          pres := Some(id);
        }
      }
    }
    assert listing[..|listing|] == listing;
  }

  /**
   * Soundness of discovery: a discovered id is a key of the listing whose
   * sensor has a `type` containing the category's pattern; so a sensor
   * without a `type` is never selected.
   */
  lemma {:induction false} DiscoverySound(listing: Listing<Sensor>, c: Category)
    requires LastMatch(listing, OfCategory(c)).Some?
    ensures exists i :: (0 <= i < |listing| && listing[i].0 == LastMatch(listing, OfCategory(c)).value
      && listing[i].1.sensorType.Some? && Contains(listing[i].1.sensorType.value, Pattern(c)))
  {
    SelectedIsMatchingKey(listing, OfCategory(c));
  }

  /** Completeness of discovery: a category stays None exactly when no sensor's type contains its pattern. */
  lemma {:induction false} DiscoveryNone(listing: Listing<Sensor>, c: Category)
    ensures LastMatch(listing, OfCategory(c)).None? <==>
      forall i :: 0 <= i < |listing| ==> !HasCategory(listing[i].1, c)
  {
    LastMatchNone(listing, OfCategory(c));
  }

  /** Last write wins: a discovered id is that of the last sensor in iteration order that matches. */
  lemma {:induction false} DiscoveryLastWins(listing: Listing<Sensor>, c: Category, id: string)
    ensures LastMatch(listing, OfCategory(c)) == Some(id) <==>
      exists i :: 0 <= i < |listing| && listing[i].0 == id && HasCategory(listing[i].1, c) &&
        forall j :: i < j < |listing| ==> !HasCategory(listing[j].1, c)
  {
    LastMatchSome(listing, OfCategory(c), id);
    assert forall i :: IsLastMatchAt(listing, OfCategory(c), i) <==>
      (0 <= i < |listing| && HasCategory(listing[i].1, c) &&
       forall j :: i < j < |listing| ==> !HasCategory(listing[j].1, c));
  }

  /**
   * The tests are independent: a sensor that is the last match of two
   * categories (say a type containing both "Temperature" and "Humidity")
   * is recorded in both.
   */
  lemma {:induction false} IndependentCategories(listing: Listing<Sensor>, i: int, c1: Category, c2: Category)
    requires IsLastMatchAt(listing, OfCategory(c1), i) && IsLastMatchAt(listing, OfCategory(c2), i)
    ensures LastMatch(listing, OfCategory(c1)) == Some(listing[i].0)
    ensures LastMatch(listing, OfCategory(c2)) == Some(listing[i].0)
  {
    LastMatchSome(listing, OfCategory(c1), listing[i].0);
    LastMatchSome(listing, OfCategory(c2), listing[i].0);
  }

  /* ---------------- Garden group resolution ---------------- */

  predicate IsGarden(g: Group) {
    Contains(g.name, "Garden")
  }

  /** The group loop of `main`: the id of the last group whose name contains "Garden". */
  method ResolveGardenGroup(groups: Listing<Group>) returns (groupId: Option<string>)
    ensures groupId == LastMatch(groups, IsGarden)
  {
    groupId := None;
    for k := 0 to |groups|
      invariant groupId == LastMatch(groups[..k], IsGarden)
    {
      var (id, group) := groups[k];
      assert groups[..k + 1] == groups[..k] + [groups[k]];
      if Contains(group.name, "Garden") {
        groupId := Some(id);
      }
      LastMatchSnoc(groups[..k], groups[k], IsGarden);
    }
    assert groups[..|groups|] == groups;
  }

  /** No group is resolved exactly when no group name contains "Garden". */
  lemma {:induction false} GardenGroupNone(groups: Listing<Group>)
    ensures LastMatch(groups, IsGarden).None? <==> forall i :: 0 <= i < |groups| ==> !Contains(groups[i].1.name, "Garden")
  {
    LastMatchNone(groups, IsGarden);
  }

  /** A resolved id is that of the last group, in iteration order, whose name contains "Garden". */
  lemma {:induction false} GardenGroupLastWins(groups: Listing<Group>, id: string)
    ensures LastMatch(groups, IsGarden) == Some(id) <==>
      exists i :: 0 <= i < |groups| && groups[i].0 == id && Contains(groups[i].1.name, "Garden") &&
        forall j :: i < j < |groups| ==> !Contains(groups[j].1.name, "Garden")
  {
    LastMatchSome(groups, IsGarden, id);
  }

  /* ---------------- Reading extraction ---------------- */

  /** The field of the sensor state that holds a category's reading. */
  function RawReading(st: SensorState, c: Category): Option<U32> {
    match c
    case Temperature => st.temperature
    case LightLevel => st.lux
    case Humidity => st.humidity
    case Pressure => st.pressure
  }

  /** The `.unwrap()` of a reading that the fetched sensor does not carry. */
  datatype Missing = MissingField(category: Category)

  /**
   * The value `main` prints for a fetched sensor: temperature and humidity go
   * through `trim_temp`, light level and pressure are shown as they are; an
   * absent field is an error.
   */
  function Extract(s: Sensor, c: Category): (r: Result<U32, Missing>)
    ensures r.Err? <==> RawReading(s.state, c).None?
    ensures r.Err? ==> r.error == MissingField(c)
    ensures r.Ok? ==> r.value <= RawReading(s.state, c).value
    ensures r.Ok? && (c == Temperature || c == Humidity) ==>
      r.value <= 99 && r.value == LeadingDigits(RawReading(s.state, c).value)
    ensures r.Ok? && (c == LightLevel || c == Pressure) ==> r.value == RawReading(s.state, c).value
  {
    match RawReading(s.state, c)
    case None => Err(MissingField(c))
    case Some(raw) => Ok(if c == Temperature || c == Humidity then TrimTemp(raw) else raw)
  }

  /* ---------------- One pass of main ---------------- */

  /** Why a request failed: the transport, or a body that is not of the expected shape. */
  datatype HubError = Transport | Decode

  /**
   * The hub as `main` sees it: what each GET returns, by request URL. The
   * sensor listing and the group listing come as sequences in iteration order.
   * Each category block sends its own sensor request, so a sensor answer is
   * keyed by the category whose block asks as well as by the URL: two blocks
   * fetching the same sensor may get different answers.
   */
  datatype Hub = Hub(
    sensorList: string -> Result<Listing<Sensor>, HubError>,
    sensor: (Category, string) -> Result<Sensor, HubError>,
    groupList: string -> Result<Listing<Group>, HubError>)

  /** The result of one category's block in `main`. */
  datatype Step = Skipped | Read(value: U32) | Aborted(error: HubError) | Unwrapped(missing: Missing)

  /** One category's block: no id skips it; otherwise fetch `/sensors/{id}` and extract. */
  function ReadStep(cfg: AppConfig, hub: Hub, c: Category, id: Option<string>): (s: Step)
    ensures s.Skipped? <==> id.None?
    ensures s.Aborted? <==> id.Some? && hub.sensor(c, RequestUrl(cfg, SensorPath(id.value))).Err?
    ensures s.Unwrapped? ==> s.missing == MissingField(c)
    ensures s.Read? && (c == Temperature || c == Humidity) ==> s.value <= 99
    ensures id.Some? ==> var resp := hub.sensor(c, RequestUrl(cfg, SensorPath(id.value)));
      && (s.Aborted? ==> resp == Err(s.error))
      && (s.Unwrapped? <==> resp.Ok? && RawReading(resp.value.state, c).None?)
      && (s.Read? ==> resp.Ok? && Extract(resp.value, c) == Ok(s.value))
  {
    match id
    case None => Skipped
    case Some(i) =>
      match hub.sensor(c, RequestUrl(cfg, SensorPath(i)))
      case Err(e) => Aborted(e)
      case Ok(s) =>
        match Extract(s, c)
        case Ok(v) => Read(v)
        case Err(m) => Unwrapped(m)
  }

  /** The order in which `main` handles the categories. */
  function Rank(c: Category): nat {
    match c
    case Temperature => 0
    case LightLevel => 1
    case Humidity => 2
    case Pressure => 3
  }

  /** The step `main` takes for category `c` after discovery over `listing`. */
  function StepFor(cfg: AppConfig, hub: Hub, listing: Listing<Sensor>, c: Category): (s: Step)
    ensures s.Skipped? <==> forall i :: 0 <= i < |listing| ==> !HasCategory(listing[i].1, c)
  {
    DiscoveryNone(listing, c);
    ReadStep(cfg, hub, c, LastMatch(listing, OfCategory(c)))
  }

  /** A step after which `main` carries on. */
  predicate Passes(s: Step) {
    s.Skipped? || s.Read?
  }

  /** The four category blocks of `main`, in the order it runs them. */
  function Plan(cfg: AppConfig, hub: Hub, listing: Listing<Sensor>): (plan: seq<(Category, Step)>)
    ensures |plan| == 4
    ensures forall c :: plan[Rank(c)] == (c, StepFor(cfg, hub, listing, c))
    ensures forall i :: 0 <= i < 4 ==> Rank(plan[i].0) == i
  {
    [(Temperature, StepFor(cfg, hub, listing, Temperature)),
     (LightLevel, StepFor(cfg, hub, listing, LightLevel)),
     (Humidity, StepFor(cfg, hub, listing, Humidity)),
     (Pressure, StepFor(cfg, hub, listing, Pressure))]
  }

  /**
   * How a pass ends: every reading printed and the Garden group resolved,
   * an error returned by `?`, or a panic in `.unwrap()` on a missing reading.
   * Each block prints as soon as it has its reading, so a pass that fails or
   * panics keeps the `readings` printed before the stop.
   */
  datatype Outcome =
    | Finished(readings: seq<(Category, U32)>, gardenGroup: Option<string>)
    | Failed(error: HubError, readings: seq<(Category, U32)>)
    | Panicked(missing: Missing, readings: seq<(Category, U32)>)

  /** The readings the steps print, in step order. */
  function ReadsOf(steps: seq<(Category, Step)>): seq<(Category, U32)> {
    if steps == [] then []
    else (if steps[0].1.Read? then [(steps[0].0, steps[0].1.value)] else []) + ReadsOf(steps[1..])
  }

  /**
   * Run the remaining steps after `done` has been printed: the first step that
   * does not pass ends the pass; after the last one the group listing decides.
   */
  function Collect(steps: seq<(Category, Step)>, done: seq<(Category, U32)>,
                   groups: Result<Listing<Group>, HubError>): (r: Outcome)
    ensures r.Finished? ==> groups.Ok? && r.gardenGroup == LastMatch(groups.value, IsGarden)
    ensures done <= r.readings && |r.readings| <= |done| + |steps|
    decreases |steps|
  {
    if steps == [] then
      match groups
      case Err(e) => Failed(e, done)
      case Ok(g) => Finished(done, LastMatch(g, IsGarden))
    else
      match steps[0].1
      case Aborted(e) => Failed(e, done)
      case Unwrapped(m) => Panicked(m, done)
      case Read(v) => Collect(steps[1..], done + [(steps[0].0, v)], groups)
      case Skipped => Collect(steps[1..], done, groups)
  }

  /** The outcome of one pass of `main` against `hub`. */
  function Cycle(cfg: AppConfig, hub: Hub): (r: Outcome)
    ensures r.Finished? ==> hub.sensorList(RequestUrl(cfg, SensorsPath)).Ok?
    ensures r.Finished? ==> var groups := hub.groupList(RequestUrl(cfg, GroupsPath));
      groups.Ok? && r.gardenGroup == LastMatch(groups.value, IsGarden)
    ensures |r.readings| <= 4
  {
    match hub.sensorList(RequestUrl(cfg, SensorsPath))
    case Err(e) => Failed(e, [])
    case Ok(listing) => Collect(Plan(cfg, hub, listing), [], hub.groupList(RequestUrl(cfg, GroupsPath)))
  }

  /** Each printed reading comes from a Read step of the same category and value. */
  lemma {:induction false} ReadsOfSound(steps: seq<(Category, Step)>)
    ensures forall k :: 0 <= k < |ReadsOf(steps)| ==>
      exists i :: 0 <= i < |steps| && steps[i] == (ReadsOf(steps)[k].0, Read(ReadsOf(steps)[k].1))
    decreases |steps|
  {
    if steps == [] {
      assert ReadsOf(steps) == [];
    } else {
      var tail := steps[1..];
      ReadsOfSound(tail);
      var head := if steps[0].1.Read? then [(steps[0].0, steps[0].1.value)] else [];
      var r := ReadsOf(steps);
      assert r == head + ReadsOf(tail);
      forall k | 0 <= k < |r|
        ensures exists i :: 0 <= i < |steps| && steps[i] == (r[k].0, Read(r[k].1))
      {
        if k < |head| {
          assert steps[0] == (r[k].0, Read(r[k].1));
        } else {
          assert r[k] == ReadsOf(tail)[k - |head|];
          var i :| 0 <= i < |tail| && tail[i] == (r[k].0, Read(r[k].1));
          assert steps[i + 1] == tail[i];
        }
      }
    }
  }

  /** Every Read step's reading is printed. */
  lemma {:induction false} ReadsOfComplete(steps: seq<(Category, Step)>)
    ensures forall i :: 0 <= i < |steps| && steps[i].1.Read? ==> (steps[i].0, steps[i].1.value) in ReadsOf(steps)
    decreases |steps|
  {
    if steps != [] {
      var tail := steps[1..];
      ReadsOfComplete(tail);
      forall i | 0 <= i < |steps| && steps[i].1.Read?
        ensures (steps[i].0, steps[i].1.value) in ReadsOf(steps)
      {
        if i > 0 {
          assert tail[i - 1] == steps[i];
        }
      }
    }
  }

  /** Readings are printed in step order. */
  lemma {:induction false} ReadsOfOrdered(steps: seq<(Category, Step)>)
    requires forall i, j :: 0 <= i < j < |steps| ==> Rank(steps[i].0) < Rank(steps[j].0)
    ensures forall i, j :: 0 <= i < j < |ReadsOf(steps)| ==> Rank(ReadsOf(steps)[i].0) < Rank(ReadsOf(steps)[j].0)
    decreases |steps|
  {
    if steps != [] {
      var tail := steps[1..];
      assert forall i, j :: 0 <= i < j < |tail| ==> Rank(tail[i].0) < Rank(tail[j].0) by {
        forall i, j | 0 <= i < j < |tail| ensures Rank(tail[i].0) < Rank(tail[j].0) {
          assert tail[i] == steps[i + 1] && tail[j] == steps[j + 1];
        }
      }
      ReadsOfOrdered(tail);
      ReadsOfSound(tail);
      var head := if steps[0].1.Read? then [(steps[0].0, steps[0].1.value)] else [];
      var r := ReadsOf(steps);
      assert r == head + ReadsOf(tail);
      forall i, j | 0 <= i < j < |r| ensures Rank(r[i].0) < Rank(r[j].0) {
        if i < |head| {
          assert r[j] == ReadsOf(tail)[j - 1];
          var t :| 0 <= t < |tail| && tail[t] == (r[j].0, Read(r[j].1));
          assert steps[t + 1] == tail[t];
        }
      }
    }
  }

  /**
   * A pass runs to the end exactly when every step passes and the group
   * listing arrives; it then has printed the readings of the Read steps and
   * resolved the Garden group.
   */
  lemma {:induction false} CollectFinished(steps: seq<(Category, Step)>, done: seq<(Category, U32)>,
                                           groups: Result<Listing<Group>, HubError>)
    ensures Collect(steps, done, groups).Finished? <==>
      groups.Ok? && forall i :: 0 <= i < |steps| ==> Passes(steps[i].1)
    ensures Collect(steps, done, groups).Finished? ==>
      && Collect(steps, done, groups).readings == done + ReadsOf(steps)
      && Collect(steps, done, groups).gardenGroup == LastMatch(groups.value, IsGarden)
    decreases |steps|
  {
    if steps != [] && Passes(steps[0].1) {
      var next := if steps[0].1.Read? then done + [(steps[0].0, steps[0].1.value)] else done;
      CollectFinished(steps[1..], next, groups);
      assert forall i :: 0 <= i < |steps[1..]| ==> steps[1..][i] == steps[i + 1];
      if forall i :: 0 <= i < |steps[1..]| ==> Passes(steps[1..][i].1) {
        forall i | 0 <= i < |steps| ensures Passes(steps[i].1) {
          if i > 0 {
            assert steps[i] == steps[1..][i - 1];
          }
        }
      }
      if steps[0].1.Read? {
        assert done + ReadsOf(steps) == next + ReadsOf(steps[1..]);
      }
    }
  }

  /** The index of the first step that does not pass, or the number of steps when all pass. */
  function FirstStop(steps: seq<(Category, Step)>): (i: nat)
    ensures i <= |steps|
    ensures forall j :: 0 <= j < i ==> Passes(steps[j].1)
    ensures i < |steps| ==> !Passes(steps[i].1)
    decreases |steps|
  {
    if steps == [] || !Passes(steps[0].1) then 0 else 1 + FirstStop(steps[1..])
  }

  /** The outcome of a step that ends the pass after `printed` has been printed. */
  function StopOutcome(s: Step, printed: seq<(Category, U32)>): Outcome
    requires !Passes(s)
  {
    match s
    case Aborted(e) => Failed(e, printed)
    case Unwrapped(m) => Panicked(m, printed)
  }

  /**
   * What the first `i` steps print after `done`: the first step's reading,
   * then what the next `i - 1` print.
   */
  lemma ReadsOfPrefix(steps: seq<(Category, Step)>, i: nat, done: seq<(Category, U32)>)
    requires 1 <= i <= |steps|
    ensures done + ReadsOf(steps[..i]) ==
      done + (if steps[0].1.Read? then [(steps[0].0, steps[0].1.value)] else []) + ReadsOf(steps[1..][..i - 1])
  {
    assert steps[..i][0] == steps[0];
    assert steps[..i][1..] == steps[1..][..i - 1];
  }

  /** A step that passes prints its reading, if any, and hands over to the next step. */
  lemma CollectPasses(steps: seq<(Category, Step)>, done: seq<(Category, U32)>,
                      groups: Result<Listing<Group>, HubError>)
    requires steps != [] && Passes(steps[0].1)
    ensures Collect(steps, done, groups) ==
      Collect(steps[1..], done + (if steps[0].1.Read? then [(steps[0].0, steps[0].1.value)] else []), groups)
  {
    if steps[0].1.Skipped? {
      assert done + [] == done;
    }
  }

  /**
   * A pass that stops early ends with the outcome of its first failing step,
   * having printed the readings of the steps before it.
   */
  lemma {:induction false} CollectStops(steps: seq<(Category, Step)>, done: seq<(Category, U32)>,
                                        groups: Result<Listing<Group>, HubError>)
    ensures FirstStop(steps) < |steps| ==>
      Collect(steps, done, groups) == StopOutcome(steps[FirstStop(steps)].1, done + ReadsOf(steps[..FirstStop(steps)]))
    decreases |steps|
  {
    if steps == [] {
    } else if !Passes(steps[0].1) {
      assert steps[..0] == [];
    } else {
      var i := FirstStop(steps);
      var next := done + (if steps[0].1.Read? then [(steps[0].0, steps[0].1.value)] else []);
      CollectStops(steps[1..], next, groups);
      CollectPasses(steps, done, groups);
      if i < |steps| {
        ReadsOfPrefix(steps, i, done);
        assert steps[1..][i - 1] == steps[i];
      }
    }
  }

  /**
   * A pass whose steps all pass and whose group listing fails ends with that
   * error, having printed every step's reading.
   */
  lemma {:induction false} CollectGroupsFail(steps: seq<(Category, Step)>, done: seq<(Category, U32)>,
                                             groups: Result<Listing<Group>, HubError>)
    ensures FirstStop(steps) == |steps| && groups.Err? ==>
      Collect(steps, done, groups) == Failed(groups.error, done + ReadsOf(steps))
    decreases |steps|
  {
    if steps != [] && Passes(steps[0].1) {
      var head := if steps[0].1.Read? then [(steps[0].0, steps[0].1.value)] else [];
      CollectGroupsFail(steps[1..], done + head, groups);
      CollectPasses(steps, done, groups);
      assert ReadsOf(steps) == head + ReadsOf(steps[1..]);
      assert done + head + ReadsOf(steps[1..]) == done + ReadsOf(steps);
    }
  }

  /**
   * `main` prints its readings and resolves the group exactly when both
   * listings arrive and every discovered sensor is fetched with its reading present.
   */
  lemma CycleFinished(cfg: AppConfig, hub: Hub)
    ensures var sensors, groups := hub.sensorList(RequestUrl(cfg, SensorsPath)), hub.groupList(RequestUrl(cfg, GroupsPath));
      Cycle(cfg, hub).Finished? <==>
        sensors.Ok? && groups.Ok? && forall c :: Passes(StepFor(cfg, hub, sensors.value, c))
  {
    var sensors, groups := hub.sensorList(RequestUrl(cfg, SensorsPath)), hub.groupList(RequestUrl(cfg, GroupsPath));
    if sensors.Ok? {
      var plan := Plan(cfg, hub, sensors.value);
      CollectFinished(plan, [], groups);
    }
  }

  /**
   * What a four-step plan, one step per category in rank order, prints: each
   * reading is the Read value of its category's step, every Read step is
   * printed, and the order is that of the categories.
   */
  lemma {:induction false} PlanReadings(steps: seq<(Category, Step)>, step: Category -> Step)
    requires |steps| == 4
    requires forall c :: steps[Rank(c)] == (c, step(c))
    requires forall i :: 0 <= i < 4 ==> Rank(steps[i].0) == i
    ensures var r := ReadsOf(steps);
      && (forall k :: 0 <= k < |r| ==> step(r[k].0) == Read(r[k].1))
      && (forall c :: step(c).Read? ==> (c, step(c).value) in r)
      && (forall i, j :: 0 <= i < j < |r| ==> Rank(r[i].0) < Rank(r[j].0))
  {
    ReadsOfSound(steps);
    ReadsOfComplete(steps);
    ReadsOfOrdered(steps);
    var r := ReadsOf(steps);
    forall k | 0 <= k < |r| ensures step(r[k].0) == Read(r[k].1) {
      var i :| 0 <= i < |steps| && steps[i] == (r[k].0, Read(r[k].1));
      assert steps[Rank(r[k].0)] == (r[k].0, step(r[k].0));
      assert Rank(steps[i].0) == i;
    }
    forall c | step(c).Read? ensures (c, step(c).value) in r {
      assert steps[Rank(c)] == (c, step(c));
    }
  }

  /**
   * A finished pass prints one reading per category whose step read a value,
   * that value, in the order temperature, light level, humidity, pressure,
   * and ends with the last Garden group's id.
   */
  lemma CycleReadings(cfg: AppConfig, hub: Hub)
    requires Cycle(cfg, hub).Finished?
    ensures var sensors, groups := hub.sensorList(RequestUrl(cfg, SensorsPath)), hub.groupList(RequestUrl(cfg, GroupsPath));
      var r := Cycle(cfg, hub).readings;
      && sensors.Ok? && groups.Ok?
      && Cycle(cfg, hub).gardenGroup == LastMatch(groups.value, IsGarden)
      && (forall k :: 0 <= k < |r| ==> StepFor(cfg, hub, sensors.value, r[k].0) == Read(r[k].1))
      && (forall c :: StepFor(cfg, hub, sensors.value, c).Read? ==> (c, StepFor(cfg, hub, sensors.value, c).value) in r)
      && (forall i, j :: 0 <= i < j < |r| ==> Rank(r[i].0) < Rank(r[j].0))
  {
    var sensors, groups := hub.sensorList(RequestUrl(cfg, SensorsPath)), hub.groupList(RequestUrl(cfg, GroupsPath));
    var plan := Plan(cfg, hub, sensors.value);
    CollectFinished(plan, [], groups);
    PlanReadings(plan, c => StepFor(cfg, hub, sensors.value, c));
  }

  /**
   * However a pass ends, it has printed the readings of the category blocks
   * before its first stop, in block order: a later error or panic does not
   * take them back. A failed sensor listing prints nothing.
   */
  lemma CyclePrinted(cfg: AppConfig, hub: Hub)
    ensures var sensors := hub.sensorList(RequestUrl(cfg, SensorsPath));
      && (sensors.Err? ==> Cycle(cfg, hub).readings == [])
      && (sensors.Ok? ==> var plan := Plan(cfg, hub, sensors.value);
            Cycle(cfg, hub).readings == ReadsOf(plan[..FirstStop(plan)]))
  {
    var sensors, groups := hub.sensorList(RequestUrl(cfg, SensorsPath)), hub.groupList(RequestUrl(cfg, GroupsPath));
    if sensors.Ok? {
      var plan := Plan(cfg, hub, sensors.value);
      var i := FirstStop(plan);
      CollectStops(plan, [], groups);
      CollectGroupsFail(plan, [], groups);
      CollectFinished(plan, [], groups);
      assert [] + ReadsOf(plan[..i]) == ReadsOf(plan[..i]);
      if i == |plan| {
        assert plan[..i] == plan;
      }
    }
  }

  /**
   * A pass that panics does so on the first category whose fetched sensor
   * lacks its reading.
   */
  lemma CyclePanics(cfg: AppConfig, hub: Hub)
    requires Cycle(cfg, hub).Panicked?
    ensures var sensors, o := hub.sensorList(RequestUrl(cfg, SensorsPath)), Cycle(cfg, hub);
      && sensors.Ok?
      && StepFor(cfg, hub, sensors.value, o.missing.category) == Unwrapped(o.missing)
      && forall c :: Rank(c) < Rank(o.missing.category) ==> Passes(StepFor(cfg, hub, sensors.value, c))
  {
    var sensors, groups := hub.sensorList(RequestUrl(cfg, SensorsPath)), hub.groupList(RequestUrl(cfg, GroupsPath));
    var listing := sensors.value;
    var plan := Plan(cfg, hub, listing);
    CollectStops(plan, [], groups);
    CollectGroupsFail(plan, [], groups);
    CollectFinished(plan, [], groups);
    var i := FirstStop(plan);
    assert i < |plan|;
    var c := plan[i].0;
    assert Rank(c) == i;
    assert StepFor(cfg, hub, listing, c) == Unwrapped(Cycle(cfg, hub).missing);
    forall c' | Rank(c') < Rank(c) ensures Passes(StepFor(cfg, hub, listing, c')) {
      assert plan[Rank(c')] == (c', StepFor(cfg, hub, listing, c'));
    }
  }

  /**
   * A pass that fails does so on the sensor listing, on the first failed
   * sensor fetch, or, when every category passed, on the group listing.
   */
  lemma CycleFails(cfg: AppConfig, hub: Hub)
    requires Cycle(cfg, hub).Failed?
    ensures var sensors, groups := hub.sensorList(RequestUrl(cfg, SensorsPath)), hub.groupList(RequestUrl(cfg, GroupsPath));
      var e := Cycle(cfg, hub).error;
      || sensors == Err(e)
      || (sensors.Ok? && exists c :: (StepFor(cfg, hub, sensors.value, c) == Aborted(e) &&
            forall c' :: Rank(c') < Rank(c) ==> Passes(StepFor(cfg, hub, sensors.value, c'))))
      || (sensors.Ok? && groups == Err(e) && forall c :: Passes(StepFor(cfg, hub, sensors.value, c)))
  {
    var sensors, groups := hub.sensorList(RequestUrl(cfg, SensorsPath)), hub.groupList(RequestUrl(cfg, GroupsPath));
    if sensors.Ok? {
      var listing := sensors.value;
      var plan := Plan(cfg, hub, listing);
      CollectStops(plan, [], groups);
      CollectGroupsFail(plan, [], groups);
      CollectFinished(plan, [], groups);
      var i := FirstStop(plan);
      if i < |plan| {
        var c := plan[i].0;
        assert Rank(c) == i;
        forall c' | Rank(c') < Rank(c) ensures Passes(StepFor(cfg, hub, listing, c')) {
          assert plan[Rank(c')] == (c', StepFor(cfg, hub, listing, c'));
        }
      } else {
        forall c ensures Passes(StepFor(cfg, hub, listing, c)) {
          assert plan[Rank(c)] == (c, StepFor(cfg, hub, listing, c));
        }
      }
    }
  }

  /**
   * One category block of `main`: with no id it does nothing; otherwise it
   * fetches `/sensors/{id}` and prints the reading, or ends the pass with the
   * fetch's error or the panic of the missing reading. Whatever steps follow,
   * the pass continues from `printed` exactly when the block does not stop.
   */
  method RunCategory(cfg: AppConfig, hub: Hub, c: Category, id: Option<string>, readings: seq<(Category, U32)>)
    returns (stop: Option<Outcome>, printed: seq<(Category, U32)>)
    ensures forall rest, groups ::
      Collect([(c, ReadStep(cfg, hub, c, id))] + rest, readings, groups) ==
      if stop.Some? then stop.value else Collect(rest, printed, groups)
  {
    printed := readings;
    stop := None;
    if id.Some? {
      var response := hub.sensor(c, RequestUrl(cfg, SensorPath(id.value)));
      if response.Err? {
        return Some(Failed(response.error, readings)), printed;
      }
      var value := Extract(response.value, c);
      if value.Err? {
        return Some(Panicked(value.error, readings)), printed;
      }
      printed := readings + [(c, value.value)];
    }
    forall rest, groups ensures Collect([(c, ReadStep(cfg, hub, c, id))] + rest, readings, groups) ==
      if stop.Some? then stop.value else Collect(rest, printed, groups)
    {
      assert ([(c, ReadStep(cfg, hub, c, id))] + rest)[1..] == rest;
    }
  }

  /**
   * The four category blocks of `main`, in order, on the discovered ids, then
   * the group listing: the first block that stops ends the pass.
   */
  method RunBlocks(cfg: AppConfig, hub: Hub, temp: Option<string>, lux: Option<string>,
                   hum: Option<string>, pres: Option<string>) returns (outcome: Outcome)
    ensures outcome == Collect([(Temperature, ReadStep(cfg, hub, Temperature, temp)),
                                (LightLevel, ReadStep(cfg, hub, LightLevel, lux)),
                                (Humidity, ReadStep(cfg, hub, Humidity, hum)),
                                (Pressure, ReadStep(cfg, hub, Pressure, pres))],
                               [], hub.groupList(RequestUrl(cfg, GroupsPath)))
  {
    ghost var plan := [(Temperature, ReadStep(cfg, hub, Temperature, temp)),
                       (LightLevel, ReadStep(cfg, hub, LightLevel, lux)),
                       (Humidity, ReadStep(cfg, hub, Humidity, hum)),
                       (Pressure, ReadStep(cfg, hub, Pressure, pres))];
    ghost var pass := Collect(plan, [], hub.groupList(RequestUrl(cfg, GroupsPath)));
    var stop: Option<Outcome>;
    var readings: seq<(Category, U32)> := [];

    // Temperature
    stop, readings := RunCategory(cfg, hub, Temperature, temp, readings);
    assert plan == [plan[0]] + plan[1..];
    if stop.Some? {
      return stop.value;
    }
    assert pass == Collect(plan[1..], readings, hub.groupList(RequestUrl(cfg, GroupsPath)));

    // Light level
    stop, readings := RunCategory(cfg, hub, LightLevel, lux, readings);
    assert plan[1..] == [plan[1]] + plan[2..];
    if stop.Some? {
      return stop.value;
    }
    assert pass == Collect(plan[2..], readings, hub.groupList(RequestUrl(cfg, GroupsPath)));

    // Humidity
    stop, readings := RunCategory(cfg, hub, Humidity, hum, readings);
    assert plan[2..] == [plan[2]] + plan[3..];
    if stop.Some? {
      return stop.value;
    }
    assert pass == Collect(plan[3..], readings, hub.groupList(RequestUrl(cfg, GroupsPath)));

    // Pressure
    stop, readings := RunCategory(cfg, hub, Pressure, pres, readings);
    assert plan[3..] == [plan[3]] + [];
    if stop.Some? {
      return stop.value;
    }

    var groups := hub.groupList(RequestUrl(cfg, GroupsPath));
    if groups.Err? {
      return Failed(groups.error, readings);
    }
    var groupId := ResolveGardenGroup(groups.value);
    return Finished(readings, groupId);
  }

  /**
   * `main`: fetch the sensor listing, discover ids, handle the four
   * categories in order, then fetch the group listing and resolve the Garden
   * group. The first failure ends the pass.
   */
  method RunOnce(cfg: AppConfig, hub: Hub) returns (outcome: Outcome)
    ensures outcome == Cycle(cfg, hub)
  {
    var sensors := hub.sensorList(RequestUrl(cfg, SensorsPath));
    if sensors.Err? {
      return Failed(sensors.error, []);
    }
    var temp, lux, hum, pres := DiscoverSensors(sensors.value);
    outcome := RunBlocks(cfg, hub, temp, lux, hum, pres);
  }
}
