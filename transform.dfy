/**
 * The transform stage of the weather ETL script: `clean_weather_data` turns
 * the list of raw weather responses into one flat four-field record per
 * response, in input order. Any exception raised while building one record
 * aborts the whole call, so the result is either every record or the first
 * exception.
 */
module Transform {
  import opened Wrappers
  import opened PyJson

  /** One cleaned record. Each field holds whatever value the lookup found,
      uncoerced; `Null` is Python's `None`, which the lookup returns both for
      a missing key and for a key whose value is JSON null. */
  datatype Record = Record(
    cityName: Value,
    temperature: Value,
    humidity: Value,
    weatherDescription: Value)

  /** The value at `entry[k][j]` when both keys exist, `Null` otherwise. */
  function Nested(entry: Value, k: string, j: string): Value {
    if Has(entry, k) && Has(entry.fields[k], j) then entry.fields[k].fields[j] else Null
  }

  /** The `description` of the first element of `weather` when the list, its
      first element and the key all exist, `Null` otherwise. */
  function FirstDescription(entry: Value): Value {
    if Has(entry, "weather") && entry.fields["weather"].Arr? && |entry.fields["weather"].items| > 0
    then
      var first := entry.fields["weather"].items[0];
      if Has(first, "description") then first.fields["description"] else Null
    else Null
  }

  /** `main`, when present, is a dict. */
  predicate MainIsDict(entry: Value) {
    Has(entry, "main") ==> entry.fields["main"].Obj?
  }

  /** `weather`, when present, is a non-empty list whose first element is a dict. */
  predicate WeatherIsListOfDict(entry: Value) {
    Has(entry, "weather") ==>
      var w := entry.fields["weather"];
      w.Arr? && |w.items| > 0 && w.items[0].Obj?
  }

  /** The entries that project without raising. */
  predicate WellShaped(entry: Value) {
    entry.Obj? && MainIsDict(entry) && WeatherIsListOfDict(entry)
  }

  /** `entry.get("name")`. */
  function CityName(entry: Value): (r: PyResult<Value>)
    ensures r.Ok? <==> entry.Obj?
    ensures r.Err? ==> r.error == AttributeError
    ensures Has(entry, "name") ==> r == Ok(entry.fields["name"])
    ensures entry.Obj? && !Has(entry, "name") ==> r == Ok(Null)
  {
    Get(entry, "name")
  }

  /** `entry.get("main", {}).get(key)`, used for both `temp` and `humidity`. */
  function MainField(entry: Value, key: string): (r: PyResult<Value>)
    ensures r.Ok? <==> entry.Obj? && MainIsDict(entry)
    ensures r.Err? ==> r.error == AttributeError
    ensures r.Ok? ==> r.value == Nested(entry, "main", key)
  {
    var main :- GetOr(entry, "main", Obj(map[]));
    Get(main, key)
  }

  /** `entry.get("weather", [{}])[0].get("description")`. */
  function WeatherDescription(entry: Value): (r: PyResult<Value>)
    ensures r.Ok? <==> entry.Obj? && WeatherIsListOfDict(entry)
    ensures entry.Obj? && !Has(entry, "weather") ==> r == Ok(Null)
    ensures r.Ok? ==> r.value == FirstDescription(entry)
    ensures !entry.Obj? ==> r == Err(AttributeError)
    ensures Has(entry, "weather") ==>
      var w := entry.fields["weather"];
      && (w == Arr([]) || w == Str([]) ==> r == Err(IndexError))
      && (w.Obj? ==> r == Err(KeyError))
      && (w.Null? || w.Bool? || w.Num? ==> r == Err(TypeError))
      && (w.Str? && |w.s| > 0 ==> r == Err(AttributeError))
      && (w.Arr? && |w.items| > 0 && !w.items[0].Obj? ==> r == Err(AttributeError))
  {
    var weather :- GetOr(entry, "weather", Arr([Obj(map[])]));
    var first :- First(weather);
    Get(first, "description")
  }

  /** The dict literal built for one entry; its four values are evaluated in
      order, and the first exception raised escapes. */
  function Project(entry: Value): (r: PyResult<Record>)
    ensures r.Ok? <==> WellShaped(entry)
    ensures r.Ok? ==> r.value == Record(
      if Has(entry, "name") then entry.fields["name"] else Null,
      Nested(entry, "main", "temp"),
      Nested(entry, "main", "humidity"),
      FirstDescription(entry))
    ensures !(entry.Obj? && MainIsDict(entry)) ==> r == Err(AttributeError)
    ensures entry.Obj? && MainIsDict(entry) && r.Err? ==> r == WeatherDescription(entry).PropagateFailure()
  {
    var city :- CityName(entry);
    var temperature :- MainField(entry, "temp");
    // Same lookup of `main` as for `temp`, so it cannot raise here; a `match`
    // rather than `:-` leaves no failure branch for the verifier to discharge.
    match MainField(entry, "humidity")
    case Err(e) => Err(e)
    case Ok(humidity) =>
      var description :- WeatherDescription(entry);
      Ok(Record(city, temperature, humidity, description))
  }

  /** Reference definition of the whole call: every record in order, or the
      exception of the first entry that raises. */
  function CleanAll(raw: seq<Value>): PyResult<seq<Record>> {
    if raw == [] then Ok([])
    else
      var head :- Project(raw[0]);
      var tail :- CleanAll(raw[1..]);
      Ok([head] + tail)
  }

  /** What a result of the call must be for `raw`: one record per entry, each
      the projection of its own entry, or else the exception of an entry that
      raises while every earlier entry projects. */
  predicate Cleaned(raw: seq<Value>, r: PyResult<seq<Record>>) {
    match r
    case Ok(records) =>
      |records| == |raw| && forall i :: 0 <= i < |raw| ==> Project(raw[i]) == Ok(records[i])
    case Err(e) =>
      exists k :: 0 <= k < |raw| && Project(raw[k]) == Err(e) && forall j :: 0 <= j < k ==> Project(raw[j]).Ok?
  }

  lemma {:induction false} CleanAllIsCleaned(raw: seq<Value>)
    ensures Cleaned(raw, CleanAll(raw))
  {
    if raw != [] {
      CleanAllIsCleaned(raw[1..]);
      var p := Project(raw[0]);
      if p.Ok? {
        var t := CleanAll(raw[1..]);
        match t
        case Ok(tail) =>
          var records := [p.value] + tail;
          assert CleanAll(raw) == Ok(records);
          forall i | 0 <= i < |raw| ensures Project(raw[i]) == Ok(records[i]) {
            if i > 0 { assert raw[i] == raw[1..][i - 1]; }
          }
        case Err(e) =>
          var k :| 0 <= k < |raw[1..]| && Project(raw[1..][k]) == Err(e)
            && forall j :: 0 <= j < k ==> Project(raw[1..][j]).Ok?;
          assert Project(raw[k + 1]) == Err(e);
          forall j | 0 <= j < k + 1 ensures Project(raw[j]).Ok? {
            if j > 0 { assert raw[j] == raw[1..][j - 1]; }
          }
      } else {
        assert Project(raw[0]) == Err(p.error);
      }
    }
  }

  /** At most one result meets `Cleaned`, so it specifies the call exactly. */
  lemma CleanedIsUnique(raw: seq<Value>, r1: PyResult<seq<Record>>, r2: PyResult<seq<Record>>)
    requires Cleaned(raw, r1) && Cleaned(raw, r2)
    ensures r1 == r2
  {
    match r1
    case Ok(a) =>
      match r2 {
        case Ok(b) =>
          assert forall i :: 0 <= i < |a| ==> a[i] == b[i] by {
            forall i | 0 <= i < |a| ensures a[i] == b[i] {
              assert Project(raw[i]) == Ok(a[i]);
            }
          }
          assert a == b;
        case Err(e) =>
          assert false;
      }
    case Err(e1) =>
      var k1 :| 0 <= k1 < |raw| && Project(raw[k1]) == Err(e1) && forall j :: 0 <= j < k1 ==> Project(raw[j]).Ok?;
      match r2
      case Ok(b) =>
        assert false;
      case Err(e2) =>
        var k2 :| 0 <= k2 < |raw| && Project(raw[k2]) == Err(e2) && forall j :: 0 <= j < k2 ==> Project(raw[j]).Ok?;
        if k1 < k2 || k2 < k1 {
          assert false;
        }
  }

  /** `clean_weather_data` up to the DataFrame construction: start from an
      empty list and append one record per entry; an exception escapes. */
  method CleanWeatherData(raw: seq<Value>) returns (r: PyResult<seq<Record>>)
    ensures Cleaned(raw, r)
    ensures r == CleanAll(raw)
  {
    var records: seq<Record> := [];
    var i := 0;
    while i < |raw|
      invariant 0 <= i <= |raw|
      invariant |records| == i
      invariant forall j :: 0 <= j < i ==> Project(raw[j]) == Ok(records[j])
    {
      var record := Project(raw[i]);
      if record.Err? {
        r := Err(record.error);
        CleanAllIsCleaned(raw);
        CleanedIsUnique(raw, r, CleanAll(raw));
        return;
      }
      records := records + [record.value];
      i := i + 1;
    }
    r := Ok(records);
    CleanAllIsCleaned(raw);
    CleanedIsUnique(raw, r, CleanAll(raw));
  }
}
