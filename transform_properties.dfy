/**
 * Properties of the transform stage: how the whole call is built from the
 * per-entry projection, which parts of an entry a record depends on, and
 * what a complete London response becomes.
 */
module TransformProperties {
  import opened Wrappers
  import opened PyJson
  import opened Transform

  /** Running the call on `a` and then on `b`: the first exception wins,
      otherwise the two record lists are joined. */
  function Then(ra: PyResult<seq<Record>>, rb: PyResult<seq<Record>>): PyResult<seq<Record>> {
    match ra
    case Err(e) => Err(e)
    case Ok(xs) =>
      match rb
      case Err(e) => Err(e)
      case Ok(ys) => Ok(xs + ys)
  }

  /** Records depend on their own entries only: transforming a concatenation
      is transforming each part and joining the results. */
  lemma {:induction false} CleanAllConcat(a: seq<Value>, b: seq<Value>)
    ensures CleanAll(a + b) == Then(CleanAll(a), CleanAll(b))
  {
    if a == [] {
      assert a + b == b;
      if CleanAll(b).Ok? {
        assert [] + CleanAll(b).value == CleanAll(b).value;
      }
    } else {
      assert (a + b)[0] == a[0];
      assert (a + b)[1..] == a[1..] + b;
      CleanAllConcat(a[1..], b);
      match CleanAll(a[1..]) {
        case Ok(xs) =>
          match CleanAll(b) {
            case Ok(ys) =>
              if Project(a[0]).Ok? {
                assert [Project(a[0]).value] + (xs + ys) == ([Project(a[0]).value] + xs) + ys;
              }
            case Err(_) =>
          }
        case Err(_) =>
      }
    }
  }

  /** The call succeeds exactly when every entry is well shaped, and then
      yields one record per entry, in input order. */
  lemma {:induction false} CleanAllOkIff(raw: seq<Value>)
    ensures CleanAll(raw).Ok? <==> forall i :: 0 <= i < |raw| ==> WellShaped(raw[i])
    ensures CleanAll(raw).Ok? ==>
      |CleanAll(raw).value| == |raw| &&
      forall i :: 0 <= i < |raw| ==> Project(raw[i]) == Ok(CleanAll(raw).value[i])
  {
    CleanAllIsCleaned(raw);
    if CleanAll(raw).Err? {
      var k :| 0 <= k < |raw| && Project(raw[k]) == Err(CleanAll(raw).error);
      assert !WellShaped(raw[k]);
    }
  }

  /** A failing call reports the exception of the first entry that is not
      well shaped. */
  lemma CleanAllErrIsFirstFailure(raw: seq<Value>, k: nat)
    requires k < |raw| && !WellShaped(raw[k])
    requires forall j :: 0 <= j < k ==> WellShaped(raw[j])
    ensures CleanAll(raw) == Err(Project(raw[k]).error)
  {
    CleanAllIsCleaned(raw);
    var r := Err(Project(raw[k]).error);
    assert Cleaned(raw, r);
    CleanedIsUnique(raw, r, CleanAll(raw));
  }

  /** Top-level keys other than `name`, `main` and `weather` do not affect the record. */
  lemma ProjectIgnoresOtherKeys(fields: map<string, Value>, k: string, v: Value)
    requires k != "name" && k != "main" && k != "weather"
    ensures Project(Obj(fields[k := v])) == Project(Obj(fields))
  {
  }

  /** Keys of `main` other than `temp` and `humidity` do not affect the record. */
  lemma ProjectIgnoresOtherMainKeys(fields: map<string, Value>, main: map<string, Value>, k: string, v: Value)
    requires "main" in fields && fields["main"] == Obj(main)
    requires k != "temp" && k != "humidity"
    ensures Project(Obj(fields["main" := Obj(main[k := v])])) == Project(Obj(fields))
  {
  }

  /** Elements of `weather` after the first do not affect the record. */
  lemma ProjectIgnoresLaterWeather(fields: map<string, Value>, first: Value, rest: seq<Value>, rest': seq<Value>)
    requires "weather" in fields && fields["weather"] == Arr([first] + rest)
    ensures Project(Obj(fields["weather" := Arr([first] + rest')])) == Project(Obj(fields))
  {
  }

  /** Keys of `weather[0]` other than `description` do not affect the record. */
  lemma ProjectIgnoresOtherWeatherKeys(fields: map<string, Value>, first: map<string, Value>, rest: seq<Value>, k: string, v: Value)
    requires "weather" in fields && fields["weather"] == Arr([Obj(first)] + rest)
    requires k != "description"
    ensures Project(Obj(fields["weather" := Arr([Obj(first[k := v])] + rest)])) == Project(Obj(fields))
  {
  }

  /** Values are copied as they are: whatever `main.temp` holds, a string
      included, becomes the temperature, and absent keys become `None`. */
  lemma TemperaturePassesThrough(v: Value)
    ensures Project(Obj(map["main" := Obj(map["temp" := v])])) == Ok(Record(Null, v, Null, Null))
  {
  }

  /** A missing `weather` key takes the default `[{}]` and gives a `None`
      description, while an empty `weather` list raises IndexError. */
  lemma WeatherDefaultVersusEmpty(name: Value)
    ensures Project(Obj(map["name" := name])) == Ok(Record(name, Null, Null, Null))
    ensures Project(Obj(map["name" := name, "weather" := Arr([])])) == Err(IndexError)
  {
  }

  /** A `main` that is present but null is not a missing `main`: `.get` on
      `None` raises AttributeError. */
  lemma NullMainRaises()
    ensures Project(Obj(map["main" := Null])) == Err(AttributeError)
    ensures Project(Obj(map[])) == Ok(Record(Null, Null, Null, Null))
  {
  }

  /** A complete response for London. */
  function LondonResponse(): Value {
    Obj(map[
      "name" := Str("London"),
      "main" := Obj(map["temp" := Num(15.2), "humidity" := Num(70.0)]),
      "weather" := Arr([Obj(map["description" := Str("cloudy")])])])
  }

  /** A complete London response becomes a complete record. */
  lemma LondonScenario()
    ensures CleanAll([LondonResponse()]) == Ok([Record(Str("London"), Num(15.2), Num(70.0), Str("cloudy"))])
  {
    var entry := LondonResponse();
    assert [entry][1..] == [];
    assert CleanAll([entry][1..]) == Ok([]);
    var rec := Record(Str("London"), Num(15.2), Num(70.0), Str("cloudy"));
    assert Project(entry) == Ok(rec);
    assert [rec] + [] == [rec];
  }
}
