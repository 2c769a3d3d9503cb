# Weather ETL: the transform stage

This project models `clean_weather_data`, the transform stage of a small
extract-transform-load script. The script fetches current weather for a fixed
list of cities, reshapes each JSON response into a flat record, and stores the
records in a database table and a CSV file. The transform takes the list of
decoded responses. It builds one record per response with the keys
`city_name`, `temperature`, `humidity` and `weather_description`, in input
order.

Modules:

- `Wrappers`: a `Result` type. The model uses it for the Python exception a call raises.
- `PyJson`: decoded JSON values (`Null` is Python's `None`). It also holds the
  two Python operations the transform uses on them: `dict.get` (`Get`,
  `GetOr`) and subscripting with `[0]` (`First`). These raise the same
  exception classes Python raises.
- `Transform`: the per-entry projection (`Project`, built from `CityName`,
  `MainField` and `WeatherDescription`, evaluated in the dict literal's
  order). It also holds `CleanAll`, a reference definition of the whole call,
  and `Cleaned`, a predicate that pins the result down. `CleanWeatherData`
  is the source's loop, which appends one record per entry to a list.
- `TransformProperties`: lemmas about the whole call. They cover
  concatenation, when the call succeeds, and which exception it reports. They
  also show which keys a record ignores, that values pass through uncoerced,
  and what a complete London response becomes.

Behaviour that the code fixes and a quick reading might not expect:

- A missing `weather` key takes the default `[{}]`, so the description is
  `None`. A reader might expect an empty `weather` list to give a null
  description too; the code raises IndexError.
- `main` or `weather[0]` present but not a dict raises AttributeError. That
  includes a `main` whose value is JSON null.
- A `weather` that is a string raises. An empty string raises IndexError, and
  a non-empty one raises AttributeError. A `weather` that is a dict raises
  KeyError. A number, bool or null `weather` raises TypeError.
- An entry that is not a dict raises AttributeError at the `name` lookup.
- The record cannot tell a missing key from a key whose value is null. Both
  give `None`, so both give `Null` here.
- One exception aborts the whole call. No partial list is returned.

## Model

| member | source | states |
|---|---|---|
| PyJson.GetOr | etl/transform.py:9-11 | `d.get(k, default)`: the value under `k` if present, the default if absent, AttributeError on a non-dict |
| PyJson.Get | etl/transform.py:8-11 | `d.get(k)`: the value under `k` if present, `None` if absent, AttributeError on a non-dict |
| PyJson.First | etl/transform.py:11 | `v[0]`: first list element or first character; IndexError on an empty list or string, KeyError on a dict, TypeError on a number, bool or None |
| Transform.CityName | etl/transform.py:8 | `city_name` is the entry's `name` when present, `None` when absent; AttributeError when the entry is not a dict |
| Transform.MainField | etl/transform.py:9-10 | `temperature`/`humidity` is `main.temp`/`main.humidity` when both keys exist, `None` when either is missing; raises (AttributeError) exactly when the entry is not a dict or `main` is present but not a dict |
| Transform.WeatherDescription | etl/transform.py:11 | the description of the first `weather` element, `None` when `weather` is absent or the element lacks `description`; succeeds exactly when the entry is a dict and `weather` is absent or a non-empty list whose first element is a dict, and names the exception raised in every other case |
| Transform.Project | etl/transform.py:7-12 | the record succeeds exactly for well-shaped entries and then holds the four looked-up values, uncoerced; otherwise it raises the first exception in evaluation order |
| Transform.CleanAllIsCleaned | etl/transform.py:4-13 | the reference definition yields one record per entry in order, each the projection of its own entry, or the exception of the first entry that raises |
| Transform.CleanedIsUnique | etl/transform.py:4-13 | at most one result meets that description, so it determines the call's result |
| Transform.CleanWeatherData | etl/transform.py:4-13 | the loop appending to `records` returns one record per entry in input order, or the first entry's exception, and agrees with the reference definition |
| TransformProperties.CleanAllConcat | etl/transform.py:6-13 | transforming `a + b` is transforming `a` and `b` and joining the results, with `a`'s exception taking precedence |
| TransformProperties.CleanAllOkIff | etl/transform.py:6-13 | the call succeeds if and only if every entry is well shaped, and then has exactly one record per entry, in order |
| TransformProperties.CleanAllErrIsFirstFailure | etl/transform.py:6-13 | a failing call raises the exception of the first entry that is not well shaped |
| TransformProperties.ProjectIgnoresOtherKeys | etl/transform.py:7-12 | top-level keys other than `name`, `main` and `weather` do not change the record or the exception |
| TransformProperties.ProjectIgnoresOtherMainKeys | etl/transform.py:9-10 | keys of `main` other than `temp` and `humidity` do not change the record |
| TransformProperties.ProjectIgnoresLaterWeather | etl/transform.py:11 | `weather` elements after the first do not change the record |
| TransformProperties.ProjectIgnoresOtherWeatherKeys | etl/transform.py:11 | keys of `weather[0]` other than `description` do not change the record |
| TransformProperties.TemperaturePassesThrough | etl/transform.py:9 | any value under `main.temp`, a string included, becomes the temperature unchanged |
| TransformProperties.WeatherDefaultVersusEmpty | etl/transform.py:11 | a missing `weather` gives a `None` description; an empty `weather` list raises IndexError |
| TransformProperties.NullMainRaises | etl/transform.py:9 | `main: null` raises AttributeError, while a missing `main` gives `None` fields |
| TransformProperties.LondonScenario | etl/transform.py:7-13 | a complete London response becomes the record London, 15.2, 70, cloudy |

## Left out

- The DataFrame construction (`pd.DataFrame(records)`, etl/transform.py:15) is left out. Column and dtype inference is pandas behaviour. The model ends at the list of records.
- Numbers are opaque values (`Num` over `real`). Nothing is computed on them, so float and int semantics are not modelled.
- Fetching is left out (etl/extract.py). It covers the HTTP requests, the API key, the status-200 filter and the raw JSON file write, which are all network and file I/O.
- Loading is left out (etl/load.py). The database insert is an external connection, and its swallowed exceptions concern I/O failures. The CSV write is pandas serialisation plus directory creation.
- The driver is left out (etl_pipeline.py). It only sets up logging and passes a fixed city list through the three stages.
- Only the exception's class is modelled, not its message or traceback.
