# QuakeReport — a Dafny model of the fetch, parse and list-update core

QuakeReport is an Android app that lists recent earthquakes from the USGS
event feed. This project models the parts of it whose behaviour is a
deterministic function of their inputs:

- `QueryUtils` (`query_utils.dfy`): turning the request string into a URL,
  the single GET and its outcome decision, reading the body line by line, and
  extracting `Earthquake` records from the `features` array of the JSON body,
  including the early exit at the first malformed element.
- `Earthquake` (`earthquake.dfy`): the immutable four-field record.
- `EarthquakeActivity` (`earthquake_activity.dfy`, with the query builder in
  `uri.dfy`): the request URL built from the stored preferences, and the
  changes to the adapter's item list on load finish, loader reset, preference
  change and at creation (where the loader is started only when connected).

`json.dfy` holds the parsed JSON tree and strict field accessors that stand in
for `org.json`; `wrappers.dfy` holds `Option` (a Java `null`) and `Outcome`
(a call that may throw `IOException`).

Things outside the program are parameters: the JSON text parser
(`Parser = string -> Option<JsonValue>`), the `java.net.URL` well-formedness
test (`wellFormed: string -> bool`), the remote server (`Server = Url ->
Exchange`, where an `Exchange` is an `openConnection` failure, a connect
failure, or a status code with a body stream that may fail at its end and
whose `close` may throw), the query encoder of `Uri.Builder`
(`Encoder = string -> string`), the contents of `SharedPreferences` at the
time `onCreateLoader` runs (a `map<string, string>`), the active network info,
and the preference keys and defaults from the app's string resources
(`Resources`).

How the model reads the code:

- `readFromStream` is modelled on the raw text of the stream with the line
  splitting of `BufferedReader.readLine` (`\n`, `\r` or `\r\n` end a line and
  are not returned). Its result is proved to be the text with every line
  terminator removed, which is the in-order concatenation of the lines.
- `makeHttpRequest` returns `""` for a null URL, a failed connection, a status
  other than 200, or a failed read. When `close()` throws in the `finally`
  block the exception escapes `makeHttpRequest`; `fetchEarthquakeData` then
  passes `null` to the extraction, which returns `null`. The ghost
  `Released` out-parameter records that an opened connection is always
  disconnected and an opened stream is always closed.
- The list transitions are a pure `Apply` over a `Screen` value; each
  callback method of the `EarthquakeActivity` class states its new fields and
  that its `Snapshot()` equals `Apply` of the old one, and lemmas about `Run`
  (a sequence of callbacks) state what the list shows and when the loader is
  restarted.

In the code a non-200 status or an I/O failure is not a distinct error but an
empty body, which the extraction turns into `null`; a body that is not an
object with a `features` array gives an empty list, not an error; the first
malformed feature silently truncates the list, with the records before it
kept and everything after it ignored; and the code has no load-generation
counter or stale-result guard, so none is modelled.

## Model

| member | source | states |
|---|---|---|
| `Quake.GettersReturnConstructorArguments` | app/src/main/java/com/example/android/quakereport/Earthquake.java:36-69 | each of the four getters returns exactly the argument given to the constructor for its field |
| `Quake.GettersDetermineRecord` | app/src/main/java/com/example/android/quakereport/Earthquake.java:24-69 | two records whose getters agree are the same record: the four fields are the whole (immutable) state |
| `QueryUtils.ExtractFeatures` | app/src/main/java/com/example/android/quakereport/QueryUtils.java:166-183 | the records are those of the leading well-formed elements of `features`, one per element, in array order, ending exactly at the first malformed element; never more records than elements |
| `QueryUtils.Extract` | app/src/main/java/com/example/android/quakereport/QueryUtils.java:151-187 | `null` exactly for a null or empty body; an empty (non-null) list when the body is not an object or has no `features` array; otherwise the kept prefix of `features` |
| `QueryUtils.KeptPrefixUnique` | app/src/main/java/com/example/android/quakereport/QueryUtils.java:166-183 | the kept-prefix description determines the list of records uniquely |
| `QueryUtils.AllWellFormed` | app/src/main/java/com/example/android/quakereport/QueryUtils.java:166-179 | when every element is well-formed there is exactly one record per element, record `i` built from element `i` |
| `QueryUtils.FirstFailureTruncates` | app/src/main/java/com/example/android/quakereport/QueryUtils.java:166-183 | if element `k` is the first malformed one, the result is exactly the records of elements `0..k-1`, and any elements after `k` can be replaced without changing it |
| `QueryUtils.RecordFields` | app/src/main/java/com/example/android/quakereport/QueryUtils.java:168-177 | a record comes from an element whose `properties` object has `mag`, `place`, `time` and `url` equal to the record's magnitude, location, time and url |
| `QueryUtils.ExtractFeatureFromJson` | app/src/main/java/com/example/android/quakereport/QueryUtils.java:151-187 | the loop with its exception-driven exit returns what `Extract` describes |
| `QueryUtils.LineReader.ReadLine` | app/src/main/java/com/example/android/quakereport/QueryUtils.java:135-140 | `readLine` returns the characters up to the next `\n`, `\r` or `\r\n`, consumes that terminator, and gives `null` (or the stream's failure) at the end of the data |
| `QueryUtils.ReadFromStream` | app/src/main/java/com/example/android/quakereport/QueryUtils.java:129-146 | a null stream yields `""`; a failing stream throws; otherwise the result is the stream's text with every line terminator removed |
| `QueryUtils.ReadJoinedLines` | app/src/main/java/com/example/android/quakereport/QueryUtils.java:137-141 | reading text written as `\n`-terminated lines yields the lines concatenated in order, terminators dropped |
| `QueryUtils.StripRemovesTerminators` | app/src/main/java/com/example/android/quakereport/QueryUtils.java:137-145 | the body that is built contains no line terminator and is no longer than the stream's text |
| `QueryUtils.CreateUrl` | app/src/main/java/com/example/android/quakereport/QueryUtils.java:73-81 | a URL exactly when the string is well-formed, holding that string; `null` otherwise |
| `QueryUtils.MakeHttpRequest` | app/src/main/java/com/example/android/quakereport/QueryUtils.java:86-124 | null URL gives `""` and opens nothing; status 200 gives the read body (or `""` after a failed read, or an exception when `close` throws); any other status or a connection failure gives `""`; an opened connection is always disconnected and an opened stream always closed |
| `QueryUtils.FetchEarthquakeData` | app/src/main/java/com/example/android/quakereport/QueryUtils.java:51-68 | equals extraction of the HTTP result of `createUrl`; a malformed URL, a connection failure, a non-200 status, a failed read or a failed close all yield `null`, never an empty list |
| `Uri.Builder.AppendQueryParameter` | app/src/main/java/com/example/android/quakereport/EarthquakeActivity.java:162-165 | the parameter is appended after those already in the query, in call order |
| `Uri.QueryRoundTrip` | app/src/main/java/com/example/android/quakereport/EarthquakeActivity.java:159-167 | with an encoder that escapes `&` and `=`, the built query reads back as the appended pairs, encoded, in the order appended |
| `Activity.RequestQueryParameters` | app/src/main/java/com/example/android/quakereport/EarthquakeActivity.java:159-167 | the request URL is the base followed by `?` and a query of exactly four parameters, `format`, `limit`, `minmag`, `orderby`, in that order, with their encoded values |
| `Activity.RequestUrlText` | app/src/main/java/com/example/android/quakereport/EarthquakeActivity.java:159-167 | when the encoder leaves the fixed names unchanged, the URL is the base plus `?format=geojson&limit=10&minmag=E(min)&orderby=E(order)` |
| `Activity.EarthquakeActivity.OnCreateLoader` | app/src/main/java/com/example/android/quakereport/EarthquakeActivity.java:147-168 | `minmag` and `orderby` are the stored preference values or the defaults when unset, appended to the base URL in that fixed order |
| `Activity.LoadOnlyWhenConnected` | app/src/main/java/com/example/android/quakereport/EarthquakeActivity.java:107-121 | the loader is initialised only when network info is present and connected; otherwise no load is started, the indicator is hidden and the no-connection text is shown |
| `Activity.EarthquakeActivity.constructor` | app/src/main/java/com/example/android/quakereport/EarthquakeActivity.java:60-122 | `onCreate` starts with an empty adapter and ends in the state `Created` describes |
| `Activity.LoadFinishedAppends` | app/src/main/java/com/example/android/quakereport/EarthquakeActivity.java:180-183 | a finished load keeps the old items as a prefix and appends exactly the delivered records; it never clears the list or restarts the loader |
| `Activity.EarthquakeActivity.OnLoadFinished` | app/src/main/java/com/example/android/quakereport/EarthquakeActivity.java:171-184 | items become `old ++ earthquakes` when the result is non-null and non-empty and are otherwise unchanged; the indicator is hidden and the empty text set to "no earthquakes" |
| `Activity.EarthquakeActivity.OnLoaderReset` | app/src/main/java/com/example/android/quakereport/EarthquakeActivity.java:188-191 | the item list becomes empty and nothing else changes |
| `Activity.IrrelevantKeyIgnored` | app/src/main/java/com/example/android/quakereport/EarthquakeActivity.java:130-142 | a preference change for a key other than the two query keys changes nothing and restarts nothing |
| `Activity.EarthquakeActivity.OnSharedPreferenceChanged` | app/src/main/java/com/example/android/quakereport/EarthquakeActivity.java:128-143 | for the min-magnitude or order-by key the list is cleared, the indicator shown and the loader restarted; for any other key the state is unchanged |
| `Activity.ShownItems` | app/src/main/java/com/example/android/quakereport/EarthquakeActivity.java:128-191 | after any sequence of callbacks the list holds exactly the records delivered since the last reset or relevant preference change (after the initial items if there was none) |
| `Activity.RestartCount` | app/src/main/java/com/example/android/quakereport/EarthquakeActivity.java:130-142 | over any sequence of callbacks the loader is restarted once per relevant preference change and at no other time |

## Left out

- Network I/O: the 10 s read and 15 s connect timeouts and the `GET` request method are not modelled; the server is a function from URL to the outcome of one exchange.
- `openConnection`, `connect`, `getResponseCode` and `getInputStream` failures are modelled as two outcomes (before and after a connection object exists), not per call.
- A failing stream fails only once its data is used up; a failure in the middle of a line is not modelled separately. `LineReader.ReadLine` on a failing stream whose data does not end in a terminator returns the partial last line and fails on the next call, where `BufferedReader.readLine` would throw without returning it; `ReadFromStream` returns `Thrown` either way, so nothing downstream differs.
- Only URLs whose `openConnection` yields an `HttpURLConnection` are modelled: for a well-formed URL of another protocol (`file:`, `ftp:`) the cast in `makeHttpRequest` throws `ClassCastException`, which neither `catch (IOException)` handles, so `fetchEarthquakeData` throws; the model gives every well-formed URL an `Exchange` instead. The app only ever builds an `https` URL.
- UTF-8 decoding by `InputStreamReader`: the stream is modelled as already-decoded characters.
- `org.json` text parsing is the abstract `Parser`; its type coercions are left out: `getDouble` accepts only numbers (not numeric strings), `getString` only strings (not other values), and `getLong` only integral numbers within the 64-bit range (fractional numbers are not truncated).
- The `double` magnitude is a `real` that is copied through; no floating-point behaviour is modelled.
- `Uri.Builder` percent-encoding is the abstract `Encoder`; parsing the base URL and printing it back is assumed to give the same text.
- `EarthquakeLoader` (`AsyncTaskLoader` threading, `forceLoad`) is not part of this model; its only logic, returning `null` for a null URL, cannot arise because `onCreateLoader` always builds a URL.
- The `LoaderManager` is recorded only as the sequence of `initLoader` and `restartLoader` calls; when it calls `onCreateLoader`, `onLoadFinished` and `onLoaderReset`, and its caching, are platform behaviour.
- `SettingsActivity` (preference screen and summaries), menus, item-click navigation to the record's URL, logging, and the registration of the preference listener are not modelled.
- The visibility of the empty-state view is not modelled: `ListView.setEmptyView` toggles it whenever the adapter changes, which is platform behaviour.
- The values of the preference keys and defaults live in the app's string resources, which are not part of this model; they are the `Resources` parameter.
