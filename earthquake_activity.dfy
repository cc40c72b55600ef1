/**
 * The list state of `EarthquakeActivity`: the adapter's items, the empty-state
 * text, the loading indicator and the calls made to the loader manager, and the
 * request URL built for the loader.
 */
module Activity {
  import opened Wrappers
  import opened Quake
  import Uri

  const USGS_REQUEST_URL: string := "https://earthquake.usgs.gov/fdsnws/event/1/query"

  /** The preference keys and their defaults, from the app's string resources. */
  datatype Resources = Resources(minMagnitudeKey: string, minMagnitudeDefault: string,
                                 orderByKey: string, orderByDefault: string)

  /** `getActiveNetworkInfo()`: `None` when there is no active network. */
  datatype NetworkInfo = NetworkInfo(connected: bool)

  datatype EmptyText = Blank | NoInternetConnection | NoEarthquakes

  /** A call made to the `LoaderManager` for the earthquake loader. */
  datatype LoaderCall = InitLoader | RestartLoader

  datatype Screen = Screen(items: seq<Earthquake>, emptyText: EmptyText, loadingShown: bool, loaderCalls: seq<LoaderCall>)

  /** A callback the platform delivers to the activity after `onCreate`. */
  datatype Event =
    | PreferenceChanged(key: string)
    | LoadFinished(result: Option<seq<Earthquake>>)
    | LoaderReset

  // ---------------------------------------------------------------------------
  // onCreateLoader
  // ---------------------------------------------------------------------------

  /** `SharedPreferences.getString(key, default)`. */
  function PreferenceOrDefault(prefs: map<string, string>, key: string, default: string): string
  {
    if key in prefs then prefs[key] else default
  }

  function RequestParameters(minMagnitude: string, orderBy: string): seq<(string, string)>
  {
    [("format", "geojson"), ("limit", "10"), ("minmag", minMagnitude), ("orderby", orderBy)]
  }

  /** The URL the loader is created with. */
  function RequestUrl(encode: Uri.Encoder, minMagnitude: string, orderBy: string): string
  {
    USGS_REQUEST_URL + "?" + Uri.EncodedQuery(encode, RequestParameters(minMagnitude, orderBy))
  }

  /**
   * The query of the request URL reads back as exactly four parameters, in the
   * order `format`, `limit`, `minmag`, `orderby`, each with its encoded value.
   */
  lemma RequestQueryParameters(encode: Uri.Encoder, minMagnitude: string, orderBy: string)
    requires Uri.Escapes(encode)
    ensures var url := RequestUrl(encode, minMagnitude, orderBy);
      && url[..|USGS_REQUEST_URL| + 1] == USGS_REQUEST_URL + "?"
      && Uri.ParseQuery(url[|USGS_REQUEST_URL| + 1..])
         == [(encode("format"), encode("geojson")), (encode("limit"), encode("10")),
             (encode("minmag"), encode(minMagnitude)), (encode("orderby"), encode(orderBy))]
  {
    var ps := RequestParameters(minMagnitude, orderBy);
    Uri.QueryRoundTrip(encode, ps);
    assert RequestUrl(encode, minMagnitude, orderBy)[|USGS_REQUEST_URL| + 1..] == Uri.EncodedQuery(encode, ps);
    var p1, p2, p3 := ps[..1], ps[..2], ps[..3];
    assert p3[..2] == p2 && p2[..1] == p1 && p1[..0] == [];
    assert Uri.EncodedPairs(encode, p1) == [(encode("format"), encode("geojson"))];
    assert Uri.EncodedPairs(encode, p2) == Uri.EncodedPairs(encode, p1) + [(encode("limit"), encode("10"))];
    assert Uri.EncodedPairs(encode, p3) == Uri.EncodedPairs(encode, p2) + [(encode("minmag"), encode(minMagnitude))];
    assert Uri.EncodedPairs(encode, ps) == Uri.EncodedPairs(encode, p3) + [(encode("orderby"), encode(orderBy))];
  }

  /**
   * With an encoder that leaves the fixed names and values unchanged, the URL is
   * the base followed by `?format=geojson&limit=10&minmag=…&orderby=…`.
   */
  lemma RequestUrlText(encode: Uri.Encoder, minMagnitude: string, orderBy: string)
    requires encode("format") == "format" && encode("geojson") == "geojson"
    requires encode("limit") == "limit" && encode("10") == "10"
    requires encode("minmag") == "minmag" && encode("orderby") == "orderby"
    ensures RequestUrl(encode, minMagnitude, orderBy)
         == USGS_REQUEST_URL + "?" + ("format=geojson&limit=10&minmag=" + encode(minMagnitude) + "&orderby=" + encode(orderBy))
  {
    var ps := RequestParameters(minMagnitude, orderBy);
    var p1, p2, p3 := ps[..1], ps[..2], ps[..3];
    assert p3[..2] == p2 && p2[..1] == p1;
    var q3 := Uri.EncodedQuery(encode, p3);
    assert q3 == "format=geojson&limit=10&minmag=" + encode(minMagnitude) by {
      var q2 := Uri.EncodedQuery(encode, p2);
      assert q2 == "format=geojson&limit=10" by {
        assert Uri.EncodedQuery(encode, p1) == "format=geojson";
      }
    }
    assert Uri.EncodedQuery(encode, ps) == q3 + "&orderby=" + encode(orderBy);
  }

  // ---------------------------------------------------------------------------
  // List transitions
  // ---------------------------------------------------------------------------

  predicate Connected(network: Option<NetworkInfo>) { network.Some? && network.value.connected }

  predicate RelevantKey(res: Resources, key: string)
  {
    key == res.minMagnitudeKey || key == res.orderByKey
  }

  /** The screen after `onCreate`: an empty list, and a load only when connected. */
  function Created(network: Option<NetworkInfo>): Screen
  {
    if Connected(network) then Screen([], Blank, true, [InitLoader])
    else Screen([], NoInternetConnection, false, [])
  }

  /** The screen after one callback. */
  function Apply(res: Resources, s: Screen, e: Event): Screen
  {
    match e
    case PreferenceChanged(key) =>
      if RelevantKey(res, key)
      then s.(items := [], loadingShown := true, loaderCalls := s.loaderCalls + [RestartLoader])
      else s
    case LoadFinished(result) =>
      s.(loadingShown := false, emptyText := NoEarthquakes,
         items := if result.Some? && result.value != [] then s.items + result.value else s.items)
    case LoaderReset =>
      s.(items := [])
  }

  /** The screen after the callbacks `es`, in order. */
  function Run(res: Resources, s: Screen, es: seq<Event>): Screen
  {
    if es == [] then s else Apply(res, Run(res, s, es[..|es| - 1]), es[|es| - 1])
  }

  predicate Clears(res: Resources, e: Event)
  {
    e.LoaderReset? || (e.PreferenceChanged? && RelevantKey(res, e.key))
  }

  /** The records a callback delivers. */
  function Delivered(e: Event): seq<Earthquake>
  {
    if e.LoadFinished? && e.result.Some? then e.result.value else []
  }

  /** The records delivered by `es`, in order. */
  function Loaded(es: seq<Event>): seq<Earthquake>
  {
    if es == [] then [] else Loaded(es[..|es| - 1]) + Delivered(es[|es| - 1])
  }

  /** The callbacks after the last one that clears the list. */
  function AfterLastClear(res: Resources, es: seq<Event>): seq<Event>
  {
    if es == [] then []
    else if Clears(res, es[|es| - 1]) then []
    else AfterLastClear(res, es[..|es| - 1]) + [es[|es| - 1]]
  }

  predicate NoClear(res: Resources, es: seq<Event>)
  {
    forall i :: 0 <= i < |es| ==> !Clears(res, es[i])
  }

  function Restarts(n: nat): seq<LoaderCall>
  {
    if n == 0 then [] else Restarts(n - 1) + [RestartLoader]
  }

  function CountRelevant(res: Resources, es: seq<Event>): nat
  {
    if es == [] then 0
    else CountRelevant(res, es[..|es| - 1])
         + (if es[|es| - 1].PreferenceChanged? && RelevantKey(res, es[|es| - 1].key) then 1 else 0)
  }

  /** Loading starts at creation only when the active network is connected; otherwise the message is shown. */
  lemma LoadOnlyWhenConnected(network: Option<NetworkInfo>)
    ensures Created(network).loaderCalls == (if Connected(network) then [InitLoader] else [])
    ensures !Connected(network) ==> Created(network).emptyText == NoInternetConnection && !Created(network).loadingShown
    ensures Created(network).items == []
  {
  }

  /** A finished load appends its non-empty result, never replaces or clears the list. */
  lemma LoadFinishedAppends(res: Resources, s: Screen, result: Option<seq<Earthquake>>)
    ensures var t := Apply(res, s, LoadFinished(result));
      && s.items <= t.items
      && t.items == s.items + Delivered(LoadFinished(result))
      && t.loaderCalls == s.loaderCalls
  {
  }

  /** A preference change for any other key changes nothing and restarts nothing. */
  lemma IrrelevantKeyIgnored(res: Resources, s: Screen, key: string)
    requires !RelevantKey(res, key)
    ensures Apply(res, s, PreferenceChanged(key)) == s
  {
  }

  /**
   * After any run of callbacks the list holds exactly the records delivered since
   * the last clearing callback, after the initial items if nothing cleared them.
   */
  lemma {:induction false} ShownItems(res: Resources, s: Screen, es: seq<Event>)
    ensures Run(res, s, es).items
         == (if NoClear(res, es) then s.items else []) + Loaded(AfterLastClear(res, es))
  {
    if es != [] {
      var init, last := es[..|es| - 1], es[|es| - 1];
      ShownItems(res, s, init);
      NoClearSnoc(res, es);
      ApplyItems(res, Run(res, s, init), last);
      if !Clears(res, last) {
        LoadedSnoc(AfterLastClear(res, init), last);
      }
    }
  }

  /** One callback either clears the list or appends what it delivers. */
  lemma ApplyItems(res: Resources, t: Screen, e: Event)
    ensures Apply(res, t, e).items == if Clears(res, e) then [] else t.items + Delivered(e)
  {
  }

  lemma LoadedSnoc(es: seq<Event>, e: Event)
    ensures Loaded(es + [e]) == Loaded(es) + Delivered(e)
  {
    assert (es + [e])[..|es|] == es;
  }

  lemma NoClearSnoc(res: Resources, es: seq<Event>)
    requires es != []
    ensures NoClear(res, es) <==> NoClear(res, es[..|es| - 1]) && !Clears(res, es[|es| - 1])
  {
    var init := es[..|es| - 1];
    assert forall i :: 0 <= i < |init| ==> init[i] == es[i];
  }

  /** The loader is restarted once per relevant preference change and at no other time. */
  lemma {:induction false} RestartCount(res: Resources, s: Screen, es: seq<Event>)
    ensures Run(res, s, es).loaderCalls == s.loaderCalls + Restarts(CountRelevant(res, es))
  {
    if es != [] {
      RestartCount(res, s, es[..|es| - 1]);
    }
  }

  // ---------------------------------------------------------------------------
  // The activity
  // ---------------------------------------------------------------------------

  class EarthquakeActivity {
    const res: Resources
    var items: seq<Earthquake>
    var emptyText: EmptyText
    var loadingShown: bool
    var loaderCalls: seq<LoaderCall>

    function Snapshot(): Screen reads this
    {
      Screen(items, emptyText, loadingShown, loaderCalls)
    }

    /** `onCreate`: an empty adapter, then `initLoader` only if the network is connected. */
    constructor (res: Resources, network: Option<NetworkInfo>)
      ensures this.res == res
      ensures Snapshot() == Created(network)
    {
      this.res := res;
      items := [];
      emptyText := Blank;
      loadingShown := true;
      loaderCalls := [];
      if network.Some? && network.value.connected {
        loaderCalls := loaderCalls + [InitLoader];
      } else {
        loadingShown := false;
        emptyText := NoInternetConnection;
      }
    }

    /** `onSharedPreferenceChanged`: clear and restart for the two query keys only. */
    method OnSharedPreferenceChanged(key: string)
      modifies this
      ensures RelevantKey(res, key) ==> items == [] && loadingShown && loaderCalls == old(loaderCalls) + [RestartLoader]
      ensures RelevantKey(res, key) ==> emptyText == old(emptyText)
      ensures !RelevantKey(res, key) ==> Snapshot() == old(Snapshot())
      ensures Snapshot() == Apply(res, old(Snapshot()), PreferenceChanged(key))
    {
      if key == res.minMagnitudeKey || key == res.orderByKey {
        items := [];
        loadingShown := true;
        loaderCalls := loaderCalls + [RestartLoader];
      }
    }

    /** `onCreateLoader`: the stored preferences (or defaults) appended as query parameters. */
    method OnCreateLoader(prefs: map<string, string>, encode: Uri.Encoder) returns (url: string)
      ensures url == RequestUrl(encode,
                                PreferenceOrDefault(prefs, res.minMagnitudeKey, res.minMagnitudeDefault),
                                PreferenceOrDefault(prefs, res.orderByKey, res.orderByDefault))
    {
      var minMagnitude := PreferenceOrDefault(prefs, res.minMagnitudeKey, res.minMagnitudeDefault);
      var orderBy := PreferenceOrDefault(prefs, res.orderByKey, res.orderByDefault);
      var uriBuilder := new Uri.Builder(USGS_REQUEST_URL, encode);
      uriBuilder.AppendQueryParameter("format", "geojson");
      uriBuilder.AppendQueryParameter("limit", "10");
      uriBuilder.AppendQueryParameter("minmag", minMagnitude);
      uriBuilder.AppendQueryParameter("orderby", orderBy);
      assert uriBuilder.params == RequestParameters(minMagnitude, orderBy);
      url := uriBuilder.ToString();
    }

    /** `onLoadFinished`: hide the indicator, set the empty text, append a non-empty result. */
    method OnLoadFinished(earthquakes: Option<seq<Earthquake>>)
      modifies this
      ensures items == if earthquakes.Some? && earthquakes.value != [] then old(items) + earthquakes.value else old(items)
      ensures !loadingShown && emptyText == NoEarthquakes && loaderCalls == old(loaderCalls)
      ensures Snapshot() == Apply(res, old(Snapshot()), LoadFinished(earthquakes))
    {
      loadingShown := false;
      emptyText := NoEarthquakes;
      if earthquakes.Some? && earthquakes.value != [] {
        items := items + earthquakes.value;
      }
    }

    /** `onLoaderReset`: clear the adapter. */
    method OnLoaderReset()
      modifies this
      ensures items == [] && emptyText == old(emptyText) && loadingShown == old(loadingShown)
      ensures loaderCalls == old(loaderCalls)
      ensures Snapshot() == Apply(res, old(Snapshot()), LoaderReset)
    {
      items := [];
    }
  }
}
