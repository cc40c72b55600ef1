/**
 * The fetch, read and parse pipeline of `QueryUtils`: the request URL becomes a
 * `URL`, one GET is made, the body is read line by line, and the `features`
 * array of the JSON body is turned into `Earthquake` records.
 */
module QueryUtils {
  import opened Wrappers
  import opened Quake
  import opened Json

  // ---------------------------------------------------------------------------
  // extractFeatureFromJson
  // ---------------------------------------------------------------------------

  /**
   * The record one element of `features` yields, or `None` when the element,
   * its `properties` object or one of `mag`, `place`, `time`, `url` cannot be read.
   */
  function ToRecord(element: JsonValue): Option<Earthquake>
  {
    if !element.JObject? then None
    else
      match GetJSONObject(element.members, "properties")
      case None => None
      case Some(p) =>
        match (GetDouble(p, "mag"), GetString(p, "place"), GetLong(p, "time"), GetString(p, "url"))
        case (Some(m), Some(l), Some(t), Some(u)) => Some(Earthquake(m, l, t, u))
        case _ => None
  }

  /**
   * `records` are the records of the leading well-formed elements of `features`,
   * one per element and in order, and they stop exactly at the first element that
   * is not well-formed (or at the end of the array).
   */
  ghost predicate KeptPrefix(features: seq<JsonValue>, records: seq<Earthquake>)
  {
    && |records| <= |features|
    && (forall i :: 0 <= i < |records| ==> ToRecord(features[i]) == Some(records[i]))
    && (|records| < |features| ==> ToRecord(features[|records|]).None?)
  }

  /** The records the loop over `features` accumulates before it leaves. */
  function ExtractFeatures(features: seq<JsonValue>): (records: seq<Earthquake>)
    ensures KeptPrefix(features, records)
  {
    if features == [] then []
    else
      match ToRecord(features[0])
      case None => []
      case Some(q) => [q] + ExtractFeatures(features[1..])
  }

  /** The `features` array of a body, or `None` when the body is not an object or has none. */
  function FeaturesOf(parse: Parser, text: string): Option<seq<JsonValue>>
  {
    match ParseObject(parse, text)
    case None => None
    case Some(base) => GetJSONArray(base, "features")
  }

  /**
   * What `extractFeatureFromJson` returns for the body `json` (`None` is Java
   * `null`): `null` for a null or empty body, an empty list when the body is not
   * an object with a `features` array, and otherwise the kept prefix.
   */
  function Extract(parse: Parser, json: Option<string>): (r: Option<seq<Earthquake>>)
    ensures r.None? <==> json.None? || json.value == ""
    ensures r.Some? && FeaturesOf(parse, json.value).None? ==> r.value == []
    ensures r.Some? && FeaturesOf(parse, json.value).Some? ==>
              KeptPrefix(FeaturesOf(parse, json.value).value, r.value)
  {
    if json.None? || json.value == "" then None
    else
      match FeaturesOf(parse, json.value)
      case None => Some([])
      case Some(features) => Some(ExtractFeatures(features))
  }

  /** The kept prefix is unique: no other list of records satisfies `KeptPrefix`. */
  lemma KeptPrefixUnique(features: seq<JsonValue>, a: seq<Earthquake>, b: seq<Earthquake>)
    requires KeptPrefix(features, a) && KeptPrefix(features, b)
    ensures a == b
  {
  }

  /** When every element is well-formed there is exactly one record per element, in order. */
  lemma AllWellFormed(features: seq<JsonValue>)
    requires forall i :: 0 <= i < |features| ==> ToRecord(features[i]).Some?
    ensures |ExtractFeatures(features)| == |features|
    ensures forall i :: 0 <= i < |features| ==> ExtractFeatures(features)[i] == ToRecord(features[i]).value
  {
  }

  /**
   * When element `k` is the first malformed one, the result holds exactly the
   * records of elements `0..k-1`, and whatever follows element `k` is ignored.
   */
  lemma FirstFailureTruncates(features: seq<JsonValue>, k: nat, rest: seq<JsonValue>)
    requires k < |features|
    requires forall i :: 0 <= i < k ==> ToRecord(features[i]).Some?
    requires ToRecord(features[k]).None?
    ensures |ExtractFeatures(features)| == k
    ensures forall i :: 0 <= i < k ==> ExtractFeatures(features)[i] == ToRecord(features[i]).value
    ensures ExtractFeatures(features[..k + 1] + rest) == ExtractFeatures(features)
  {
    var r := ExtractFeatures(features);
    var other := features[..k + 1] + rest;
    assert forall i :: 0 <= i <= k ==> other[i] == features[i];
    KeptPrefixUnique(other, ExtractFeatures(other), r);
  }

  /**
   * A record is built from the element's `properties` object: its magnitude,
   * location, time and url are the values of `mag`, `place`, `time` and `url`.
   */
  lemma RecordFields(element: JsonValue, q: Earthquake)
    requires ToRecord(element) == Some(q)
    ensures element.JObject? && "properties" in element.members
    ensures element.members["properties"].JObject?
    ensures var p := element.members["properties"].members;
      && "mag" in p && p["mag"] == JNumber(q.magnitude)
      && "place" in p && p["place"] == JString(q.location)
      && "time" in p && p["time"] == JNumber(q.timeInMilliseconds as real)
      && "url" in p && p["url"] == JString(q.url)
  {
  }

  /**
   * `extractFeatureFromJson`: the list is created before the `try` and returned
   * after it, so any `JSONException` leaves the records added so far.
   */
  method ExtractFeatureFromJson(parse: Parser, earthquakeJson: Option<string>)
    returns (earthquakes: Option<seq<Earthquake>>)
    ensures earthquakes == Extract(parse, earthquakeJson)
  {
    if earthquakeJson.None? || earthquakeJson.value == "" {
      return None;
    }
    var list: seq<Earthquake> := [];
    var features := FeaturesOf(parse, earthquakeJson.value);
    if features.None? {
      return Some(list);
    }
    var featureArray := features.value;
    var i := 0;
    while i < |featureArray|
      invariant 0 <= i <= |featureArray|
      invariant |list| == i
      invariant forall j :: 0 <= j < i ==> ToRecord(featureArray[j]) == Some(list[j])
    {
      var current := ElementObject(featureArray, i);
      if current.None? { break; }
      var properties := GetJSONObject(current.value, "properties");
      if properties.None? { break; }
      var magnitude := GetDouble(properties.value, "mag");
      if magnitude.None? { break; }
      var location := GetString(properties.value, "place");
      if location.None? { break; }
      var time := GetLong(properties.value, "time");
      if time.None? { break; }
      var url := GetString(properties.value, "url");
      if url.None? { break; }
      var earthquake := Earthquake(magnitude.value, location.value, time.value, url.value);
      list := list + [earthquake];
      i := i + 1;
    }
    KeptPrefixUnique(featureArray, list, ExtractFeatures(featureArray));
    return Some(list);
  }

  // ---------------------------------------------------------------------------
  // readFromStream
  // ---------------------------------------------------------------------------

  predicate IsTerminator(c: char) { c == '\n' || c == '\r' }

  predicate NoTerminators(s: string) { forall i :: 0 <= i < |s| ==> !IsTerminator(s[i]) }

  /** The text with every line feed and carriage return removed. */
  function StripTerminators(s: string): string
  {
    if s == [] then []
    else (if IsTerminator(s[0]) then [] else [s[0]]) + StripTerminators(s[1..])
  }

  /** The body built contains no line terminator and is never longer than the text read. */
  lemma {:induction false} StripRemovesTerminators(s: string)
    ensures NoTerminators(StripTerminators(s))
    ensures |StripTerminators(s)| <= |s|
  {
    if s != [] {
      StripRemovesTerminators(s[1..]);
    }
  }

  lemma {:induction false} StripAppend(a: string, b: string)
    ensures StripTerminators(a + b) == StripTerminators(a) + StripTerminators(b)
  {
    if a == [] {
      assert a + b == b;
    } else {
      assert (a + b)[1..] == a[1..] + b;
      StripAppend(a[1..], b);
    }
  }

  lemma {:induction false} StripKeeps(s: string)
    requires NoTerminators(s)
    ensures StripTerminators(s) == s
  {
    if s != [] {
      StripKeeps(s[1..]);
    }
  }

  /** The terminator `readLine` consumes at index `k`: `\n`, `\r`, `\r\n`, or nothing at the end. */
  function TerminatorAt(data: string, k: nat): string
    requires k <= |data|
  {
    if k == |data| then ""
    else if data[k] == '\n' then "\n"
    else if data[k] == '\r' then (if k + 1 < |data| && data[k + 1] == '\n' then "\r\n" else "\r")
    else ""
  }

  /** The data of an input stream, and whether reading it fails once the data is used up. */
  datatype Stream = Stream(text: string, broken: bool)

  datatype ReadResult = Line(text: string) | EndOfStream | ReadFailure

  /** A `BufferedReader` over a stream: a cursor into the stream's data. */
  class LineReader {
    const data: string
    const broken: bool
    var pos: nat

    ghost predicate Valid() reads this { pos <= |data| }

    constructor (s: Stream)
      ensures Valid() && data == s.text && broken == s.broken && pos == 0
    {
      data := s.text;
      broken := s.broken;
      pos := 0;
    }

    /**
     * `readLine`: the characters up to the next line terminator, which is consumed
     * and not returned; at the end of the data, `null` (or the stream's failure).
     */
    method ReadLine() returns (r: ReadResult)
      requires Valid()
      modifies this
      ensures Valid()
      ensures old(pos) == |data| ==> pos == old(pos) && r == (if broken then ReadFailure else EndOfStream)
      ensures old(pos) < |data| ==>
                && r.Line? && old(pos) < pos && NoTerminators(r.text)
                && old(pos) + |r.text| <= |data|
                && (old(pos) + |r.text| == |data| || IsTerminator(data[old(pos) + |r.text|]))
                && data[old(pos)..pos] == r.text + TerminatorAt(data, old(pos) + |r.text|)
                && StripTerminators(data[old(pos)..pos]) == r.text
    {
      if pos == |data| {
        return if broken then ReadFailure else EndOfStream;
      }
      var start := pos;
      var i := pos;
      while i < |data| && !IsTerminator(data[i])
        invariant start <= i <= |data|
        invariant NoTerminators(data[start..i])
      {
        assert data[start..i + 1] == data[start..i] + [data[i]];
        i := i + 1;
      }
      var line := data[start..i];
      if i < |data| && data[i] == '\r' && i + 1 < |data| && data[i + 1] == '\n' {
        pos := i + 2;
      } else if i < |data| {
        pos := i + 1;
      } else {
        pos := i;
      }
      r := Line(line);
      LineSegment(data, start, i, pos);
    }
  }

  /** The text `readLine` consumes is the line and its terminator, and stripping it leaves the line. */
  lemma LineSegment(data: string, start: nat, i: nat, pos: nat)
    requires start <= i <= |data| && NoTerminators(data[start..i])
    requires i == |data| || IsTerminator(data[i])
    requires pos == i + |TerminatorAt(data, i)|
    ensures pos <= |data|
    ensures data[start..pos] == data[start..i] + TerminatorAt(data, i)
    ensures StripTerminators(data[start..pos]) == data[start..i]
  {
    var term := TerminatorAt(data, i);
    assert data[i..pos] == term;
    assert data[start..pos] == data[start..i] + data[i..pos];
    StripAppend(data[start..i], term);
    StripKeeps(data[start..i]);
    StripOnlyTerminators(term);
  }

  lemma {:induction false} StripOnlyTerminators(t: string)
    requires forall i :: 0 <= i < |t| ==> IsTerminator(t[i])
    ensures StripTerminators(t) == []
  {
    if t != [] {
      StripOnlyTerminators(t[1..]);
    }
  }

  /**
   * `readFromStream`: every line is appended to the output with its terminator
   * dropped, so the body is the stream's text with all terminators removed. A null
   * stream gives `""`; a failing stream throws.
   */
  method ReadFromStream(inputStream: Option<Stream>) returns (r: Outcome<string>)
    ensures inputStream.None? ==> r == Done("")
    ensures inputStream.Some? && inputStream.value.broken ==> r == Thrown
    ensures inputStream.Some? && !inputStream.value.broken ==>
              r == Done(StripTerminators(inputStream.value.text))
  {
    var output := "";
    if inputStream.Some? {
      ghost var text := inputStream.value.text;
      var reader := new LineReader(inputStream.value);
      var line := reader.ReadLine();
      if line.Line? {
        StripSplit(text, 0, reader.pos);
      }
      while line.Line?
        invariant reader.Valid() && reader.data == text && reader.broken == inputStream.value.broken
        invariant line.Line? ==> output + line.text + StripTerminators(text[reader.pos..]) == StripTerminators(text)
        invariant !line.Line? ==> reader.pos == |text| && output == StripTerminators(text)
        invariant !line.Line? ==> line == (if reader.broken then ReadFailure else EndOfStream)
        decreases |text| - reader.pos + (if line.Line? then 1 else 0)
      {
        ghost var p := reader.pos;
        output := output + line.text;
        assert output + StripTerminators(text[p..]) == StripTerminators(text);
        line := reader.ReadLine();
        if line.Line? {
          ReadStep(text, p, reader.pos, output, line.text);
        } else {
          assert text[p..] == [];
        }
      }
      if line.ReadFailure? {
        return Thrown;
      }
    }
    return Done(output);
  }

  /** The loop invariant of `ReadFromStream` survives reading the line `text[p..q]`. */
  lemma ReadStep(text: string, p: nat, q: nat, output: string, line: string)
    requires p <= q <= |text|
    requires output + StripTerminators(text[p..]) == StripTerminators(text)
    requires StripTerminators(text[p..q]) == line
    ensures output + line + StripTerminators(text[q..]) == StripTerminators(text)
  {
    StripSplit(text, p, q);
    Regroup(output, StripTerminators(text[p..]), line, StripTerminators(text[q..]), StripTerminators(text));
  }

  lemma Regroup(output: string, read: string, line: string, rest: string, total: string)
    requires output + read == total && read == line + rest
    ensures output + line + rest == total
  {
  }

  lemma StripSplit(s: string, p: nat, q: nat)
    requires p <= q <= |s|
    ensures StripTerminators(s[p..]) == StripTerminators(s[p..q]) + StripTerminators(s[q..])
  {
    assert s[p..] == s[p..q] + s[q..];
    StripAppend(s[p..q], s[q..]);
  }

  /** The concatenation of the lines, in order. */
  function Concat(lines: seq<string>): string
  {
    if lines == [] then "" else lines[0] + Concat(lines[1..])
  }

  /** The lines written out, each followed by a line feed. */
  function JoinLines(lines: seq<string>): string
  {
    if lines == [] then "" else lines[0] + "\n" + JoinLines(lines[1..])
  }

  /** Reading text written as lines yields the lines concatenated without terminators. */
  lemma {:induction false} ReadJoinedLines(lines: seq<string>)
    requires forall i :: 0 <= i < |lines| ==> NoTerminators(lines[i])
    ensures StripTerminators(JoinLines(lines)) == Concat(lines)
  {
    if lines != [] {
      StripOneLine(lines[0], JoinLines(lines[1..]));
      ReadJoinedLines(lines[1..]);
    }
  }

  lemma {:induction false} StripOneLine(line: string, rest: string)
    requires NoTerminators(line)
    ensures StripTerminators(line + "\n" + rest) == line + StripTerminators(rest)
  {
    var s := line + "\n" + rest;
    if line == [] {
      assert s[1..] == rest;
    } else {
      assert s[1..] == line[1..] + "\n" + rest;
      StripOneLine(line[1..], rest);
    }
  }

  // ---------------------------------------------------------------------------
  // createUrl, makeHttpRequest, fetchEarthquakeData
  // ---------------------------------------------------------------------------

  /** A `java.net.URL`: a string the URL parser accepted. */
  datatype Url = Url(spec: string)

  /** `createUrl`: `null` when the URL parser rejects the string (`MalformedURLException`). */
  function CreateUrl(wellFormed: string -> bool, stringUrl: string): (url: Option<Url>)
    ensures url.Some? <==> wellFormed(stringUrl)
    ensures url.Some? ==> url.value.spec == stringUrl
  {
    if wellFormed(stringUrl) then Some(Url(stringUrl)) else None
  }

  /**
   * What the server does with one GET: `openConnection` throws; `connect`,
   * `getResponseCode` or `getInputStream` throws; or a status code arrives with a
   * body stream whose `close` may throw.
   */
  datatype Exchange =
    | OpenFailure
    | ConnectFailure
    | Response(code: int, body: Stream, closeFails: bool)

  /** The remote server, as a function from URL to what the single GET yields. */
  type Server = Url -> Exchange

  /** Which resources one call of `makeHttpRequest` acquired and released. */
  datatype Released = Released(connectionOpened: bool, disconnected: bool, streamOpened: bool, streamClosed: bool)

  /**
   * The outcome of `makeHttpRequest`: `""` for a null URL, a failed connection, a
   * status other than 200 or a failed read; the body for status 200; and an
   * exception when closing the stream throws from the `finally` block.
   */
  function HttpResponse(server: Server, url: Option<Url>): Outcome<string>
  {
    if url.None? then Done("")
    else
      match server(url.value)
      case OpenFailure => Done("")
      case ConnectFailure => Done("")
      case Response(code, body, closeFails) =>
        if code != 200 then Done("")
        else if closeFails then Thrown
        else if body.broken then Done("")
        else Done(StripTerminators(body.text))
  }

  /**
   * `makeHttpRequest`, with the release of the connection and the stream in
   * `finally` recorded in the ghost `released`.
   */
  method MakeHttpRequest(server: Server, url: Option<Url>)
    returns (jsonResponse: Outcome<string>, ghost released: Released)
    ensures jsonResponse == HttpResponse(server, url)
    ensures url.None? ==> jsonResponse == Done("") && !released.connectionOpened && !released.streamOpened
    ensures url.Some? && server(url.value).Response? && server(url.value).code != 200 ==> jsonResponse == Done("")
    ensures url.Some? && (server(url.value).OpenFailure? || server(url.value).ConnectFailure?) ==> jsonResponse == Done("")
    ensures url.Some? && server(url.value).Response? && server(url.value).code == 200 ==>
              var e := server(url.value);
              jsonResponse == (if e.closeFails then Thrown else if e.body.broken then Done("") else Done(StripTerminators(e.body.text)))
    ensures released.connectionOpened <==> url.Some? && !server(url.value).OpenFailure?
    ensures released.connectionOpened ==> released.disconnected
    ensures released.streamOpened <==> url.Some? && server(url.value).Response? && server(url.value).code == 200
    ensures released.streamOpened ==> released.streamClosed
  {
    var response := "";
    released := Released(false, false, false, false);
    if url.None? {
      return Done(response), released;
    }
    var exchange := server(url.value);
    if exchange.OpenFailure? {
      // `openConnection` threw: `urlConnection` stays null and nothing is released
      return Done(response), released;
    }
    released := released.(connectionOpened := true);
    var streamOpened := false;
    if exchange.Response? && exchange.code == 200 {
      streamOpened := true;
      released := released.(streamOpened := true);
      var body := ReadFromStream(Some(exchange.body));
      if body.Done? {
        response := body.value;
      }
    }
    // finally: disconnect, then close the stream if one was opened
    released := released.(disconnected := true);
    if streamOpened {
      released := released.(streamClosed := true);
      if exchange.closeFails {
        return Thrown, released;
      }
    }
    return Done(response), released;
  }

  /** The body `fetchEarthquakeData` hands on: `null` when `makeHttpRequest` threw. */
  function JsonResponse(server: Server, url: Option<Url>): Option<string>
  {
    match HttpResponse(server, url)
    case Done(s) => Some(s)
    case Thrown => None
  }

  /**
   * `fetchEarthquakeData`: `extractFeatureFromJson(makeHttpRequest(createUrl(s)))`.
   * Every failure before a body arrives yields `null`, never an empty list.
   */
  method FetchEarthquakeData(wellFormed: string -> bool, server: Server, parse: Parser, requestUrl: string)
    returns (earthquakes: Option<seq<Earthquake>>)
    ensures earthquakes == Extract(parse, JsonResponse(server, CreateUrl(wellFormed, requestUrl)))
    ensures !wellFormed(requestUrl) ==> earthquakes.None?
    ensures wellFormed(requestUrl) && !server(Url(requestUrl)).Response? ==> earthquakes.None?
    ensures wellFormed(requestUrl) && server(Url(requestUrl)).Response? ==>
              var e := server(Url(requestUrl));
              (e.code != 200 || e.closeFails || e.body.broken ==> earthquakes.None?)
    ensures wellFormed(requestUrl) && server(Url(requestUrl)).Response? ==>
              var e := server(Url(requestUrl));
              (e.code == 200 && !e.closeFails && !e.body.broken ==>
                 earthquakes == Extract(parse, Some(StripTerminators(e.body.text))))
  {
    var url := CreateUrl(wellFormed, requestUrl);
    var jsonResponse: Option<string> := None;
    var response, released := MakeHttpRequest(server, url);
    if response.Done? {
      jsonResponse := Some(response.value);
    }
    earthquakes := ExtractFeatureFromJson(parse, jsonResponse);
  }
}
