/**
 * The part of the platform's `Uri.Builder` that builds the request URL: query
 * parameters are encoded as they are appended and joined with `&`.
 */
module Uri {
  import opened Wrappers

  /** The percent-encoder of the platform, left abstract. */
  type Encoder = string -> string

  /** One appended parameter, as `encode(key)=encode(value)`. */
  function EncodedParameter(encode: Encoder, p: (string, string)): string
  {
    encode(p.0) + "=" + encode(p.1)
  }

  /** The encoded query after appending `params` in order. */
  function EncodedQuery(encode: Encoder, params: seq<(string, string)>): string
  {
    if params == [] then ""
    else if |params| == 1 then EncodedParameter(encode, params[0])
    else EncodedQuery(encode, params[..|params| - 1]) + "&" + EncodedParameter(encode, params[|params| - 1])
  }

  /** A `Uri.Builder` made from a base URI without a query. */
  class Builder {
    const base: string
    const encode: Encoder
    var query: Option<string>
    ghost var params: seq<(string, string)>

    ghost predicate Valid() reads this
    {
      query == if params == [] then None else Some(EncodedQuery(encode, params))
    }

    constructor (base: string, encode: Encoder)
      ensures Valid() && this.base == base && this.encode == encode && params == []
    {
      this.base := base;
      this.encode := encode;
      query := None;
      params := [];
    }

    /** `appendQueryParameter`: encode both parts, then add them after a `&` unless the query is empty. */
    method AppendQueryParameter(key: string, value: string)
      requires Valid()
      modifies this
      ensures Valid() && params == old(params) + [(key, value)]
    {
      var encodedParameter := encode(key) + "=" + encode(value);
      if query.None? || query.value == "" {
        query := Some(encodedParameter);
      } else {
        query := Some(query.value + "&" + encodedParameter);
      }
      params := params + [(key, value)];
      assert params[..|params| - 1] == old(params);
    }

    /** `toString` of the built URI: the base, then `?` and the query if there is one. */
    function ToString(): string reads this
    {
      if query.None? then base else base + "?" + query.value
    }
  }

  predicate Excludes(s: string, c: char) { forall i :: 0 <= i < |s| ==> s[i] != c }

  /** The pieces of `s` between occurrences of `sep`. */
  function Split(s: string, sep: char): (parts: seq<string>)
    ensures |parts| >= 1
  {
    if s == [] then [""]
    else if s[|s| - 1] == sep then Split(s[..|s| - 1], sep) + [""]
    else
      var parts := Split(s[..|s| - 1], sep);
      parts[..|parts| - 1] + [parts[|parts| - 1] + [s[|s| - 1]]]
  }

  /** `s` cut at its first `sep` (the whole of `s` and nothing when there is none). */
  function SplitFirst(s: string, sep: char): (string, string)
  {
    if s == [] then ("", "")
    else if s[0] == sep then ("", s[1..])
    else
      var (k, v) := SplitFirst(s[1..], sep);
      ([s[0]] + k, v)
  }

  function ParsePairs(parts: seq<string>): seq<(string, string)>
  {
    if parts == [] then [] else ParsePairs(parts[..|parts| - 1]) + [SplitFirst(parts[|parts| - 1], '=')]
  }

  /** Reads a query back into its (still encoded) key/value pairs. */
  function ParseQuery(query: string): seq<(string, string)>
  {
    ParsePairs(Split(query, '&'))
  }

  /** The parameters with both key and value encoded. */
  function EncodedPairs(encode: Encoder, params: seq<(string, string)>): seq<(string, string)>
  {
    if params == [] then []
    else EncodedPairs(encode, params[..|params| - 1]) + [(encode(params[|params| - 1].0), encode(params[|params| - 1].1))]
  }

  lemma {:induction false} SplitWithout(b: string, sep: char)
    requires Excludes(b, sep)
    ensures Split(b, sep) == [b]
  {
    if b != [] {
      SplitWithout(b[..|b| - 1], sep);
      assert b[..|b| - 1] + [b[|b| - 1]] == b;
    }
  }

  lemma {:induction false} SplitJoin(a: string, sep: char, b: string)
    requires Excludes(b, sep)
    ensures Split(a + [sep] + b, sep) == Split(a, sep) + [b]
  {
    var s := a + [sep] + b;
    if b == [] {
      assert s[..|s| - 1] == a;
    } else {
      var b' := b[..|b| - 1];
      assert s[..|s| - 1] == a + [sep] + b';
      SplitJoin(a, sep, b');
      assert b' + [b[|b| - 1]] == b;
    }
  }

  lemma {:induction false} SplitFirstJoin(k: string, sep: char, v: string)
    requires Excludes(k, sep)
    ensures SplitFirst(k + [sep] + v, sep) == (k, v)
  {
    if k == [] {
      assert (k + [sep] + v)[1..] == v;
    } else {
      assert (k + [sep] + v)[1..] == k[1..] + [sep] + v;
      SplitFirstJoin(k[1..], sep, v);
      assert [k[0]] + k[1..] == k;
    }
  }

  /** An encoder that never emits `&` or `=`, as percent-encoding does not. */
  ghost predicate Escapes(encode: Encoder)
  {
    forall s :: Excludes(encode(s), '&') && Excludes(encode(s), '=')
  }

  lemma ParameterShape(encode: Encoder, p: (string, string))
    requires Escapes(encode)
    ensures Excludes(EncodedParameter(encode, p), '&')
    ensures SplitFirst(EncodedParameter(encode, p), '=') == (encode(p.0), encode(p.1))
  {
    assert Excludes(encode(p.0), '&') && Excludes(encode(p.1), '&');
    SplitFirstJoin(encode(p.0), '=', encode(p.1));
  }

  /** The built query reads back as the appended pairs, encoded, in the order appended. */
  lemma {:induction false} QueryRoundTrip(encode: Encoder, params: seq<(string, string)>)
    requires Escapes(encode)
    requires params != []
    ensures ParseQuery(EncodedQuery(encode, params)) == EncodedPairs(encode, params)
  {
    var last := params[|params| - 1];
    var init := params[..|params| - 1];
    ParameterShape(encode, last);
    if |params| == 1 {
      SplitWithout(EncodedParameter(encode, last), '&');
      assert ParsePairs([EncodedParameter(encode, last)])
          == ParsePairs([]) + [SplitFirst(EncodedParameter(encode, last), '=')];
    } else {
      QueryRoundTrip(encode, init);
      var q := EncodedQuery(encode, init);
      SplitJoin(q, '&', EncodedParameter(encode, last));
      assert q + "&" + EncodedParameter(encode, last) == q + ['&'] + EncodedParameter(encode, last);
      var parts := Split(q, '&') + [EncodedParameter(encode, last)];
      assert parts[..|parts| - 1] == Split(q, '&');
    }
  }
}
