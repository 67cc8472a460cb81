/**
 * `Request`: assembles an HTTP call from a `ParamsBag` and a set of flags.
 * The header list and the endpoint are pure functions of the flags and the
 * stored parameters; the request itself configures the cURL handle option by
 * option, records the reply's code and body, resets the handle and decides
 * between a network error, the decoded body and the raw body.
 *
 * `json_encode`, `json_decode` and the `DateTime` conversion of a date string
 * are library calls given to the model as functions (`Codec`); the round trip
 * is a `Reply` given to the request.
 */
module Requests {
  import opened Wrappers
  import opened Assoc
  import opened Php
  import opened Query
  import opened Curl
  import opened Params

  /** The `$modified` argument: none, an integer, or a date string for `DateTime`. */
  datatype Since = NoSince | Seconds(n: int) | DateText(text: string)

  /**
   * The library codecs: `json_encode` of the POST parameters, `json_decode($s, true)`,
   * and `(new DateTime($s))->format(DateTime::RFC1123)`, which may throw.
   */
  datatype Codec = Codec(
    jsonEncode: Assoc<string, Value> -> string,
    jsonDecode: string -> Value,
    httpDate: string -> Result<string>)

  /** What a request returns: the decoded body, or the raw `curl_exec` result. */
  datatype Response = Decoded(value: Value) | Raw(result: CurlResult)

  /** The flags of a request object. */
  datatype Flags = Flags(
    parseResponse: bool, parseTransfer: bool, https: bool, httpAuth: bool,
    authIsGet: bool, json: bool, cookies: bool, debug: bool)

  const KEEP_ALIVE: string := "Connection: keep-alive"
  const JSON_TYPE: string := "Content-Type: application/json"
  const SINCE: string := "IF-MODIFIED-SINCE: "
  /** The cookie file, `cookie.txt` in the directory of the request class. */
  const COOKIE_PATH: string := "cookie.txt"

  predicate IsSinceHeader(h: string) { |h| >= |SINCE| && h[..|SINCE|] == SINCE }

  /** How many headers `prepareHeaders` generates before the extra ones. */
  function GeneratedCount(json: bool, modified: Since): nat
  {
    1 + (if json then 1 else 0) + (if modified.NoSince? then 0 else 1)
  }

  /**
   * `prepareHeaders($modified)`: keep-alive first, the JSON content type iff
   * `json`, an `IF-MODIFIED-SINCE` header for a non-null `$modified`, then the
   * extra headers in order. A date string `DateTime` rejects makes it throw.
   */
  function PrepareHeaders(json: bool, modified: Since, extra: Option<seq<string>>,
                          httpDate: string -> Result<string>): (r: Result<seq<string>>)
    ensures r.Err? <==> modified.DateText? && httpDate(modified.text).Err?
    ensures r.Err? ==> r == Err(httpDate(modified.text).error)
    ensures r.Ok? ==>
              var h := r.value;
              var n := GeneratedCount(json, modified);
              |h| == n + |extra.GetOr([])| && h[n..] == extra.GetOr([])
              && h[0] == KEEP_ALIVE
              && (JSON_TYPE in h[..n] <==> json)
              && (modified.Seconds? ==> h[n - 1] == SINCE + DecimalString(modified.n))
              && (modified.DateText? ==> h[n - 1] == SINCE + httpDate(modified.text).value)
              && (forall i | 0 <= i < n :: IsSinceHeader(h[i]) <==> !modified.NoSince? && i == n - 1)
  {
    var date: Result<Option<string>> :=
      match modified
      case NoSince => Ok(None)
      case Seconds(n) => Ok(Some(DecimalString(n)))
      case DateText(t) =>
        match httpDate(t)
        case Err(e) => Err(e)
        case Ok(d) => Ok(Some(d));
    if date.Err? then Err(date.error)
    else
      var g := Generated(json, date.value);
      GeneratedHeaders(json, date.value);
      var h := g + extra.GetOr([]);
      assert h[..|g|] == g;
      Ok(h)
  }

  /** The headers `prepareHeaders` generates itself, given the converted `$modified`. */
  function Generated(json: bool, date: Option<string>): seq<string>
  {
    [KEEP_ALIVE] + (if json then [JSON_TYPE] else []) + (if date.Some? then [SINCE + date.value] else [])
  }

  /** Among the generated headers, the JSON type appears iff `json`, and only the last may be a date header. */
  lemma GeneratedHeaders(json: bool, date: Option<string>)
    ensures var g := Generated(json, date);
            |g| == 1 + (if json then 1 else 0) + (if date.Some? then 1 else 0)
            && g[0] == KEEP_ALIVE
            && (JSON_TYPE in g <==> json)
            && (date.Some? ==> g[|g| - 1] == SINCE + date.value)
            && forall i | 0 <= i < |g| :: IsSinceHeader(g[i]) <==> date.Some? && i == |g| - 1
  {
    assert KEEP_ALIVE[0] != SINCE[0] && JSON_TYPE[0] != SINCE[0];
    assert !IsSinceHeader(KEEP_ALIVE) && !IsSinceHeader(JSON_TYPE);
    if date.Some? {
      var d := SINCE + date.value;
      assert d[..|SINCE|] == SINCE;
      assert JSON_TYPE != d by {
        assert d[0] == SINCE[0];
      }
    }
  }

  /** The pairs `prepareEndpoint`'s `foreach` copies: every auth pair but `domain`. */
  function AuthExtras(auth: Assoc<string, Value>): Assoc<string, Value>
  {
    Remove(auth, "domain")
  }

  /** The parameters the query string is built from. */
  function QueryParams(authIsGet: bool, get: Assoc<string, Value>, auth: Assoc<string, Value>): Assoc<string, Value>
  {
    Merge(get, if authIsGet then AuthExtras(auth) else [])
  }

  /** `sprintf('%s://%s%s[?%s]', ...)` with the query of the merged parameters. */
  function Endpoint(https: bool, params: Assoc<string, Value>, domain: Value, url: string): string
  {
    var query := BuildQuery(params);
    Scheme(https) + "://" + ToPhpString(domain) + url
      + (if query == "" then "" else "?" + query)
  }

  /** `prepareEndpoint($url)`. */
  function PrepareEndpoint(https: bool, authIsGet: bool, get: Assoc<string, Value>,
                           auth: Assoc<string, Value>, domain: Value, url: string): string
  {
    Endpoint(https, QueryParams(authIsGet, get, auth), domain, url)
  }

  /** The `foreach` of `prepareEndpoint`: copies the auth pairs, skipping `domain`. */
  method CollectAuthExtras(auth: Assoc<string, Value>) returns (extras: Assoc<string, Value>)
    requires UniqueKeys(auth)
    ensures extras == AuthExtras(auth)
  {
    extras := [];
    var i := 0;
    while i < |auth|
      invariant i <= |auth|
      invariant extras == Remove(auth[..i], "domain")
    {
      var (key, value) := auth[i];
      UniqueNotBefore(auth, i);
      assert auth[..i + 1] == auth[..i] + [(key, value)];
      RemoveAppend(auth[..i], (key, value), "domain");
      if key != "domain" {
        extras := Put(extras, key, value);
      }
      i := i + 1;
    }
    assert auth[..i] == auth;
  }

  /** The text after the first `c`, if there is one. */
  function After(s: string, c: char): Option<string>
  {
    if s == [] then None else if s[0] == c then Some(s[1..]) else After(s[1..], c)
  }

  lemma {:induction false} AfterConcat(a: string, b: string, c: char)
    requires forall i | 0 <= i < |a| :: a[i] != c
    ensures After(a + b, c) == After(b, c)
  {
    if a != [] {
      assert (a + b)[1..] == a[1..] + b;
      AfterConcat(a[1..], b, c);
    } else {
      assert a + b == b;
    }
  }

  /**
   * The endpoint carries a `?` exactly when the query is non-empty, and the text
   * after it is the query, as long as the domain and path hold no `?` themselves.
   */
  lemma EndpointQuery(https: bool, params: Assoc<string, Value>, domain: Value, url: string)
    requires forall i | 0 <= i < |ToPhpString(domain) + url| :: (ToPhpString(domain) + url)[i] != '?'
    ensures After(Endpoint(https, params, domain, url), '?')
            == if BuildQuery(params) == "" then None else Some(BuildQuery(params))
  {
    var prefix := Scheme(https) + "://" + ToPhpString(domain) + url;
    var query := BuildQuery(params);
    assert forall i | 0 <= i < |prefix| :: prefix[i] != '?' by {
      var scheme := Scheme(https) + "://";
      assert prefix == scheme + (ToPhpString(domain) + url);
      forall i | 0 <= i < |prefix| ensures prefix[i] != '?' {
        if i >= |scheme| {
          assert prefix[i] == (ToPhpString(domain) + url)[i - |scheme|];
        }
      }
    }
    AfterConcat(prefix, if query == "" then "" else "?" + query, '?');
    assert Endpoint(https, params, domain, url) == prefix + (if query == "" then "" else "?" + query);
  }

  /** The scheme is `https` iff the flag is set, `http` otherwise. */
  lemma EndpointScheme(https: bool, params: Assoc<string, Value>, domain: Value, url: string)
    ensures var e := Endpoint(https, params, domain, url);
            if https then |e| >= 8 && e[..8] == "https://" else |e| >= 7 && e[..7] == "http://"
  {
    var query := BuildQuery(params);
    var head := Scheme(https) + "://";
    var withHost := head + ToPhpString(domain);
    var path := withHost + url;
    PrefixKept(withHost, url, |head|);
    PrefixKept(path, if query == "" then "" else "?" + query, |head|);
    assert head == if https then "https://" else "http://";
  }

  /** Appending leaves a prefix of the first part as it was. */
  lemma PrefixKept<T>(a: seq<T>, b: seq<T>, n: nat)
    requires n <= |a|
    ensures (a + b)[..n] == a[..n]
  {
  }

  /** Without `authIsGet` the query is built from the GET parameters alone. */
  lemma QueryFromGetOnly(get: Assoc<string, Value>, auth: Assoc<string, Value>)
    ensures QueryParams(false, get, auth) == get
  {
  }

  /**
   * With `authIsGet`, every auth pair but `domain` is added to the query, and on
   * a key clash the auth value overrides the GET value (`array_merge(get, auth)`).
   */
  lemma AuthOverridesGet(get: Assoc<string, Value>, auth: Assoc<string, Value>, k: string)
    requires UniqueKeys(auth)
    ensures Find(QueryParams(true, get, auth), k)
            == if k != "domain" && k in Keys(auth) then Find(auth, k) else Find(get, k)
  {
    UniqueRemove(auth, "domain");
    FindMerge(get, AuthExtras(auth), k);
    FindRemove(auth, "domain", k);
  }

  /** A bag keeps `domain` out of its auth pairs, so the `foreach` copies all of them. */
  lemma AuthExtrasOfBag(auth: Assoc<string, Value>)
    requires NoReserved(auth)
    ensures AuthExtras(auth) == auth
  {
    RemoveAbsent(auth, "domain");
  }

  function Scheme(https: bool): string { if https then "https" else "http" }

  /** One plain GET parameter is written after `?` as `name=value`. */
  lemma SingleGetEndpoint(https: bool, k: string, v: string, auth: Assoc<string, Value>, domain: string, url: string)
    requires Plain(k) && Plain(v)
    ensures PrepareEndpoint(https, false, [(k, Str(v))], auth, Str(domain), url)
            == Scheme(https) + "://" + domain + url + "?" + k + "=" + v
  {
    var get := [(k, Str(v))];
    assert QueryParams(false, get, auth) == get;
    PlainPairQuery(k, v);
  }

  /**
   * With `authIsGet`, an auth pair replaces the GET value of the same name in
   * place and a new auth name is appended after it.
   */
  lemma AuthQueryOrder(https: bool, k: string, v1: string, v2: string, t: string, x: string,
                       domain: string, url: string)
    requires Plain(k) && Plain(v1) && Plain(v2) && Plain(t) && Plain(x)
    requires k != t && k != "domain" && t != "domain"
    ensures PrepareEndpoint(https, true, [(k, Str(v1))], [(k, Str(v2)), (t, Str(x))], Str(domain), url)
            == Scheme(https) + "://" + domain + url + "?" + (k + "=" + v2 + "&" + (t + "=" + x))
  {
    var auth := [(k, Str(v2)), (t, Str(x))];
    assert auth[1..] == [(t, Str(x))];
    assert Remove(auth[1..], "domain") == [(t, Str(x))];
    assert AuthExtras(auth) == auth;
    assert Put([(k, Str(v1))], k, Str(v2)) == [(k, Str(v2))];
    assert Merge([(k, Str(v1))], auth) == Merge([(k, Str(v2))], [(t, Str(x))]);
    assert t !in Keys([(k, Str(v2))]);
    assert Put([(k, Str(v2))], t, Str(x)) == auth;
    assert Merge([(k, Str(v2))], [(t, Str(x))]) == Merge(auth, []) == auth;
    assert QueryParams(true, [(k, Str(v1))], auth) == auth;
    PlainPairQuery(t, x);
    PlainPairs(k, v2, [(t, Str(x))]);
    assert [(k, Str(v2))] + [(t, Str(x))] == auth;
    var q := k + "=" + v2 + "&" + (t + "=" + x);
    assert BuildQuery(auth) == q;
    assert Endpoint(https, auth, Str(domain), url) == Scheme(https) + "://" + domain + url + "?" + q;
  }

  predicate Plain(s: string) { forall i | 0 <= i < |s| :: Unreserved(s[i]) }

  /** A single pair of plain strings is written as it is. */
  lemma PlainPairQuery(k: string, v: string)
    requires Plain(k) && Plain(v)
    ensures BuildQuery([(k, Str(v))]) == k + "=" + v
  {
    UrlEncodeUnreserved(k);
    UrlEncodeUnreserved(v);
    var p := [(k, Str(v))];
    assert p[1..] == [];
    assert QueryPairs(p) == [(k, v)];
  }

  /** A leading pair of plain strings is written first, followed by `&` and the rest. */
  lemma PlainPairs(k: string, v: string, rest: Assoc<string, Value>)
    requires Plain(k) && Plain(v) && BuildQuery(rest) != ""
    ensures BuildQuery([(k, Str(v))] + rest) == k + "=" + v + "&" + BuildQuery(rest)
  {
    UrlEncodeUnreserved(k);
    UrlEncodeUnreserved(v);
    var p := [(k, Str(v))] + rest;
    assert p[0] == (k, Str(v)) && p[1..] == rest;
    assert QueryPairs(p) == [(k, v)] + QueryPairs(rest);
    var ps := QueryPairs(p);
    assert ps[1..] == QueryPairs(rest);
    assert |ps| > 1;
  }

  // ------------------------------------------------------------- options

  /** The POST body: `json_encode` of the POST parameters, or their form encoding. */
  function PostBody(json: bool, post: Assoc<string, Value>, codec: Codec): string
  {
    if json then codec.jsonEncode(post) else BuildQuery(post)
  }

  function PostOptions(json: bool, post: Assoc<string, Value>, codec: Codec): seq<CurlOpt>
  {
    if post == [] then [] else [Post(true), PostFields(PostBody(json, post, codec))]
  }

  /** The TypeError `curl_setopt` raises when `openFile()` gave `false` for the upload stream. */
  const STREAM_ERROR: Failure := PhpError("curl_setopt(): supplied argument is not a valid File-Handle resource")

  /** A staged file that `fopen` cannot open when the request is sent. */
  predicate StreamFails(file: Option<string>, fs: FileSystem)
  {
    file.Some? && Fopen(fs, file.value).None?
  }

  /** The file options set: a staged file that does not open stops after the POST flag. */
  function FileOptions(file: Option<string>, fs: FileSystem): seq<CurlOpt>
  {
    match file
    case None => []
    case Some(f) =>
      match Fopen(fs, f)
      case None => [Post(true)]
      case Some(stream) => [Post(true), InFile(stream), InFileSize(FileSize(fs, f))]
  }

  /** `getAuth("login") . ":" . getAuth("password")`. */
  function Credentials(p: Params): string
  {
    ToPhpString(p.login) + ":" + ToPhpString(p.password)
  }

  /** The options set before the body: URL, transfer and TLS settings, cookies, credentials, headers. */
  function HeadOptions(f: Flags, endpoint: string, headers: seq<string>, p: Params): seq<CurlOpt>
  {
    [Url(endpoint), ReturnTransfer(true), SslVerifyPeer(false), SslVerifyHost(false)]
    + (if f.cookies then [CookieFile(COOKIE_PATH), CookieJar(COOKIE_PATH)] else [])
    + (if f.httpAuth then [UserPwd(Credentials(p))] else [])
    + [HttpHeader(headers), Header(false), Encoding("")]
  }

  /** The options set after the body: binary transfer, the staged file, the proxy (not reached when the file does not open). */
  function TailOptions(parseTransfer: bool, p: Params, fs: FileSystem): seq<CurlOpt>
  {
    (if parseTransfer then [] else [BinaryTransfer(true)])
    + FileOptions(p.file, fs)
    + (if p.proxy.Str? && !StreamFails(p.file, fs) then [Proxy(p.proxy)] else [])
  }

  /** The options `request` sets on the handle, in order, up to the throw when the staged file does not open. */
  function CurlOptions(f: Flags, endpoint: string, headers: seq<string>, p: Params,
                       fs: FileSystem, codec: Codec): seq<CurlOpt>
  {
    HeadOptions(f, endpoint, headers, p) + PostOptions(f.json, p.post, codec) + TailOptions(f.parseTransfer, p, fs)
  }

  /** Everything `request` would configure, or the exception `prepareHeaders` throws first. */
  function Plan(f: Flags, p: Params, extra: Option<seq<string>>, url: string, modified: Since,
                fs: FileSystem, codec: Codec): Result<seq<CurlOpt>>
  {
    match PrepareHeaders(f.json, modified, extra, codec.httpDate)
    case Err(e) => Err(e)
    case Ok(h) => Ok(CurlOptions(f, PrepareEndpoint(f.https, f.authIsGet, p.get, p.auth, p.domain, url), h, p, fs, codec))
  }

  /** The bodies a list of options carries, in order. */
  function Bodies(opts: seq<CurlOpt>): seq<string>
  {
    if opts == [] then [] else (if opts[0].PostFields? then [opts[0].body] else []) + Bodies(opts[1..])
  }

  lemma {:induction false} BodiesConcat(a: seq<CurlOpt>, b: seq<CurlOpt>)
    ensures Bodies(a + b) == Bodies(a) + Bodies(b)
  {
    if a != [] {
      assert (a + b)[1..] == a[1..] + b;
      BodiesConcat(a[1..], b);
    } else {
      assert a + b == b;
    }
  }

  lemma {:induction false} BodiesNone(opts: seq<CurlOpt>)
    requires forall i | 0 <= i < |opts| :: !opts[i].PostFields?
    ensures Bodies(opts) == []
  {
    if opts != [] {
      BodiesNone(opts[1..]);
    }
  }

  lemma HeadFacts(f: Flags, endpoint: string, headers: seq<string>, p: Params)
    ensures var h := HeadOptions(f, endpoint, headers, p);
            h[0] == Url(endpoint) && (forall i | 0 < i < |h| :: !h[i].Url?)
            && (forall i | 0 <= i < |h| :: !h[i].PostFields? && !h[i].Post? && !h[i].Proxy?)
            && (UserPwd(Credentials(p)) in h <==> f.httpAuth)
            && HttpHeader(headers) in h
  {
  }

  lemma TailFacts(parseTransfer: bool, p: Params, fs: FileSystem)
    ensures var t := TailOptions(parseTransfer, p, fs);
            (forall i | 0 <= i < |t| :: !t[i].Url? && !t[i].PostFields? && !t[i].UserPwd?)
            && (Post(true) in t <==> p.file.Some?)
            && (forall i | 0 <= i < |t| :: t[i].Proxy? ==> t[i] == Proxy(p.proxy))
            && (Proxy(p.proxy) in t <==> p.proxy.Str? && !StreamFails(p.file, fs))
  {
  }

  /**
   * A staged file that opens is set as the upload stream; one that does not
   * leaves the POST flag as the last option and no upload stream.
   */
  lemma TailStream(parseTransfer: bool, p: Params, fs: FileSystem)
    ensures var t := TailOptions(parseTransfer, p, fs);
            (p.file.Some? && !StreamFails(p.file, fs) ==> InFile(Stream(p.file.value)) in t)
            && (StreamFails(p.file, fs) ==> t[|t| - 1] == Post(true) && forall i | 0 <= i < |t| :: !t[i].InFile?)
  {
  }

  /**
   * Body selection: exactly one body is set when there are POST parameters, and
   * it is their JSON encoding under `json` and their form encoding otherwise;
   * without POST parameters no body is set.
   */
  lemma BodySelection(f: Flags, endpoint: string, headers: seq<string>, p: Params, fs: FileSystem, codec: Codec)
    ensures Bodies(CurlOptions(f, endpoint, headers, p, fs, codec))
            == if p.post == [] then [] else [PostBody(f.json, p.post, codec)]
  {
    var a := HeadOptions(f, endpoint, headers, p);
    var b := PostOptions(f.json, p.post, codec);
    var c := TailOptions(f.parseTransfer, p, fs);
    BodiesConcat(a + b, c);
    BodiesConcat(a, b);
    SegmentBodies(f, endpoint, headers, p, fs, codec);
  }

  lemma SegmentBodies(f: Flags, endpoint: string, headers: seq<string>, p: Params, fs: FileSystem, codec: Codec)
    ensures Bodies(HeadOptions(f, endpoint, headers, p)) == []
    ensures Bodies(TailOptions(f.parseTransfer, p, fs)) == []
    ensures Bodies(PostOptions(f.json, p.post, codec)) == if p.post == [] then [] else [PostBody(f.json, p.post, codec)]
  {
    HeadFacts(f, endpoint, headers, p);
    TailFacts(f.parseTransfer, p, fs);
    BodiesNone(HeadOptions(f, endpoint, headers, p));
    BodiesNone(TailOptions(f.parseTransfer, p, fs));
    if p.post != [] {
      PostBodies(PostBody(f.json, p.post, codec));
    }
  }

  lemma PostBodies(body: string)
    ensures Bodies([Post(true), PostFields(body)]) == [body]
  {
    var o := [Post(true), PostFields(body)];
    assert o[1..] == [PostFields(body)];
    assert [PostFields(body)][1..] == [];
    assert Bodies([PostFields(body)]) == [body] + Bodies([]);
    assert Bodies(o) == [] + Bodies(o[1..]);
  }

  /** The request is a POST exactly when there are POST parameters or a staged file. */
  lemma PostMethod(f: Flags, endpoint: string, headers: seq<string>, p: Params, fs: FileSystem, codec: Codec)
    ensures Post(true) in CurlOptions(f, endpoint, headers, p, fs, codec) <==> p.post != [] || p.file.Some?
  {
    HeadFacts(f, endpoint, headers, p);
    TailFacts(f.parseTransfer, p, fs);
  }

  /**
   * The URL is set first and only once; the proxy is set iff it is a string and
   * the staged file (if any) opens, and only to it; the credentials are set iff `httpAuth`; the headers are always set.
   */
  lemma OptionsShape(f: Flags, endpoint: string, headers: seq<string>, p: Params, fs: FileSystem, codec: Codec)
    ensures var o := CurlOptions(f, endpoint, headers, p, fs, codec);
            o[0] == Url(endpoint) && (forall i | 0 < i < |o| :: !o[i].Url?)
            && (Proxy(p.proxy) in o <==> p.proxy.Str? && !StreamFails(p.file, fs))
            && (forall i | 0 <= i < |o| :: o[i].Proxy? ==> o[i] == Proxy(p.proxy))
            && (UserPwd(Credentials(p)) in o <==> f.httpAuth)
            && HttpHeader(headers) in o
  {
    var a := HeadOptions(f, endpoint, headers, p);
    var b := PostOptions(f.json, p.post, codec);
    var c := TailOptions(f.parseTransfer, p, fs);
    HeadFacts(f, endpoint, headers, p);
    TailFacts(f.parseTransfer, p, fs);
    OptionsUrl(a, b, c, endpoint);
    OptionsProxy(a, b, c, p.proxy);
    assert UserPwd(Credentials(p)) in a + b + c <==> UserPwd(Credentials(p)) in a;
    assert HttpHeader(headers) in a + b + c;
  }

  lemma OptionsUrl(a: seq<CurlOpt>, b: seq<CurlOpt>, c: seq<CurlOpt>, endpoint: string)
    requires |a| > 0 && a[0] == Url(endpoint) && (forall i | 0 < i < |a| :: !a[i].Url?)
    requires forall i | 0 <= i < |b| :: !b[i].Url?
    requires forall i | 0 <= i < |c| :: !c[i].Url?
    ensures var o := a + b + c;
            o[0] == Url(endpoint) && (forall i | 0 < i < |o| :: !o[i].Url?)
  {
    forall i | 0 < i < |a + b + c| ensures !(a + b + c)[i].Url? {
      AtConcat(a, b, c, i);
    }
  }

  lemma OptionsProxy(a: seq<CurlOpt>, b: seq<CurlOpt>, c: seq<CurlOpt>, proxy: Value)
    requires forall i | 0 <= i < |a| :: !a[i].Proxy?
    requires forall i | 0 <= i < |b| :: !b[i].Proxy?
    requires forall i | 0 <= i < |c| :: c[i].Proxy? ==> c[i] == Proxy(proxy)
    ensures var o := a + b + c;
            (Proxy(proxy) in o <==> Proxy(proxy) in c)
            && (forall i | 0 <= i < |o| :: o[i].Proxy? ==> o[i] == Proxy(proxy))
  {
    forall i | 0 <= i < |a + b + c| ensures (a + b + c)[i].Proxy? ==> (a + b + c)[i] == Proxy(proxy) {
      AtConcat(a, b, c, i);
    }
    assert Proxy(proxy) !in a && Proxy(proxy) !in b;
  }

  /** Where an index of a three-part concatenation lands. */
  lemma AtConcat<T>(a: seq<T>, b: seq<T>, c: seq<T>, i: nat)
    requires i < |a| + |b| + |c|
    ensures (a + b + c)[i] == if i < |a| then a[i] else if i < |a| + |b| then b[i - |a|] else c[i - |a| - |b|]
  {
  }

  // ------------------------------------------------------------- outcome

  /** `parseResponse($response, $info)`: `json_decode($response, true)`; `false` reads as the empty string. */
  function ParseResponse(result: CurlResult, codec: Codec): Value
  {
    match result
    case CurlFalse => codec.jsonDecode("")
    case CurlText(t) => codec.jsonDecode(t)
  }

  /**
   * The end of `request`: a `NetworkException` iff `curl_exec` returned `false`
   * with a non-empty error; otherwise the decoded or the raw body.
   */
  function Outcome(reply: Reply, parse: bool, codec: Codec): (r: Result<Response>)
    ensures r.Err? <==> reply.result == CurlFalse && !EmptyString(reply.error)
    ensures r.Err? ==> r.error == NetworkException(reply.error, reply.errno)
    ensures r.Ok? && parse ==> r.value == Decoded(ParseResponse(reply.result, codec))
    ensures r.Ok? && !parse ==> r.value == Raw(reply.result)
  {
    if reply.result == CurlFalse && !EmptyString(reply.error) then Err(NetworkException(reply.error, reply.errno))
    else if parse then Ok(Decoded(ParseResponse(reply.result, codec)))
    else Ok(Raw(reply.result))
  }

  lemma AppendAssoc<T>(a: seq<T>, b: seq<T>, c: seq<T>)
    ensures a + b + c == a + (b + c)
  {
  }

  class Request {
    var parseResponse: bool
    var parseTransfer: bool
    var https: bool
    var httpAuth: bool
    var authIsGet: bool
    var json: bool
    var cookies: bool
    var debug: bool
    const parameters: ParamsBag
    const curlHandle: CurlHandle
    var lastHttpCode: Option<int>
    var lastHttpResponse: Option<CurlResult>
    /** The extra headers; `None` when what was set is not an array. */
    var extraHeaders: Option<seq<string>>

    ghost predicate Valid()
      reads this, parameters
    {
      parameters.Valid()
    }

    function CurrentFlags(): Flags
      reads this
    {
      Flags(parseResponse, parseTransfer, https, httpAuth, authIsGet, json, cookies, debug)
    }

    /** `new Request($logger, $parameters, $curlHandle)`: a fresh handle when none is given. */
    constructor(parameters: ParamsBag, curlHandle: CurlHandle?)
      requires parameters.Valid()
      ensures Valid()
      ensures this.parameters == parameters
      ensures curlHandle != null ==> this.curlHandle == curlHandle
      ensures curlHandle == null ==> fresh(this.curlHandle)
      ensures CurrentFlags() == Flags(true, true, true, false, false, true, false, false)
      ensures lastHttpCode == None && lastHttpResponse == None && extraHeaders == None
    {
      parseResponse, parseTransfer, https, httpAuth := true, true, true, false;
      authIsGet, json, cookies, debug := false, true, false, false;
      this.parameters := parameters;
      if curlHandle != null {
        this.curlHandle := curlHandle;
      } else {
        this.curlHandle := new CurlHandle();
      }
      lastHttpCode, lastHttpResponse, extraHeaders := None, None, None;
    }

    /** `setDebug($flag)`: `(bool) $flag`. */
    method SetDebug(flag: Value)
      modifies this
      ensures CurrentFlags() == old(CurrentFlags()).(debug := Truthy(flag))
      ensures lastHttpCode == old(lastHttpCode) && lastHttpResponse == old(lastHttpResponse)
      ensures extraHeaders == old(extraHeaders)
    {
      debug := Truthy(flag);
    }

    /** `setJSON($flag)`. */
    method SetJson(flag: Value)
      modifies this
      ensures CurrentFlags() == old(CurrentFlags()).(json := Truthy(flag))
      ensures lastHttpCode == old(lastHttpCode) && lastHttpResponse == old(lastHttpResponse)
      ensures extraHeaders == old(extraHeaders)
    {
      json := Truthy(flag);
    }

    /** `setHTTPS($flag)`. */
    method SetHttps(flag: Value)
      modifies this
      ensures CurrentFlags() == old(CurrentFlags()).(https := Truthy(flag))
      ensures lastHttpCode == old(lastHttpCode) && lastHttpResponse == old(lastHttpResponse)
      ensures extraHeaders == old(extraHeaders)
    {
      https := Truthy(flag);
    }

    /** `setHTTPAuth($flag)`. */
    method SetHttpAuth(flag: Value)
      modifies this
      ensures CurrentFlags() == old(CurrentFlags()).(httpAuth := Truthy(flag))
      ensures lastHttpCode == old(lastHttpCode) && lastHttpResponse == old(lastHttpResponse)
      ensures extraHeaders == old(extraHeaders)
    {
      httpAuth := Truthy(flag);
    }

    /** `setGetAuth($flag)`. */
    method SetGetAuth(flag: Value)
      modifies this
      ensures CurrentFlags() == old(CurrentFlags()).(authIsGet := Truthy(flag))
      ensures lastHttpCode == old(lastHttpCode) && lastHttpResponse == old(lastHttpResponse)
      ensures extraHeaders == old(extraHeaders)
    {
      authIsGet := Truthy(flag);
    }

    /** `setCookies($flag)`. */
    method SetCookies(flag: Value)
      modifies this
      ensures CurrentFlags() == old(CurrentFlags()).(cookies := Truthy(flag))
      ensures lastHttpCode == old(lastHttpCode) && lastHttpResponse == old(lastHttpResponse)
      ensures extraHeaders == old(extraHeaders)
    {
      cookies := Truthy(flag);
    }

    /** `setParseResponse($flag)`. */
    method SetParseResponse(flag: Value)
      modifies this
      ensures CurrentFlags() == old(CurrentFlags()).(parseResponse := Truthy(flag))
      ensures lastHttpCode == old(lastHttpCode) && lastHttpResponse == old(lastHttpResponse)
      ensures extraHeaders == old(extraHeaders)
    {
      parseResponse := Truthy(flag);
    }

    /** `setParseTransfer($flag)`. */
    method SetParseTransfer(flag: Value)
      modifies this
      ensures CurrentFlags() == old(CurrentFlags()).(parseTransfer := Truthy(flag))
      ensures lastHttpCode == old(lastHttpCode) && lastHttpResponse == old(lastHttpResponse)
      ensures extraHeaders == old(extraHeaders)
    {
      parseTransfer := Truthy(flag);
    }

    /** `setHeaders($headers)`: replaces any earlier list. */
    method SetHeaders(headers: Option<seq<string>>)
      modifies this
      ensures extraHeaders == headers
      ensures CurrentFlags() == old(CurrentFlags())
      ensures lastHttpCode == old(lastHttpCode) && lastHttpResponse == old(lastHttpResponse)
    {
      extraHeaders := headers;
    }

    /** `getLastHttpCode()`. */
    function GetLastHttpCode(): Option<int>
      reads this
    {
      lastHttpCode
    }

    /** `getLastHttpResponse()`. */
    function GetLastHttpResponse(): Option<CurlResult>
      reads this
    {
      lastHttpResponse
    }

    /** The first `curl_setopt` calls of `request`, up to the encoding. */
    method ConfigureHead(endpoint: string, headers: seq<string>)
      modifies curlHandle
      ensures curlHandle.opts == old(curlHandle.opts) + HeadOptions(CurrentFlags(), endpoint, headers, parameters.View())
      ensures curlHandle.isOpen == old(curlHandle.isOpen)
    {
      ConfigureTransfer(endpoint);
      ConfigureCredentials();
      curlHandle.SetOpt(HttpHeader(headers));
      curlHandle.SetOpt(Header(false));
      curlHandle.SetOpt(Encoding(""));
    }

    /**
     * Every `curl_setopt` call of `request`, in order; `sent` is what they
     * appended, and `r` is the TypeError a staged file that does not open raises.
     */
    method Configure(endpoint: string, headers: seq<string>, fs: FileSystem, codec: Codec)
      returns (sent: seq<CurlOpt>, r: Result<()>)
      requires Valid()
      modifies curlHandle, parameters
      ensures Valid() && parameters.View() == old(parameters.View())
      ensures sent == CurlOptions(CurrentFlags(), endpoint, headers, parameters.View(), fs, codec)
      ensures curlHandle.opts == old(curlHandle.opts) + sent
      ensures curlHandle.isOpen == old(curlHandle.isOpen)
      ensures parameters.fileHandle == if parameters.file.Some? then Fopen(fs, parameters.file.value) else old(parameters.fileHandle)
      ensures r == if StreamFails(parameters.file, fs) then Err(STREAM_ERROR) else Ok(())
    {
      var front := ConfigureFront(endpoint, headers, codec);
      var tail;
      tail, r := ConfigureTail(fs);
      sent := front + tail;
      AppendAssoc(old(curlHandle.opts), front, tail);
    }

    /** The `curl_setopt` calls up to and including the body; `front` is what they appended. */
    method ConfigureFront(endpoint: string, headers: seq<string>, codec: Codec) returns (front: seq<CurlOpt>)
      modifies curlHandle
      ensures front == HeadOptions(CurrentFlags(), endpoint, headers, parameters.View())
                       + PostOptions(json, parameters.View().post, codec)
      ensures curlHandle.opts == old(curlHandle.opts) + front
      ensures curlHandle.isOpen == old(curlHandle.isOpen)
    {
      var start := curlHandle.opts;
      ConfigureHead(endpoint, headers);
      ConfigureBody(codec);
      AppendAssoc(start, HeadOptions(CurrentFlags(), endpoint, headers, parameters.View()),
                  PostOptions(json, parameters.View().post, codec));
      front := curlHandle.opts[|start|..];
    }

    /** The URL, the transfer and TLS settings, and the cookie file. */
    method ConfigureTransfer(endpoint: string)
      modifies curlHandle
      ensures curlHandle.opts == old(curlHandle.opts)
                + [Url(endpoint), ReturnTransfer(true), SslVerifyPeer(false), SslVerifyHost(false)]
                + (if cookies then [CookieFile(COOKIE_PATH), CookieJar(COOKIE_PATH)] else [])
      ensures curlHandle.isOpen == old(curlHandle.isOpen)
    {
      curlHandle.SetOpt(Url(endpoint));
      curlHandle.SetOpt(ReturnTransfer(true));
      curlHandle.SetOpt(SslVerifyPeer(false));
      curlHandle.SetOpt(SslVerifyHost(false));
      if cookies {
        curlHandle.SetOpt(CookieFile(COOKIE_PATH));
        curlHandle.SetOpt(CookieJar(COOKIE_PATH));
      }
    }

    /** HTTP basic credentials, under `httpAuth`. */
    method ConfigureCredentials()
      modifies curlHandle
      ensures curlHandle.opts == old(curlHandle.opts) + (if httpAuth then [UserPwd(Credentials(parameters.View()))] else [])
      ensures curlHandle.isOpen == old(curlHandle.isOpen)
    {
      if httpAuth {
        curlHandle.SetOpt(UserPwd(ToPhpString(parameters.GetAuth("login")) + ":" + ToPhpString(parameters.GetAuth("password"))));
      }
    }

    /** The body of `request`: set only when there are POST parameters. */
    method ConfigureBody(codec: Codec)
      modifies curlHandle
      ensures curlHandle.opts == old(curlHandle.opts) + PostOptions(json, parameters.postParams, codec)
      ensures curlHandle.isOpen == old(curlHandle.isOpen)
    {
      var post := parameters.GetPostAll();
      if parameters.HasPost() {
        var fields := if json then codec.jsonEncode(post) else BuildQuery(post);
        curlHandle.SetOpt(Post(true));
        curlHandle.SetOpt(PostFields(fields));
        AppendAssoc(old(curlHandle.opts), [Post(true)], [PostFields(fields)]);
      }
    }

    /** The last `curl_setopt` calls of `request`: binary transfer, the staged file, the proxy. */
    method ConfigureTail(fs: FileSystem) returns (tail: seq<CurlOpt>, r: Result<()>)
      requires Valid()
      modifies curlHandle, parameters
      ensures Valid() && parameters.View() == old(parameters.View())
      ensures tail == TailOptions(parseTransfer, parameters.View(), fs)
      ensures curlHandle.opts == old(curlHandle.opts) + tail
      ensures curlHandle.isOpen == old(curlHandle.isOpen)
      ensures parameters.fileHandle == if parameters.file.Some? then Fopen(fs, parameters.file.value) else old(parameters.fileHandle)
      ensures r == if StreamFails(parameters.file, fs) then Err(STREAM_ERROR) else Ok(())
    {
      var start := curlHandle.opts;
      if !parseTransfer {
        curlHandle.SetOpt(BinaryTransfer(true));
      }
      var binary := curlHandle.opts[|start|..];
      r := ConfigureFile(fs);
      var file := FileOptions(parameters.file, fs);
      if r.Ok? && parameters.HasProxy() {
        curlHandle.SetOpt(Proxy(parameters.GetProxy()));
      }
      AppendAssoc(start, binary, file);
      tail := curlHandle.opts[|start|..];
    }

    /**
     * The staged file as the upload stream, with its size. When `fopen` fails,
     * `curl_setopt` is handed `false` for the stream and raises a TypeError.
     */
    method ConfigureFile(fs: FileSystem) returns (r: Result<()>)
      requires Valid()
      modifies curlHandle, parameters
      ensures Valid() && parameters.View() == old(parameters.View())
      ensures curlHandle.opts == old(curlHandle.opts) + FileOptions(parameters.file, fs)
      ensures curlHandle.isOpen == old(curlHandle.isOpen)
      ensures parameters.fileHandle == if parameters.file.Some? then Fopen(fs, parameters.file.value) else old(parameters.fileHandle)
      ensures r == if StreamFails(parameters.file, fs) then Err(STREAM_ERROR) else Ok(())
    {
      if parameters.HasFile() {
        curlHandle.SetOpt(Post(true));
        var stream := parameters.OpenFile(fs);
        if stream.value.None? {
          return Err(STREAM_ERROR);
        }
        curlHandle.SetOpt(InFile(stream.value.value));
        curlHandle.SetOpt(InFileSize(parameters.GetFileSize(fs)));
      }
      r := Ok(());
    }

    /**
     * `request($url, $modified)`: builds the headers (which may throw before
     * anything happens), configures the handle (which throws, leaving the
     * handle configured and nothing recorded, when the staged file does not
     * open), takes the reply, resets the handle, records the code and body,
     * then throws or returns. `sent` is the list of options configured for
     * this call.
     */
    method Execute(url: string, modified: Since, fs: FileSystem, codec: Codec, reply: Reply)
      returns (r: Result<Response>, sent: seq<CurlOpt>)
      requires Valid()
      modifies this, parameters, curlHandle
      ensures Valid()
      ensures var plan := Plan(old(CurrentFlags()), old(parameters.View()), old(extraHeaders), url, modified, fs, codec);
              (plan.Err? ==>
                 r == Err(plan.error) && sent == []
                 && unchanged(this) && unchanged(parameters) && unchanged(curlHandle))
              && (plan.Ok? ==>
                 sent == plan.value && curlHandle.isOpen
                 && parameters.fileHandle == if parameters.file.Some? then Fopen(fs, parameters.file.value)
                                             else old(parameters.fileHandle))
              && (plan.Ok? && StreamFails(parameters.file, fs) ==>
                 r == Err(STREAM_ERROR) && curlHandle.opts == old(curlHandle.opts) + sent
                 && lastHttpCode == old(lastHttpCode) && lastHttpResponse == old(lastHttpResponse))
              && (plan.Ok? && !StreamFails(parameters.file, fs) ==>
                 r == Outcome(reply, parseResponse, codec) && curlHandle.opts == []
                 && lastHttpCode == Some(reply.httpCode) && lastHttpResponse == Some(reply.result))
      ensures CurrentFlags() == old(CurrentFlags()) && extraHeaders == old(extraHeaders)
      ensures parameters.View() == old(parameters.View())
    {
      var headers := PrepareHeaders(json, modified, extraHeaders, codec.httpDate);
      if headers.Err? {
        return Err(headers.error), [];
      }
      var endpoint := BuildEndpoint(url);
      r, sent := Transfer(endpoint, headers.value, fs, codec, reply);
    }

    /** `prepareEndpoint($url)` on the current parameters. */
    method BuildEndpoint(url: string) returns (endpoint: string)
      requires Valid()
      ensures endpoint == PrepareEndpoint(https, authIsGet, parameters.getParams, parameters.authParams, parameters.domain, url)
    {
      var extras: Assoc<string, Value> := [];
      if authIsGet {
        extras := CollectAuthExtras(parameters.GetAuthAll());
      }
      endpoint := Endpoint(https, Merge(parameters.GetGetAll(), extras), parameters.GetAuth("domain"), url);
    }

    /** `request` from the opening of the handle on, with the headers and endpoint prepared. */
    method Transfer(endpoint: string, headers: seq<string>, fs: FileSystem, codec: Codec, reply: Reply)
      returns (r: Result<Response>, sent: seq<CurlOpt>)
      requires Valid()
      modifies this, parameters, curlHandle
      ensures Valid()
      ensures sent == CurlOptions(old(CurrentFlags()), endpoint, headers, old(parameters.View()), fs, codec)
      ensures curlHandle.isOpen
      ensures StreamFails(parameters.file, fs) ==>
                r == Err(STREAM_ERROR) && curlHandle.opts == old(curlHandle.opts) + sent
                && lastHttpCode == old(lastHttpCode) && lastHttpResponse == old(lastHttpResponse)
      ensures !StreamFails(parameters.file, fs) ==>
                r == Outcome(reply, parseResponse, codec) && curlHandle.opts == []
                && lastHttpCode == Some(reply.httpCode) && lastHttpResponse == Some(reply.result)
      ensures parameters.fileHandle == if parameters.file.Some? then Fopen(fs, parameters.file.value)
                                       else old(parameters.fileHandle)
      ensures CurrentFlags() == old(CurrentFlags()) && extraHeaders == old(extraHeaders)
      ensures parameters.View() == old(parameters.View())
    {
      curlHandle.Open();
      var configured;
      sent, configured := Configure(endpoint, headers, fs, codec);
      if configured.Err? {
        return Err(configured.error), sent;
      }
      curlHandle.Reset();
      lastHttpCode := Some(reply.httpCode);
      lastHttpResponse := Some(reply.result);

      if reply.result == CurlFalse && !EmptyString(reply.error) {
        return Err(NetworkException(reply.error, reply.errno)), sent;
      }
      if parseResponse {
        r := Ok(Decoded(ParseResponse(reply.result, codec)));
      } else {
        r := Ok(Raw(reply.result));
      }
    }

    /** `getRequest($url, $parameters, $modified)`: non-empty parameters are merged into GET first. */
    method GetRequest(url: string, params: Assoc<string, Value>, modified: Since, fs: FileSystem, codec: Codec, reply: Reply)
      returns (r: Result<Response>, sent: seq<CurlOpt>)
      requires Valid() && UniqueKeys(params)
      modifies this, parameters, curlHandle
      ensures Valid()
      ensures parameters.View() == old(parameters.View()).(get := Merge(old(parameters.getParams), params))
      ensures CurrentFlags() == old(CurrentFlags()) && extraHeaders == old(extraHeaders)
      ensures var plan := Plan(old(CurrentFlags()), parameters.View(), old(extraHeaders), url, modified, fs, codec);
              (plan.Err? ==>
                 r == Err(plan.error) && sent == [] && unchanged(curlHandle)
                 && lastHttpCode == old(lastHttpCode) && lastHttpResponse == old(lastHttpResponse)
                 && parameters.fileHandle == old(parameters.fileHandle))
              && (plan.Ok? ==>
                 sent == plan.value && curlHandle.isOpen
                 && parameters.fileHandle == if parameters.file.Some? then Fopen(fs, parameters.file.value)
                                             else old(parameters.fileHandle))
              && (plan.Ok? && StreamFails(parameters.file, fs) ==>
                 r == Err(STREAM_ERROR) && curlHandle.opts == old(curlHandle.opts) + sent
                 && lastHttpCode == old(lastHttpCode) && lastHttpResponse == old(lastHttpResponse))
              && (plan.Ok? && !StreamFails(parameters.file, fs) ==>
                 r == Outcome(reply, parseResponse, codec) && curlHandle.opts == []
                 && lastHttpCode == Some(reply.httpCode) && lastHttpResponse == Some(reply.result))
    {
      if params != [] {
        parameters.AddGetAll(params);
      }
      r, sent := Execute(url, modified, fs, codec, reply);
    }

    /** `postRequest($url, $parameters)`: non-empty parameters are merged into POST; no `$modified`. */
    method PostRequest(url: string, params: Assoc<string, Value>, fs: FileSystem, codec: Codec, reply: Reply)
      returns (r: Result<Response>, sent: seq<CurlOpt>)
      requires Valid() && UniqueKeys(params)
      modifies this, parameters, curlHandle
      ensures Valid()
      ensures parameters.View() == old(parameters.View()).(post := Merge(old(parameters.postParams), params))
      ensures CurrentFlags() == old(CurrentFlags()) && extraHeaders == old(extraHeaders)
      ensures var plan := Plan(old(CurrentFlags()), parameters.View(), old(extraHeaders), url, NoSince, fs, codec);
              plan.Ok? && sent == plan.value && curlHandle.isOpen
              && parameters.fileHandle == (if parameters.file.Some? then Fopen(fs, parameters.file.value)
                                           else old(parameters.fileHandle))
              && (StreamFails(parameters.file, fs) ==>
                    r == Err(STREAM_ERROR) && curlHandle.opts == old(curlHandle.opts) + sent
                    && lastHttpCode == old(lastHttpCode) && lastHttpResponse == old(lastHttpResponse))
              && (!StreamFails(parameters.file, fs) ==>
                    r == Outcome(reply, parseResponse, codec) && curlHandle.opts == []
                    && lastHttpCode == Some(reply.httpCode) && lastHttpResponse == Some(reply.result))
    {
      if params != [] {
        parameters.AddPostAll(params);
      }
      r, sent := Execute(url, NoSince, fs, codec, reply);
    }
  }
}
