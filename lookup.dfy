/**
 * Where the key-auth middleware finds the bearer token of a request
 * (middlewares/keyauth/lookup.go). A lookup spec `"<source>:<name>"` selects an
 * extractor; each extractor is kept as data (`Extractor`) and run by `Extract`
 * on a request whose header, query, form, URL-parameter and cookie values are
 * given as maps.
 */
module KeyAuth {
  import opened Errors
  import Strings

  /** What an extractor returns: the key, or `ErrMissingOrMalformedAPIKey`. */
  datatype Lookup = Found(key: string) | MissingOrMalformed

  /** The parts of a request an extractor can read; a missing name reads as "". */
  datatype Request = Request(
    headers: map<string, string>,
    query: map<string, string>,
    form: map<string, string>,
    params: map<string, string>,
    cookies: map<string, string>)

  datatype Source = Header | Query | Form | Param | Cookie

  /** The closure `LookupTokenFunc` returns: where to look, under which name, with which scheme. */
  datatype Extractor = Extractor(source: Source, name: string, authScheme: string)

  /** `NewOptions`' defaults: the `Authorization` header with the `Bearer` scheme. */
  const DefaultKeyLookup: string := "header:Authorization"
  const DefaultAuthScheme: string := "Bearer"

  function Value(m: map<string, string>, name: string): string
  {
    if name in m then m[name] else ""
  }

  /** The switch of `LookupTokenFunc`: four named sources, and the header for anything else. */
  function SourceOf(s: string): (src: Source)
    ensures src == Query <==> s == "query"
    ensures src == Form <==> s == "form"
    ensures src == Param <==> s == "param"
    ensures src == Cookie <==> s == "cookie"
    ensures src == Header <==> s != "query" && s != "form" && s != "param" && s != "cookie"
  {
    if s == "query" then Query
    else if s == "form" then Form
    else if s == "param" then Param
    else if s == "cookie" then Cookie
    else Header
  }

  /**
   * `LookupTokenFunc`: the spec must split on ':' into exactly two parts; None
   * stands for the panic the Go code raises otherwise.
   */
  function LookupTokenFunc(keyLookup: string, authScheme: string): (r: Option<Extractor>)
    ensures r.Some? <==> Strings.Count(keyLookup, ':') == 1
    ensures r.Some? ==> r.value.authScheme == authScheme && ':' !in r.value.name
  {
    Strings.SplitCount(keyLookup, ':');
    var parts := Strings.Split(keyLookup, ':');
    if |parts| != 2 then None
    else Some(Extractor(SourceOf(parts[0]), parts[1], authScheme))
  }

  /**
   * `KeyFromHeader` on the header's value: with no scheme any non-empty value is
   * the key; with a scheme, a value longer than the scheme plus one character
   * that starts with the scheme yields what follows that character (which is not
   * checked to be a space).
   */
  function KeyFromHeader(auth: string, authScheme: string): (r: Lookup)
    ensures r.Found? ==> r.key != ""
    ensures authScheme == "" ==> r == (if auth != "" then Found(auth) else MissingOrMalformed)
    ensures authScheme != "" ==>
      (r.Found? <==> |auth| > |authScheme| + 1 && auth[..|authScheme|] == authScheme)
    ensures authScheme != "" && r.Found? ==> auth == authScheme + [auth[|authScheme|]] + r.key
  {
    var l := |authScheme|;
    if |auth| > 0 && l == 0 then Found(auth)
    else if |auth| > l + 1 && auth[..l] == authScheme then Found(auth[l + 1..])
    else MissingOrMalformed
  }

  /** The shared body of the query, form, param and cookie extractors. */
  function NonEmpty(key: string): (r: Lookup)
    ensures r.Found? <==> key != ""
    ensures r.Found? ==> r.key == key
  {
    if key == "" then MissingOrMalformed else Found(key)
  }

  function KeyFromQuery(req: Request, param: string): (r: Lookup)
    ensures r.Found? <==> Value(req.query, param) != ""
    ensures r.Found? ==> r.key == Value(req.query, param)
  {
    NonEmpty(Value(req.query, param))
  }

  function KeyFromForm(req: Request, param: string): (r: Lookup)
    ensures r.Found? <==> Value(req.form, param) != ""
    ensures r.Found? ==> r.key == Value(req.form, param)
  {
    NonEmpty(Value(req.form, param))
  }

  function KeyFromParam(req: Request, param: string): (r: Lookup)
    ensures r.Found? <==> Value(req.params, param) != ""
    ensures r.Found? ==> r.key == Value(req.params, param)
  {
    NonEmpty(Value(req.params, param))
  }

  function KeyFromCookie(req: Request, name: string): (r: Lookup)
    ensures r.Found? <==> Value(req.cookies, name) != ""
    ensures r.Found? ==> r.key == Value(req.cookies, name)
  {
    NonEmpty(Value(req.cookies, name))
  }

  /** Running the extractor `LookupTokenFunc` chose. */
  function Extract(e: Extractor, req: Request): (r: Lookup)
    ensures r.Found? ==> r.key != ""
    ensures e.source == Header ==> r == KeyFromHeader(Value(req.headers, e.name), e.authScheme)
    ensures e.source == Query ==> (r.Found? <==> Value(req.query, e.name) != "")
    ensures e.source == Form ==> (r.Found? <==> Value(req.form, e.name) != "")
    ensures e.source == Param ==> (r.Found? <==> Value(req.params, e.name) != "")
    ensures e.source == Cookie ==> (r.Found? <==> Value(req.cookies, e.name) != "")
  {
    match e.source
    case Header => KeyFromHeader(Value(req.headers, e.name), e.authScheme)
    case Query => KeyFromQuery(req, e.name)
    case Form => KeyFromForm(req, e.name)
    case Param => KeyFromParam(req, e.name)
    case Cookie => KeyFromCookie(req, e.name)
  }

  /** Writing a spec as `<source>:<name>` and looking it up gives back the source's extractor and the name. */
  lemma LookupRoundTrip(source: string, name: string, authScheme: string)
    requires ':' !in source && ':' !in name
    ensures LookupTokenFunc(source + ":" + name, authScheme) == Some(Extractor(SourceOf(source), name, authScheme))
  {
    var parts := [source, name];
    assert Strings.Join(parts[1..], ':') == name;
    assert Strings.Join(parts, ':') == source + ":" + name;
    Strings.SplitJoin(parts, ':');
  }

  /** The default lookup spec selects the `Authorization` header. */
  lemma DefaultLookupIsHeader()
    ensures LookupTokenFunc(DefaultKeyLookup, DefaultAuthScheme) == Some(Extractor(Header, "Authorization", DefaultAuthScheme))
  {
    var source, name := "header", "Authorization";
    assert ':' !in source && ':' !in name;
    LookupRoundTrip(source, name, DefaultAuthScheme);
    assert source + ":" + name == DefaultKeyLookup;
  }

  /** With the default options a request carrying `Authorization: Bearer <key>` yields `<key>`. */
  lemma DefaultLookupReadsBearer(req: Request, key: string)
    requires key != ""
    requires Value(req.headers, "Authorization") == DefaultAuthScheme + " " + key
    ensures Extract(Extractor(Header, "Authorization", DefaultAuthScheme), req) == Found(key)
  {
    HeaderRoundTrip(DefaultAuthScheme, ' ', key);
  }

  /** A scheme, any one separator and a non-empty key: the header extractor returns the key. */
  lemma HeaderRoundTrip(authScheme: string, sep: char, key: string)
    requires authScheme != "" && key != ""
    ensures KeyFromHeader(authScheme + [sep] + key, authScheme) == Found(key)
  {
    var auth := authScheme + [sep] + key;
    assert auth[..|authScheme|] == authScheme;
    assert auth[|authScheme| + 1..] == key;
  }
}
