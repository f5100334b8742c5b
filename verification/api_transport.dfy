/**
 * The generic HTTP API alert transport: from the operator's settings and an
 * alert, build one HTTP request (method, host, auth, headers, query, body),
 * then turn the response's status code into `true` or an error string.
 *
 * The alert only ever reaches the request through template rendering, so it
 * is folded into `render` (the template engine applied to that alert).
 * `parse` is the line-by-line `key=value` option parser of the transport
 * base class. The process-wide proxy setting is an opaque value of type `P`
 * carried into the request. The HTTP call itself is a function from the
 * request to the status code it comes back with.
 */
module ApiTransport {
  import opened Wrappers
  import opened PhpText

  /** The transport's settings, as handed to the request builder. */
  datatype Config = Config(
    url: string,
    httpMethod: string,
    options: string,          // query template, one `key=value` per line
    headers: string,          // header template, one `key=value` per line
    body: string,             // body template
    user: Option<string>,     // basic-auth user name; None when unset (null)
    pass: Option<string>      // basic-auth password; None when unset (null)
  )

  datatype Verb = GET | PUT | POST

  /** The `auth` request option: the pair [user name, password]. */
  datatype Credentials = Credentials(user: string, pass: Option<string>)

  /** One outgoing HTTP request: the verb, the target and the request options. */
  datatype Request<P> = Request(
    verb: Verb,
    host: string,
    proxy: P,
    auth: Option<Credentials>,
    headers: Option<map<string, string>>,
    query: map<string, string>,
    body: Option<string>
  )

  /** What a delivery returns: PHP `true`, or a string saying why it failed. */
  datatype Outcome = Ok | Err(reason: string)

  /** The request together with the outcome its response led to. */
  datatype Delivery<P> = Delivery(request: Request<P>, outcome: Outcome)

  // ---------------------------------------------------------------------
  // Method dispatch
  // ---------------------------------------------------------------------

  /**
   * The verb a configured method string selects: `get` and `put` compared
   * after `strtolower`, and POST for every other value.
   */
  function VerbOf(httpMethod: string): (v: Verb)
    ensures v == GET <==> SpellsIgnoringCase(httpMethod, "get")
    ensures v == PUT <==> SpellsIgnoringCase(httpMethod, "put")
    ensures v == POST <==> !SpellsIgnoringCase(httpMethod, "get") && !SpellsIgnoringCase(httpMethod, "put")
  {
    LowerEqualsIffSpells(httpMethod, "get");
    LowerEqualsIffSpells(httpMethod, "put");
    var m := Lower(httpMethod);
    if m == "get" then GET
    else if m == "put" then PUT
    else POST
  }

  // ---------------------------------------------------------------------
  // Request assembly
  // ---------------------------------------------------------------------

  /** Request assembly of the transport for one alert, without sending it. */
  function BuildRequest<P>(cfg: Config, render: string -> string,
                           parse: string -> map<string, string>, proxy: P): (r: Request<P>)
    // the host is the URL cut at its first `?`
    ensures '?' !in r.host && r.host <= cfg.url
    ensures '?' !in cfg.url ==> r.host == cfg.url
    ensures '?' in cfg.url ==> cfg.url[|r.host|] == '?'
    // the proxy setting is always attached
    ensures r.proxy == proxy
    // the query always comes from the rendered option template, on every verb
    ensures r.query == parse(render(cfg.options))
    // basic auth exactly when the user name is not PHP-empty, and then the configured pair
    ensures r.auth.Some? <==> cfg.user.Some? && cfg.user.value != "" && cfg.user.value != "0"
    ensures r.auth.Some? ==> r.auth.value.user == cfg.user.value && r.auth.value.pass == cfg.pass
    // headers exactly when the rendered header template yields at least one pair
    ensures r.headers.Some? <==> |parse(render(cfg.headers))| > 0
    ensures r.headers.Some? ==> r.headers.value == parse(render(cfg.headers))
    // the verb follows the method case-insensitively, POST by default
    ensures r.verb == GET <==> SpellsIgnoringCase(cfg.httpMethod, "get")
    ensures r.verb == PUT <==> SpellsIgnoringCase(cfg.httpMethod, "put")
    // body: none for GET, the raw template for PUT, the rendered template for POST
    ensures r.verb == GET ==> r.body.None?
    ensures r.verb == PUT ==> r.body == Some(cfg.body)
    ensures r.verb == POST ==> r.body == Some(render(cfg.body))
  {
    var verb := VerbOf(cfg.httpMethod);
    var heads := parse(render(cfg.headers));
    Request(
      verb,
      StripQuery(cfg.url),
      proxy,
      if !IsEmpty(cfg.user) then Some(Credentials(cfg.user.value, cfg.pass)) else None,
      if |heads| > 0 then Some(heads) else None,
      parse(render(cfg.options)),
      match verb
      case GET => None
      case PUT => Some(cfg.body)
      case POST => Some(render(cfg.body))
    )
  }

  // ---------------------------------------------------------------------
  // Status classification
  // ---------------------------------------------------------------------

  const StatusPrefix := "HTTP Status code "

  /** The status code an error string of the transport reports, if it is one. */
  function StatusCodeOf(reason: string): Option<int>
  {
    if |StatusPrefix| <= |reason| && reason[..|StatusPrefix|] == StatusPrefix
    then ParseInt(reason[|StatusPrefix|..])
    else None
  }

  /** 200 is success; any other code is an error string naming that code in decimal. */
  function Classify(code: int): (o: Outcome)
    ensures o.Ok? <==> code == 200
    ensures o.Err? ==> StatusCodeOf(o.reason) == Some(code)
    ensures o.Err? ==> o.reason[..|StatusPrefix|] == StatusPrefix
  {
    if code != 200 then
      var reason := StatusPrefix + IntToString(code);
      IntToStringRoundTrip(code);
      assert reason[|StatusPrefix|..] == IntToString(code);
      Err(reason)
    else Ok
  }

  // ---------------------------------------------------------------------
  // Settings to delivery
  // ---------------------------------------------------------------------

  /** A text setting; the model reads a missing one (PHP null) as `""`. */
  function Setting(settings: map<string, string>, key: string): (v: string)
    ensures key in settings ==> v == settings[key]
    ensures key !in settings ==> v == ""
  {
    Lookup(settings, key).GetOr("")
  }

  /** The transport's stored settings, mapped field by field onto the builder's arguments. */
  function ConfigOf(settings: map<string, string>): (cfg: Config)
    ensures "api-url" in settings ==> cfg.url == settings["api-url"]
    ensures "api-method" in settings ==> cfg.httpMethod == settings["api-method"]
    ensures "api-options" in settings ==> cfg.options == settings["api-options"]
    ensures "api-headers" in settings ==> cfg.headers == settings["api-headers"]
    ensures "api-body" in settings ==> cfg.body == settings["api-body"]
    ensures cfg.user == Lookup(settings, "api-auth-username")
    ensures cfg.pass == Lookup(settings, "api-auth-password")
  {
    Config(
      Setting(settings, "api-url"),
      Setting(settings, "api-method"),
      Setting(settings, "api-options"),
      Setting(settings, "api-headers"),
      Setting(settings, "api-body"),
      Lookup(settings, "api-auth-username"),
      Lookup(settings, "api-auth-password")
    )
  }

  /**
   * One delivery: build the request from the settings, send it (`status`
   * stands for the HTTP call and gives the response's status code) and
   * classify the answer.
   */
  function DeliverAlert<P>(settings: map<string, string>, render: string -> string,
                           parse: string -> map<string, string>, proxy: P,
                           status: Request<P> -> int): (d: Delivery<P>)
    ensures d.request == BuildRequest(ConfigOf(settings), render, parse, proxy)
    ensures d.outcome.Ok? <==> status(d.request) == 200
    ensures d.outcome.Err? ==> StatusCodeOf(d.outcome.reason) == Some(status(d.request))
  {
    var request := BuildRequest(ConfigOf(settings), render, parse, proxy);
    Delivery(request, Classify(status(request)))
  }
}
