/**
 * Properties relating several requests or outcomes of the API transport:
 * what the request does not depend on, and how outcomes identify codes.
 */
module ApiProperties {
  import opened Wrappers
  import opened PhpText
  import opened ApiTransport

  /** A query part written into the URL never reaches the request: the query comes from the options alone. */
  lemma UrlQueryIgnored<P>(cfg: Config, base: string, urlQuery: string, render: string -> string,
                           parse: string -> map<string, string>, proxy: P)
    requires '?' !in base
    ensures BuildRequest(cfg.(url := base + ['?'] + urlQuery), render, parse, proxy)
         == BuildRequest(cfg.(url := base), render, parse, proxy)
  {
    StripQueryIgnoresQuery(base, urlQuery);
  }

  /** Two method strings that lower-case alike build the same request. */
  lemma MethodCaseIrrelevant<P>(cfg: Config, m1: string, m2: string, render: string -> string,
                                parse: string -> map<string, string>, proxy: P)
    requires Lower(m1) == Lower(m2)
    ensures BuildRequest(cfg.(httpMethod := m1), render, parse, proxy)
         == BuildRequest(cfg.(httpMethod := m2), render, parse, proxy)
  {
  }

  /** A method that spells neither `get` nor `put` in any case behaves exactly as `POST`. */
  lemma UnknownMethodIsPost<P>(cfg: Config, m: string, render: string -> string,
                               parse: string -> map<string, string>, proxy: P)
    requires !SpellsIgnoringCase(m, "get") && !SpellsIgnoringCase(m, "put")
    ensures BuildRequest(cfg.(httpMethod := m), render, parse, proxy)
         == BuildRequest(cfg.(httpMethod := "POST"), render, parse, proxy)
  {
  }

  /**
   * GET and PUT never render the body template: two renderers that agree on
   * the header and option templates give the same GET or PUT request, however
   * they treat the body.
   */
  lemma BodyRenderedOnlyForPost<P>(cfg: Config, render1: string -> string, render2: string -> string,
                                   parse: string -> map<string, string>, proxy: P)
    requires render1(cfg.headers) == render2(cfg.headers)
    requires render1(cfg.options) == render2(cfg.options)
    requires SpellsIgnoringCase(cfg.httpMethod, "get") || SpellsIgnoringCase(cfg.httpMethod, "put")
    ensures BuildRequest(cfg, render1, parse, proxy) == BuildRequest(cfg, render2, parse, proxy)
  {
  }

  /** A POST body is the rendered template: renderers that differ on the body template give different POST requests. */
  lemma PostBodyIsRendered<P>(cfg: Config, render1: string -> string, render2: string -> string,
                              parse: string -> map<string, string>, proxy: P)
    requires !SpellsIgnoringCase(cfg.httpMethod, "get") && !SpellsIgnoringCase(cfg.httpMethod, "put")
    requires render1(cfg.body) != render2(cfg.body)
    ensures BuildRequest(cfg, render1, parse, proxy).body != BuildRequest(cfg, render2, parse, proxy).body
  {
  }

  /** The query depends on the option template only: not on the URL, the method, the body or the credentials. */
  lemma QueryDependsOnOptionsOnly<P>(cfg1: Config, cfg2: Config, render: string -> string,
                                     parse: string -> map<string, string>, proxy: P)
    requires cfg1.options == cfg2.options
    ensures BuildRequest(cfg1, render, parse, proxy).query == BuildRequest(cfg2, render, parse, proxy).query
  {
  }

  /** Different status codes never produce the same outcome. */
  lemma ClassifyInjective(a: int, b: int)
    requires Classify(a) == Classify(b)
    ensures a == b
  {
  }

  /**
   * The failure reason for a code is the one string that names that code in
   * canonical decimal after `HTTP Status code `: no other string, zero-padded
   * or otherwise, is the reason for it.
   */
  lemma ClassifyReasonExact(code: int, reason: string)
    ensures Classify(code) == Err(reason) <==> code != 200 && StatusCodeOf(reason) == Some(code)
  {
    if code != 200 && StatusCodeOf(reason) == Some(code) {
      var digits := reason[|StatusPrefix|..];
      ParseIntOnlyCanonical(digits, code);
      assert reason == StatusPrefix + digits;
    }
  }

  /** The seven transport settings that `deliverAlert` reads. */
  const ApiKeys: set<string> := {"api-url", "api-method", "api-options", "api-headers", "api-body",
                                 "api-auth-username", "api-auth-password"}

  /** Two stored settings maps that agree on every transport key. */
  predicate AgreeOnApiKeys(s1: map<string, string>, s2: map<string, string>)
  {
    forall k :: k in ApiKeys ==> Lookup(s1, k) == Lookup(s2, k)
  }

  /** Delivery reads only the seven transport settings: any other stored key has no influence. */
  lemma DeliverAlertReadsApiKeysOnly<P>(s1: map<string, string>, s2: map<string, string>,
                                         render: string -> string, parse: string -> map<string, string>,
                                         proxy: P, status: Request<P> -> int)
    requires AgreeOnApiKeys(s1, s2)
    ensures DeliverAlert(s1, render, parse, proxy, status) == DeliverAlert(s2, render, parse, proxy, status)
  {
  }

  /** The host of the example URL below: its query part cut away. */
  lemma ExampleHost()
    ensures StripQuery("https://hooks.example/x?ignored=1") == "https://hooks.example/x"
  {
    var url := "https://hooks.example/x?ignored=1";
    assert url == "https://hooks.example/x" + ['?'] + "ignored=1";
    StripQueryIgnoresQuery("https://hooks.example/x", "ignored=1");
  }

  /** A GET whose URL carries its own query: the host is that URL cut at `?` (`ExampleHost`), the query comes from the options, no body is sent. */
  lemma GetScenario<P>(render: string -> string, parse: string -> map<string, string>, proxy: P)
    ensures var cfg := Config("https://hooks.example/x?ignored=1", "GET", "sev={{severity}}", "", "",
                              None, None);
            var r := BuildRequest(cfg, render, parse, proxy);
            && r.verb == GET && r.host == StripQuery(cfg.url) && r.body == None
            && r.auth == None && r.query == parse(render("sev={{severity}}"))
  {
  }

  /** A PUT sends its body template as written, and a user name `"0"` counts as no user name. */
  lemma PutScenario<P>(render: string -> string, parse: string -> map<string, string>, proxy: P)
    ensures var cfg := Config("https://hooks.example/x", "PUT", "", "", "raw-{{severity}}",
                              Some("0"), Some("secret"));
            var r := BuildRequest(cfg, render, parse, proxy);
            && r.verb == PUT && r.body == Some("raw-{{severity}}") && r.auth == None
  {
  }

  /** A 500 answer is reported as `HTTP Status code 500`. */
  lemma ServerErrorScenario()
    ensures Classify(500) == Err("HTTP Status code 500")
  {
  }

  /** A POST, and an unknown method alike, send the rendered body template. */
  lemma PostScenario<P>(render: string -> string, parse: string -> map<string, string>, proxy: P)
    ensures var cfg := Config("https://hooks.example/x", "POST", "", "", "raw-{{severity}}", None, None);
            var r := BuildRequest(cfg, render, parse, proxy);
            r.verb == POST && r.body == Some(render("raw-{{severity}}"))
    ensures var cfg := Config("https://hooks.example/x", "DELETE", "", "", "raw-{{severity}}", None, None);
            var r := BuildRequest(cfg, render, parse, proxy);
            r.verb == POST && r.body == Some(render("raw-{{severity}}"))
  {
  }
}
