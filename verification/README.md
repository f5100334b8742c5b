# LibreNMS API alert transport — request construction and outcome

This project models the generic HTTP API alert transport of LibreNMS
(`LibreNMS/Alert/Transport/Api.php`). For one alert, the transport takes the
operator's settings (URL, method, header template, option template, body
template, basic-auth user name and password) and builds one HTTP request:

- the host is the URL cut at its first `?`, because the query string is rebuilt from the option template;
- the method string is lower-cased and dispatched: `get` gives GET, `put` gives PUT, anything else gives POST;
- basic auth is attached only when the user name is not PHP-`empty`;
- headers are attached only when the rendered header template yields at least one pair;
- the query always comes from the rendered option template, on every verb;
- GET sends no body, PUT sends the body template unrendered, POST sends it rendered.

The response's status code then becomes `true` (200) or the string
`"HTTP Status code <code>"`.

Modules:

- `Wrappers` (`wrappers.dfy`): `Option` (PHP `null` or a value) and map lookup.
- `PhpText` (`php_text.dfy`): the PHP built-ins the transport uses:
  - ASCII `strtolower`;
  - `explode` with limit 2;
  - `empty()` on null or a string;
  - int-to-decimal conversion, with a parser that reads the decimal back.
- `ApiTransport` (`api_transport.dfy`): `Config`, `Request`, `Outcome`, `BuildRequest`, `Classify`, and `ConfigOf`/`DeliverAlert` for `deliverAlert`.
- `ApiProperties` (`api_properties.dfy`): relational properties, plus the worked examples of a GET, a PUT and a POST.

Parameters stand for the parts outside this model:

- `render: string -> string` is `SimpleTemplate::parse` applied to the alert. The alert reaches the request only through rendering.
- `parse: string -> map<string, string>` is `parseUserOptions` of the transport base class.
- `proxy: P` is the value of `Proxy::forGuzzle()`, carried into the request unchanged.
- `status: Request<P> -> int` is the HTTP call, reduced to the status code it answers with.

The source sends the PUT body template without rendering it, but renders the
POST body. This asymmetry is modelled as written (`BuildRequest`,
`BodyRenderedOnlyForPost`).

## Model

| member | source | states |
|---|---|---|
| `Wrappers.Lookup` | LibreNMS/Alert/Transport/Api.php:42 | a setting is present exactly when its key is stored, and then it is the stored value; a missing setting reads as null |
| `PhpText.Lower` | LibreNMS/Alert/Transport/Api.php:51 | `strtolower` keeps the length, lower-cases each character, and leaves no ASCII capital behind |
| `PhpText.LowerIdempotent` | LibreNMS/Alert/Transport/Api.php:51 | lower-casing an already lower-cased method changes nothing |
| `PhpText.LowerEqualsIffSpells` | LibreNMS/Alert/Transport/Api.php:67-70 | `strtolower($m) == 'get'` (or `'put'`) holds exactly when `m` spells that word in any mix of ASCII case, both directions |
| `PhpText.IndexOf` | LibreNMS/Alert/Transport/Api.php:52 | finds the first occurrence of the delimiter: absent exactly when the delimiter is not in the text, otherwise the position holds it and nothing before does |
| `PhpText.Explode2` | LibreNMS/Alert/Transport/Api.php:52 | `explode` with limit 2 gives one or two pieces; the first has no delimiter; there is one piece exactly when the text has no delimiter; joining the pieces back gives the text |
| `PhpText.StripQuery` | LibreNMS/Alert/Transport/Api.php:52 | the host is a prefix of the URL with no `?`; it is the whole URL when there is no `?`, and otherwise the next URL character is the first `?` |
| `PhpText.StripQueryIdempotent` | LibreNMS/Alert/Transport/Api.php:52 | stripping the query part of a host again changes nothing |
| `PhpText.StripQueryIgnoresQuery` | LibreNMS/Alert/Transport/Api.php:52 | for a `?`-free base, `base?anything` strips to `base` whatever follows the `?` |
| `PhpText.IsEmpty` | LibreNMS/Alert/Transport/Api.php:61 | PHP `empty()`: an empty value is null or at most one character, and the only empty one-character string is `"0"` |
| `PhpText.EmptyExamples` | LibreNMS/Alert/Transport/Api.php:61 | null, `""` and `"0"` are empty; `"00"`, `"0.0"`, `" "`, `"false"` and an ordinary name are not |
| `PhpText.NatToString` | LibreNMS/Alert/Transport/Api.php:89 | the decimal form of a natural number is a non-empty run of digits whose value is the number, starting with `0` only when it is `"0"` |
| `PhpText.CanonicalDigitsAreNatToString` | LibreNMS/Alert/Transport/Api.php:89 | every run of digits without a leading zero is the decimal form of its own value, so that form is unique |
| `PhpText.IntToString` | LibreNMS/Alert/Transport/Api.php:89 | an int prints as the digits of its magnitude with no leading zero, preceded by `-` exactly when it is negative, and those digits have the magnitude as value |
| `PhpText.IntToStringRoundTrip` | LibreNMS/Alert/Transport/Api.php:89 | the printed code reads back as the same int |
| `PhpText.IntToStringInjective` | LibreNMS/Alert/Transport/Api.php:89 | different ints print differently |
| `PhpText.ParseIntOnlyCanonical` | LibreNMS/Alert/Transport/Api.php:89 | the printed form of an int is the only string that reads back as that int: zero-padded forms and `-0` do not |
| `ApiTransport.VerbOf` | LibreNMS/Alert/Transport/Api.php:67-78 | the verb is GET exactly for case variants of `get`, PUT exactly for case variants of `put`, and POST for every other method string, including `POST`, `""` and unknown verbs |
| `ApiTransport.BuildRequest` | LibreNMS/Alert/Transport/Api.php:47-78 | host is the URL before the first `?`; proxy always attached; query is the parsed rendered options on every verb; auth present iff the user name is not null, `""` or `"0"`, and then it is the configured pair; headers present iff the parsed rendered header template is non-empty, and then equal to it; verb by case-insensitive dispatch; no body for GET, raw template for PUT, rendered template for POST |
| `ApiTransport.Classify` | LibreNMS/Alert/Transport/Api.php:80-92 | success exactly for status 200; any other code gives a reason that starts with `HTTP Status code ` and reads back as exactly that code |
| `ApiTransport.Setting` | LibreNMS/Alert/Transport/Api.php:37-41 | a stored text setting is read unchanged; a missing one is read as `""` |
| `ApiTransport.ConfigOf` | LibreNMS/Alert/Transport/Api.php:37-43 | each stored setting reaches the builder unchanged in its own field; user name and password are passed as stored, null when missing |
| `ApiTransport.DeliverAlert` | LibreNMS/Alert/Transport/Api.php:35-45 | the request sent is the one built from the stored settings; the outcome is success iff that request is answered with 200, and otherwise names the answered code |
| `ApiProperties.UrlQueryIgnored` | LibreNMS/Alert/Transport/Api.php:52 | appending `?query` to a `?`-free URL yields the very same request: the URL's own query never reaches the request |
| `ApiProperties.MethodCaseIrrelevant` | LibreNMS/Alert/Transport/Api.php:51 | two method strings that lower-case alike build identical requests |
| `ApiProperties.UnknownMethodIsPost` | LibreNMS/Alert/Transport/Api.php:74-78 | a method that is no case variant of `get` or `put` builds exactly the request `POST` builds |
| `ApiProperties.BodyRenderedOnlyForPost` | LibreNMS/Alert/Transport/Api.php:67-73 | for GET and PUT the request does not depend on how the body template would render |
| `ApiProperties.PostBodyIsRendered` | LibreNMS/Alert/Transport/Api.php:74-77 | for POST, renderers that disagree on the body template produce different bodies |
| `ApiProperties.QueryDependsOnOptionsOnly` | LibreNMS/Alert/Transport/Api.php:57 | two settings with the same option template yield the same query, whatever their URL, method, body or credentials |
| `ApiProperties.ClassifyInjective` | LibreNMS/Alert/Transport/Api.php:89 | different status codes never give the same outcome |
| `ApiProperties.ClassifyReasonExact` | LibreNMS/Alert/Transport/Api.php:80-92 | a code gives failure reason `reason` exactly when the code is not 200 and `reason` is `HTTP Status code ` followed by that code in canonical decimal, so the reason string is fully determined |
| `ApiProperties.DeliverAlertReadsApiKeysOnly` | LibreNMS/Alert/Transport/Api.php:35-45 | two stored settings maps that agree on the seven `api-*` keys deliver identically: no other setting has an influence |
| `ApiProperties.ExampleHost` | LibreNMS/Alert/Transport/Api.php:52 | `https://hooks.example/x?ignored=1` has host `https://hooks.example/x` |
| `ApiProperties.GetScenario` | LibreNMS/Alert/Transport/Api.php:52-69 | a GET with a query in its URL and no user name has no body and no auth, and its query comes from the options |
| `ApiProperties.PutScenario` | LibreNMS/Alert/Transport/Api.php:61-73 | a PUT with user name `"0"` sends `raw-{{severity}}` verbatim and no auth |
| `ApiProperties.ServerErrorScenario` | LibreNMS/Alert/Transport/Api.php:80-89 | status 500 gives exactly `HTTP Status code 500` |
| `ApiProperties.PostScenario` | LibreNMS/Alert/Transport/Api.php:74-77 | `POST` and `DELETE` both build a POST whose body is the rendered template |

## Left out

- The Guzzle client and its `request` call: the network is replaced by the `status` parameter. Connection errors, timeouts and other exceptions thrown by the client are not modelled.
- Guzzle's default `http_errors` setting throws on 4xx and 5xx answers before `getStatusCode` is reached. The model classifies every status code as lines 80-92 are written.
- `Proxy::forGuzzle()`: an opaque value of type `P`, carried into the request without interpretation.
- The `var_dump` diagnostics on a non-200 answer: logging only, with no effect on the result.
- `SimpleTemplate::parse` and `parseUserOptions` are not part of this model. They are the `render` and `parse` parameters, and nothing is assumed about placeholders or line splitting.
- `configTemplate` and its validation rules: declarative form metadata, with no request logic.
- `PhpText.Lower`: ASCII only, the locale-independent `strtolower`. Locale-dependent case mapping of non-ASCII bytes is not modelled.
- `ApiTransport.ConfigOf`: the model reads a missing URL, method, options, headers or body setting as `""`. For URL and method this is what `explode` and `strtolower` do with null. Missing headers, options and body go to the template engine, which is not part of this model, so what it does with null (convert it or throw) is not modelled. For a PUT, a null body and an empty body are not told apart.
- Strings are sequences of characters standing for PHP's byte strings. No encoding is modelled.
