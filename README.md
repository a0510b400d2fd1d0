# hyperf-packages core, modelled in Dafny

This project models five self-contained pieces of the hyperf-packages
repository (a Laravel-style layer over the Hyperf PHP framework) and proves
what they promise.

- **Named-route URL generator** (`url_generator.dfy`,
  `url_generator_cases.dfy`, `percent_encoding.dfy`). Routes are lists of
  literal parts and `{name}` placeholders. `route(name, vars)` fills the
  placeholders. The variables no placeholder uses go into a `k=v&k=v`
  query string, in the order they were given. `to(path, extras, secure)`
  leaves absolute targets alone. Otherwise it joins the request root, the
  path and the percent-encoded extras. `secure` forces `https`. The root
  (scheme and host only) is cached on the generator the first time it is
  needed. The generator's own source is not part of this model; its unit
  test is the contract, and every assertion of that test is a lemma in
  `url_generator_cases.dfy`.
- **Global helpers** (`helpers.dfy`, `php_values.dfy`): `base_path`,
  `app_path`, `database_path`, `cookie`, `cache`, `app` and the argument
  defaulting of `dispatch`, over a model of PHP values, truthiness, `??`
  and the `(string)`/`(int)` casts.
- **TransformsRequest middleware** (`transforms_request.dfy`), modelled
  imperatively:
  - a `Transformer` class whose `ProcessArray` rewrites an array entry by
    entry in a loop, recursing into nested arrays;
  - a `SkipCallbacks` class holding the static list `skipWhen` appends to;
  - `ShouldSkip`, whose loop returns at the first callback that answers yes;
  - `Handle`, which writes the processed request into a `RequestContext`.
  `ProcessArray`, `ProcessInput` and `Handle` are proved against the
  specification function `Transformed`; `ShouldSkip` and `SkipWhen` are
  specified directly over the callback list.
- **Prompt string helpers** (`interacts_with_strings.dfy`): `pad`,
  `longest` and `stripEscapeSequences`. ANSI stripping is concrete; the
  display width and the style-tag stripping are parameters.
- **JWT expiry check** (`expired_claim.dfy`): a token is rejected exactly
  when `exp + leeway < now`. The clock is a parameter.

The generator's test pins `route('bar')`, whose route is `/foo/{bar}`, to
`/foo` when no `bar` is given. The model therefore stops rendering at the
first placeholder with no variable and trims one trailing `/` from what was
rendered.

## Model

| member | source | states |
|---|---|---|
| UrlGenerator.NamedRoute | tests/Router/UrlGeneratorTest.php:74-87 | an unknown route name, and only that, is an error with the message `Route [name] not defined.`; a known one yields the route's path and query |
| UrlGenerator.Lookup | tests/Router/UrlGeneratorTest.php:68 | a placeholder finds a value exactly when a variable of that name was given, and the value is that variable's |
| UrlGenerator.Leftover | tests/Router/UrlGeneratorTest.php:69-71 | the query keeps exactly the variables whose key no placeholder used, and never adds any |
| UrlGenerator.RenderAllPresent | tests/Router/UrlGeneratorTest.php:68-71 | when every placeholder has a variable, rendering fills each one and uses all the placeholder names |
| UrlGenerator.RoutePathAllPresent | tests/Router/UrlGeneratorTest.php:68-71 | with every placeholder given, the URL is the filled route plus the query of the unused variables |
| UrlGenerator.RenderStopsAtMissing | tests/Router/UrlGeneratorTest.php:67 | rendering stops at the first placeholder with no variable, keeping only the filled prefix |
| UrlGenerator.RoutePathMissing | tests/Router/UrlGeneratorTest.php:67 | a missing placeholder gives the filled prefix less one trailing `/`, plus the query of the unused variables |
| UrlGenerator.LiteralRoute | tests/Router/UrlGeneratorTest.php:64-66 | a route without placeholders is its literal text plus every variable as query |
| UrlGenerator.LiteralRender | tests/Router/UrlGeneratorTest.php:64 | a route without placeholders renders to its literal text and uses no names |
| UrlGenerator.LeftoverNoneUsed | tests/Router/UrlGeneratorTest.php:65-66 | when no placeholder uses a key, every variable stays in the query, in order |
| UrlGenerator.LeftoverAppend | tests/Router/UrlGeneratorTest.php:66-71 | the query order follows the order the variables were given |
| UrlGenerator.SplitNoDelimiter | tests/Router/UrlGeneratorTest.php:66 | splitting text with no delimiter gives the text itself |
| UrlGenerator.SplitAfterDelimiter | tests/Router/UrlGeneratorTest.php:66 | splitting cuts at the first delimiter |
| UrlGenerator.SplitJoin | tests/Router/UrlGeneratorTest.php:66 | joining pieces free of the delimiter and splitting again gives the pieces back |
| UrlGenerator.BuildQueryIsJoin | tests/Router/UrlGeneratorTest.php:66 | the query string is the encoded `k=v` pairs joined by `&` |
| UrlGenerator.ParsePairInverse | tests/Router/UrlGeneratorTest.php:65 | an encoded `k=v` pair decodes back to its key and value |
| UrlGenerator.QueryRoundTrip | tests/Router/UrlGeneratorTest.php:65-71 | parsing the generated query string gives back exactly the variables, in order |
| UrlGenerator.RootOf | tests/Router/UrlGeneratorTest.php:140-141 | the root keeps the request's scheme and host and drops path, query and fragment |
| UrlGenerator.ToPassesThrough | tests/Router/UrlGeneratorTest.php:104-111 | `to` returns an already valid URL unchanged, whatever the extras and `secure` |
| UrlGenerator.ToRelative | tests/Router/UrlGeneratorTest.php:114-123 | a relative path becomes scheme `://` host `/` path, then `/` and the encoded extras |
| UrlGenerator.ToIdempotent | tests/Router/UrlGeneratorTest.php:104-111 | a generated URL is itself valid, so passing it to `to` again changes nothing |
| UrlGenerator.GeneratedPrefix | tests/Router/UrlGeneratorTest.php:95 | a generated URL starts with the chosen scheme, `://` and the host |
| UrlGenerator.AbsoluteByPrefix | tests/Router/UrlGeneratorTest.php:104-111 | any text starting with scheme `://` host counts as an absolute URL |
| UrlGenerator.SchemeLengthOfUrl | tests/Router/UrlGeneratorTest.php:107-111 | the scheme of `scheme:rest` is read up to the colon |
| UrlGenerator.TailShape | tests/Router/UrlGeneratorTest.php:120-122 | non-empty extras give a tail that neither starts nor ends with `/` |
| UrlGenerator.EncodeNonEmpty | tests/Router/UrlGeneratorTest.php:121 | an encoded non-empty segment is non-empty and has no `/` at either end |
| UrlGenerator.TrimNothing | tests/Router/UrlGeneratorTest.php:95 | trimming `/` from text with no `/` at either end leaves it alone |
| UrlGenerator.TrimRightSlash | tests/Router/UrlGeneratorTest.php:95 | trimming removes the `/` appended after an empty tail |
| UrlGenerator.TrimRightKeeps | tests/Router/UrlGeneratorTest.php:95 | right trimming never cuts into a prefix that ends in a non-`/` |
| UrlGenerator.TrimLeftCutsSlashes | tests/Router/UrlGeneratorTest.php:120 | `ltrim($s, '/')` is a suffix of `s` that does not start with `/`, and everything it drops is `/` |
| UrlGenerator.TrimRightCutsSlashes | tests/Router/UrlGeneratorTest.php:120 | `rtrim($s, '/')` is a prefix of `s` that does not end with `/`, and everything it drops is `/` |
| UrlGenerator.TrimSlashesCutsSlashes | tests/Router/UrlGeneratorTest.php:120 | `trim($s, '/')` is one contiguous piece of `s` with no `/` at either end, and everything before and after it is `/` |
| UrlGenerator.SchemeLength | tests/Router/UrlGeneratorTest.php:104-111 | the scheme is the longest leading run of scheme characters |
| UrlGenerator.IndexOf | tests/Router/UrlGeneratorTest.php:65 | the position of the first occurrence, or the length when there is none |
| UrlGenerator.Generator.Route | tests/Router/UrlGeneratorTest.php:64-87 | the generator's `route` is `NamedRoute` of its route table, so it fails exactly for an unknown name |
| UrlGenerator.Generator.To | tests/Router/UrlGeneratorTest.php:134-142 | a valid URL passes and the cache is untouched; otherwise the root is cached once and reused, and the URL is built from it |
| UrlGenerator.Generator.Secure | tests/Router/UrlGeneratorTest.php:144-152 | `secure` is `to` with `https` forced |
| UrlGeneratorCases.TestRootIsRootOfRequest | tests/Router/UrlGeneratorTest.php:140-141 | the root of `http://example.com/foo?bar=baz#boom` is `http://example.com` |
| UrlGeneratorCases.RouteFooPlain | tests/Router/UrlGeneratorTest.php:64 | `route('foo')` is `/foo` |
| UrlGeneratorCases.RouteFooOneQuery | tests/Router/UrlGeneratorTest.php:65 | `route('foo', ['bar' => 1])` is `/foo?bar=1` |
| UrlGeneratorCases.RouteFooTwoQuery | tests/Router/UrlGeneratorTest.php:66 | `route('foo', ['bar' => 1, 'baz' => 2])` is `/foo?bar=1&baz=2` |
| UrlGeneratorCases.RouteBarMissing | tests/Router/UrlGeneratorTest.php:67 | `route('bar')` is `/foo` |
| UrlGeneratorCases.RouteBarGiven | tests/Router/UrlGeneratorTest.php:68 | `route('bar', ['bar' => 1])` is `/foo/1` |
| UrlGeneratorCases.RouteBarExtra | tests/Router/UrlGeneratorTest.php:69 | `route('bar', ['bar' => 1, 'baz' => 2])` is `/foo/1?baz=2` |
| UrlGeneratorCases.RouteBazGiven | tests/Router/UrlGeneratorTest.php:70 | `route('baz', ['bar' => 1])` is `/foo/1/baz` |
| UrlGeneratorCases.RouteBazExtra | tests/Router/UrlGeneratorTest.php:71 | `route('baz', ['bar' => 1, 'baz' => 2])` is `/foo/1/baz?baz=2` |
| UrlGeneratorCases.TestRoutesResolve | tests/Router/UrlGeneratorTest.php:56-60 | the three registered names resolve to their routes |
| UrlGeneratorCases.RouteNotDefinedCase | tests/Router/UrlGeneratorTest.php:78-86 | with no routes, `route('foo')` fails with `Route [foo] not defined.` |
| UrlGeneratorCases.ValidHttp | tests/Router/UrlGeneratorTest.php:104-105 | `http://example.com` and `https://example.com` are returned unchanged |
| UrlGeneratorCases.ValidSchemeRelative | tests/Router/UrlGeneratorTest.php:106-110 | `//example.com` and `#foo` are returned unchanged |
| UrlGeneratorCases.ValidMailTelSms | tests/Router/UrlGeneratorTest.php:107-109 | `mailto:`, `tel:` and `sms:` targets are returned unchanged |
| UrlGeneratorCases.ValidFtp | tests/Router/UrlGeneratorTest.php:111 | `ftp://example.com` is returned unchanged |
| UrlGeneratorCases.RelativeFoo | tests/Router/UrlGeneratorTest.php:95 | `foo` is not an absolute URL |
| UrlGeneratorCases.ToFoo | tests/Router/UrlGeneratorTest.php:95 | `to('foo')` is `http://example.com/foo` |
| UrlGeneratorCases.ToFooSecure | tests/Router/UrlGeneratorTest.php:131 | `to('foo', secure: true)` and `secure('foo')` are `https://example.com/foo` |
| UrlGeneratorCases.ToWithSegments | tests/Router/UrlGeneratorTest.php:120 | `to('foo', ['bar', 'baz'])` is `http://example.com/foo/bar/baz` |
| UrlGeneratorCases.ToWithReserved | tests/Router/UrlGeneratorTest.php:121 | `to('foo', ['?', '='])` is `http://example.com/foo/%3F/%3D` |
| UrlGeneratorCases.ToWithRoutable | tests/Router/UrlGeneratorTest.php:122 | a routable object with key 1 contributes the segment `1` |
| UrlGeneratorCases.SecureWithSegment | tests/Router/UrlGeneratorTest.php:151 | `secure('foo', ['bar'])` is `https://example.com/foo/bar` |
| UrlGeneratorCases.RootCacheCase | tests/Router/UrlGeneratorTest.php:134-142 | after `to('foo')` the cached root reads `http://example.com` |
| PercentEncoding.EncodeChar | tests/Router/UrlGeneratorTest.php:121 | an unreserved character stays; any other byte becomes `%` and two hex digits of its value |
| PercentEncoding.DecodeEncode | tests/Router/UrlGeneratorTest.php:120-122 | decoding an encoded segment gives it back, so encoding loses nothing |
| PercentEncoding.EncodedAlphabet | tests/Router/UrlGeneratorTest.php:121 | an encoded segment holds only unreserved characters and `%` |
| PercentEncoding.EncodedHasNo | tests/Router/UrlGeneratorTest.php:121 | an encoded segment contains no reserved character such as `/`, `?`, `&` or `=` |
| PercentEncoding.EncodeUnreserved | tests/Router/UrlGeneratorTest.php:120-122 | a segment of unreserved characters is left as it is |
| PercentEncoding.EncodeQuestionAndEquals | tests/Router/UrlGeneratorTest.php:121 | `?` encodes to `%3F` and `=` to `%3D` |
| PhpValues.Coalesce | src/foundation/src/helpers.php:165-166 | `$args[$i] ?? …` takes the argument exactly when it is present and not null |
| PhpValues.NatToStringValue | src/foundation/src/helpers.php:165 | the decimal form of a number reads back as that number |
| PhpValues.CastIntString | src/foundation/src/helpers.php:165-166 | an integer cast to string and back to int is unchanged |
| PhpValues.LeadingDigits | src/foundation/src/helpers.php:166 | `(int)` reads the longest leading run of digits: a prefix made of digits, followed by a non-digit or by the end |
| Helpers.BasePathFalsy | src/foundation/src/helpers.php:31-34 | `base_path('')` is the base, and `base_path('0')` appends `0` with no slash |
| Helpers.BasePathRoundTrip | src/foundation/src/helpers.php:31-34 | the relative path can be read back from `base_path`'s result |
| Helpers.BasePathInjective | src/foundation/src/helpers.php:31-34 | different paths give different full paths |
| Helpers.AppPathUnderApp | src/foundation/src/helpers.php:44-47 | `app_path(p)` is base + `/app/` + p, so `app_path('')` ends in `/app/` |
| Helpers.DatabasePathUnderDatabase | src/foundation/src/helpers.php:57-60 | `database_path(p)` is base + `/database/` + p |
| Helpers.CookieSeconds | src/foundation/src/helpers.php:108 | the lifetime is minutes times 60, and 0 for 0 minutes |
| Helpers.MakeCookie | src/foundation/src/helpers.php:102-111 | no name gives the cookie jar; a name gives a cookie with every argument passed on and the lifetime in seconds |
| Helpers.Cache | src/foundation/src/helpers.php:73-93 | no arguments give the repository; a string reads with the second argument as default; an array puts its first key (as a string) and value, or null and false when it is empty, with `$arguments[1] ?? null` as TTL; anything else fails with the array message |
| Helpers.CachePutThenGet | src/foundation/src/helpers.php:82-92 | a value put with `cache([k => v])` is read back by `cache(k)` |
| Helpers.CachePutFrame | src/foundation/src/helpers.php:92 | a put leaves every other key of the store as it was |
| Helpers.App | src/foundation/src/helpers.php:124-146 | without a container, a missing name fails with `Invalid argument $abstract` and a given name is constructed from the parameter values; with a container, no name returns the container, a bound name with no parameters is `get` of that name, and any other name is `make` of that name with the parameters |
| Helpers.AppIgnoresBindings | src/foundation/src/helpers.php:134 | the container's bindings are consulted only for a named service with no parameters |
| Helpers.Values | src/foundation/src/helpers.php:145 | `array_values` keeps the values in order |
| Helpers.Wrap | src/foundation/src/helpers.php:159-161 | a closure becomes a closure job with `$arguments[2] ?? 0` attempts; other jobs stay |
| Helpers.Dispatch | src/foundation/src/helpers.php:157-170 | queue jobs and closures are pushed, async tasks are delivered with the arguments, and anything else fails with `Not Support job type.` |
| Helpers.DispatchQueuePrecedence | src/foundation/src/helpers.php:165 | the queue is the explicit argument, else the job's queue, else `default` |
| Helpers.DispatchDelayPrecedence | src/foundation/src/helpers.php:166 | the delay is the explicit argument, else the job's delay, else 0 |
| Helpers.DispatchDelayFromString | src/foundation/src/helpers.php:166 | a delay given as a numeric string is the same delay as the integer |
| TransformsRequest.TransformEntries | src/foundation/src/Http/Middleware/TransformsRequest.php:61-72 | the result has the input's length and keys, each value rewritten on its own |
| TransformsRequest.TransformedCases | src/foundation/src/Http/Middleware/TransformsRequest.php:63-69 | a string is processed exactly when its key is outside `except`; an array is recursed into whatever its key; anything else is kept |
| TransformsRequest.TransformedSameShape | src/foundation/src/Http/Middleware/TransformsRequest.php:61-72 | at every depth the keys are kept, arrays stay arrays, and values that are neither strings nor arrays are unchanged; a string may become any value `processString` returns |
| TransformsRequest.TransformedIdempotent | src/foundation/src/Http/Middleware/TransformsRequest.php:61-72 | with a `processString` that returns no array and whose string results are fixpoints (trimming, or `''` to null), running the middleware twice is running it once |
| TransformsRequest.TransformedIdentity | src/foundation/src/Http/Middleware/TransformsRequest.php:61-72 | with a `processString` that returns its argument nothing changes |
| TransformsRequest.SkipCallbacks.SkipWhen | src/foundation/src/Http/Middleware/TransformsRequest.php:32-35 | the callback is appended after the ones already registered |
| TransformsRequest.Transformer.ShouldSkip | src/foundation/src/Http/Middleware/TransformsRequest.php:37-46 | true exactly when some callback says yes (so false with none); the callbacks are asked in order and the first yes ends the search |
| TransformsRequest.Transformer.ProcessArray | src/foundation/src/Http/Middleware/TransformsRequest.php:61-72 | the in-place loop yields `TransformEntries` of the input |
| TransformsRequest.Transformer.ProcessInput | src/foundation/src/Http/Middleware/TransformsRequest.php:48-59 | the body is rewritten only when it is an array, the query always, and nothing else changes |
| TransformsRequest.Transformer.Handle | src/foundation/src/Http/Middleware/TransformsRequest.php:18-30 | a skipped request goes to `$next` unchanged and the context is untouched; otherwise the processed request is stored in the context and that same request goes to `$next` |
| InteractsWithStrings.Find | src/prompts/src/Themes/Default/Concerns/InteractsWithStrings.php:38 | the first position of a character, or none exactly when it does not occur |
| InteractsWithStrings.StripAnsiNoRun | src/prompts/src/Themes/Default/Concerns/InteractsWithStrings.php:38 | text where no ESC is followed by an `m` is left unchanged |
| InteractsWithStrings.StripAnsiNoEsc | src/prompts/src/Themes/Default/Concerns/InteractsWithStrings.php:38 | text without ESC is left unchanged |
| InteractsWithStrings.StripAnsiLeavesNoRun | src/prompts/src/Themes/Default/Concerns/InteractsWithStrings.php:38 | after stripping, no ESC is followed by an `m`, and the text is no longer |
| InteractsWithStrings.StripAnsiIdempotent | src/prompts/src/Themes/Default/Concerns/InteractsWithStrings.php:38 | stripping twice is stripping once |
| InteractsWithStrings.StripAnsiDeletesRun | src/prompts/src/Themes/Default/Concerns/InteractsWithStrings.php:38 | an `ESC … m` run is deleted up to its first `m`, and the text before it is kept |
| InteractsWithStrings.StripEscapeSequencesPlain | src/prompts/src/Themes/Default/Concerns/InteractsWithStrings.php:35-45 | text with no ESC and no `<` comes back unchanged |
| InteractsWithStrings.Repeat | src/prompts/src/Themes/Default/Concerns/InteractsWithStrings.php:27 | `str_repeat` gives n copies of the string back to back |
| InteractsWithStrings.Pad | src/prompts/src/Themes/Default/Concerns/InteractsWithStrings.php:25-30 | the text comes first, unchanged, followed by exactly `max(0, length - visible width)` copies of the pad string |
| InteractsWithStrings.PadWideEnough | src/prompts/src/Themes/Default/Concerns/InteractsWithStrings.php:27 | text already as wide as `length` is not padded |
| InteractsWithStrings.PadReachesLength | src/prompts/src/Themes/Default/Concerns/InteractsWithStrings.php:25-30 | plain one-column text padded with spaces is exactly `max(|text|, length)` long |
| InteractsWithStrings.MaxLineWidth | src/prompts/src/Themes/Default/Concerns/InteractsWithStrings.php:18 | the maximum over the lines is at least every line's width plus padding, and equals one of them |
| InteractsWithStrings.Longest | src/prompts/src/Themes/Default/Concerns/InteractsWithStrings.php:14-20 | at least the minimum width, equal to it for no lines, at least every line's visible width plus padding, and equal to the minimum width or to one such line width |
| InteractsWithStrings.PadToLongest | src/prompts/src/Themes/Default/Concerns/InteractsWithStrings.php:14-30 | a plain line padded to `longest` is exactly that wide |
| ExpiredClaim.Leeway | tests/JWT/Validations/ExpiredCliamTest.php:24 | the `leeway` option, or 0 when it is not given |
| ExpiredClaim.Validate | tests/JWT/Validations/ExpiredCliamTest.php:18-41 | the check fails exactly when there is an `exp` and `exp + leeway < now`, with the error `Token has expired` |
| ExpiredClaim.NoExpiryValid | tests/JWT/Validations/ExpiredCliamTest.php:26 | claims without `exp` always pass |
| ExpiredClaim.ValidEarlier | tests/JWT/Validations/ExpiredCliamTest.php:27-28 | a token that passes at some time passes at every earlier time |
| ExpiredClaim.ValidMoreLeeway | tests/JWT/Validations/ExpiredCliamTest.php:24-28 | a token that passes with some leeway passes with any larger leeway |
| ExpiredClaim.ValidCases | tests/JWT/Validations/ExpiredCliamTest.php:18-29 | with a one-hour leeway at 2000-01-01T00:00:00Z: no `exp`, `exp` an hour ahead, and `exp` exactly an hour ago all pass |
| ExpiredClaim.InvalidCase | tests/JWT/Validations/ExpiredCliamTest.php:31-41 | without options, `exp` an hour ago fails with `Token has expired` |

## Left out

- UrlGenerator: the generator's source is not part of this model. Its behaviour is taken from its unit test, with these stated assumptions:
  - a missing placeholder stops rendering and trims one trailing `/`;
  - query keys and values use the same RFC 3986 percent-encoding as path extras, not `http_build_query`'s `+` for spaces;
  - placeholder values are inserted as given, not encoded;
  - FastRoute's optional segments and positional (list) parameters are not modelled;
  - route variables arrive already in their string form: `http_build_query`'s treatment of null (skipped), `false` (`0`) and nested arrays is not modelled;
  - `to` builds `trim(root . '/' . trim(path . '/' . tail, '/'), '/')` and never separates a query string from the path, so `to('foo?x=1', ['bar'])` gives `http://example.com/foo?x=1/bar`;
  - a target `to` returns as it is leaves the root cache untouched.
- UrlGenerator.IsValidUrl: PHP's `FILTER_VALIDATE_URL` is approximated. The model accepts `#`, `//`, `http(s)://`, `mailto:`, `tel:`, `sms:` and any `scheme://authority` prefix.
- UrlGenerator.Generator: the root cache lives per coroutine in the request context. The model keeps it as one optional field of the generator.
- PercentEncoding.Encode: strings are sequences of characters. A character of code 256 or more is passed through, not expanded into UTF-8 bytes.
- PhpValues.CastInt: `(int)` is modelled for integers, numeric strings (leading digits after an optional sign), booleans and null. Floats, exponents and leading whitespace are not modelled.
- PHP integer overflow (64-bit wrap to float) is not modelled: integers are unbounded. This covers `minutes * 60` in `cookie` and `exp + leeway` in the expiry check.
- TransformsRequest: array keys are kept as strings and `in_array($key, $this->except)` is modelled as strict string equality. PHP 8's loose comparison also matches numeric strings by value (an integer key `1` against `'01'`, a key `'1e1'` against `'10'`); such matches, where the source leaves the string alone and the model processes it, are not modelled.
- TransformsRequest: `processString` is a parameter of the middleware, as it is abstract in the source. It has no declared return type, so the parameter returns any PHP value.
- TransformsRequest: the per-coroutine isolation of `Context` is not modelled. The context is one object the handler writes.
- TransformsRequest.SkipCallbacks: the callbacks' truthy results are modelled as booleans, and the callbacks cannot change state.
- InteractsWithStrings: `mb_strwidth` is a parameter. So are the two Symfony style-tag regexes, of which only "text without `<` is left alone" is assumed.
- Helpers.Cache: the repository itself (expiry, drivers) is outside the model. The store view in `RunCache` ignores the TTL.
- Helpers.App: the container is described by whether it exists and which bindings it has. What `get`, `make` and `new` build is outside the model.
- Helpers.Dispatch: the queue drivers and `AsyncTask::deliver` are outside the model. Only the call that is made is described.
- The other helpers (`resolve`, `event`, `info`, `logger`, `request`, `response`, `session`, `validator`, `now`, `today`, `route` and the rest of the file) are container lookups, logging or clock calls with no logic of their own. They are not modelled.
- ExpiredClaim: the validator's source is not part of this model. The rule is taken from its test, and the clock is a parameter.
