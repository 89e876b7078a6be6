# osint-fraud-detection API route, modelled in Dafny

The repository is a web starter. Its only logic is the API route
`src/app/api/route.ts`. The route has a GET and a POST handler. Each handler
works in four steps:

1. It derives a client key from the request.
2. It asks an in-memory, fixed-window rate limiter whether to admit the
   request. The limit is 10 requests per key per 60000 ms.
3. If the limiter admits the request, the handler checks the optional `name`
   against the rule "a string of 1 to 100 characters, or absent".
4. It answers 429, 400 or 200. A 200 answer carries a greeting.

The project has three modules:

- `JsValues` (`js_values.dfy`) holds the JavaScript semantics the handlers
  rely on. It models missing values, truthiness and the `||` operator.
- `RateLimiting` (`rate_limit.dfy`) holds the limiter.
  - `Step` is the limiter's transition on the table, as a pure function.
  - The class `RateLimiter` owns the process-wide `map` and updates it in
    place. Its `CheckRateLimit` is proved equal to `Step`.
  - `Run` feeds a sequence of calls to the limiter.
  - The lemmas prove three facts. The table invariant is kept. Each key is
    independent of the others. Inside a window, the first 10 requests are
    admitted and every later one is rejected.
- `Route` (`route.dfy`) holds the handlers.
  - `ClientKey` derives the client key.
  - `ValidateName` applies the name rule.
  - `GetOutcome` and `PostOutcome` pick the response.
  - The methods `Get` and `Post` run the whole handler against the limiter.

The clock (`Date.now()`) is the integer parameter `now`, in milliseconds.

In the source, `searchParams.get('name')` returns `null` when the query
parameter is missing. The schema accepts a missing (`undefined`) name but
rejects `null`. So, as written, a GET without `name` gets 400, not a 200 with
the generic greeting. The model follows the code: `Route.Get` answers 400. The
discrepancy is recorded under Findings.

## Model

| member | source | states |
|---|---|---|
| `RateLimiting.Step` | osint-fraud-detection/src/app/api/route.ts:17-37 | A missing window, or one whose `resetTime` is strictly before `now`, is replaced by `{count: 1, resetTime: now + 60000}` and the request is admitted. A live window (`now <= resetTime`) with `count >= 10` rejects and leaves the table unchanged. A live window with `count < 10` admits, adds one to `count` and keeps `resetTime`. Every other key's entry is unchanged. A request is admitted exactly when the table changes. Counts in 1..10 stay in 1..10. |
| `RateLimiting.RateLimiter.constructor` | osint-fraud-detection/src/app/api/route.ts:18 | The process starts with an empty table, which satisfies the count invariant. |
| `RateLimiting.RateLimiter.CheckRateLimit` | osint-fraud-detection/src/app/api/route.ts:22-37 | The in-place update of the shared map leaves the new table that `Step` specifies and returns `Step`'s decision. It keeps the count invariant. |
| `RateLimiting.RunPreservesBounded` | osint-fraud-detection/src/app/api/route.ts:19-35 | Over any sequence of requests, every stored count stays between 1 and 10. |
| `RateLimiting.KeysAreIndependent` | osint-fraud-detection/src/app/api/route.ts:24-35 | One client key's decisions and final entry are the same as in a run of that key's requests alone. They do not depend on other keys' requests. |
| `RateLimiting.LiveWindowDecisions` | osint-fraud-detection/src/app/api/route.ts:26-36 | Inside a live window that holds `c` requests, the i-th further request from that key is admitted exactly when `i < 10 - c`. Afterwards the window holds `c + min(n, 10 - c)` requests and the same `resetTime`. |
| `RateLimiting.FreshWindowDecisions` | osint-fraud-detection/src/app/api/route.ts:19-36 | A request that finds no live window opens one lasting 60000 ms. Of that request and the same key's later requests up to `start + 60000`, the first 10 are admitted and the 11th and every later one are rejected. |
| `RateLimiting.AtMostRateLimitPerWindow` | osint-fraud-detection/src/app/api/route.ts:19-36 | In such a window, a key is admitted exactly `min(n, 10)` times for `n` requests, so never more than 10. |
| `Route.ClientKey` | osint-fraud-detection/src/app/api/route.ts:42 | The key is the platform IP if it is a non-empty string. Otherwise it is `x-forwarded-for` if that is a non-empty string. Otherwise it is `"unknown"`. It is never empty. Line 125 uses the same chain. |
| `Route.ValidateName` | osint-fraud-detection/src/app/api/route.ts:13-15 | An absent name is accepted. A string is accepted exactly when its length is 1 to 100. `null` and non-string values are rejected. An accepted name is passed through unchanged. |
| `Route.GetOutcome` | osint-fraud-detection/src/app/api/route.ts:44-81 | The answer is 429 exactly when the limiter rejects. It is 400 exactly when the limiter admits and the query parameter is missing or has a length outside 1 to 100. A 200 answer carries the personal greeting with the given name. |
| `Route.GetWithoutNameIsRejected` | osint-fraud-detection/src/app/api/route.ts:58-75 | An admitted GET without a `name` parameter is answered 400, because the parameter arrives as `null`. |
| `Route.GetOutcomeIntended` | osint-fraud-detection/src/app/api/route.ts:77-81 | With a missing parameter treated as absent, an admitted GET without `name` gets 200 with the generic greeting. It agrees with `GetOutcome` whenever the parameter is present. |
| `Route.PostOutcome` | osint-fraud-detection/src/app/api/route.ts:127-163 | The answer is 429 exactly when the limiter rejects. It is 400 exactly when the limiter admits and the body is not an object, or its `name` is neither absent nor a string of length 1 to 100. A 200 answer carries the generic greeting exactly when no name was given, and otherwise the personal greeting with the given name. |
| `Route.Get` | osint-fraud-detection/src/app/api/route.ts:39-104 | The limiter is consulted before validation. The table becomes `Step`'s new table whatever the input, so an admitted request uses up a slot even when it is then answered 400. The answer is `GetOutcome` of the decision. |
| `Route.Post` | osint-fraud-detection/src/app/api/route.ts:122-172 | The POST handler works the same way. It uses up a slot before validating the body, and its answer is `PostOutcome` of the decision. |

## Left out

- Response headers are not modelled. This covers the security headers, `Retry-After: 60` on 429 and `Cache-Control` on GET. They are constant per outcome and carry no logic.
- The JSON payload fields other than the greeting are not modelled: timestamp, version, feature list, developer block, `method`, `receivedData` and `processed`. Most are constants or wall-clock reads. `receivedData` echoes the validated POST body, so it depends on the input. None of these fields is modelled, because only the status and the greeting are.
- The 500 path is not modelled. It covers `try`/`catch`, `console.error` and a POST body that is not valid JSON, which makes `request.json()` throw after the limiter has already counted the request. These are exception and logging plumbing.
- The details of the schema library's error report are not modelled. Only accept or reject is.
- `Date.now()` becomes the parameter `now`. JavaScript numbers are doubles, but they are modelled as unbounded integers. This is exact for any realistic millisecond clock plus 60000.
- Lengths are counted in the elements of `string`. These elements are abstract UTF-16 code units, the units JavaScript's `.length` counts. They are not Dafny's native characters, which are Unicode scalar values. A character outside the Basic Multilingual Plane, such as an emoji, is two elements in the model, because it is a surrogate pair in JavaScript. For example, a name of 51 emoji is 102 elements long and is rejected. A Dafny literal of those 51 emoji has only 51 native characters, so it is not a faithful input. No Unicode decoding or encoding is modelled.
- Concurrency is not modelled. The process is a single-threaded event loop and the limiter does nothing asynchronous.
- The table is never evicted, and its memory growth is not modelled.
- `NextResponse`, `NextRequest`, `URL` parsing and header lookup are framework code. Their results enter the model as the `Option<string>` inputs `ip`, `forwardedFor` and `name`, and as the parsed `Body`.
- `src/app/page.tsx`, `src/app/layout.tsx` and `eslint.config.mjs` are not part of this model. They are presentation and tool configuration.

## Findings

| source | as written | input that shows it | evidently intended | confidence | as-written member | corrected member |
|---|---|---|---|---|---|---|
| osint-fraud-detection/src/app/api/route.ts:60-63 | A missing `name` query parameter is passed to the schema as `null`, which `z.string().optional()` rejects, so the answer is 400. This leaves the "Hello, world!" branch at line 81 unreachable. | `GET` with no query string, admitted by the limiter | 200 with "Hello, world! Welcome to the Next-Gen Web Scaffold!" | high (not executed) | `Route.GetWithoutNameIsRejected` | `Route.GetOutcomeIntended` |
