# Rate-limit path of node-cartodb-redis, modelled in Dafny

This project models the rate-limit path of `lib/carto_metadata.js`, the
CARTO metadata client for Redis. It also models the small helpers that
reshape HMGET replies.

- **Keys** (`keys.dfy`):
  - the rate-limit key templates `rate_limits_store_key` and
    `rate_limits_status_key`, as plain string concatenation;
  - the YYYYMMDD day stamp of `getMapViewKey`, with the date as arguments.
- **Decimal** (`decimal.dfy`): printing natural numbers as decimal strings.
  The key templates and the Lua script both do this.
- **Selector** (`selector.dfy`): `getLowerRateLimit` and
  `validateRatelimit`.
  - The loop is the method `GetLowerRateLimit`.
  - It is proved equal to the reference function `LowerRateLimit`.
  - `LowerRateLimit` is in turn proved to pick the first blocked well-formed
    candidate, or else the earliest one with the fewest remaining requests.
- **LimitScript** (`limit_script.dfy`): the server-side Lua script
  `rateLimitLuaScript`.
  - Its loop over the definitions list is the method `RunRateLimitScript`.
  - It is proved equal to running the reference call list `ThrottleCalls`.
  - That list has one CL.THROTTLE call per complete triple, with counter key
    `KEYS[2]:k`.
  - CL.THROTTLE (redis-cell) is an oracle: the stored counter state and the
    call give the reply and the new state.
- **Redis** (`redis.dfy`): the part of the rate-limits database this path
  uses. It is a `Store` class with four parts:
  - the server's script cache, used by SCRIPT LOAD, SCRIPT FLUSH, EVAL and
    EVALSHA;
  - the definitions lists;
  - the counters;
  - a schedule of connection outcomes, one per command, and a log of the
    commands received.
- **CartoMetadata** (`metadata.dfy`): the process-wide script handle
  `rate_limits_sha_script`, as a field of the class `Metadata`.
  - `LoadRateLimitsScript` caches the handle.
  - `GetRateLimit` sends EVALSHA when a handle is cached and EVAL otherwise.
    On the NOSCRIPT reply it drops the handle and calls itself again.
- **UserParams** (`user_params.dfy`): the renaming loop shared by
  `getMultipleUserDBParams` and `getMultipleApikeyParams`, with two checks:
  - the database host and name must be present;
  - the grant flags of `getApikey` are coerced to booleans.

The store is a parameter, not a server: the connection and the SHA1 digest
are inputs.
- The digest is an uninterpreted function `Store.digest`.
- A pool or connection failure is an entry of the `Store.faults` schedule.
  Each command meets the next entry, so a failure can strike any command
  of a sequence, including the EVAL reissued after NOSCRIPT.
- Only `Keys.MapViewKey` takes a date. The rate-limit path has no clock
  (see "Left out").

## The NOSCRIPT fallback

`getRateLimit` (lines 409-443) behaves as follows on the NOSCRIPT reply.

- **The handle is not cached again.** The only assignment to
  `rate_limits_sha_script` in `getRateLimit` clears it (line 432).
  - `Metadata.GetRateLimit` therefore leaves the handle `None` after a
    fallback, whether the reissued EVAL succeeds or fails.
  - `ReloadAfterFlush` shows this for the load, flush, then get sequence.
  - `ReissueFails` shows it when the connection fails under the EVAL.
- **The reissue happens at most once.** Line 433 calls `getRateLimit` again
  with no condition.
  - The call ends anyway: EVAL never answers NOSCRIPT, so the retry runs at
    most once (`AtMostOneReissue`).
  - The caller never sees a NOSCRIPT error: this is the last ensures of
    `GetRateLimit`.

## Model

| member | source | states |
|---|---|---|
| Decimal.FromNat | lib/carto_metadata.js:389 | The printed counter number is a non-empty string of decimal digits with no leading zero. |
| Decimal.ToNatFromNat | lib/carto_metadata.js:389 | Reading the printed digits back gives the number again. |
| Decimal.FromNatInjective | lib/carto_metadata.js:389 | Distinct numbers print differently. |
| Keys.RateLimitsStoreKey | lib/carto_metadata.js:60 | With colon-free identifiers, the store key splits at its colons into `limits`, `rate`, `store`, username, app, endpoint group. |
| Keys.RateLimitsStatusKey | lib/carto_metadata.js:61 | The same for the status key, with `status` as the third field. |
| Keys.SubjectKeysInjective | lib/carto_metadata.js:60-61 | Subjects with colon-free identifiers never share a store key or a status key. |
| Keys.StoreKeyCollision | lib/carto_metadata.js:60 | Without that restriction, two different subjects can share a store key, because the separator is not escaped. |
| Keys.StoreKeyIsNotStatusPrefixed | lib/carto_metadata.js:60-61 | No store key equals any status key followed by any suffix. |
| Keys.TwoDigitsRoundTrip | lib/carto_metadata.js:134-135 | A month or day from 1 to 99 prints as exactly two digits that read back as the number. |
| Keys.MapViewKey | lib/carto_metadata.js:132-144 | For any year, the day stamp is all digits. Its last four digits read back as month and day, and the digits before them as the year. |
| Keys.MapViewKeyRoundTrip | lib/carto_metadata.js:132-144 | For a four-digit year, the day stamp is eight digits. Its parts read back as year, month and day. |
| Keys.MapViewKeyInjective | lib/carto_metadata.js:132-144 | Distinct dates get distinct stamps, for every year. |
| Selector.ValidateRatelimit | lib/carto_metadata.js:480-482 | Only a candidate of length 5 is well formed. Such a candidate is an array that has the blocked flag (index 0) and the `remaining` count (index 2) the selector reads. |
| Selector.FirstBlockedIsFirst | lib/carto_metadata.js:463-469 | `FirstBlocked` is `None` exactly when no well-formed candidate has blocked flag 1. Otherwise it is the first such index. |
| Selector.MinRemainingIsEarliestMinimum | lib/carto_metadata.js:471-474 | `MinRemaining` is `None` exactly when no candidate has length 5. Otherwise it is a well-formed index with the smallest `remaining`, strictly smaller than every earlier well-formed one, so ties go to the earliest. |
| Selector.LowerRateLimit | lib/carto_metadata.js:450-482 | The result is `None` exactly for a non-array or an array without a length-5 candidate. Otherwise it is one of the reply's length-5 candidates. |
| Selector.LowerRateLimitIsStrictest | lib/carto_metadata.js:457-477 | For an array, the result is the candidate at the strictest index: the first blocked one, even ahead of earlier candidates with fewer remaining; otherwise the earliest with the smallest `remaining`. |
| Selector.StrictestIsUnique | lib/carto_metadata.js:457-477 | At most one index satisfies that rule, so the choice is deterministic. |
| Selector.MalformedIgnored | lib/carto_metadata.js:457-482 | Removing a malformed candidate, wherever it sits, leaves the selected candidate unchanged. |
| Selector.FirstBlockedSkips | lib/carto_metadata.js:458-461 | Removing a malformed candidate renumbers the first blocked index past it. |
| Selector.MinRemainingSkips | lib/carto_metadata.js:458-461 | Removing a malformed candidate renumbers the fewest-remaining index past it. |
| Selector.GetLowerRateLimit | lib/carto_metadata.js:450-478 | The single-pass loop with `continue` and `break` returns exactly `LowerRateLimit` of its input. |
| Selector.SingleLimitReturned | test/rate-limits.test.js:10-20 | A single candidate, blocked or not, is returned. |
| Selector.EmptyOrInvalidSelectNothing | test/rate-limits.test.js:22-53 | Empty arrays, non-arrays, `[[]]`, `[[], []]`, `[{}]` and `[[1, 2]]` select nothing. |
| Selector.FewestRemainingChosen | test/rate-limits.test.js:69-78 | Among five unblocked limits, the one with one request left is chosen. |
| Selector.LastBlockedChosen | test/rate-limits.test.js:85-93 | A blocked limit wins even when it is last and has the most remaining. |
| Selector.MiddleBlockedChosen | test/rate-limits.test.js:95-98 | A blocked limit wins even ahead of a later one with fewer remaining. |
| LimitScript.CellKeyInjective | lib/carto_metadata.js:389 | Distinct triple numbers give distinct counter keys. |
| LimitScript.ThrottleCallsAt | lib/carto_metadata.js:382-391 | A list of length n gives floor(n/3) calls. Call k takes elements 3k, 3k+1, 3k+2 as burst, rate, period and counter key number k+1. |
| LimitScript.ThrottleCallsDistinct | lib/carto_metadata.js:389 | No two calls of one run name the same counter. |
| LimitScript.ThrottleCallsTrailing | lib/carto_metadata.js:382-386 | One or two trailing elements add no call. |
| LimitScript.ThrottleCallsExtend | lib/carto_metadata.js:386-390 | A completed triple appends exactly its call, with the next counter number. |
| LimitScript.RunCallsUntouched | lib/carto_metadata.js:390 | A counter that no call names keeps its state. |
| LimitScript.IndependentCell | lib/carto_metadata.js:389-390 | With distinct counter keys, call k's reply depends only on its own counter's state before the run, and that counter ends up holding the state the call produced. |
| LimitScript.ScriptEvaluatesEachTriple | lib/carto_metadata.js:376-395 | The script returns floor(n/3) replies in order. Reply k is CL.THROTTLE on triple k against counter `KEYS[2]:(k+1)`. A missing or empty list gives no replies. |
| LimitScript.LuaPosition | lib/carto_metadata.js:383-389 | `i % 3` is the element's place in its triple, 0 on the last one. There `i / 3` is the triple's number. |
| LimitScript.RunRateLimitScript | lib/carto_metadata.js:376-395 | The loop, with its `limits` slots and `resultsCounter`, returns the replies and leaves the counters exactly as running `ThrottleCalls` of the list would. |
| Redis.Store.ScriptLoad | lib/carto_metadata.js:397-398 | SCRIPT LOAD answers the script's digest and adds it to the script cache. If the connection fails, the command answers that failure and the cache is unchanged. |
| Redis.Store.ScriptFlush | test/rate-limits.test.js:170 | SCRIPT FLUSH empties the script cache unless the connection fails. |
| Redis.Store.EvalSha | lib/carto_metadata.js:425-431 | A digest the script cache lacks is answered with exactly the `ReplyError` NOSCRIPT message the client tests for. The state is unchanged apart from the log and the connection schedule. |
| Redis.Store.Eval | lib/carto_metadata.js:409-428 | EVAL with the full source caches the script and runs it. Its only error is the connection failure this command meets. |
| CartoMetadata.AtMostOneReissue | lib/carto_metadata.js:425-436 | One `getRateLimit` call sends one or two commands. The first is EVALSHA exactly when a handle is cached. A second is sent only after a NOSCRIPT reply, and it is EVAL with the full source. |
| CartoMetadata.Metadata.constructor | lib/carto_metadata.js:59 | No handle is cached at start. |
| CartoMetadata.Metadata.LoadRateLimitsScript | lib/carto_metadata.js:397-407 | SCRIPT LOAD of the script. The handle is cached only when the load succeeds with a non-empty handle; otherwise it is unchanged. |
| CartoMetadata.Metadata.GetRateLimit | lib/carto_metadata.js:409-443 | Sends numkeys 2 with the store key and the status key of the subject. The handle is dropped exactly on NOSCRIPT. A connection failure is returned unchanged, whether it meets the first command or the reissued EVAL. Success gives `LowerRateLimit` of the script's replies, and the counters advance as one script run. NOSCRIPT never reaches the caller. |
| CartoMetadata.ReloadAfterFlush | test/rate-limits.test.js:164-174 | Load, flush, then get succeeds after EVALSHA and one EVAL, and leaves no handle cached. |
| CartoMetadata.ReissueFails | lib/carto_metadata.js:430-436 | When the reissued EVAL meets a connection failure, the caller gets that failure after two commands, and the handle stays dropped. |
| CartoMetadata.CountersNeverAliasDefinitions | lib/carto_metadata.js:60-61 | No counter key of any subject equals any subject's definitions list key. |
| UserParams.ParamsMapKeys | lib/carto_metadata.js:223-226 | The renamed object has exactly the new names as properties. |
| UserParams.ParamsMapValue | lib/carto_metadata.js:223-226 | Each new name holds the HMGET value of the last field renamed to it. |
| UserParams.BuildParamsMap | lib/carto_metadata.js:223-226 | The renaming loop builds exactly `ParamsMap` of the fields and values. |
| UserParams.GetMultipleUserDBParams | lib/carto_metadata.js:216-234 | A store error is passed through. Otherwise the result is the renamed object, or the not-found error when its `dbhost` or `dbname` is null or undefined. A success always has both. |
| UserParams.ConnectionParamsOfUser | lib/carto_metadata.js:186-193 | For a user hash holding the three fields, the connection parameters are exactly those values under `dbhost`, `dbname`, `dbuser`. Host or name is missing exactly when the hash lacks that field. |
| UserParams.GetApikey | lib/carto_metadata.js:567-604 | A store error is passed through. Otherwise each field of the key comes from its position in the reply. Each grant is true exactly when its stored value is the string `'true'`. |
| UserParams.ApikeyFields | lib/carto_metadata.js:575-592 | The renamed API-key object holds the reply's six values under their new names. |
| UserParams.OnlyTrueGrants | lib/carto_metadata.js:599-600 | `'True'`, `'1'`, the empty string and a missing value grant nothing. |

## Left out

- CL.THROTTLE's leaky-bucket arithmetic belongs to the redis-cell module, which is not part of this model. It is the `Throttle` oracle.
- LimitScript.Throttle has no time input. It sees only the stored counter state and the call, and the store keeps the same oracle for its whole life. So the model does not capture a counter refilling as time passes, which test/rate-limits.test.js:148-152 relies on.
- Concurrency is out: two requests racing on the shared handle, and the atomicity of script runs. Every operation here runs to completion before the next.
- Connection plumbing is out: `redisCmd`, `redisMultiCmd`, `genericCommand`, the connection pool and slow-query logging with wall-clock timing. A connection failure is an entry of the `Store.faults` input.
- The single-field getters and counters are out (`getTablePrivacy`, `getDBSyncSlaves`, `getOAuthHash`, `incMapviewCount` and the like). They only forward one command.
- `getMultipleUserLimitsParams` is out: its numeric coercion relies on JavaScript string-to-float conversion.
- The `dot` template engine is out. Each template is plain string concatenation.
- Selector.LowerRateLimit: some reply elements are not modelled.
  - A `null` element would make `validateRatelimit` throw, and the model has no such element.
  - A string of length 5 would count as well formed; candidates are integer arrays or non-arrays.
- LimitScript.RunRateLimitScript has two simplifications.
  - Lua 5.1 prints `i/3` with `%.14g`, and the model prints it as plain decimal digits. The two agree below 10^14. A Redis list holds fewer than 2^32 elements, so the triple number always stays below that.
  - The Lua table `limits` is two slots, each written before it is read.
- LimitScript.ScriptEvaluatesEachTriple: script errors are not modelled. This covers a definitions key holding a non-list (WRONGTYPE) and a CL.THROTTLE error on malformed arguments.
- Keys.MapViewKey takes the date's year, month and day as arguments instead of reading `new Date()`.
- Keys.MapViewKeyRoundTrip fixes the stamp at eight digits for four-digit years only. Other years print with fewer or more digits. `Keys.MapViewKey` gives the read-back for every year.
- Redis.Store.ScriptLoad: SHA1 is the uninterpreted function `Store.digest`.
- UserParams.GetMultipleUserDBParams: the Redis key and the field order are simplified.
  - It takes the HMGET reply as input. The key template `user_key` is not modelled.
  - `Object.keys` order is the order of the `dbParams` sequence.
- UserParams.GetApikey takes the HMGET reply as input; the key template `user_apikey_key` is not modelled.
- UserParams.GetApikey yields a record rather than the mutated object. Its fields match the object's properties.
