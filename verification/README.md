# Grab n Go loaner: request helper and device record, in Dafny

This project models two self-contained pieces of the loaner frontend.

- **The browser extension's authenticated request helper** (`http.ts`) is modelled in module `Http`. The helper obtains a bearer token without user interaction. It sends the request with the token, or with the caller's own headers. On the first 401 it drops the token from the platform's cache and sends the request once more. It resolves with nothing on 204, with the response's JSON body on any other status, and rejects on a network failure.
  The platform is modelled as inputs rather than effects. The token it hands out is a parameter, and the transport is a script of outcomes (`Status(code, payload)` or `NetErr(reason)`), one per fetch. A call is a pure function from these inputs to a `Trace`. The trace is the ordered log of what the call asked of the platform, fetches and token invalidations, together with how the promise settled.
- **The web console's `Device` model** (`device.ts`) is modelled in module `Devices`. It covers:
  - the constructor's defaulting of the optional API fields;
  - the derived `id`, `canExtend`, `timeUntilDue` and `isOverdue`;
  - the status chips;
  - serialisation back to the API shape.

  Dates are integer milliseconds. The clock (`Date.now()` / `new Date()`) is the parameter `now`. Parsing of date strings is the parameter `parse`. The shelf model's serialiser is the parameter `shelfToApi`.

`Options` holds the `Option` type. It stands for TypeScript's optional (`undefined`-able) fields and arguments.

A 401 on the retried request is not retried again. The code falls through to `resolve(response.json())` (http.ts:96-100), so the model resolves with that response's payload (`Json`).

## Model

| member | source | states |
|---|---|---|
| Http.BuildRequest | loaner/chrome_app/src/app/shared/http.ts:76-83 | Method and URL are passed through. `get`/`head` never carry a body. Any other method carries the given body, or `''` when the body is absent or empty. Supplied headers are used verbatim. Otherwise the two default headers are used, ending in `Bearer <token>`. |
| Http.HeaderPolicy | loaner/chrome_app/src/app/shared/http.ts:30-35 | Every request sent carries the caller's header list verbatim, even an empty one. With no list, it carries exactly `Content-type: application/json` and `Authorization: Bearer <token>`, using the call's token. |
| Http.BodyPolicy | loaner/chrome_app/src/app/shared/http.ts:81-83 | A sent request has no body exactly when the method is `get` or `head`. Otherwise the body is the supplied string, or `''`. |
| Http.AttemptFetch | loaner/chrome_app/src/app/shared/http.ts:75-105 | Once the removed-token flag is set, one more fetch settles the call. Before that, a second fetch happens iff the first answer is a 401. Every attempt sends the same request. The only invalidation is of the call's token, on that first 401. The log is then fetch, invalidate, fetch, in that order. |
| Http.MakeRequest | loaner/chrome_app/src/app/shared/http.ts:64-110 | Each call makes one or two fetches, and a second one iff the first answer is a 401. The retry is identical to the first request. Exactly the token obtained at the start is invalidated, once. The event log places that invalidation between the two fetches. The result agrees with the independent reading `ExpectedResult` of the outcome script. |
| Http.SettlementCases | loaner/chrome_app/src/app/shared/http.ts:88-104 | A network failure on either attempt rejects with the unmodified reason and never retries. 204 resolves to no content. Any other status resolves to its payload, and that includes a 401 on the retry. No answer leaves the call pending. |
| Http.Get | loaner/chrome_app/src/app/shared/http.ts:43-45 | Every request sent is a `get` without a body, whatever the outcome. There are at most two requests, and the result follows `ExpectedResult`. |
| Http.Post | loaner/chrome_app/src/app/shared/http.ts:53-55 | Every request sent is a `post` carrying the given body. There are at most two requests, and the result follows `ExpectedResult`. |
| Http.RetryReusesInvalidatedToken | loaner/chrome_app/src/app/shared/http.ts:88-92 | As written: after a first 401, the retried request's Authorization header carries the very token just invalidated. |
| Http.StaleRetryExample | loaner/chrome_app/src/app/shared/http.ts:85-100 | A post answered by a 401 and then a 200 sends two identical requests. Both carry the same body and the same bearer token. Token `T1` is invalidated once, between the two fetches, and the call resolves to the 200 payload. |
| Http.MakeRequestRefreshing | loaner/chrome_app/src/app/shared/http.ts:88-92 | Corrected retry. It has the same fetch count, invalidation and settlement as the original, and the log is again fetch, invalidate, fetch. The retry is built from the token obtained again after the invalidation. |
| Http.RefreshedRetryDropsStaleToken | loaner/chrome_app/src/app/shared/http.ts:88-92 | With the corrected retry, a renewed token that differs from the first means the retry carries the renewed token and not the invalidated one. |
| Devices.Defaults | loaner/web_app/frontend/src/models/device.ts:104-135 | Missing strings default to `''`. A missing or empty OU stays missing. Missing booleans default to false. `pendingReturn` holds iff a non-empty pending-return date is given or `pending_return` is true. A missing or zero numeric date becomes `now`. A missing or empty date string becomes `now`, and otherwise its parse. |
| Devices.FromApi | loaner/web_app/frontend/src/models/device.ts:104-138 | The constructor is the defaulted record, with its chips computed at the construction clock reading. |
| Devices.EmptyDevice | loaner/web_app/frontend/src/models/device.ts:104-138 | A device built from the empty payload has an empty id. It cannot be extended and is not overdue. Its only chip is Unassigned. |
| Devices.Id | loaner/web_app/frontend/src/models/device.ts:144-146 | `id` is the asset tag when that is non-empty, otherwise the serial number. It is empty only when both are. |
| Devices.CanExtend | loaner/web_app/frontend/src/models/device.ts:151-153 | A device pending return can never be extended. Any other device can be extended iff its due date is before its maximum extension date. |
| Devices.TimeUntilDue | loaner/web_app/frontend/src/models/device.ts:166-168 | The result is the distance from `now` to the due date. It is negative iff the due date has passed. |
| Devices.IsOverdue | loaner/web_app/frontend/src/models/device.ts:158-160 | A device is overdue iff it is assigned to a user and its due date is before `now`. An unassigned device is never overdue. |
| Devices.OverdueStaysOverdue | loaner/web_app/frontend/src/models/device.ts:158-168 | An overdue device stays overdue at every later time, and its time until due only falls. |
| Devices.ChipFor | loaner/web_app/frontend/src/models/device.ts:196-256 | Each chip's label is the string value of its `DeviceChipStatus`. |
| Devices.ConditionStatuses | loaner/web_app/frontend/src/models/device.ts:221-257 | The condition chips come in the order Locked, Lost, Pending return, Damaged. Each is present iff its flag is set, so the count equals the number of set flags. |
| Devices.ShownStatuses | loaner/web_app/frontend/src/models/device.ts:196-257 | There is exactly one assignment status, and it comes first. It is followed only by condition statuses, in rank order. A status is listed iff it applies. |
| Devices.MakeChips | loaner/web_app/frontend/src/models/device.ts:194-258 | The chip count is 1 plus the number of set flags. The first chip is Unassigned iff there is no user, Overdue iff assigned and past due, and Assigned otherwise. No later chip is an assignment chip, and the list meets the chip contract. |
| Devices.ChipContractDetermines | loaner/web_app/frontend/src/models/device.ts:194-258 | Any chip list of standard chips, in rank order, listing exactly the statuses that apply, equals `MakeChips`. So the order and cardinality contract pins the chips down. |
| Devices.ToApiMessage | loaner/web_app/frontend/src/models/device.ts:171-189 | Identity fields, user, flags and OU are copied verbatim. Dates are emitted as milliseconds. `damaged`, `return_date`, the heartbeat dates and the pending-return date are not emitted. |
| Devices.ApiRoundTrip | loaner/web_app/frontend/src/models/device.ts:104-189 | Rebuilding a device from its message keeps serial number, asset tag, id, model, user and the lock, lost, pending-return and guest flags. It keeps a non-empty OU and every non-zero date. `damaged` resets to false. The unsent date strings become the new clock reading, and the chips are recomputed at that reading. |
| Devices.RoundTripKeepsDerived | loaner/web_app/frontend/src/models/device.ts:104-189 | With non-zero due and maximum extension dates, a round trip keeps `canExtend` and `isOverdue`. The chips become those of the device with its damage flag cleared. |
| Devices.MessageKeepsCompletePayload | loaner/web_app/frontend/src/models/device.ts:104-189 | Take a payload with every emitted field present, non-empty strings, non-zero dates and no pending-return date string. It comes back unchanged in the message of the device built from it. |

## Findings

| source | as written | input that shows it | evidently intended | confidence | as-written member | corrected member |
|---|---|---|---|---|---|---|
| loaner/chrome_app/src/app/shared/http.ts:88-92 | The retry re-enters `attemptFetch` after `removeCachedAuthToken` without obtaining a token again. `HEADERS()` still reads the old module-level token, so the retried request carries the token just invalidated. | A `post` with no caller headers and token `T1`, answered by 401 and then 200. The second request sends `Authorization: Bearer T1`, the token just invalidated. | Obtain a token again after dropping the cached one, and build the retry from it. | medium; not executed | Http.RetryReusesInvalidatedToken | Http.MakeRequestRefreshing |

`Get` and `Post` model the helper as written. `MakeRequestRefreshing` is the corrected retry.

## Left out

- Platform callbacks are not modelled as effects. `chrome.identity.getAuthToken`, `removeCachedAuthToken` and `fetch` are inputs: a token, which is `None` when the platform hands out none, and a script of transport outcomes. The model assumes `removeCachedAuthToken` always calls back.
- A transport that never answers is modelled as `Pending`, for a script that runs out. Timeouts and cancellation belong to the transport, not to this helper.
- The `LOGGING` console output of the token is diagnostic only.
- The module-level `accessToken` is shared by concurrent calls. This is an event-loop race with no guarantee to state, so the model covers one call at a time, in which the token never changes.
- `response.json()` is not modelled. The response payload is opaque, and a parse failure that would reject the promise is not modelled.
- JavaScript dates are floating-point milliseconds. The model does not cover NaN, fractional milliseconds, or dates outside the `Date` range, which give an Invalid Date.
- The source reads the clock separately for each defaulted date field (`new Date()`, device.ts:109-134). It reads it once more in `makeChips`, through `isOverdue` and `timeUntilDue` (`Date.now()`, device.ts:167, reached from :204). The model uses one reading, `now`, for all of these. Which reading wins matters in the cases below.
- Devices.EmptyDevice: `!CanExtend(d)` holds only under the single reading. In the source, an all-default device gets its due date at :117 and its maximum extension date at :131. If the clock ticks between the two, the device can be extended.
- Devices.FromApi: the chips are computed at the same reading as the defaulted dates. In the source, a payload with `assigned_user` and no `due_date` gets its due date at :117, and `makeChips` compares it with a later `Date.now()`. If the clock ticks in between, the device shows an Overdue chip; the model always shows Assigned.
- `new Date(string)` parsing of `last_heartbeat`, `last_known_healthy` and `return_date` is the parameter `parse`.
- The `Shelf` model is not part of this model. A `Shelf` is known only by the payload it was built from, and `Shelf.toApiMessage` is the parameter `shelfToApi`.
- `chips` is computed only in the constructor, as in the source. Later changes to a record do not recompute it.
- `DeviceRequestApiParams`, `ExtendDeviceRequestApiParams`, `MarkAsDamagedRequestApiParams` and `ListDeviceResponse` are type declarations without behaviour. `DeviceChipColor` appears only as the chips' colour values.
- Some neighbouring files have no logic of their own to model:
  - the onboarding component (`onboarding/app.ts`) and its return-date test (`return_test.ts`) are UI wiring and UI tests;
  - the shelf service and shelf data source (`shelf.ts`, `shelf_data.ts`) are thin HTTP wrappers;
  - the lock-device action (`lock_device.py`) is a null guard around code that is not part of this model.
