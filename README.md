# aira-client-os core, modelled in Dafny

This project models the parts of the aira client that decide what goes over the wire
and what the user sees while linking accounts.

- The shared HTTP client (`packages/core/src/api/apiClient.ts`):
  - the bearer token the request interceptor attaches;
  - how the response interceptor turns a failed exchange into an `ApiError`, or rethrows it;
  - the `onUnauthorized` hook fired on 401, 403 and 404;
  - optional schema validation;
  - the five verb wrappers, the development-mode canned routing of `get`, and the module-level singleton.
- The web app's wiring of that client (`apps/aira-web/src/lib/api.ts`):
  - a cookie-backed token storage, over a model of the browser's cookie jar: `clear()` expires only the token key's cookie, so a backend `access-token` cookie still authenticates afterwards (`ClearThenGet`);
  - the auth-store transitions;
  - the module-load guard on the base URL.
- Four linking screens:
  - the connector picker's ordering and item rendering;
  - the "How to Link WhatsApp" sheet with its steps, swipes and reset;
  - the link-code card's five-minute countdown and `m:ss` rendering;
  - the instruction carousel that loops on click.

Files, one module each:

| file | module | models |
|---|---|---|
| `wrappers.dfy` | `Wrappers` | `Option` and `Result` |
| `strings.dfy` | `Strings` | the JavaScript string operations the core uses: `includes`, `split`, `trim`, `padStart`, decimal rendering |
| `api_client.dfy` | `ApiClient` | `apiClient.ts` |
| `web_auth.dfy` | `WebAuth` | `api.ts` |
| `connector_selector.dfy` | `ConnectorSelector` | `connector-selector.tsx` |
| `how_to_link_dialog.dfy` | `HowToLinkDialog` | `how-to-link-dialog.tsx` |
| `link_code_display.dfy` | `LinkCodeDisplay` | `link-code-display.tsx` |
| `instruction_steps.dfy` | `InstructionSteps` | `instruction-steps.tsx` |

Code that only computes is written as functions and lemmas. The rest uses classes:

- Component state that changes step by step: `Dialog`, `CountdownTimer`, `Instructions` and `Carousel`.
- Objects updated in place: `RequestConfig` headers, `Document`, `AuthStore` and the `ClientSlot` singleton.

Their methods are tied to the functions that specify them.

The HTTP transport, the token storage's answer and a schema's `safeParse` are inputs.

## Model

| member | source | states |
|---|---|---|
| Strings.Includes | packages/core/src/api/apiClient.ts:138 | `includes` holds when the searched string is a prefix, and never for a longer string |
| Strings.IncludesIff | packages/core/src/api/apiClient.ts:138 | `includes` holds exactly when the searched string occurs at some position |
| Strings.IncludesParts | packages/core/src/api/apiClient.ts:177-211 | a string containing `a + b` contains `a` and contains `b` |
| Strings.Split | apps/aira-web/src/lib/api.ts:23 | `split` yields at least one piece, and no piece contains the separator |
| Strings.JoinSplit | apps/aira-web/src/lib/api.ts:23 | joining the pieces with the separator gives the string back |
| Strings.Join | apps/aira-web/src/lib/api.ts:23 | the join starts with the first piece, and the separator follows it when there is a second |
| Strings.SplitJoin | apps/aira-web/src/lib/api.ts:23 | splitting undoes joining when no piece contains the separator |
| Strings.SplitCount | apps/aira-web/src/lib/api.ts:26 | a string splits into more than one piece exactly when it contains the separator |
| Strings.SplitWithoutSeparator | apps/aira-web/src/lib/api.ts:26 | a string without the separator splits into itself alone |
| Strings.SplitAtFirstSeparator | apps/aira-web/src/lib/api.ts:26 | the first piece ends at the first separator, and the rest splits on its own |
| Strings.TrimStart | apps/aira-web/src/lib/api.ts:26 | the result is a suffix with no leading white space, and everything removed is white space |
| Strings.TrimEnd | apps/aira-web/src/lib/api.ts:26 | the result is a prefix with no trailing white space, and everything removed is white space |
| Strings.Trim | apps/aira-web/src/lib/api.ts:26 | the trim is no longer than the string, has no white space at either end, and holds only characters of the string; TrimIsRun says which run it is |
| Strings.TrimIsRun | apps/aira-web/src/lib/api.ts:26 | for every string, the trim is the run `s[i..j]` left after cutting a white-space prefix and a white-space suffix, so `trim` keeps everything between its first and last non-white-space characters |
| Strings.TrimLeadingSpace | apps/aira-web/src/lib/api.ts:26 | a white-space character in front, such as the one after each `;`, does not change the trim |
| Strings.CutBothEnds | apps/aira-web/src/lib/api.ts:26 | a white-space-only cut from the front and then from the back leaves a run of the string between a white-space prefix and a white-space suffix |
| Strings.TrimUnchanged | apps/aira-web/src/lib/api.ts:26 | a string with no white space at either end is its own trim |
| Strings.NatToString | apps/aira-web/components/whatsapp/link-code-display.tsx:42 | decimal rendering is non-empty, all digits, with no leading zero |
| Strings.ParseNatToString | apps/aira-web/components/whatsapp/link-code-display.tsx:42 | reading the rendered digits back gives the number |
| Strings.NatToStringLength | apps/aira-web/components/whatsapp/how-to-link-dialog.tsx:115 | numbers below 10 render as one digit; numbers from 10 to 99 render as two |
| Strings.ParseNatLeadingZero | apps/aira-web/components/whatsapp/link-code-display.tsx:42 | a leading `0` does not change the value of a digit string |
| Strings.PadStart | apps/aira-web/components/whatsapp/link-code-display.tsx:42 | `padStart` reaches the target length, ends with the original string, and is filled before it |
| ApiClient.WithAuthorization | packages/core/src/api/apiClient.ts:77-81 | only `Authorization` can change; it becomes `Bearer <token>` exactly when a storage is configured and the token is non-empty |
| ApiClient.InterceptedHeaders | packages/core/src/api/apiClient.ts:76-87 | a rejected token read aborts with that rejection, only when a storage is configured; otherwise the headers are kept and gain the bearer token |
| ApiClient.IncludesNumberIff | packages/core/src/api/apiClient.ts:97 | `includes(Number(...))` is membership of a finite number; NaN (no response) is never included |
| ApiClient.FiresUnauthorized | packages/core/src/api/apiClient.ts:97 | the hook fires exactly when one is configured and a response came back with status 401, 403 or 404 |
| ApiClient.ErrorMessage | packages/core/src/api/apiClient.ts:104-105 | the server's `message` when it is neither null nor undefined, else the transport's message |
| ApiClient.Classify | packages/core/src/api/apiClient.ts:103-113 | exactly one branch applies: an `ApiError` with the response's status, code and body; the network-error `ApiError` when a request went out unanswered; or the original error rethrown |
| ApiClient.Validate | packages/core/src/api/apiClient.ts:118-124 | the parsed data when the schema accepts; otherwise a `ValidationError` carrying the schema's detail |
| ApiClient.DeleteData | packages/core/src/api/apiClient.ts:291 | `delete` sends a body exactly when one is given |
| ApiClient.DevRoute | packages/core/src/api/apiClient.ts:137-234 | a user URL always gets the user answer; each other canned answer needs the substrings its branch tests; a URL with none of them gets the empty object |
| ApiClient.ConnectLinkParts | packages/core/src/api/apiClient.ts:177-213 | a `/connectors/connect/` URL contains both `/connectors` and `/connect/` |
| ApiClient.FirstMatch | packages/core/src/api/apiClient.ts:137-234 | the index of the first routing rule from a position on that matches the URL, with no rule in between matching |
| ApiClient.RouteRulesMatch | packages/core/src/api/apiClient.ts:138-228 | each rule of the routing table matches exactly the URLs its `includes` tests accept |
| ApiClient.DevRouteIsFirstMatch | packages/core/src/api/apiClient.ts:137-234 | the development-mode if-chain answers with the tag of the first matching rule of the routing table |
| ApiClient.ConnectUrlRoutesToConnectLink | packages/core/src/api/apiClient.ts:177-213 | a `/connectors/connect/` URL gets the connect-link answer when no earlier rule catches it |
| ApiClient.InvokeHookAsWritten | packages/core/src/api/apiClient.ts:97-101 | as written, a hook that throws synchronously escapes the handler; only a rejection is logged |
| ApiClient.InvokeHook | packages/core/src/api/apiClient.ts:97-101 | with the call inside the promise chain, no hook failure escapes, and every failure is logged |
| ApiClient.RespondToErrorAsWritten | packages/core/src/api/apiClient.ts:96-114 | as written, a synchronous hook throw replaces the thrown error exactly when the hook fires and throws; otherwise the error is classified |
| ApiClient.RespondToError | packages/core/src/api/apiClient.ts:96-114 | the handler throws the classified error, whatever the hook does |
| ApiClient.SyncHookThrowMasksApiError | packages/core/src/api/apiClient.ts:97-101 | on a 401 with a synchronously throwing hook, the as-written handler loses the `ApiError` and the corrected one keeps it |
| ApiClient.AsWrittenAgreesUnlessHookThrows | packages/core/src/api/apiClient.ts:97-101 | the two handlers differ exactly when the hook fires and throws synchronously |
| ApiClient.Client.constructor | packages/core/src/api/apiClient.ts:43-59 | the base URL, a timeout defaulting to 30000, credentials exactly when not native, and whether a storage and a hook are configured |
| ApiClient.Client.GetBaseURL | packages/core/src/api/apiClient.ts:71-73 | the configured base URL, or the empty string |
| ApiClient.Client.InterceptRequest | packages/core/src/api/apiClient.ts:76-87 | the in-place header update equals the interceptor function; a rejection leaves the headers untouched |
| ApiClient.Client.Send | packages/core/src/api/apiClient.ts:76-115 | the transport gets the intercepted request, or nothing when the interceptor rejected; a failure is classified and fires the hook per `FiresUnauthorized`; success never fires it |
| ApiClient.Client.Finish | packages/core/src/api/apiClient.ts:248-254 | the wrapper's try/validate/rethrow: failures pass through unchanged; data is validated when a schema is given |
| ApiClient.Client.Call | packages/core/src/api/apiClient.ts:247-298 | sent exactly when the token read did not reject; the verb, URL, body (or `delete`'s optional body), content type and the intercepted headers are sent; a rejected token read or a failed exchange is the classified error and fires the hook per `FiresUnauthorized`; an answer never fires it, and is the body or its validation |
| ApiClient.Client.Get | packages/core/src/api/apiClient.ts:133-245 | in development mode, the canned `DevRoute` answer and no request; otherwise a body-less `GET` with the intercepted JSON headers, sent exactly when the token read did not reject, with the same failure, hook and validation outcomes as `Call` |
| ApiClient.Client.BearerHeaderIff | packages/core/src/api/apiClient.ts:76-87 | every request `post`, `postFormData`, `put`, `patch` or `delete` sends carries `Authorization: Bearer <token>` exactly when a storage holds a non-empty token, and no such header otherwise |
| ApiClient.Client.GetBearerHeaderIff | packages/core/src/api/apiClient.ts:76-87 | the same for the request `get` sends outside development mode |
| ApiClient.Client.RejectedBodyNeverReturned | packages/core/src/api/apiClient.ts:118-124 | a body the schema rejects is never returned; the call throws the `ValidationError` |
| ApiClient.ClientSlot.constructor | packages/core/src/api/apiClient.ts:301 | the singleton starts out empty |
| ApiClient.ClientSlot.InitApiClient | packages/core/src/api/apiClient.ts:303-306 | a new client built from the config replaces the stored one and is returned |
| ApiClient.ClientSlot.GetApiClient | packages/core/src/api/apiClient.ts:308-313 | the stored client, or the "not initialized" error when there is none |
| WebAuth.EntryName | apps/aira-web/src/lib/api.ts:26 | the `name` piece holds no `=` |
| WebAuth.EntryValue | apps/aira-web/src/lib/api.ts:26 | the `value` piece is undefined exactly when the trimmed entry has no `=`, and never holds one |
| WebAuth.OrNull | apps/aira-web/src/lib/api.ts:29 | an empty or missing value reads as null, and any other value is kept |
| WebAuth.FirstTokenIndex | apps/aira-web/src/lib/api.ts:25-31 | the position of the first entry, from a given one on, named `access-token` or the token key; no entry in between matches |
| WebAuth.ReadToken | apps/aira-web/src/lib/api.ts:21-33 | a token is read only from a document, and it is never empty |
| WebAuth.EntryPieces | apps/aira-web/src/lib/api.ts:26 | an entry with a plain name splits at its first `=` into that name and the split of the rest |
| WebAuth.PlainEntryParts | apps/aira-web/src/lib/api.ts:26 | a plain `name=value` entry destructures into that name and value |
| WebAuth.PlainFirstEntryWins | apps/aira-web/src/lib/api.ts:25-31 | a cookie string whose first entry is the plain token entry reads as its value, or null when that is empty |
| WebAuth.ValueStopsAtSecondEquals | apps/aira-web/src/lib/api.ts:26 | a value containing `=` is cut at it: `a=b=c` reads as `b` |
| WebAuth.Lookup | apps/aira-web/src/lib/api.ts:25-31 | what `get()` finds in a jar, on cookies: the first cookie named `access-token` or the token key, an empty value read as null; nothing when no cookie has either name |
| WebAuth.ParseCookiePair | apps/aira-web/src/lib/api.ts:36-42 | the cookie an assignment to `document.cookie` names, as section 5.2 of RFC 6265 reads it: a non-empty name without `=` |
| WebAuth.PairBeforeAttributes | apps/aira-web/src/lib/api.ts:36-42 | a plain `name=value` followed by `;` and any attributes names exactly that cookie |
| WebAuth.SetCookieString | apps/aira-web/src/lib/api.ts:36 | for a plain key and token, the string `set(token)` assigns names the cookie `key=token` |
| WebAuth.ClearCookieString | apps/aira-web/src/lib/api.ts:42 | for a plain key, the string `clear()` assigns names the key's cookie with an empty value |
| WebAuth.StoreCookie | apps/aira-web/src/lib/api.ts:36 | storing a live cookie: it is in the jar, it is the only cookie of its name, every other cookie stays, and nothing else is added |
| WebAuth.RemoveCookie | apps/aira-web/src/lib/api.ts:42 | expiring a cookie: exactly the cookies of other names remain, and none of that name |
| WebAuth.JarEntryParts | apps/aira-web/src/lib/api.ts:23-26 | each entry of the cookie header, after its `;` and trim, names its cookie and holds its value |
| WebAuth.JarRead | apps/aira-web/src/lib/api.ts:21-33 | reading the cookie header of a jar of plain cookies is `Lookup` on the jar |
| WebAuth.LookupStored | apps/aira-web/src/lib/api.ts:36 | after a cookie is stored under the key, with no backend cookie in the way, `Lookup` gives its value |
| WebAuth.LookupRemoved | apps/aira-web/src/lib/api.ts:42 | after the key's cookies expire, `Lookup` finds only what an `access-token` cookie holds |
| WebAuth.SetThenGet | apps/aira-web/src/lib/api.ts:21-39 | after `set(token)` on a jar of plain cookies, `get()` reads the token back unless a backend cookie answers first, and the jar stays plain |
| WebAuth.ClearThenGet | apps/aira-web/src/lib/api.ts:21-45 | after `clear()`, `get()` reads what a backend `access-token` cookie holds, which `clear()` leaves in place, and null when there is none |
| WebAuth.Document.constructor | apps/aira-web/src/lib/api.ts:22 | a document with the given visible cookies and no assignments yet |
| WebAuth.Document.Assign | apps/aira-web/src/lib/api.ts:36-42 | an assignment to `document.cookie` changes the jar as `AssignCookie` says and is logged |
| WebAuth.WebTokenStorage.constructor | apps/aira-web/src/lib/api.ts:20 | the storage reads and writes under the given token key |
| WebAuth.WebTokenStorage.Get | apps/aira-web/src/lib/api.ts:21-33 | the cookie scan returns exactly `ReadToken` of the document's cookie header, or null without a document |
| WebAuth.WebTokenStorage.Set | apps/aira-web/src/lib/api.ts:34-39 | the long-lived cookie string is assigned and the jar stores the cookie it names; nothing happens without a document |
| WebAuth.WebTokenStorage.Clear | apps/aira-web/src/lib/api.ts:40-45 | the expired empty cookie string is assigned and the jar drops the key's cookie; nothing happens without a document |
| WebAuth.HydrateAuthState | apps/aira-web/src/lib/api.ts:68-86 | authenticated exactly when the storage yields a token; loading ends either way |
| WebAuth.VerifyAuthState | apps/aira-web/src/lib/api.ts:107-123 | unconditionally authenticated and not loading; returns the fixed test user |
| WebAuth.OnUnauthorized | apps/aira-web/src/lib/api.ts:57-63 | the key's cookie is expired as `clear()` does, then the store is marked signed out and not loading |
| WebAuth.ResolveBaseURL | apps/aira-web/src/lib/api.ts:4-12 | a missing or empty base URL is the load error, with its message; otherwise the base URL |
| WebAuth.LoadModule | apps/aira-web/src/lib/api.ts:4-65 | with no base URL, the load fails and leaves the singleton alone; otherwise a fresh client with credentials, a 60 s timeout, the storage and the hook is installed |
| ConnectorSelector.Rank | apps/aira-web/components/editor/connector-selector.tsx:167-178 | four key classes: suggested ones come before the rest, and connected ones have classes 0 and 2 |
| ConnectorSelector.Compare | apps/aira-web/components/editor/connector-selector.tsx:169-178 | the comparator returns -1, 0 or 1, and its sign is the comparison of the key classes |
| ConnectorSelector.Insert | apps/aira-web/components/editor/connector-selector.tsx:168-179 | inserting adds exactly the one element |
| ConnectorSelector.SortConnectors | apps/aira-web/components/editor/connector-selector.tsx:168-179 | the sort is a permutation of its input |
| ConnectorSelector.InsertBetween | apps/aira-web/components/editor/connector-selector.tsx:168-179 | an element lands after every lower class and before the first element that is not of a lower class |
| ConnectorSelector.SortIsGrouped | apps/aira-web/components/editor/connector-selector.tsx:168-179 | the sorted list is the four classes one after another, each in input order |
| ConnectorSelector.GroupedSorted | apps/aira-web/components/editor/connector-selector.tsx:168-179 | that grouping is ordered by class |
| ConnectorSelector.GroupedClass | apps/aira-web/components/editor/connector-selector.tsx:168-179 | the grouping keeps each class's elements in their input order |
| ConnectorSelector.SortedConnectorsOrder | apps/aira-web/components/editor/connector-selector.tsx:167-179 | a permutation; suggested before the rest; within each of those, connected first; the same class stays in input order (stability) |
| ConnectorSelector.ViewItem | apps/aira-web/components/editor/connector-selector.tsx:48-157 | the suggested badge, "Not connected" and the integration prompt each show exactly under their condition, never two at once; disabled exactly when not connected |
| ConnectorSelector.ClickItem | apps/aira-web/components/editor/connector-selector.tsx:69-73 | the toggle gets the id exactly when the connector is connected |
| ConnectorSelector.ClickMatchesDisabled | apps/aira-web/components/editor/connector-selector.tsx:69-74 | the button does nothing exactly when it is rendered disabled |
| ConnectorSelector.ClickIntegrate | apps/aira-web/components/editor/connector-selector.tsx:136-144 | `onIntegrate` gets the id exactly for a suggested, unconnected connector |
| ConnectorSelector.ViewSelector | apps/aira-web/components/editor/connector-selector.tsx:181-218 | the header shows exactly when there are suggestions; item `i` renders the `i`-th sorted connector |
| HowToLinkDialog.NextStep | apps/aira-web/components/whatsapp/how-to-link-dialog.tsx:48-55 | Next moves one step on exactly while not on the last step; on the last, it closes |
| HowToLinkDialog.PrevStep | apps/aira-web/components/whatsapp/how-to-link-dialog.tsx:57-61 | Back moves one step back, and stays on the first step |
| HowToLinkDialog.NextThenPrev | apps/aira-web/components/whatsapp/how-to-link-dialog.tsx:48-61 | Next then Back returns to the starting step, from any step but the last |
| HowToLinkDialog.PrevThenNext | apps/aira-web/components/whatsapp/how-to-link-dialog.tsx:48-61 | Back then Next returns to the starting step, from any step but the first |
| HowToLinkDialog.NextPresses | apps/aira-web/components/whatsapp/how-to-link-dialog.tsx:48-55 | repeated Next presses move step by step up to the last step, then close |
| HowToLinkDialog.SwipeOf | apps/aira-web/components/whatsapp/how-to-link-dialog.tsx:64-71 | past 50 px to the left is Next, past 50 px to the right is Back, anything else does nothing |
| HowToLinkDialog.ViewAt | apps/aira-web/components/whatsapp/how-to-link-dialog.tsx:113-178 | the caption "Step n of 3", the step's title and description, exactly one active dot, Back disabled exactly on the first step, "Finish" exactly on the last |
| HowToLinkDialog.BackDisabledWhereIdle | apps/aira-web/components/whatsapp/how-to-link-dialog.tsx:150-160 | Back is disabled exactly where pressing it would change nothing |
| HowToLinkDialog.Dialog.constructor | apps/aira-web/components/whatsapp/how-to-link-dialog.tsx:46 | the sheet starts on the first step, with no reset scheduled |
| HowToLinkDialog.Dialog.HandleNext | apps/aira-web/components/whatsapp/how-to-link-dialog.tsx:48-55 | the state moves as `NextStep` says; closing is requested (and a reset scheduled) exactly on the last step |
| HowToLinkDialog.Dialog.HandlePrev | apps/aira-web/components/whatsapp/how-to-link-dialog.tsx:57-61 | the state moves as `PrevStep` says |
| HowToLinkDialog.Dialog.OnDragEnd | apps/aira-web/components/whatsapp/how-to-link-dialog.tsx:64-71 | a drag does Next, Back or nothing, as `SwipeOf` classifies it; closing is requested only by a Next swipe on the last step, which keeps the step and schedules one reset; otherwise no reset is scheduled |
| HowToLinkDialog.Dialog.SelectDot | apps/aira-web/components/whatsapp/how-to-link-dialog.tsx:134-137 | a dot click selects that step and schedules nothing |
| HowToLinkDialog.Dialog.FireReset | apps/aira-web/components/whatsapp/how-to-link-dialog.tsx:53 | a scheduled reset, 300 ms after closing, returns to the first step |
| LinkCodeDisplay.TickValue | apps/aira-web/components/whatsapp/link-code-display.tsx:28-37 | one second lowers the count by one exactly when not loading and time is left; it never goes below 0 |
| LinkCodeDisplay.AfterSeconds | apps/aira-web/components/whatsapp/link-code-display.tsx:28-37 | after `n` seconds the count is `timeLeft - n`, or 0 |
| LinkCodeDisplay.CountdownTimer.constructor | apps/aira-web/components/whatsapp/link-code-display.tsx:21 | the countdown starts at 300 seconds |
| LinkCodeDisplay.CountdownTimer.Render | apps/aira-web/components/whatsapp/link-code-display.tsx:23-26 | the countdown restarts at 300 exactly when the reset key changed |
| LinkCodeDisplay.CountdownTimer.Tick | apps/aira-web/components/whatsapp/link-code-display.tsx:28-37 | one interval run moves the count as `TickValue` says, and it stays within 0..300 |
| LinkCodeDisplay.PaddedSeconds | apps/aira-web/components/whatsapp/link-code-display.tsx:41-42 | padded seconds are two digits whose value is the seconds |
| LinkCodeDisplay.ParseTimeParts | apps/aira-web/components/whatsapp/link-code-display.tsx:42 | minutes, a colon and two digits read back as minutes and seconds |
| LinkCodeDisplay.MinutesSecondsRoundTrip | apps/aira-web/components/whatsapp/link-code-display.tsx:40-42 | the rendered minutes and seconds read back as their total |
| LinkCodeDisplay.TimeString | apps/aira-web/components/whatsapp/link-code-display.tsx:39-42 | the `m:ss` text reads back as the same number of seconds, and has at least four characters |
| LinkCodeDisplay.TimeStringInjective | apps/aira-web/components/whatsapp/link-code-display.tsx:39-42 | two different counts never render the same |
| LinkCodeDisplay.ShortTimeShape | apps/aira-web/components/whatsapp/link-code-display.tsx:40-42 | under ten minutes: one digit, a colon and two digits |
| LinkCodeDisplay.TimeStringShape | apps/aira-web/components/whatsapp/link-code-display.tsx:39-42 | within five minutes the text is four characters: the minute digit, a colon and two digits |
| LinkCodeDisplay.ViewButton | apps/aira-web/components/whatsapp/link-code-display.tsx:43-67 | "Refreshing...", "Code Expired", or "New Code (" + TimeString(count) + ")", whose time is the `m:ss` form and reads back as the count; disabled exactly while loading; the expired style exactly at 0 (`isExpired`) |
| LinkCodeDisplay.RefreshButton | apps/aira-web/components/whatsapp/link-code-display.tsx:144-150 | the countdown button exists exactly when there is an `onRefresh` handler |
| LinkCodeDisplay.FormattedCode | apps/aira-web/components/whatsapp/link-code-display.tsx:100 | one space goes in at position min(4, length); removing it gives the code back |
| InstructionSteps.Advance | apps/aira-web/components/whatsapp/instruction-steps.tsx:135-144 | a card click goes to the next slide modulo 3 |
| InstructionSteps.AdvanceTimes | apps/aira-web/components/whatsapp/instruction-steps.tsx:135-144 | `k` card clicks go `k` slides on modulo 3 |
| InstructionSteps.Carousel.constructor | apps/aira-web/components/whatsapp/instruction-steps.tsx:163 | the carousel starts on its first slide |
| InstructionSteps.Carousel.CanScrollNext | apps/aira-web/components/whatsapp/instruction-steps.tsx:138 | the carousel can scroll on exactly when a slide follows the selected one |
| InstructionSteps.Carousel.ScrollNext | apps/aira-web/components/whatsapp/instruction-steps.tsx:139 | moves one slide on, when there is one |
| InstructionSteps.Carousel.ScrollTo | apps/aira-web/components/whatsapp/instruction-steps.tsx:142 | selects the given slide |
| InstructionSteps.Instructions.constructor | apps/aira-web/components/whatsapp/instruction-steps.tsx:123-124 | no carousel API yet; the first slide |
| InstructionSteps.Instructions.SetApi | apps/aira-web/components/whatsapp/instruction-steps.tsx:126-132 | once the API is set, `current` is the selected slide |
| InstructionSteps.Instructions.OnSelect | apps/aira-web/components/whatsapp/instruction-steps.tsx:129-131 | the select listener makes `current` the selected slide |
| InstructionSteps.Instructions.HandleCardClick | apps/aira-web/components/whatsapp/instruction-steps.tsx:135-144 | with an API, `current` becomes `Advance(current)`, in step with the carousel; without one, nothing changes |
| InstructionSteps.Instructions.ClickTimes | apps/aira-web/components/whatsapp/instruction-steps.tsx:135-144 | `k` card clicks from any state with an API move `current` as `AdvanceTimes` says, in step with the carousel; without one, nothing changes |
| InstructionSteps.Instructions.DotClick | apps/aira-web/components/whatsapp/instruction-steps.tsx:154 | a dot click selects that slide; without an API, nothing changes |
| InstructionSteps.Instructions.UserSwipe | apps/aira-web/components/whatsapp/instruction-steps.tsx:129-131 | a slide the user drags to becomes `current` |
| InstructionSteps.Dots | apps/aira-web/components/whatsapp/instruction-steps.tsx:151-158 | exactly the dot at `current` is active |
| InstructionSteps.Caption | apps/aira-web/components/whatsapp/instruction-steps.tsx:187 | the caption is "Step n: " followed by the slide's title |

## Left out

- HTTP transport:
  - axios is an input function from request to exchange;
  - its header merging, defaults other than those listed, and the timeout's effect are not modelled;
  - a timeout shows up only as an exchange that failed without a response.
- Token storage:
  - the storage's `get()` is represented by the value it settles with;
  - when it rejects, the `await this.tokenStorage.get()` at `packages/core/src/api/apiClient.ts:78` has no `catch`, so the request is aborted with that rejection (`InterceptedHeaders`).
- Schemas:
  - a zod schema is its `safeParse` function;
  - the failure detail is an opaque value.
- Asynchrony:
  - each call is one step;
  - the fire-and-forget `onUnauthorized` hook is recorded as `hookFired` and runs out of band;
  - concurrent in-flight requests and hook calls are not modelled.
- `isDevMode`:
  - a parameter of `Get` (it reads an environment variable or a global);
  - logging is left out;
  - development mode is not modelled for the other verbs, which do not check it.
- Development-mode answers: each is a tag, not the canned payloads, since their `Date` timestamps are clock reads.
- `postFormData`:
  - this is `Call` with `formData` set;
  - the `FormData` body is an opaque value.
- `TOKEN_KEY` and `document`:
  - `TOKEN_KEY` is defined outside the modelled files and is a parameter;
  - the browser's cookie jar is `Document.jar`, the cookies the page can see in the order `document.cookie` lists them; every assigned string is also logged in `cookieWrites`;
  - cookies are told apart by name only: other paths and domains, and `HttpOnly` cookies the page cannot read, are not modelled;
  - an assignment's attributes are reduced to whether they expire the cookie, passed to `Document.Assign` (`max-age=31536000` keeps it, the 1970 `expires` date removes it); `path`, `SameSite` and the lifetime itself are not modelled;
  - `ParseCookiePair` trims a cookie's name and value with `trim`'s white-space set. That set is wider than the space and tab a browser removes under section 5.2 of RFC 6265, so a name or value with other white space at its ends is read differently.
- `WebAuth.SetThenGet`: stated for jars of plain cookies (no `;` or `=` in a value, no white space at either end), a plain token key and a plain token. A value with `=` is cut by the reader (`ValueStopsAtSecondEquals`), and the read-back is not stated for it.
- `WebAuth.ClearThenGet`: stated for jars of plain cookies and a plain token key, for the same reason.
- `WebAuth.ReadToken`: its own contract only says a read token is non-empty and needs a document. What token it reads is stated by `FirstTokenIndex`, `PlainFirstEntryWins`, `JarRead`, `SetThenGet` and `ClearThenGet`.
- The auth store: only the two fields these modules set are modelled.
- The web app's hook: its `await` of `clear()` is one step.
- Timers:
  - the one-second interval is `Tick`;
  - the 300 ms reset (`setTimeout`) is a count of pending resets, fired one at a time by `FireReset`;
  - elapsed time itself is not modelled.
- React: each handler sees the state of the render that created it; stale closures across renders are not modelled.
- Clipboard: the copy button is left out (clipboard I/O and the two-second "Copied!" timer), as is the help sheet toggle.
- The drag gesture: only its final horizontal offset is modelled, as a real number.
- Presentation: animation, styling, icons, the card layout and the slides' visuals are left out.
- The carousel library:
  - reduced to the selected slide, `canScrollNext`, `scrollNext`, `scrollTo` and the `select` event;
  - the event is raised synchronously after each scroll;
  - the listener registered again on each API change is not modelled.
- Characters: a Dafny string is a sequence of Unicode code points, while JavaScript's `length`, `slice` and `padStart` count UTF-16 code units. For text outside the Basic Multilingual Plane the two differ: `code.slice(0, 4)` at `apps/aira-web/components/whatsapp/link-code-display.tsx:100` can split a surrogate pair, which `FormattedCode` does not capture. The model's lengths and positions agree with the source for text within that plane.
- Numbers: integers. Division and remainder are applied only to non-negative counts, where JavaScript and Dafny agree.
- `Array.prototype.sort`:
  - modelled by an insertion sort;
  - any stable sort with a consistent comparator, as this one is, yields the same order, which `SortedConnectorsOrder` characterizes.
- `LinkCodeDisplay.ParseTime`: a reader of `m:ss` text that is not in the source. It exists only to state the round trip and has no contract of its own.
- The remaining files:
  - `empty-state.tsx` and the pages that use these components are not part of this model;
  - the singleton's use from other modules is not modelled beyond `InitApiClient` and `GetApiClient`.
- `ApiClient.Client.Send`: it throws `Classify(e)` whatever the hook does, which is the corrected handler `RespondToError` below. The code as written differs only for a hook that throws synchronously.

## Findings

| source | as written | input that shows it | evidently intended | confidence | as-written member | corrected member |
|---|---|---|---|---|---|---|
| packages/core/src/api/apiClient.ts:97-101 | `Promise.resolve(this.onUnauthorized())` calls the hook before `Promise.resolve` and `.catch` apply. A hook that throws synchronously (the config type allows a plain `() => void`) throws out of the response error handler, and the caller gets that exception instead of the `ApiError` | a 401 response with a configured non-async hook that throws | hook failures are logged and never replace the request's own error, as the `.catch` shows | medium; not executed (the web app's own hook is `async`, so it cannot throw synchronously) | ApiClient.RespondToErrorAsWritten, ApiClient.SyncHookThrowMasksApiError | ApiClient.RespondToError |
