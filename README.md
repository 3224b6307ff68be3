# Contest aggregator: filter and envelope model

This project is a Dafny model of two small pieces of a contest-listing web app.
The app collects programming-contest listings from Codeforces, CodeChef and LeetCode.

- **The contest list filter** (`src/components/ContestList.js`). The browser keeps a contest when two things hold:
  - the platform drop-down is on its "ALL" value, or it equals the contest's platform;
  - the status drop-down is on its "ALL" value, or its upper-cased value equals the contest's status.
  The list then shows one card per kept contest, or the "No contests found matching your criteria" alert when nothing is kept.
- **The `/contests` aggregation handler** (`server/proxy.js`). Each platform's GET is wrapped by `fetchPlatformData`. That function never fails; it gives `{success, data}`. The three results are awaited with `Promise.all`. The handler then answers with an envelope whose `data` object holds one key per platform. On an exception it answers with a 500 error body instead.

Modules:

- `Wrappers`: `Option`.
- `Json`: JSON values. Object fields stay in insertion order (JavaScript does so for the non-integer-like keys the model builds). The module also has key listing and property access.
- `ContestList`: contest records, the two halves of the filter predicate, ASCII upper-casing, the filter and the rendered view.
- `Proxy`: platforms and their URLs, fetch outcomes, settled promises, `Promise.all`, the envelope, the error response and the handler.

The network is the parameter `network: string -> HttpOutcome`, which maps a request URL to what the GET produced. The response timestamp is a string parameter.

On the normal path `success` is `true` even when every source failed (server/proxy.js:52-53); `Proxy.AllFailedStillSucceeds` states this.

## Model

| member | source | states |
|---|---|---|
| `ContestList.UpperChar` | src/components/ContestList.js:19 | the result is never a lower-case letter; a character is unchanged exactly when it is not lower-case |
| `ContestList.ToUpper` | src/components/ContestList.js:19 | upper-casing keeps the length and maps each character on its own |
| `ContestList.PlatformMatch` | src/components/ContestList.js:16-17 | definition: the platform selection is the ALL value or equals the contest's platform; characterised by `ContestList.FilterMembership` |
| `ContestList.StatusMatch` | src/components/ContestList.js:18-19 | definition: the status selection is the ALL value or, upper-cased, equals the contest's status; characterised by `ContestList.LowerCaseStatusNeverMatches` and `ContestList.UpperCasingIsOneSided` |
| `ContestList.Keeps` | src/components/ContestList.js:20 | definition: both matches hold; characterised by `ContestList.FilterMembership` and `ContestList.FilterKeepsOrder` |
| `ContestList.FilterContests` | src/components/ContestList.js:15-21 | soundness: every contest in the output is from the input and passes both matches; the output is no longer than the input |
| `ContestList.FilterMembership` | src/components/ContestList.js:15-21 | a contest is in the output if and only if it is in the input and passes both the platform match and the status match |
| `ContestList.FilterCount` | src/components/ContestList.js:15-21 | a passing contest occurs in the output as often as in the input; a failing one never occurs, so nothing else is dropped |
| `ContestList.FilterKeepsOrder` | src/components/ContestList.js:15 | the output is the input read at a strictly increasing list of positions, and those are exactly the positions whose contest passes; so it is an order-preserving subsequence |
| `ContestList.FilterFromPositions` | src/components/ContestList.js:15 | for every suffix, the filter output is that suffix read at the kept positions |
| `ContestList.KeptFromIncreasing` | src/components/ContestList.js:15 | the kept positions lie inside the input and strictly increase |
| `ContestList.KeptFromExactly` | src/components/ContestList.js:15-21 | a position is kept if and only if its contest passes the predicate |
| `ContestList.FilterAllIsIdentity` | src/components/ContestList.js:16-19 | with both drop-downs on their ALL values, the output equals the input |
| `ContestList.FilterIdempotent` | src/components/ContestList.js:15-21 | filtering the output again with the same selection returns it unchanged |
| `ContestList.LowerCaseStatusNeverMatches` | src/components/ContestList.js:18-19 | a contest whose status holds a lower-case letter matches no status selection other than ALL, because only the selection is upper-cased |
| `ContestList.SelectionCaseIsIgnored` | src/components/ContestList.js:18-19 | two non-ALL status selections that differ only in letter case keep the same contests |
| `ContestList.UpperCasingIsOneSided` | src/components/ContestList.js:18-19 | the selection "Upcoming" keeps a contest with status "UPCOMING" and rejects one with status "Upcoming" |
| `ContestList.StatusBadge` | src/components/ContestList.js:26-30 | definition: the `statusColors` table, UPCOMING to warning, ACTIVE to success, PAST to secondary, anything else to no variant |
| `ContestList.CardFor` | src/components/ContestList.js:36-75 | definition: the card of one contest (key, platform header, badge variant, name, register URL, start and end); characterised by `ContestList.Cards` |
| `ContestList.Cards` | src/components/ContestList.js:36-75 | one card per contest, in order, each built from its own contest |
| `ContestList.Render` | src/components/ContestList.js:35-81 | the alert, with its fixed text, is shown exactly when the filtered list is empty; otherwise there is one card per filtered contest, keyed by the contest's id |
| `ContestList.View` | src/components/ContestList.js:13-81 | definition: the filter followed by the render; characterised by `ContestList.ViewAlertIffNothingKept` and `ContestList.ViewOneCardPerKeptContest` |
| `ContestList.ViewAlertIffNothingKept` | src/components/ContestList.js:13-81 | the alert is shown if and only if no input contest passes the filter |
| `ContestList.ViewOneCardPerKeptContest` | src/components/ContestList.js:13-81 | the grid holds exactly one card per kept input contest, in input order |
| `Proxy.ApiUrl` | server/proxy.js:20-24 | definition: the `PLATFORM_APIS` table, one fixed URL per platform; characterised by `Proxy.ContestsHandler` and `Proxy.SourcesAreIndependent` |
| `Proxy.FetchPlatformData` | server/proxy.js:26-34 | the promise always fulfils; `success` holds exactly when the platform's GET delivered a body; success carries that body unchanged; failure carries `null` |
| `Proxy.PromiseAll` | server/proxy.js:44-48 | fulfils exactly when every input fulfils, with all their values in input order; otherwise rejects with the reason of one of the rejected inputs |
| `Proxy.FanOut` | server/proxy.js:44-48 | definition: the three fetches in start order, Codeforces, CodeChef, LeetCode; characterised by `Proxy.FanOutFulfils` |
| `Proxy.FanOutFulfils` | server/proxy.js:44-48 | no fetch rejects, so the awaited `Promise.all` fulfils with the three results in start order |
| `Proxy.Slot` | server/proxy.js:56-58 | definition: a result's data if it succeeded, else `null`; characterised by `Proxy.Envelope` |
| `Proxy.Envelope` | server/proxy.js:52-60 | the body has exactly the keys `success`, `timestamp`, `data`; `success` is `true`; `data` has exactly `codeforces`, `codechef`, `leetcode`, in that order; each holds its result's data when that result succeeded and `null` otherwise |
| `Proxy.ErrorResponse` | server/proxy.js:61-67 | status 500 and a body of exactly `success: false`, the fixed message "Failed to fetch contest data" and the error's message |
| `Proxy.Respond` | server/proxy.js:42-69 | a fulfilled await gives status 200 with `success: true`; a rejected one gives the error response for its reason |
| `Proxy.EnvelopeReports` | server/proxy.js:50-58 | the envelope of the three fetch results holds, under each platform's key, the body that platform's URL delivered, or `null` if its GET failed |
| `Proxy.ContestsHandler` | server/proxy.js:42-69 | the handler always answers status 200 with `success: true`; `data` has exactly the keys `codeforces`, `codechef`, `leetcode`, in that order; each holds the body its own platform's URL delivered, or `null` if that GET failed |
| `Proxy.HandlerTakesNormalPath` | server/proxy.js:42-60 | the fetches never reject, so the handler always answers 200 with the envelope of the three results, first to `codeforces`, second to `codechef`, third to `leetcode` |
| `Proxy.SourcesAreIndependent` | server/proxy.js:56-58 | the value under one platform's key depends only on that platform's GET, so another source's failure leaves it unchanged |
| `Proxy.ReportedIffSucceeded` | server/proxy.js:56-58 | for any non-null payload `d`, a platform's key holds `d` if and only if its fetch resolved to `{success: true, data: d}`; any non-null value under a key means that fetch succeeded |
| `Proxy.AllFailedStillSucceeds` | server/proxy.js:52-59 | even when all three sources fail, the answer is 200 with `success: true` and every platform key `null` |

## Left out

- Upper-casing covers ASCII letters only. JavaScript's `toUpperCase` also maps other Unicode letters, and it can change a string's length (for example "ß" becomes "SS").
- `PLATFORMS` and `CONTEST_STATUS` are imported from `src/utils/api.js`, which as given does not define them (nor `setContestReminder` and `checkReminders`); as written, `PLATFORMS.ALL` would throw at `src/pages/Home.js:9` and `src/components/ContestList.js:16`. Their ALL values are parameters here; the normaliser and the reminder store are not part of this model.
- `ContestList.StatusBadge` looks the status up among the table's own keys only. In JavaScript, `statusColors[contest.status]` also finds inherited `Object.prototype` members for statuses such as "constructor" or "toString".
- Network I/O is not modelled. This covers axios, its 8-second timeout, its headers and its non-2xx status check. All of these are folded into one given outcome per URL, either `Received(body)` or `Failed(message)`.
- `console.error` logging is not modelled.
- Express routing, CORS and the `/health` endpoint are outside the model.
- The timestamp from `new Date().toISOString()` is a parameter, because it reads the clock.
- `Proxy.PromiseAll`: when several promises reject, the model rejects with the first by position. JavaScript rejects with the first to settle in time. The fetches never reject, so the handler is not affected.
- `Proxy.Respond`: the catch branch cannot be reached in the model, because no fetch rejects. In the real server it is reached only when `res.json` itself throws, and that fault is outside the model. The error body is modelled on its own and is selected by a rejected await.
- Concurrency of the three requests is not modelled; the three requests form an ordered sequence.
- JSON numbers are integers in the model; floating point is left out.
- React state timing is not modelled. `filteredContests` starts empty and is filled by an effect after the first paint, so the first render briefly shows the alert even when some contests match.
- The reminder modal, the "Remind" button, the theme, `PLATFORM_COLORS`, the badge text from `CONTEST_STATUS` and the `toLocaleString` date formatting are UI, outside the model.
- `src/pages/Home.js:16` stores the proxy's `data` object as the contest list. The filter is modelled over a list of normalised contest records, and this mismatch is not reconciled.
