# TestFlight watcher — a Dafny model of its monitor loop

The program watches a fixed list of TestFlight beta pages. In every cycle it
fetches each page in order. It classifies the page as having a free slot
when the text `This beta is full` is absent. For an app with a free slot it
sends a Pushover notification and then a Discord webhook message, and resets
the app's `NoSlotCount`. For a full app it increments `NoSlotCount`. A check
that fails (transport error, non-200 status, unreadable body) leaves the app
alone.

The model has five modules:

- `Text` (text.dfy): substring search with Go's `strings.Contains` semantics.
  `Contains` is recursive and is proved equal, in both directions, to the
  index-based definition `OccursAt`.
- `Availability` (availability.dfy): `checkAppStatus` after the network. The
  GET and the body read become a `FetchOutcome` value, and the result is a
  `CheckResult`: a classification, or one of the three check errors.
- `Notify` (notify.dfy): the strings the two channels send, the six Pushover
  form fields, and how each channel's POST reply becomes success or an error
  (Pushover wants 200, Discord 204).
- `Monitor` (monitor.dfy): the registry entry `AppConfig` and the five
  default apps. One loop iteration is `Step` on its entry plus `TargetEvents`
  for the notifications. `CycleApps` and `CycleEvents` give a whole pass, and
  `Rounds`/`RoundsEvents` give a sequence of passes. The class
  `TestFlightMonitor` holds the registry as an array, which `Visit`/`Cycle`
  update in place through the index, the way `appsToMonitor[i]` is updated.
  It records every attempted notification in a ghost `trace`.
- `History` (history.dfy): what one app's counter means after many cycles.

The network becomes a `Probe` per app and cycle: the fetch outcome plus the
replies the two notification POSTs would get. The code ignores those two
replies except for printing them, and so does the model: they appear only in
the trace.

The code (main.go:140-149) resets the counter, and sends both notifications,
on every check that finds a slot, including repeated ones. Nothing
remembers whether the previous check found one. `NoSlotCount` therefore
counts the misses since the last check that found a slot, as
`History.CountSinceLastAvailable` proves.

## Model

| member | source | states |
|---|---|---|
| `Text.Contains` | main.go:65 | the empty string is contained in every string, and a contained string is never longer than the text |
| `Text.ContainsIff` | main.go:65 | `Contains(s, sub)` holds exactly when `sub` occurs in `s` at some index |
| `Text.ContainsAt` | main.go:65 | an occurrence at any index makes `Contains` true |
| `Text.ContainsHasOccurrence` | main.go:65 | `Contains` is true only when there is an occurrence |
| `Text.ContainsPiece` | main.go:65 | a concatenation `a + b + c` contains `b` |
| `Availability.CheckAppStatus` | main.go:47-66 | a fetch failure gives FetchError; a non-200 status gives UnexpectedStatus with that code, whatever the body; a 200 with an unreadable body gives ReadError; there is a classification exactly when the status is 200 and the body was read; the page is available exactly when the marker occurs at no index of the body |
| `Availability.MarkerMeansUnavailable` | main.go:65 | a 200 page with the marker anywhere in it is unavailable |
| `Availability.AvailableIff` | main.go:65 | a read 200 page is available exactly when the marker occurs nowhere |
| `Availability.FullPageIsUnavailable` | main.go:58-65 | the page "This beta is full." is unavailable |
| `Availability.OpenPageIsAvailable` | main.go:58-65 | the page "Join the beta now" is available |
| `Availability.ServiceUnavailableIsError` | main.go:54-56 | a 503 answer is UnexpectedStatus(503) whatever the body |
| `Notify.PushoverTitle` | main.go:73 | the title starts with "Slot available: " and contains the app name |
| `Notify.PushoverMessage` | main.go:74 | the message starts with "A slot for the app '" and contains both the name and the URL |
| `Notify.DiscordContent` | main.go:95 | the content starts with "Slot available for **" and contains both the name and the URL |
| `Notify.TitleInjective` | main.go:73 | two apps get the same Pushover title only when their names are equal |
| `Notify.PushoverRequest` | main.go:70-76 | the Pushover form carries the API token and user key, a title and a message naming the app, the message giving its URL, the URL itself and the link title "TestFlight Link" |
| `Notify.PushoverRequestIdentifiesApp` | main.go:70-76 | two apps get the same Pushover form only when their names and URLs are equal |
| `Notify.PushoverDelivery` | main.go:78-89 | a Pushover send succeeds exactly on status 200; no reply is SendError; any other status is an error carrying it |
| `Notify.DiscordDelivery` | main.go:102-117 | a Discord send succeeds exactly on status 204; no reply is SendError; any other status is an error carrying it |
| `Monitor.DefaultApps` | main.go:29-35 | five apps, every counter starting at zero |
| `Monitor.Step` | main.go:134-153 | one iteration on its own entry: a failed check leaves the entry as it was; a free slot sets the counter to 0; no slot adds one to it; name and URL are kept |
| `Monitor.TargetEvents` | main.go:140-147 | one iteration attempts no notification unless its check found a free slot, and then exactly two, Pushover first and Discord second, both for that target |
| `Monitor.CycleEvents` | main.go:133-147 | every notification attempted while processing the first n targets is for a target below n |
| `Monitor.CycleApps` | main.go:133-154 | a cycle keeps the registry's length |
| `Monitor.CycleEffect` | main.go:133-154 | after a cycle: an available app has counter 0 whatever it was; an unavailable app has its old counter + 1; an app whose check failed is unchanged; names and URLs never change; non-negative counters stay non-negative |
| `Monitor.CycleLocality` | main.go:133-153 | entry i after a cycle depends only on entry i and probe i |
| `Monitor.AvailableTargets` | main.go:140 | the listed indices are below n and their checks found a free slot |
| `Monitor.AvailableTargetsComplete` | main.go:133-140 | the list is strictly increasing and holds an index exactly when that check found a free slot |
| `Monitor.EventsPairUp` | main.go:140-147 | a cycle's notifications are two per available app, in index order: the Pushover attempt with that app's form, then the Discord attempt with its content, sent whatever the Pushover reply was |
| `Monitor.NotificationsOnlyForAvailable` | main.go:140-147 | every attempted notification is for an app whose check found a free slot |
| `Monitor.WhatsAppFullScenario` | main.go:150-152 | a full WhatsApp page moves its counter from 0 to 1 and notifies nobody |
| `Monitor.WhatsAppOpenScenario` | main.go:140-149 | an open WhatsApp page resets its counter and makes exactly one Pushover and one Discord attempt, Discord even though Pushover answered 400 |
| `Monitor.ServiceUnavailableScenario` | main.go:134-138 | a 503 answer leaves the entry unchanged and notifies nobody |
| `Monitor.Rounds` | main.go:131-156 | several cycles keep the registry's length |
| `Monitor.RoundsNotifyOnlyAvailable` | main.go:131-147 | over the first m cycles, every attempted notification is for an app of the registry whose check found a free slot in one of those cycles |
| `Monitor.TestFlightMonitor.constructor` | main.go:29-35 | the registry array is fresh and holds the given apps; the trace is empty |
| `Monitor.TestFlightMonitor.SendPushover` | main.go:69-90 | returns the Pushover delivery result and appends exactly that attempt to the trace |
| `Monitor.TestFlightMonitor.SendDiscord` | main.go:93-118 | returns the Discord delivery result and appends exactly that attempt to the trace |
| `Monitor.TestFlightMonitor.Visit` | main.go:134-153 | slot i becomes `Step` of its old value; every other slot is unchanged; the trace grows by that app's notifications |
| `Monitor.TestFlightMonitor.Cycle` | main.go:133-154 | the array afterwards is `CycleApps` of the array before; the trace grows by `CycleEvents`; counters stay non-negative |
| `Monitor.TestFlightMonitor.Run` | main.go:131-156 | after a bounded run the array is `Rounds` of the array before and the trace grows by `RoundsEvents` |
| `History.RoundsAt` | main.go:149-151 | over many cycles, entry i evolves only from its own initial value and its own probes |
| `History.HistoryKeepsIdentity` | main.go:149-151 | name and URL never change, and a non-negative counter never becomes negative |
| `History.CountSinceLastAvailable` | main.go:148-152 | after the last check that found a slot, the counter equals the number of later checks that found none |
| `History.CountWithoutAvailable` | main.go:150-152 | with no check finding a slot, the counter grows by the number of checks that found none; failed checks add nothing |
| `History.CountGrowsWithoutBound` | main.go:151 | n checks in a row that find no slot add exactly n to the counter |
| `History.CounterSinceLastSlot` | main.go:140-152 | after the last cycle that found app i with a free slot, its counter equals the number of later misses, whatever its starting value |
| `History.CounterWithoutSlot` | main.go:29-35 | in a registry starting at zero, an app never found with a free slot has a counter equal to all its misses |

## Left out

- HTTP: `http.Get`, `http.PostForm` and `http.DefaultClient.Do` are not modelled. Their results arrive as `Probe` values, so any sequence of network behaviours can be reasoned about.
- Resource handling: closing response bodies (`defer resp.Body.Close()`) is not modelled; body-read failure is the `ReadFailed` outcome.
- Encoding: JSON marshalling of the Discord payload and form-encoding of the Pushover fields are not modelled. Only the field contents are. A Discord request that cannot be built is folded into `SendFailed`.
- Error details: the text of each error message is not modelled. The Go errors for a rejected notification do not carry the status code: the Pushover error formats the decoded JSON reply (main.go:87) and the Discord error the raw response body (main.go:115). `RejectedStatus(status)` carries the status code as a stand-in for those bodies.
- Bytes: response bodies are modelled as strings of characters standing for the bytes. This matches Go's bytewise `strings.Contains` for the ASCII marker.
- Configuration: the environment variables for the Pushover key, token and webhook URL become the `Settings` value the monitor is built with. The `OS` test that chooses the console-clear command is not modelled.
- Output: all printing and `clearConsole` are cosmetic and are not modelled.
- Timing: the endless outer loop and `time.Sleep(checkInterval)` are not modelled directly. `Run` performs a finite number of cycles, one per vector of probes, with no sleep.
- Monitor.TestFlightMonitor.Cycle: does not model wrap-around of the counter. Go's `int` is 32 or 64 bits depending on the platform, so `NoSlotCount++` (main.go:151) wraps after 2^31 or 2^63 misses in a row, about 340 years or 1.5 trillion years at one check every 5 seconds. The counter is an unbounded integer in every contract about it.
- Monitor.Step: its "adds one" clause assumes the counter does not wrap, as above.
- Monitor.CycleEffect: its "old counter + 1" clause assumes the counter does not wrap, as above.
- History.CountGrowsWithoutBound: "without bound" holds for the unbounded counter only; on the platform's `int` the count wraps as above. The same holds for the other History counter lemmas.
