# Debug log overlay and API-key provider of a mobile app shell

This project models the two stateful parts of a small React Native app, with
timers and async completions turned into explicit events:

- **The debug log** (`components/debug-overlay.tsx`). There is one
  process-wide, append-only buffer of `{timestamp, message, level}` entries
  and one nullable subscriber slot (`setLogsCallback`). `debugLog` appends
  an entry. If someone is subscribed at that moment, it also queues a
  zero-delay delivery of the buffer. The `DebugOverlay` component takes the
  slot on mount and shows everything logged so far. It hides itself after
  30 s unless an error has been logged, and its close button hides it too.
  It lets go of the slot and its timer on unmount.
  - `LogBroadcaster` holds the module-level state. `subscriber: Overlay?`
    is the slot: a reference to the overlay whose setter it holds, or null.
    `pending` counts the delivery timers still queued. Those timers capture
    nothing, so that count is the whole queue.
  - `Overlay` holds one component instance's `visible`, `shown` (its
    `debugLogs` state), `timerArmed` and `mounted`.
  - The timestamp cut (`toISOString().split('T')[1].slice(0, 12)`) and the
    row format `"{timestamp} [{LEVEL}] {message}"` are pure functions.
- **The API-key provider** (`constants/api-key-context.tsx`). `apiKey`
  starts as `""` and `isLoaded` as false. Loading races a secure-store read
  against a 2000 ms timer. Only a truthy result replaces the key. Every
  outcome sets `isLoaded`. The provider renders nothing until loaded.
  `setApiKey` changes the key in memory at once and ignores a failed write.
  `useApiKey` fails outside a provider. `ApiKeyProvider` also records every
  store call, and its invariant `Valid()` says that all of them use the key
  `jules_api_key`.

Files:
- `wrappers.dfy`: Option and Result.
- `text.dfy`: the JavaScript string operations used (indexOf, split/join, slice, toUpperCase).
- `debug_overlay.dfy`: the debug log.
- `api_key_context.dfy`: the provider.

Three client methods show the contracts at work. Each has `requires` clauses
but no `ensures`, so they are not in the table.
- `ErrorKeepsOverlayVisible`: an error keeps the overlay up, a later overlay wins the slot, and an earlier overlay's unmount empties it.
- `QuietOverlayHides`: with no error logged, the timer hides the overlay, and a remount does not show it again.
- `HiddenStaysHidden`: a hidden overlay stays hidden through logging, delivery, the timer, close, unmount and mount.

`SlowLoadThenSave` does the same for the provider: a read slower than the timeout leaves the key empty but loaded, and a save is visible at once even if its write fails.

## Model

| member | source | states |
|---|---|---|
| Text.IndexOf | components/debug-overlay.tsx:15 | the result is the position of the first occurrence, or the length exactly when there is none |
| Text.Split | components/debug-overlay.tsx:15 | `split` with a one-character separator gives at least one piece, and no piece holds the separator |
| Text.JoinSplit | components/debug-overlay.tsx:15 | joining the pieces of a split with the separator gives back the string |
| Text.SplitJoin | components/debug-overlay.tsx:15 | splitting a join of separator-free pieces gives back the pieces (Split inverts Join) |
| Text.Take | components/debug-overlay.tsx:15 | `slice(0, n)` is a prefix with at most `n` characters, and exactly `n` when the string is long enough |
| Text.ToUpperAscii | components/debug-overlay.tsx:63 | `toUpperCase` keeps the length and upper-cases each character |
| DebugOverlay.LevelLabelIsUpperCase | components/debug-overlay.tsx:63 | the rendered label of each level is its source name passed through `toUpperCase` |
| DebugOverlay.Timestamp | components/debug-overlay.tsx:15 | a timestamp exists exactly when the ISO string has a `T`; it is the text after the first `T` up to the next `T` (or the end), cut to 12 characters, so it holds no `T` |
| DebugOverlay.TimestampOfIsoInstant | components/debug-overlay.tsx:15 | for `YYYY-MM-DDTHH:mm:ss.sssZ` the timestamp is exactly the `HH:mm:ss.sss` part, of that shape |
| DebugOverlay.ParseLineRoundTrip | components/debug-overlay.tsx:63 | a rendered row reads back to its entry (timestamp, level, message) whenever the timestamp has no space |
| DebugOverlay.IsoLineRoundTrip | components/debug-overlay.tsx:14-18 | any row of an entry stamped from an ISO instant reads back to that entry |
| DebugOverlay.RenderLines | components/debug-overlay.tsx:61-65 | one row per entry, in buffer order, each in the `{timestamp} [{LEVEL}] {message}` format |
| DebugOverlay.HasErrorAppend | components/debug-overlay.tsx:41 | once the buffer holds an error, appending keeps it; appending adds one only if the new entry is an error |
| DebugOverlay.LogBroadcaster.constructor | components/debug-overlay.tsx:10-11 | the buffer starts empty, the slot empty, no delivery queued |
| DebugOverlay.LogBroadcaster.DebugLog | components/debug-overlay.tsx:13-28 | appends exactly one entry at the end, with the cut timestamp, the message and the level (info when omitted); earlier entries unchanged; queues one delivery exactly when the slot was taken |
| DebugOverlay.LogBroadcaster.FireDelivery | components/debug-overlay.tsx:23-27 | removes one queued delivery; if the slot is taken now, that overlay's rows become the whole buffer as it stands now and nothing else of it changes; if empty, nothing else changes |
| DebugOverlay.Overlay.constructor | components/debug-overlay.tsx:32-33 | starts visible with no rows, no timer, not mounted |
| DebugOverlay.Overlay.Mount | components/debug-overlay.tsx:35-44 | the overlay becomes the slot's holder whoever held it before (last wins), shows the entire current buffer, arms the timer; the buffer and visibility are unchanged |
| DebugOverlay.Overlay.FireTimer | components/debug-overlay.tsx:40-44 | disarms the timer; `visible` becomes false if and only if the buffer holds no error, otherwise stays as it was |
| DebugOverlay.Overlay.Close | components/debug-overlay.tsx:58 | hides the overlay and changes nothing else |
| DebugOverlay.Overlay.Unmount | components/debug-overlay.tsx:46-49 | disarms the timer and empties the slot, so later deliveries do nothing; buffer and queued count untouched |
| DebugOverlay.Overlay.Render | components/debug-overlay.tsx:52-66 | renders nothing exactly when hidden, otherwise one row per shown entry in order |
| ApiKeyContext.Race | constants/api-key-context.tsx:27-31 | the timer wins unless the read settles within 2000 ms; then a rejection is a read error, null is null, a string is its value |
| ApiKeyContext.AfterRead | constants/api-key-context.tsx:33-35 | the key is replaced exactly by a truthy (non-null, non-empty) read; otherwise it is unchanged |
| ApiKeyContext.FailuresActLikeNull | constants/api-key-context.tsx:27-40 | timeout, read error and empty string leave the same key as a null read |
| ApiKeyContext.SlowReadKeepsKey | constants/api-key-context.tsx:27-31 | a read slower than the timeout leaves the key as it was, whatever it returns |
| ApiKeyContext.UseApiKey | constants/api-key-context.tsx:67-72 | fails with the missing-provider message exactly when no provider value is present, otherwise returns that value |
| ApiKeyContext.ApiKeyProvider.constructor | constants/api-key-context.tsx:19-20 | key `""`, not loaded, no store call yet |
| ApiKeyContext.ApiKeyProvider.Load | constants/api-key-context.tsx:23-43 | reads under `jules_api_key`; `isLoaded` is true after every outcome; the key follows AfterRead |
| ApiKeyContext.ApiKeyProvider.SetApiKey | constants/api-key-context.tsx:46-49 | the key in memory is `k` before the write settles; `isLoaded` unchanged; the write goes to `jules_api_key` |
| ApiKeyContext.ApiKeyProvider.SettleWrite | constants/api-key-context.tsx:48-52 | a write settling, failed or not, changes neither the key nor `isLoaded` and raises nothing |
| ApiKeyContext.ApiKeyProvider.Render | constants/api-key-context.tsx:55-64 | renders nothing until loaded, then provides the current key with `isLoaded` true |
| ApiKeyContext.UseApiKeyUnderProvider | constants/api-key-context.tsx:56-72 | under a loaded provider a child's `useApiKey` succeeds and yields the current key with `isLoaded` true; an unloaded provider renders no children |

## Left out

- `console.log` in `debugLog` and `console.warn` in the load: diagnostic output with no effect on state.
- React itself: hooks, re-renders, JSX layout, `ScrollView` and the `StyleSheet` colours and sizes.
  - A state setter is modelled as a field assignment.
  - An effect is modelled as the `Mount`/`Unmount` pair, which must alternate.
- The clock, `Date` and `SecureStore`: the ISO string, the read outcome, the read's delay and the write outcome are parameters.
- DebugOverlay.LogBroadcaster.DebugLog: requires the ISO string to contain a `T`, as every `toISOString` result does. On a string without one the source would throw; `Timestamp` returns `None` there.
- ApiKeyContext.Race: says nothing about a read and timer settling at exactly 2000 ms. There the order depends on the host; the model gives the race to the timer.
- ApiKeyContext.ApiKeyProvider.Load: issuing the read and awaiting the race are one step. Nothing can act in between, because children are not rendered until loaded.
- `app/_layout.tsx`: it calls `preventAutoHideAsync()` once at load (line 17) and `hideAsync()` in a mount effect (lines 22-25), with no timer and no guard, and composes providers over libraries that are not part of this model.
- `I18nProvider`, theme and colour-scheme selection: not part of this model.
- `Text.ToUpperAscii`: upper-cases ASCII letters only. That is all that reaches it, since the level names are ASCII.
