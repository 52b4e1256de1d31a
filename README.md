# Cactus Cowboy mod menu: a Dafny model of the front end's state logic

The repository is a React front end for the "Cactus Cowboy: Plants at War" mod
menu. A signed-in player toggles gameplay mods and spawns items and prefabs.
The player also picks the game process to attach to and browses pages in an
embedded browser. Almost all of the code renders UI. This project models the
state logic underneath, one Dafny module per source file:

- **Navigation history** (`BrowserHistory`, `BrowserPage`). The current URL sits
  between a back stack and a forward stack. The model covers `go`, `back`,
  `forward`, `reload` and the two "can go" flags. It also covers the address
  bar's URL normalisation and the reload key.
  - Every state is viewed as a timeline of pages plus a cursor. `back` and
    `forward` move the cursor, and `go` truncates the timeline and appends.
  - The back-then-forward round trips, the size invariant and the "no `''` on
    the back stack" invariant are proved over every sequence of user actions.
- **Mod settings** (`ModSettings`, `ModSettingsHook`, `ModMenuPage`,
  `ModStatusBar`). The seven-field settings record and its defaults, and the
  `{...s, ...p}` overlay. Also `clampMultiplier` and the fail-soft storage
  helpers.
  - The hook's split of the fields: four flags are stored in the backend
    profile under other names, and three values are kept in local storage.
  - The load merge, and the order of `updateSettings`: optimistic update, then
    the local write, then the profile save, whose errors are swallowed.
  - The page's range guards, the switches' one-field updates, and the status
    bar's count and badges.
- **Query cache** (`Queries`). Every query and mutation fails without an actor.
  Queries are enabled only once the actor is ready. Each successful mutation
  invalidates a fixed set of cached queries, and a failed one invalidates
  nothing. A `Client` object holds the cache and the trace of calls sent.
- **Panels and small hooks**:
  - the two prefab searches (`PrefabCatalog`, `PrefabListPanel`,
    `PrefabSpawnerPanel`) and the bounded spawn log (`SpawnLog`);
  - the item spawner (`ItemSpawnerPanel`);
  - the process selector and its panel (`ProcessSelectorHook`,
    `ProcessSelectorPanel`);
  - the authentication gate (`AuthGate`) and the first-run dialog
    (`ProfileSetupDialog`);
  - user-agent classification (`RuntimeEnv`) and the persisted deep link
    (`AppToAppLink`).

Shared pieces:
- `Wrappers` holds `Option`, `Result` and `Outcome`.
- `Text` holds whitespace trimming, ASCII lower-casing and substring search.
- `LocalStorage` models the browser's `localStorage`: it can refuse reads and
  refuse writes.
- `Backend` holds the records of the remote interface.

How the environment is represented:
- Remote calls are represented by a `remoteOk` flag saying whether the call
  resolves.
- `JSON.parse`/`JSON.stringify` are an abstract codec. Its one assumed law
  (`Faithful`) is that a record's text is non-empty and parses back to the
  record.
- `Math.random()` is a draw in [0, 1), and `parseFloat` is `Option<real>`,
  where `None` stands for `NaN`.
- Timestamps are opaque strings.

Where the code does something other than what one might expect, the model
follows the code:
- `go` pushes the old page even when it equals the new URL.
- The settings load in `useModSettings.ts:54-55` calls `getItem` and
  `JSON.parse` without a guard, unlike `getStoredSettings`. `ReadLocal`
  therefore has error results.
- `updateSettings` never clamps, and the page rejects out-of-range values
  instead of clamping them.
- A stored multiplier of `0` reloads as `1`, because of `|| 1`.
- When the profile fetch fails, `data` is `undefined`, not `null`, so the gate
  shows the menu and not the setup dialog.
- The first-run dialog writes field names (`flyEnabled`,
  `superSpeedMultiplier`, `prefabSpawner`, `spawnHistory`) that the backend
  interface does not declare. The dialog's record is modelled as written.

## Model

| member | source | states |
|---|---|---|
| `BrowserHistory.At` | src/frontend/src/hooks/useBrowserHistory.ts:3-7 | the state built from a timeline and a cursor has exactly that timeline and cursor |
| `BrowserHistory.AtTimeline` | src/frontend/src/hooks/useBrowserHistory.ts:3-7 | every history state is determined by its timeline and cursor |
| `BrowserHistory.Go` | src/frontend/src/hooks/useBrowserHistory.ts:16-25 | `go(url)` keeps the past (the back stack plus a non-empty current page) and appends `url` as the new current page. The forward stack becomes empty. The back stack grows by one iff the old page was non-empty, and the old back stack is kept as a prefix |
| `BrowserHistory.Back` | src/frontend/src/hooks/useBrowserHistory.ts:27-40 | unchanged on an empty back stack; otherwise the same timeline with the cursor one page to the left |
| `BrowserHistory.Forward` | src/frontend/src/hooks/useBrowserHistory.ts:42-55 | unchanged on an empty forward stack; otherwise the same timeline with the cursor one page to the right |
| `BrowserHistory.Reload` | src/frontend/src/hooks/useBrowserHistory.ts:57-59 | `reload()` leaves the history, and so its timeline, unchanged |
| `BrowserHistory.CanGoBack` | src/frontend/src/hooks/useBrowserHistory.ts:63 | holds iff pressing back changes the state |
| `BrowserHistory.CanGoForward` | src/frontend/src/hooks/useBrowserHistory.ts:64 | holds iff pressing forward changes the state |
| `BrowserHistory.BackThenForward` | src/frontend/src/hooks/useBrowserHistory.ts:27-55 | with a non-empty back stack, back then forward restores the exact state |
| `BrowserHistory.ForwardThenBack` | src/frontend/src/hooks/useBrowserHistory.ts:27-55 | with a non-empty forward stack, forward then back restores the exact state |
| `BrowserHistory.StackSizesPreserved` | src/frontend/src/hooks/useBrowserHistory.ts:27-55 | back and forward keep the sum of the two stack sizes |
| `BrowserHistory.GoThenBack` | src/frontend/src/hooks/useBrowserHistory.ts:16-40 | visiting a page and going back returns to the previous page, with the visited one as the only forward page |
| `BrowserHistory.GoSameUrlGrowsHistory` | src/frontend/src/hooks/useBrowserHistory.ts:18 | there is no dedupe: visiting the current URL again pushes it onto the back stack |
| `BrowserHistory.StepConsistent` | src/frontend/src/hooks/useBrowserHistory.ts:16-59 | every transition preserves the reachable-state invariant: no `''` on the back stack, no forward pages while no page is loaded, and `''` only as the last forward entry |
| `BrowserHistory.RunConsistent` | src/frontend/src/hooks/useBrowserHistory.ts:16-59 | the invariant holds after any sequence of actions |
| `BrowserHistory.BackStackNeverEmptyUrl` | src/frontend/src/hooks/useBrowserHistory.ts:10-55 | from the initial state (`''`, empty stacks), whatever the user does, the back stack never holds `''` |
| `BrowserPage.PrependedHttpsHasScheme` | src/frontend/src/pages/BrowserPage.tsx:22-23 | prefixing `https://` makes the scheme test pass |
| `BrowserPage.HasHttpSchemeByPrefix` | src/frontend/src/pages/BrowserPage.tsx:22 | `/^https?:\/\//i` holds iff the first seven characters of the URL, lower-cased, are `http://`, or its first eight are `https://` |
| `BrowserPage.NormalizeUrl` | src/frontend/src/pages/BrowserPage.tsx:16-27 | blank input gives nothing. Otherwise the result is trimmed, non-empty and has an http(s) scheme in some letter case. It is the trimmed input when that already has the scheme, else `https://` plus the trimmed input |
| `BrowserPage.NormalizeIdempotent` | src/frontend/src/pages/BrowserPage.tsx:19-24 | normalising a normalised URL changes nothing |
| `BrowserPage.SchemeTestIgnoresCase` | src/frontend/src/pages/BrowserPage.tsx:22 | the scheme test gives the same answer for a URL and its lower-cased form, so `HTTP://` counts as a scheme |
| `BrowserPage.GoKeepsHttpOnly` | src/frontend/src/pages/BrowserPage.tsx:26 | pushing a URL with a scheme keeps every URL in the history schemed |
| `BrowserPage.BackKeepsHttpOnly` | src/frontend/src/pages/BrowserPage.tsx:48 | back keeps every URL in the history schemed |
| `BrowserPage.ForwardKeepsHttpOnly` | src/frontend/src/pages/BrowserPage.tsx:58 | forward keeps every URL in the history schemed |
| `BrowserPage.BrowserPage.constructor` | src/frontend/src/pages/BrowserPage.tsx:8-10 | starts with the initial history, an empty address bar and frame key 0 |
| `BrowserPage.SyncedInput` | src/frontend/src/pages/BrowserPage.tsx:12-14 | the address bar shows the new current URL when the current URL changed, and otherwise keeps what was typed |
| `BrowserPage.BrowserPage.Type` | src/frontend/src/pages/BrowserPage.tsx:82 | typing changes only the address bar |
| `BrowserPage.HistoryAfterGo` | src/frontend/src/pages/BrowserPage.tsx:16-27 | blank input leaves the history alone, and otherwise `go` receives the normalised URL. Every URL in the history keeps an http(s) scheme |
| `BrowserPage.BrowserPage.HandleGo` | src/frontend/src/pages/BrowserPage.tsx:12-27 | the history becomes `HistoryAfterGo` of the old history and the typed text. The address bar then follows the current URL, the frame key is kept, and every stored URL keeps an http(s) scheme |
| `BrowserPage.BrowserPage.HandleBack` | src/frontend/src/pages/BrowserPage.tsx:48 | the history steps back and the address bar follows the current URL |
| `BrowserPage.BrowserPage.HandleForward` | src/frontend/src/pages/BrowserPage.tsx:58 | the history steps forward and the address bar follows the current URL |
| `BrowserPage.BrowserPage.HandleReload` | src/frontend/src/pages/BrowserPage.tsx:35-38 | the history is untouched and the frame key goes up by exactly one |
| `Text.Trim` | src/frontend/src/pages/BrowserPage.tsx:17-19 | `trim()`: the result is a slice of the input with only whitespace before and after it, and has no whitespace at either end (`StripsTo`). It is empty iff the input is blank, and trimmed input comes back unchanged |
| `Text.StripsToUnique` | src/frontend/src/pages/BrowserPage.tsx:19 | there is only one way to strip a string: any trimmed slice with only whitespace around it is `Trim` of the string |
| `Text.TrimKeepsLower` | src/frontend/src/components/PrefabListPanel.tsx:19 | trimming a lower-case string leaves it lower-case |
| `Text.TrimIdempotent` | src/frontend/src/pages/BrowserPage.tsx:19 | trimming twice is trimming once |
| `Text.NonBlankTrimmed` | src/frontend/src/components/ItemSpawnerPanel.tsx:23-29 | the shared name check: nothing for a blank string, otherwise the non-empty trimmed string |
| `Text.Lower` | src/frontend/src/components/PrefabListPanel.tsx:19 | `toLowerCase()` over ASCII, character by character |
| `Text.LowerPrefix` | src/frontend/src/pages/BrowserPage.tsx:22 | lower-casing a prefix gives the prefix of the lower-cased string |
| `Text.LowerIdempotent` | src/frontend/src/hooks/useRuntimeEnv.ts:19 | lower-casing twice is lower-casing once |
| `Text.LowerKeepsBlank` | src/frontend/src/components/PrefabListPanel.tsx:19-20 | lower-casing neither creates nor removes a blank string |
| `Text.ContainsHasOccurrence` | src/frontend/src/components/PrefabListPanel.tsx:24 | a match found by `includes` is an occurrence at some index |
| `Text.OccurrenceIsContained` | src/frontend/src/components/PrefabListPanel.tsx:24 | every occurrence at any index is found by `includes` |
| `Text.ContainsIffOccurs` | src/frontend/src/components/PrefabListPanel.tsx:24 | `includes` holds iff the substring occurs at some index |
| `LocalStorage.Store.GetItem` | src/frontend/src/state/modSettings.ts:29 | `getItem` throws iff storage is unreadable; otherwise it gives the stored string, or `null` for a missing key |
| `LocalStorage.Store.SetItem` | src/frontend/src/state/modSettings.ts:38 | `setItem` stores the value, or throws and stores nothing |
| `ModSettings.SettingsExtensional` | src/frontend/src/state/modSettings.ts:3-11 | two settings records that agree on all seven fields are equal |
| `ModSettings.DefaultIsAllOff` | src/frontend/src/state/modSettings.ts:13-21 | the defaults have every flag off and both multipliers at 1 |
| `ModSettings.Overlay` | src/frontend/src/hooks/useModSettings.ts:68 | `{...s, ...p}`: every field present in `p` is taken from `p`, and every other field from `s` |
| `ModSettings.OverlayIdempotent` | src/frontend/src/hooks/useModSettings.ts:68 | applying the same update twice gives the same record as applying it once |
| `ModSettings.LastWriteWins` | src/frontend/src/hooks/useModSettings.ts:68 | of two successive updates, the later wins on its fields and the earlier survives on the rest |
| `ModSettings.OverlayNothing` | src/frontend/src/hooks/useModSettings.ts:68 | the empty update changes nothing |
| `ModSettings.Round` | src/frontend/src/state/modSettings.ts:24 | `Math.round`: the integer within half a unit of the input, halves going up |
| `ModSettings.RoundMonotone` | src/frontend/src/state/modSettings.ts:24 | `Math.round` is monotone |
| `ModSettings.RoundInteger` | src/frontend/src/state/modSettings.ts:24 | `Math.round` fixes integers |
| `ModSettings.ClampMultiplier` | src/frontend/src/state/modSettings.ts:23-25 | the result is an integer in [1, 10]. It is 1 when the input rounds to 1 or below, 10 when it rounds to 10 or above, and the rounded value in between |
| `ModSettings.ClampFixesValidIntegers` | src/frontend/src/state/modSettings.ts:24 | the integers 1 to 10 are fixed points |
| `ModSettings.ClampIdempotent` | src/frontend/src/state/modSettings.ts:24 | clamping twice is clamping once |
| `ModSettings.ClampMonotone` | src/frontend/src/state/modSettings.ts:24 | the clamp is monotone |
| `ModSettings.ClampSaturates` | src/frontend/src/state/modSettings.ts:24 | every input below 1.5 gives 1, and every input from 9.5 up gives 10 |
| `ModSettings.Only` | src/frontend/src/pages/ModMenuPage.tsx:19 | a one-field update sets exactly that field |
| `ModSettings.GetStoredSettings` | src/frontend/src/state/modSettings.ts:27-34 | the stored record is returned when the key holds non-empty parseable text. The empty record is returned when storage throws, the key is missing or empty, or parsing fails |
| `ModSettings.StoreSettings` | src/frontend/src/state/modSettings.ts:36-42 | never fails: a writable store holds the record's text under `modSettings`, and an unwritable one is unchanged |
| `ModSettings.StoredSettingsReadBack` | src/frontend/src/state/modSettings.ts:27-42 | after a successful store, a readable store gives the record back |
| `ModSettingsHook.BackendToFrontend` | src/frontend/src/hooks/useModSettings.ts:26-33 | sets exactly the four backend-owned fields: `fly` from `noclipEnabled`, `superSpeed` from `infiniteManaEnabled`, `superJump` from `moonJumpEnabled` and `disableMonsters` from `infiniteHealthEnabled` |
| `ModSettingsHook.OwnerOf` | src/frontend/src/hooks/useModSettings.ts:26-33 | the two multipliers and the rainbow background are local, and the four gameplay flags belong to the backend |
| `ModSettingsHook.FrontendToBackend` | src/frontend/src/hooks/useModSettings.ts:35-42 | the backend record carries each backend-owned field of the settings. Read back through `BackendToFrontend`, each field has its own value, so `noclipEnabled` is `fly`, `infiniteManaEnabled` is `superSpeed`, `moonJumpEnabled` is `superJump` and `infiniteHealthEnabled` is `disableMonsters` |
| `ModSettingsHook.LocalPart` | src/frontend/src/hooks/useModSettings.ts:72-76 | sets exactly the three locally stored fields, with the record's values |
| `ModSettingsHook.OwnershipSplit` | src/frontend/src/hooks/useModSettings.ts:26-76 | every field is persisted in exactly one place, the backend or local storage |
| `ModSettingsHook.BackendRoundTrip` | src/frontend/src/hooks/useModSettings.ts:26-42 | backend flags read into the menu and written back are the same flags |
| `ModSettingsHook.FrontendRoundTrip` | src/frontend/src/hooks/useModSettings.ts:26-42 | menu flags written to the backend and read back leave the record unchanged |
| `ModSettingsHook.FrontendToBackendIgnoresLocal` | src/frontend/src/hooks/useModSettings.ts:35-42 | the backend record depends on the four backend-owned fields only |
| `ModSettingsHook.NumberOr` | src/frontend/src/hooks/useModSettings.ts:60-61 | `x or 1` in the JavaScript sense: a missing value or `0` falls back |
| `ModSettingsHook.FlagOr` | src/frontend/src/hooks/useModSettings.ts:62 | `x or false` in the JavaScript sense: true only for a stored `true` |
| `ModSettingsHook.LoadedSettings` | src/frontend/src/hooks/useModSettings.ts:57-63 | the loaded record carries exactly the backend flags. Each multiplier is the stored value, or 1 when missing or 0, so it is never 0. Rainbow is on iff a stored `true` says so |
| `ModSettingsHook.PersistReloadRoundTrip` | src/frontend/src/hooks/useModSettings.ts:57-84 | a record with non-zero multipliers reloads unchanged from what `updateSettings` saved |
| `ModSettingsHook.ZeroMultiplierReloadsAsOne` | src/frontend/src/hooks/useModSettings.ts:60 | a saved speed multiplier of 0 reloads as 1 |
| `ModSettingsHook.ReadLocal` | src/frontend/src/hooks/useModSettings.ts:54-55 | the effect's own read fails when `getItem` throws, and when non-empty text does not parse. Otherwise it agrees with `getStoredSettings` |
| `ModSettingsHook.ReadLocalFailsWhereStoredIsEmpty` | src/frontend/src/hooks/useModSettings.ts:54-55 | where the effect's read fails, the fail-soft helper gives `{}` |
| `ModSettingsHook.LocalWriteReadsBack` | src/frontend/src/hooks/useModSettings.ts:54-76 | the local fields written by an update are what the next load reads |
| `ModSettingsHook.SavedProfile` | src/frontend/src/hooks/useModSettings.ts:81-84 | the saved profile keeps the name, the item spawner and the process selector. Its mod settings read back as the record's flags |
| `ModSettingsHook.RepeatedUpdateSamePayloads` | src/frontend/src/hooks/useModSettings.ts:68-84 | repeating an update gives the same record, writes the same local record and saves the same profile |
| `ModSettingsHook.ModSettingsHook.constructor` | src/frontend/src/hooks/useModSettings.ts:47 | the settings start at the defaults, with no profile |
| `ModSettingsHook.ModSettingsHook.ProfileChanged` | src/frontend/src/hooks/useModSettings.ts:50-65 | with no profile nothing is loaded. A failing read leaves the settings as they were. Otherwise the settings become the loaded record |
| `ModSettingsHook.ModSettingsHook.UpdateSettings` | src/frontend/src/hooks/useModSettings.ts:67-89 | the updates are overlaid first. Then the local part is written under `modSettings`; if that write throws, the call fails and nothing is saved. Otherwise a profile save is sent only when a profile exists. A failed save is swallowed, with no rollback, and only a successful one invalidates the profile query |
| `ModMenuPage.SpeedMultiplierUpdate` | src/frontend/src/pages/ModMenuPage.tsx:16-21 | an update is sent iff the parsed value is a number in [1, 10], and it sets only `speedMultiplier`, to that value |
| `ModMenuPage.JumpMultiplierUpdate` | src/frontend/src/pages/ModMenuPage.tsx:23-28 | an update is sent iff the parsed value is a number in [1, 10], and it sets only `jumpMultiplier`, to that value |
| `ModMenuPage.AcceptedValueKept` | src/frontend/src/pages/ModMenuPage.tsx:16-28 | an accepted value is stored as typed, changing only its own field |
| `ModMenuPage.GuardVersusClampExample` | src/frontend/src/pages/ModMenuPage.tsx:18 | 2.5 is accepted unchanged where the clamp gives 3. 11 and `NaN` are ignored. The bounds 1 and 10 are accepted |
| `ModMenuPage.SwitchField` | src/frontend/src/pages/ModMenuPage.tsx:75-196 | each switch drives a flag, never a multiplier |
| `ModMenuPage.SwitchFieldInjective` | src/frontend/src/pages/ModMenuPage.tsx:75-196 | distinct switches drive distinct fields |
| `ModMenuPage.SwitchUpdate` | src/frontend/src/pages/ModMenuPage.tsx:75-196 | a switch sends a single-field update carrying its checked state |
| `ModMenuPage.SwitchSetsOnlyItsField` | src/frontend/src/pages/ModMenuPage.tsx:75 | after the update, the switch's field is the checked state and every other field is unchanged |
| `ModStatusBar.CountTrue` | src/frontend/src/components/ModStatusBar.tsx:8-14 | `filter(Boolean).length` is at most the length. It is 0 iff every entry is false, and equals the length iff every entry is true |
| `ModStatusBar.ActiveModsCount` | src/frontend/src/components/ModStatusBar.tsx:8-14 | the count is between 0 and 5, and is 0 iff all five flags are off |
| `ModStatusBar.ShowsNoModsActive` | src/frontend/src/components/ModStatusBar.tsx:59-61 | "No mods active" shows iff all five switches are off |
| `ModStatusBar.Badges` | src/frontend/src/components/ModStatusBar.tsx:24-57 | each badge shows iff its flag is on; the speed and jump badges carry their multipliers |
| `ModStatusBar.CountFive` | src/frontend/src/components/ModStatusBar.tsx:8-14 | the count of five flags is the sum of their indicators |
| `ModStatusBar.CountIsBadgeCount` | src/frontend/src/components/ModStatusBar.tsx:8-57 | the header count equals the number of badges shown |
| `ModStatusBar.MultipliersIgnored` | src/frontend/src/components/ModStatusBar.tsx:8-14 | the multipliers never change the count |
| `ModStatusBar.TurningOnAddsOne` | src/frontend/src/components/ModStatusBar.tsx:8-14 | turning one flag from off to on raises the count by exactly one |
| `Queries.Invalidates` | src/frontend/src/hooks/useQueries.ts:34-97 | every mutation invalidates the profile. Only `addItem` invalidates the item spawner, only `setProcessSelector` the process selector, and none the process list |
| `Queries.QueryEnabled` | src/frontend/src/hooks/useQueries.ts:14 | a query runs exactly when there is an actor and it is not being fetched: both directions are stated |
| `Queries.ProfileStatus` | src/frontend/src/hooks/useQueries.ts:18-22 | fetched exactly when there is an actor and the query has fetched (both directions); loading while the actor or the query is loading, and only then |
| `Queries.RunQuery` | src/frontend/src/hooks/useQueries.ts:10-13 | without an actor the query fails with "Actor not available"; otherwise it gives the remote answer |
| `Queries.FetchItemSpawner` | src/frontend/src/hooks/useQueries.ts:45-49 | fails without an actor; a `null` spawner reads as `{ items: [] }` |
| `Queries.TypeId` | src/frontend/src/hooks/useQueries.ts:61 | a new item's type id is in [0, 999] |
| `Queries.Client.constructor` | src/frontend/src/hooks/useQueries.ts:27 | a client starts with nothing stale and nothing sent |
| `Queries.Client.InvalidateQueries` | src/frontend/src/hooks/useQueries.ts:35 | cached queries under the given keys become stale, and nothing else changes |
| `Queries.Client.Clear` | src/frontend/src/components/AuthGate.tsx:25 | the whole cache is dropped |
| `Queries.Client.Mutate` | src/frontend/src/hooks/useQueries.ts:29-37 | without an actor the mutation fails and sends nothing. Otherwise the request is sent; success invalidates the request's keys, and failure invalidates nothing |
| `Queries.Client.SaveCallerUserProfile` | src/frontend/src/hooks/useQueries.ts:25-38 | a successful save invalidates exactly the profile query |
| `Queries.Client.AddItem` | src/frontend/src/hooks/useQueries.ts:54-69 | sends the name with a type id in [0, 999]; success invalidates the item spawner and the profile |
| `Queries.Client.SetProcessSelector` | src/frontend/src/hooks/useQueries.ts:85-99 | success invalidates the process selector and the profile |
| `PrefabCatalog.SubsequenceReflexive` | src/frontend/src/components/PrefabListPanel.tsx:20 | the whole catalog is an order-preserving sub-list of itself |
| `PrefabCatalog.Filter` | src/frontend/src/components/PrefabListPanel.tsx:22 | `filter` keeps the passing elements, in order, as a sub-list. Each passing element keeps its number of copies and each failing one has none. If every element passes, the list is unchanged |
| `PrefabCatalog.FieldContainsOccurs` | src/frontend/src/components/PrefabListPanel.tsx:26-27 | an optional field matches iff it is present and non-empty and the query occurs in it, lower-cased, at some index |
| `PrefabListPanel.ListQuery` | src/frontend/src/components/PrefabListPanel.tsx:19 | the query is the lower-cased search text with its surrounding whitespace removed (`StripsTo`). It is itself lower-case, and empty iff the search text is blank |
| `PrefabListPanel.FilteredPrefabs` | src/frontend/src/components/PrefabListPanel.tsx:16-29 | nothing without a catalog, and the whole catalog for a blank query. The result is an order-preserving sub-list of the catalog. An entry whose name, id, category or description contains the query keeps all its copies, and any other entry has none |
| `PrefabListPanel.SearchIgnoresCase` | src/frontend/src/components/PrefabListPanel.tsx:19 | the search ignores letter case |
| `PrefabListPanel.AbsentFieldsNeverMatch` | src/frontend/src/components/PrefabListPanel.tsx:26-27 | an entry without category and description is found only by name or id |
| `PrefabSpawnerPanel.FilteredCatalog` | src/frontend/src/components/PrefabSpawnerPanel.tsx:24-29 | nothing without a catalog, and everything for the empty query. Otherwise an order-preserving sub-list: an entry whose name, id or category contains the lower-cased, untrimmed query keeps all its copies, and any other entry has none |
| `PrefabSpawnerPanel.SpawnerResultsAlsoListed` | src/frontend/src/components/PrefabSpawnerPanel.tsx:24-29 | for a query with no case or spaces to normalise, every entry this panel finds is also in the prefab list |
| `PrefabSpawnerPanel.SearchesDiffer` | src/frontend/src/components/PrefabSpawnerPanel.tsx:24-29 | a one-space query keeps everything in the list but nothing here. A description-only match is listed there but not here |
| `PrefabSpawnerPanel.SpawnList` | src/frontend/src/components/PrefabSpawnerPanel.tsx:22 | a missing spawner reads as an empty list |
| `PrefabSpawnerPanel.AddPrefabRequest` | src/frontend/src/components/PrefabSpawnerPanel.tsx:31-37 | the added record carries the catalog entry's id and name, at position `0,0,0` |
| `PrefabSpawnerPanel.PrefabLogEntry` | src/frontend/src/components/PrefabSpawnerPanel.tsx:47 | the entry reads back as the timestamp, ` - Spawned: `, the prefab name, ` (`, the id and `)` |
| `PrefabSpawnerPanel.PrefabSpawnerPanel.HandleSpawnPrefab` | src/frontend/src/components/PrefabSpawnerPanel.tsx:45-57 | the entry is `<time> - Spawned: <name> (<id>)`. It is pushed onto the log only when the history save succeeds, and the log stays within 20 entries |
| `SpawnLog.Push` | src/frontend/src/components/ItemSpawnerPanel.tsx:44 | the new entry comes first and the old entries follow in order. The length is the old length plus one, capped at 20 |
| `SpawnLog.Reverse` | src/frontend/src/components/ItemSpawnerPanel.tsx:44 | reversal, index by index |
| `SpawnLog.ReplayKeepsNewest` | src/frontend/src/components/ItemSpawnerPanel.tsx:44 | after any sequence of spawns, the log holds the newest 20 entries (all of them if fewer), newest first |
| `SpawnLog.ReplayBounded` | src/frontend/src/components/ItemSpawnerPanel.tsx:44 | the log never holds more than 20 entries |
| `ItemSpawnerPanel.RemoveRequest` | src/frontend/src/components/ItemSpawnerPanel.tsx:154 | a remove button sends its row's item name |
| `ItemSpawnerPanel.RemovalIsByName` | src/frontend/src/components/ItemSpawnerPanel.tsx:154 | rows holding items with the same name send the same removal |
| `ItemSpawnerPanel.ItemLogEntry` | src/frontend/src/components/ItemSpawnerPanel.tsx:40 | the entry reads back as the timestamp, ` - Spawned: ` and the item name |
| `ItemSpawnerPanel.ItemSpawnerPanel.HandleAddItem` | src/frontend/src/components/ItemSpawnerPanel.tsx:21-36 | a blank name is rejected with no call. Otherwise the trimmed, non-empty name is sent. The field is cleared only when the add succeeds. The query cache is kept. `itemSpawner` and `currentUserProfile` become stale only when the add succeeds, and nothing else becomes stale |
| `ItemSpawnerPanel.ItemSpawnerPanel.HandleSpawnItem` | src/frontend/src/components/ItemSpawnerPanel.tsx:38-50 | the entry is `<time> - Spawned: <name>`. It is pushed onto the log only when the history save succeeds, and the log stays within 20 entries |
| `ProcessSelectorHook.SelectedProcess` | src/frontend/src/hooks/useProcessSelector.ts:8 | a missing selector, a missing field and `''` all read as no selection; any other name reads as itself |
| `ProcessSelectorHook.SelectorFor` | src/frontend/src/hooks/useProcessSelector.ts:12-14 | `null` and `''` store no selection; a non-empty name is stored exactly |
| `ProcessSelectorHook.SelectThenRead` | src/frontend/src/hooks/useProcessSelector.ts:8-14 | after a select, the read gives the name if it is non-empty, and no selection otherwise |
| `ProcessSelectorHook.ReadThenSelect` | src/frontend/src/hooks/useProcessSelector.ts:8-14 | writing back what was read restores the selector, except that a stored `''` becomes no selection |
| `ProcessSelectorHook.SelectProcess` | src/frontend/src/hooks/useProcessSelector.ts:10-20 | sends the normalised selector. A failure is reported and not rethrown; success invalidates the selector and the profile |
| `ProcessSelectorPanel.Processes` | src/frontend/src/components/ProcessSelectorPanel.tsx:16 | missing data gives an empty process list |
| `ProcessSelectorPanel.LastUpdatedMillis` | src/frontend/src/components/ProcessSelectorPanel.tsx:17 | an absent or zero timestamp shows "Never". Otherwise the value is the nanoseconds divided by a million, truncated toward zero |
| `ProcessSelectorPanel.IsSelectedProcessMissing` | src/frontend/src/components/ProcessSelectorPanel.tsx:19 | missing iff there is a non-empty selection and no listed process equals it |
| `ProcessSelectorPanel.Status` | src/frontend/src/components/ProcessSelectorPanel.tsx:111-147 | exactly one panel shows. "Missing" shows iff a non-empty selection is not in the list, "Active" iff it is in the list, and "No process selected" iff there is no selection |
| `ProcessSelectorPanel.StatusOfListedSelection` | src/frontend/src/components/ProcessSelectorPanel.tsx:19 | with an empty list, every selection is missing; a listed selection is active |
| `ProcessSelectorPanel.CountLabel` | src/frontend/src/components/ProcessSelectorPanel.tsx:153 | "process" iff the count is 1, otherwise "processes" |
| `ProcessSelectorPanel.ShowsCountBadge` | src/frontend/src/components/ProcessSelectorPanel.tsx:150 | the count badge shows iff the list is non-empty |
| `ProcessSelectorPanel.SelectValue` | src/frontend/src/components/ProcessSelectorPanel.tsx:87 | the select shows `''` iff there is no selection, and the selected name otherwise |
| `ProcessSelectorPanel.ChosenSelection` | src/frontend/src/components/ProcessSelectorPanel.tsx:88 | choosing the empty value passes `null`; any other value is passed as is |
| `ProcessSelectorPanel.ChoiceReadsBack` | src/frontend/src/components/ProcessSelectorPanel.tsx:88 | choosing the empty entry stores no selection, and a chosen value reads back as chosen |
| `ProcessSelectorPanel.SelectValueRoundTrip` | src/frontend/src/components/ProcessSelectorPanel.tsx:87-88 | choosing the value the select shows selects the same thing again |
| `AuthGate.ChooseScreen` | src/frontend/src/components/AuthGate.tsx:19-100 | exactly one screen is chosen. Login iff there is no identity; loading iff signed in and the profile is loading or not fetched; setup iff the profile is `null`; the menu otherwise |
| `AuthGate.ShowProfileSetup` | src/frontend/src/components/AuthGate.tsx:21 | the setup dialog needs a signed-in caller whose profile query has fetched and is not loading, and it never shows when the profile is loaded or undefined |
| `AuthGate.FetchErrorShowsApp` | src/frontend/src/components/AuthGate.tsx:21 | a fetched but undefined profile (a failed fetch) shows the menu, not the setup dialog |
| `AuthGate.NoActorStaysLoading` | src/frontend/src/components/AuthGate.tsx:68 | signed in without an actor, the gate stays on the loading screen |
| `AuthGate.HandleLogout` | src/frontend/src/components/AuthGate.tsx:23-26 | clears the identity and then the whole query cache; if clearing the identity fails, nothing changes |
| `AuthGate.LoggedOutShowsLogin` | src/frontend/src/components/AuthGate.tsx:29 | without an identity the login screen shows, whatever the profile state |
| `ProfileSetupDialog.InitialProfile` | src/frontend/src/components/ProfileSetupDialog.tsx:22-43 | the new profile has empty item and prefab lists and histories, every toggle off, both multipliers 1.0 and no process selected |
| `ProfileSetupDialog.InitialAgreesWithDefaults` | src/frontend/src/components/ProfileSetupDialog.tsx:32-39 | the new profile's toggles and multipliers are the menu's defaults |
| `ProfileSetupDialog.HandleSubmit` | src/frontend/src/components/ProfileSetupDialog.tsx:13-43 | nothing is saved for a blank name; otherwise the new profile is saved under the trimmed, non-empty name |
| `ProfileSetupDialog.SubmitIgnoresSurroundingSpace` | src/frontend/src/components/ProfileSetupDialog.tsx:23 | surrounding whitespace does not change the profile created |
| `ProfileSetupDialog.SubmitDisabled` | src/frontend/src/components/ProfileSetupDialog.tsx:87 | the button is disabled iff a save is pending or submitting would save nothing |
| `RuntimeEnv.Detect` | src/frontend/src/hooks/useRuntimeEnv.ts:18-29 | Android iff "android" occurs at some index of the lower-cased agent. Quest iff "quest" occurs, or both "android" and "oculusbrowser" do. VR iff Quest or "vr" occurs, so every Quest browser is a VR browser. The agent is stored as given |
| `RuntimeEnv.QuestImpliesVR` | src/frontend/src/hooks/useRuntimeEnv.ts:22 | every Quest browser is a VR browser |
| `RuntimeEnv.DetectIgnoresCase` | src/frontend/src/hooks/useRuntimeEnv.ts:19 | the classification ignores letter case |
| `RuntimeEnv.EmptyAgentIsUndetected` | src/frontend/src/hooks/useRuntimeEnv.ts:11-16 | the initial state (all flags off, agent `''`) is what an empty agent classifies as |
| `RuntimeEnv.AndroidVRExample` | src/frontend/src/hooks/useRuntimeEnv.ts:19-28 | "Android VR" is an Android VR browser and is stored with its case |
| `AppToAppLink.InitialLink` | src/frontend/src/hooks/useAppToAppLink.ts:7-13 | the stored link when it is non-empty. The default when it is absent or `''`, or when the read throws. Never empty |
| `AppToAppLink.AppToAppLink.constructor` | src/frontend/src/hooks/useAppToAppLink.ts:7-21 | the mount reads the initial link and writes it back when storage allows |
| `AppToAppLink.AppToAppLink.Change` | src/frontend/src/hooks/useAppToAppLink.ts:15-21 | a changed link is written to storage; a failing write is swallowed |
| `AppToAppLink.AppToAppLink.SetDeepLink` | src/frontend/src/hooks/useAppToAppLink.ts:23-25 | the value is taken verbatim, and storage keeps mirroring the link |
| `AppToAppLink.AppToAppLink.ResetToDefault` | src/frontend/src/hooks/useAppToAppLink.ts:27-29 | the link becomes exactly the default, mirrored to storage |
| `AppToAppLink.NonEmptyLinkSurvivesReload` | src/frontend/src/hooks/useAppToAppLink.ts:7-21 | a stored non-empty link is what the next mount starts from |
| `AppToAppLink.EmptyLinkReloadsAsDefault` | src/frontend/src/hooks/useAppToAppLink.ts:8 | a link cleared to `''` comes back as the default |

## Left out

- Rendering, toasts, `console` output, the clipboard, icons and CSS are not modelled. The page layout, the loading card of the process panel and the "Signing In..." label are left out with them.
- Timing is not modelled: the 30-second polling of the process list, query retries, `staleTime` and the interleaving of concurrent `updateSettings` calls. Each handler is one atomic step, and each remote call is a `remoteOk` flag.
- The remote actor, `useActor`, `useInternetIdentity` and the hooks imported from outside the shown files are opaque: they either succeed or fail. These hooks are `useRemoveItem`, `useClearItems`, `useAddSpawnHistory`, `useAddPrefab`, `useAddPrefabSpawnHistory`, `useClearPrefabs` and `useGetPrefabSpawner`.
  - The clear-all buttons, the remove call's effect on the list and the refresh button are therefore outside the model.
  - So is the identity provider's login.
- `JSON.parse`/`JSON.stringify` are abstract. Text that parses to something other than an object (a number, `null`, an array) is not distinguished from a parse failure. The model also ignores values of the wrong type under a known key.
- `Text.Lower` folds ASCII letters only, whereas `toLowerCase` folds all of Unicode. `Text.IsWhitespace` covers the ECMAScript whitespace and line-terminator code points.
- `ModSettings.Round`, `ModSettings.ClampMultiplier` and `ModMenuPage.SpeedMultiplierUpdate` work on reals. Floating-point rounding, `NaN` as a multiplier, and `±Infinity` from `parseFloat` are not modelled.
- `ProcessSelectorPanel.LastUpdatedMillis`: the `Number()` conversion of a bigint is exact here, not rounded to a double, and a time outside the `Date` range is not marked invalid.
- `Queries.Client.Clear` empties the cache; what components re-fetch afterwards is not modelled.
- `ModSettingsHook.ModSettingsHook.ProfileChanged` runs the load effect when it is given a profile. React re-running it after each refetch is not modelled; `PersistReloadRoundTrip` states what such a re-run yields.
- `ProfileSetupDialog.HandleSubmit` returns the record the dialog builds, with its own field names. Whether the remote call accepts that record is not modelled.
- `useItemSpawner.ts` (a thin wrapper), `App.tsx` (composition), `usePrefabCatalog.ts` (a `fetch` of static JSON) and `backend.d.ts` are not part of this model. The catalog is an input sequence, and `backend.d.ts` only supplies the `Backend` records.
- `AppToAppLauncherPanel.tsx` (the launch through `window.location`, visibility events and a timer), `DownloadsPanel.tsx` (an HTTP probe) and `ApkBuildInstructionsOverlay.tsx` (static text) are not part of this model.
