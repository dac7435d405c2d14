# Botanix garden history — a Dafny model

Botanix is a browser app. It identifies plants from photos and keeps a small garden of
identified plants. This project models the part of it that holds state and the pure record
updates around it:

- **Types** (`types.dfy`): the record types of the garden. These are the two interface
  languages, the five-valued plant health status with its string values, chat roles, growth
  updates, tool results, tool catalog entries and a trimmed plant identification. The ranges
  that the source gives only in comments are subset types: `Percent` (0..100) for the health
  score, and `ToolScore` (0..100 or -1 for "not applicable") for tool scores. The optional
  list fields are `Option<seq<…>>`, and `Options.Entries` reads an absent list as empty, as
  every consumer does.
- **App** (`app.dfy`): the application shell. Its list computations are functions: prepend a
  new identification and keep the first 50 records, replace by id, show the three newest
  records, and toggle the language. Class `AppState` holds the shell's state fields and the
  storage slot. Its constructor models the initial load. `SaveHistory`, `HandleScan`,
  `HandleUpdatePlant` and `ToggleLanguage` are methods that state the complete new state.
  The invariant `Persisted()` says the in-memory history equals the stored slot. Every
  method keeps it whenever the browser's storage accepts the write. A refused write (the
  quota is exceeded) leaves the slot stale, as in the code.
- **Timeline** (`timeline.dfy`): one growth capture. It picks the baseline photo, builds
  the new update from the comparison's analysis and status, and appends it so that every
  other field of the record is unchanged. It also models the case-sensitive `includes`
  test that colours an update's badge.
- **Toolbox** (`toolbox.dfy`): the toolbox groups the tool catalog under the five
  categories in a fixed order. It keeps catalog order within each group and shows no empty
  group. It also picks the icon a tool is drawn with, falling back to the sprout icon.
- **Flows** (`flows.dfy`): a growth capture fed into the shell's update handler.

The AI calls (`identifyPlant`, `analyzeGrowth`) are function-valued parameters whose results
include failure (a rejected promise), so the model covers success and rejection for every
input. Whether the browser's storage accepts a history is a parameter `fits` too. The file
chooser's result, the fresh update id and the clock reading are also parameters. The storage slot holds the history sequence
itself: the JSON encoding is not modelled.

Two points follow the code where one might expect otherwise:

- A corrupt stored history does not load as an empty garden. The code calls `JSON.parse`
  with no guard (App.tsx:28), so the model assumes the slot decodes.
- Chat roles are `'user'` and `'model'` (types.ts:81), not user and assistant.

## Model

| member | source | states |
|---|---|---|
| `Types.LanguageCode` | types.ts:2 | a language's code is "en" or "bn", and it is "en" exactly for English |
| `Types.ParseLanguage` | types.ts:2 | exactly the two strings "en" and "bn" are languages, and parsing inverts `LanguageCode` |
| `Types.StatusLabel` | types.ts:4-10 | each health status has one of the five enumeration strings; only `Healthy` has "Healthy" |
| `Types.ParseStatus` | types.ts:4-10 | a string names a status exactly when it is one of the five enumeration strings, and parsing inverts `StatusLabel` |
| `Types.StatusLabelsDistinct` | types.ts:4-10 | the five enumeration strings are pairwise distinct |
| `Types.StatusLabelRoundTrip` | types.ts:4-10 | parsing a status's string gives the status back |
| `Types.LanguageCodeRoundTrip` | types.ts:2 | parsing a language's code gives the language back |
| `Types.RoleCode` | types.ts:81 | a chat role is written "user" or "model", and "user" exactly for the user |
| `Types.ParseRole` | types.ts:81 | only "user" and "model" are roles, and parsing inverts `RoleCode` |
| `Types.HasScore` | types.ts:101 | a tool result shows a score exactly when one is present and it is not the -1 "not applicable" value (the display rule of the tool screen, ActiveTool.tsx line 104); a shown score lies in 0..100 |
| `Types.CategoryId` | types.ts:113 | each tool category's id is one of health, care, environment, growth, fun |
| `Types.ParseCategory` | types.ts:113 | exactly those five ids are categories, and parsing inverts `CategoryId` |
| `Types.CategoryIdRoundTrip` | types.ts:113 | parsing a category's id gives the category back |
| `App.Take` | App.tsx:58 | JavaScript's `slice(0, n)`: the first min(length, n) elements, as a prefix |
| `App.Prepend` | App.tsx:58 | after a scan the history has min(old length + 1, 50) records, the new one first, then the old records in their order |
| `App.PrependFullDropsOldest` | App.tsx:58 | on a history of exactly 50 records, a scan drops just the last (oldest) record |
| `App.ScanAllKeepsNewest` | App.tsx:58 | a run of scans leaves the scanned records newest first, followed by the old history, cut to 50 |
| `App.FiftyOneScansEvictFirst` | App.tsx:58 | 51 scans into an empty garden leave the last 50 of them, newest first; the first scanned record is evicted |
| `App.ReplaceById` | App.tsx:68 | replace-by-id keeps the length, puts the updated record at every position whose id matches, and leaves every other record unchanged |
| `App.ReplaceByIdNoMatch` | App.tsx:68 | when no record has the updated record's id, the history is unchanged |
| `App.ReplaceByIdIdempotent` | App.tsx:68 | applying the same update twice equals applying it once |
| `App.RecentView` | App.tsx:152 | the home view shows exactly the first min(3, length) records, in history order |
| `App.Toggle` | App.tsx:104 | the language button always switches to the other language |
| `App.ToggleTwice` | App.tsx:104 | toggling twice gives back the original language |
| `App.AppState.constructor` | App.tsx:15-28 | on start the history is the stored list (empty when the slot is empty), nothing is being analysed, no error, English |
| `App.AppState.SaveHistory` | App.tsx:42-45 | the new list becomes the in-memory history. The slot holds it when storage accepts it and keeps its old contents when the write is refused. Nothing else changes |
| `App.AppState.HandleScan` | App.tsx:47-64 | offline: only the error changes, to the offline message. Success: the record is shown and the history is the capped prepend. If storage accepts it, the slot equals it and the error is cleared. If storage refuses it, the slot is stale and the failure message is shown. Failure: history, slot and shown record are unchanged and the error is set. After any online scan `isAnalyzing` is false. The history/slot agreement is kept unless storage refuses the write, and the 50 bound is kept |
| `App.AppState.HandleUpdatePlant` | App.tsx:66-70 | the updated record is shown and the history is the replace-by-id of the old one, with its length kept. The slot equals the history when storage accepts it and is left as it was when storage refuses it. Error, spinner, language and offline flag are unchanged |
| `App.AppState.ToggleLanguage` | App.tsx:104 | the language becomes the other one |
| `Options.Entries` | App.tsx:28 | an absent list reads as empty and a present one as itself, as the `if (saved)` load and the empty-list defaults do |
| `Timeline.Updates` | components/Timeline.tsx:41 | a record without updates has none; otherwise its updates are the stored list |
| `Timeline.Photos` | components/Timeline.tsx:24-26 | a plant's photo trail is its original photo followed by each update's photo, in order |
| `Timeline.BaselineImage` | components/Timeline.tsx:24-26 | the baseline photo is the last of the photo trail: the last update's photo, or the original when there are no updates |
| `Timeline.AddUpdate` | components/Timeline.tsx:39-42 | the record's updates (absent read as empty) gain the new update at the end, and every other field, id included, is unchanged |
| `Timeline.AddUpdateExtendsPhotos` | components/Timeline.tsx:39-42 | appending an update extends the photo trail by exactly the update's photo |
| `Timeline.HandleCapture` | components/Timeline.tsx:16-42 | an updated record comes out exactly when a file was chosen and the comparison did not reject. Then the updates grow by one with the old prefix kept. The new update carries the fresh id, the clock reading, the captured photo, and the comparison's analysis and status for (baseline, captured photo). No other field changes |
| `Timeline.BaselineAfterCapture` | components/Timeline.tsx:24-26 | after a capture, the next baseline photo is the photo just captured |
| `Timeline.Includes` | components/Timeline.tsx:85 | the substring test holds exactly when the piece occurs at some position of the string |
| `Timeline.HealthyBadge` | components/Timeline.tsx:85 | an update's badge is green exactly when "Healthy" occurs somewhere in its status |
| `Timeline.NoCapitalHNoHealthy` | components/Timeline.tsx:85 | a status with no capital H never gets the healthy badge |
| `Timeline.HealthyBadgeOnStatusLabels` | components/Timeline.tsx:85 | among the five status strings, only "Healthy" gets the healthy badge ("Unknown" does not) |
| `Timeline.ComparisonStatusBadges` | components/Timeline.tsx:85 | the statuses the growth comparison asks for ("Improving", "Declining") and its fallback "Unknown" never get the healthy badge, while "Not Healthy" does |
| `Toolbox.Rank` | components/Toolbox.tsx:12-18 | each category has its position in the fixed order health, care, environment, growth, fun |
| `Toolbox.ToolsIn` | components/Toolbox.tsx:23 | a category's tools are catalog tools of that category, and every catalog tool of that category is among them |
| `Toolbox.ToolsInAppend` | components/Toolbox.tsx:23 | filtering keeps catalog order: filtering a concatenation is the concatenation of the filtered parts |
| `Toolbox.GroupsFrom` | components/Toolbox.tsx:22-24 | the groups from a position of the order on come in strictly increasing category order, each holding exactly its category's tools and none empty |
| `Toolbox.GroupsFromCovers` | components/Toolbox.tsx:22-24 | every category from that position on that has tools gets a group |
| `Toolbox.Groups` | components/Toolbox.tsx:12-24 | groups appear in the fixed category order without repeats, and each holds exactly its category's tools and is not empty |
| `Toolbox.GroupsCoverCategories` | components/Toolbox.tsx:22-24 | a category has a group exactly when the catalog has a tool of it |
| `Toolbox.EachToolInOneGroup` | components/Toolbox.tsx:12-23 | every catalog tool is shown in exactly one group |
| `Toolbox.GroupSizesSumToCatalog` | components/Toolbox.tsx:12-23 | the group sizes add up to the catalog length |
| `Toolbox.IconFor` | components/Toolbox.tsx:35 | a tool is drawn with its own icon when that icon is known, otherwise with the sprout icon |
| `Flows.CaptureReplacesOwnEntry` | components/Timeline.tsx:39-44 | a captured update, passed to replace-by-id, lands at the place of the record it came from, one update longer, and leaves other plants' records alone |
| `Flows.LogGrowth` | components/Timeline.tsx:16-44 | a capture with no file, or whose comparison rejects, changes nothing. Otherwise the shell shows the updated record and replaces it by id in the history. The slot holds the result when storage accepts it. Error, spinner, language and offline flag are unchanged, and the next baseline is the captured photo |

## Left out

- Rendering, styling and the presentation-only components: no logic to model.
- The AI service (`identifyPlant`, `analyzeGrowth`, chat and tool analysis): network calls in
  files that are not part of this model. They are parameters standing for every possible answer.
- `localStorage` and JSON encoding: the slot holds the history sequence itself. Loading
  assumes the slot decodes, because the code has no guard against corrupt data.
- `FileReader`, `crypto.randomUUID` and `Date.now`: their values are parameters.
- The online/offline listeners: `isOffline` is set by the constructor and read as a flag.
- Overlapping asynchronous scans: `handleScan` reads the `history` captured when it was called,
  so two scans in flight can lose one write. The model runs each handler to completion.
- The identification record's AI-produced fields (taxonomy, care, safety, ...) are one opaque
  `Report` value, since nothing in the modelled code reads or changes them.
- The concrete 21-tool catalog and the icon table live in files outside this model, so the
  toolbox functions take the catalog and the set of known icon names as parameters.
- The chat and tool-history appends (`chatHistory`, `toolHistory`) are done by components
  outside this model. Only the field types are modelled.
- The light meter and image resizing live in files outside this model.
- The view switch (`view`) and the light-meter flag (`showLightMeter`) in App.tsx only choose
  what is drawn, so `AppState` leaves them out.
- `Timeline.HandleCapture`: a comparison reply with an empty text is parsed as `{}` in the
  service, giving an update whose analysis and status are undefined. The model's
  `GrowthAnalysis` always carries both strings, so that update is not modelled; the badge
  test would throw on it when the timeline is drawn.
- `Timeline.HandleCapture`: the timeline has no offline guard; an offline comparison is one
  of the rejections that `analyze` returning None stands for.
- The `score` and `healthScore` fields: the service's schema types them as JSON numbers, which may be fractional or outside the described range. The
  model keeps only the documented integer ranges (`ToolScore`, `Percent`).
- `fits` stands for the storage quota: whether a write is accepted depends on the encoded size
  of the history (records keep their photos as data URLs), which the model does not compute.
