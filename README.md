# conva scenario player — a Dafny model

conva is a Next.js app that plays dialogue scenarios as speech. Each scenario has a
summary and an ordered list of lines. A server route turns a line, or the summary,
into an audio URL through a text-to-speech provider and keeps the MP3 in a file cache.
The client has four parts:

- a search list for picking a scenario;
- a detail view that plays one line, or all lines in sequence, with optional auto-repeat;
- a prefetch queue that resolves the later lines in the background;
- a per-line component that fetches its own audio on demand.

This project models those parts in Dafny and proves properties of the model.

| module | file | models |
|---|---|---|
| `Types` | types.dfy | `Conversation`, `Scenario`, `ScenariosData` as an ordered key/value list, plus `Lookup` |
| `Js` | js.dfy | JavaScript semantics the code relies on: truthiness of `""` and `undefined`, ASCII `toLowerCase`, `includes`, `parseInt(s, 10)` and `${n}` |
| `ScenarioCard` | scenario_card.dfy | the card title (first 30 characters and `...`) |
| `Api` | api.dfy | `getVoiceForSpeaker`, `generateAudio`, `cacheAudio` over a file store (class `FileStore`) |
| `AudioRoute` | route.dfy | the `GET /api/audio` handler, as a decision function `Plan` and a step-by-step method `Get` |
| `ScenarioDetail` | scenario_detail.dfy | the playback sequencer (class `Sequencer`) |
| `DownloadQueue` | download_queue.dfy | the prefetch loop (class `Prefetcher`) |
| `ConversationItem` | conversation_item.dfy | the per-line loader (class `Item`) |
| `ScenarioList` | scenario_list.dfy | filtering and the selection handlers (class `ListView`) |

State that the source updates in place is a class with fields. React state hooks
become fields, and event handlers and effects become methods with `modifies` frames.
Pure computations are functions. The model keeps several behaviours the code really has:

- **Repeat timer handle.** The handle in `repeatDelayRef` is not cleared when the timer
  fires (`Spent`). Arming a second timer while one is pending overwrites the handle.
  The earlier timer can then no longer be cancelled (`strayTimers`). Stop and
  navigation do not cancel it.
- **Prefetch queue.** The queue is not deduplicated. One fetch removes every copy of its
  index. The head fetch is applied to whatever the queue holds when the fetch settles.
- **Error replies.** `fetch` does not throw on an HTTP error reply, so its `url` reaches
  the client as `undefined` (`Delivered(None)`). An item still reports it and calls
  `onPlay`.
- **Index checking.** The route checks the cache under the raw `index` string but writes
  the file under `${parseInt(index)}`. For `"01"` the two names differ, so the request
  is synthesised again every time.
- **Negative index.** A negative index passes the bound check and then fails when it
  reads the line, which yields a 500. An empty index passes parameter validation and
  then parses as NaN, which yields a 400.
- **Falsy ids.** An empty `scenarioId` counts as a missing parameter. An empty selected
  id has no position in the list.
- **Navigation.** The detail component stays mounted across navigation, so the preloaded
  URLs of one scenario carry over to the next.

The scenario collection is a sequence of `(id, scenario)` pairs in `Object.entries`
order. The provider call, the download-and-write step and the client's `fetch` are
oracles whose outcome is a parameter. Timers fire when the caller invokes the matching
method: `RepeatTimerFired` or `LoadingTimerFired`.

Four further facts about the code shape the model:

- Auto-repeat has no counter or limit: it replays from line 0 until it is switched off
  (components/scenario-detail.tsx:115-121).
- The prefetch queue is appended to without removing duplicates; the copies of an
  index leave the queue only when that index is fetched or playback is stopped
  (components/scenario-detail.tsx:105, 161, 172-178, components/audio/download-queue.tsx:57, 71).
- No identifier check guards an async result that arrives after a scenario switch
  (components/conversation-item.tsx:57-70, components/audio/download-queue.tsx:42-57).
- Switching auto-repeat off cancels the pending timer and hides the banner, and leaves
  play-all and the current line as they are (components/scenario-detail.tsx:141-147).

The sequencer carries two invariants. `Valid` (the repeat banner shows only while an
unfired timer is held, and the queue holds only lines after the first) is kept by every
event and is what every handler requires. `OnLine` (play-all has a current line, and that
line is one of the scenario's) is kept by callbacks made on the current render. A late
`onPlay` can break it, and stopping, navigating, starting play-all, the repeat timer or a
click on a line restores it.

## Model

| member | source | states |
|---|---|---|
| Types.Lookup | lib/types.ts:11-13 | `scenarios[id]`: `None` exactly when no entry has the id. With distinct ids, the result is the scenario filed under it. |
| Js.LowerIdempotent | components/scenario-list.tsx:20-24 | Lower-casing twice is the same as lower-casing once. |
| Js.IncludesIff | components/scenario-list.tsx:22-24 | `s.includes(t)` holds iff `t` occurs in `s` at some offset. |
| Js.IncludesEmpty | components/scenario-list.tsx:22-24 | Every string includes the empty string. |
| Js.ParseIntOfIntToString | app/api/audio/route.ts:41-52 | `parseInt(`${n}`, 10)` is `n` for every integer. |
| Js.IntToStringInjective | lib/api.ts:59 | Different integers render as different decimal text. |
| Js.CanonicalIff | app/api/audio/route.ts:41-52 | A string is the rendering of its own non-negative `parseInt` value iff it is a canonical decimal: digits only, with no leading zero. |
| Js.ParseInt | app/api/audio/route.ts:41 | `parseInt(s, 10)` is NaN exactly when no digit follows the leading white space and optional sign. |
| Js.ParseIntOfParts | app/api/audio/route.ts:41 | For white space, an optional sign, a non-empty digit run and a rest that does not start with a digit, `parseInt` gives the digits' value, negated after "-". |
| Js.ParseIntTrailingText | app/api/audio/route.ts:41 | `parseInt` reads " 12abc" as 12: leading white space and trailing text are ignored. |
| Js.ParseIntPlusSign | app/api/audio/route.ts:41 | `parseInt` reads "+3" as 3. |
| Js.ParseIntMinusZero | app/api/audio/route.ts:41 | `parseInt` reads "-0" as 0. |
| ScenarioCard.TruncateFits | components/scenario-card.tsx:17-19 | A summary of at most n characters is shown unchanged. |
| ScenarioCard.TruncateLong | components/scenario-card.tsx:17-19 | A longer summary becomes its first n characters followed by "...", n + 3 in all. |
| ScenarioCard.TruncateBound | components/scenario-card.tsx:17-19 | The title never exceeds n + 3 characters and starts as the summary does. |
| ScenarioCard.TruncateIdempotent | components/scenario-card.tsx:17-19 | Truncating a title again changes nothing. |
| ScenarioCard.TruncateUnchangedIff | components/scenario-card.tsx:17-19 | The title equals the summary iff the summary fits, or already has the form of n characters followed by "...". |
| ScenarioCard.CardThreshold | components/scenario-card.tsx:17-19 | The cut is strict at 30: 30 characters are kept, 31 are cut. |
| ScenarioCard.Truncate | components/scenario-card.tsx:17-19 | A string of at most n characters is kept; a longer one becomes its first n units and "...". |
| ScenarioCard.ShortTitle | components/scenario-card.tsx:17-19 | The card title keeps summaries of up to 30 characters; a longer one becomes its first 30 and "...". |
| ScenarioDetail.ShortTitle | components/scenario-detail.tsx:192-194 | The detail title keeps summaries of up to 50 characters. A longer one becomes its first 50 and "...". |
| ScenarioDetail.IndicesToDownload | components/scenario-detail.tsx:102-103 | The indices play-all queues are exactly 1..n-1 with no truthy preloaded URL, ascending. |
| ScenarioDetail.ThreeLineQueue | components/scenario-detail.tsx:102-103 | On three lines with nothing preloaded, play-all queues [1, 2]. |
| ScenarioDetail.Sequencer.constructor | components/scenario-detail.tsx:43-57 | Initial state: nothing playing, no timer, empty queue and map. |
| ScenarioDetail.Sequencer.ItemFlags | components/scenario-detail.tsx:317-321 | A line gets a raised flag iff it is the current line, and never both flags. The play-all flag requires play-all. |
| ScenarioDetail.Sequencer.PlayConversation | components/scenario-detail.tsx:59-62 | Outside play-all, toggles the line on or off. During play-all it does nothing. Valid and OnLine (play-all has a line of the scenario) are kept. |
| ScenarioDetail.Sequencer.PlayConversationFromRender | components/scenario-detail.tsx:59-62 | `playConversation` run from an earlier render's closure: the captured play-all flag and index decide, not the current ones. Valid is kept; OnLine is not. |
| ScenarioDetail.LateOnPlayMovesPlayAll | components/conversation-item.tsx:39-70 | A reply's `onPlay` captured before play-all started moves play-all from line 0 to the clicked line. |
| ScenarioDetail.LateOnPlayAfterNavigation | components/conversation-item.tsx:39-70 | A reply's `onPlay` captured before navigation leaves play-all on at line 5 of a three-line scenario. |
| ScenarioDetail.LateOnPlayRecovers | components/scenario-detail.tsx:149-189 | From the stalled state, a click on a line resumes play-all there and Stop then resets playback. |
| ScenarioDetail.Sequencer.PlayAllConversation | components/scenario-detail.tsx:96-106 | Play-all starts at line 0. The unloaded later lines are appended after the existing queue. |
| ScenarioDetail.Sequencer.HandleAudioEnded | components/scenario-detail.tsx:108-129 | There are four cases: no play-all, so nothing; advance by one; at the end with auto-repeat, banner on and a timer armed, leaking the one the handle held; at the end without it, stop. |
| ScenarioDetail.Sequencer.RepeatTimerFired | components/scenario-detail.tsx:118-121 | Back to line 0 with the banner off, and play-all untouched. The handle becomes spent, or one stray timer is consumed. |
| ScenarioDetail.Sequencer.SetAutoRepeat | components/scenario-detail.tsx:141-147 | Switching auto-repeat off with a non-null handle clears the handle and the banner. Every other change leaves both alone. |
| ScenarioDetail.Sequencer.StopPlayingAll | components/scenario-detail.tsx:149-162 | From any state, a stalled one included: play-all off, no current line, handle cleared, banner off, queue empty; OnLine holds after. |
| ScenarioDetail.Sequencer.HandleAudioLoaded | components/scenario-detail.tsx:165-170 | Records or overwrites the URL of exactly that index. |
| ScenarioDetail.Sequencer.HandleNavigate | components/scenario-detail.tsx:172-178 | From any state: stops, then takes the target's line count; OnLine holds after. Preloaded URLs, auto-repeat and stray timers are kept. |
| ScenarioDetail.Sequencer.HandleDialogClick | components/scenario-detail.tsx:180-189 | Outside play-all it toggles the line. During play-all it jumps to it, which also ends a stall. OnLine holds after. |
| ScenarioDetail.AtMostOneItemPlays | components/scenario-detail.tsx:317-318 | Two different lines are never both rendered as playing. |
| ScenarioDetail.PlayAllHasLine | components/scenario-detail.tsx:96-112 | Spells out OnLine: with play-all in a non-empty scenario, the current line is a line of the scenario. The handlers' contracts say which of them establish OnLine. |
| ScenarioDetail.PlayThroughRun | components/scenario-detail.tsx:96-129 | Three lines without repeat: queue [1, 2], lines 0, 1, 2 played in order, then nothing selected and play-all off. |
| ScenarioDetail.RepeatRun | components/scenario-detail.tsx:108-147 | Three lines with repeat: the timer restarts at 0. Switching repeat off in the next wait leaves play-all on at line 2 with the banner off. |
| Api.GetVoiceForSpeaker | lib/api.ts:45-54 | Speaker 0 iff "Liam", speaker 1 iff "Aria", any other id iff "Daniel". |
| Api.GenerateAudio | lib/api.ts:26-42 | A URL exactly when the provider succeeded, and it is the provider's URL. |
| Api.KeyTextHasNoUnderscore | lib/api.ts:59 | The rendered key ("summary" or a line number) contains no "_". |
| Api.CacheFileNameInjective | lib/api.ts:59 | Two written cache names are equal only for the same scenario id and key. |
| Api.CacheFileNameParts | lib/api.ts:59 | A cache name is the scenario id, "_", the index text and ".mp3", in that order. |
| Api.PublicPath | lib/api.ts:61 | The public path is "/audio-cache/" followed by exactly the file name. |
| Api.FileStore.constructor | lib/api.ts:58-66 | The store starts with exactly the given set of cache file names. |
| Api.CacheAudio | lib/api.ts:57-83 | A file already present gives its public path with no download. A saved download adds the file and gives its path. A failed one gives the remote URL and leaves the store alone. |
| Api.CacheAudioTwice | lib/api.ts:68-79 | After a saved download, a second call for the same key gives the same path without fetching. |
| AudioRoute.Plan | app/api/audio/route.ts:11-50 | Synthesis is planned only with valid parameters, on a cache miss, for a known scenario and for the requested id. A URL reply is given only on a hit and is that file's public path. |
| AudioRoute.Get | app/api/audio/route.ts:6-59 | The reply, the synthesis request and the new store follow `Plan` on the old store and then the provider and download outcomes. |
| AudioRoute.MissingParametersFirst | app/api/audio/route.ts:11-13 | 400 "Missing required parameters" iff the id is absent or empty, or the index is absent. |
| AudioRoute.EmptyIndexIsInvalid | app/api/audio/route.ts:41-44 | An empty index passes validation and, on a miss for a known scenario, is an invalid index (400). |
| AudioRoute.CacheHitShortCircuits | app/api/audio/route.ts:16-24 | A cached name is answered with its public path, whatever the scenarios contain. |
| AudioRoute.NotFoundOnlyOnMiss | app/api/audio/route.ts:27-32 | 404 iff the parameters are valid, the cache misses and the id is unknown. |
| AudioRoute.SummaryIsNarrated | app/api/audio/route.ts:37-39 | The summary is synthesised from the summary text in the voice "Daniel". |
| AudioRoute.SynthesisVoice | app/api/audio/route.ts:37-50 | A summary synthesis uses "Daniel". A line synthesis names a line of the requested scenario and uses its speaker's voice. |
| AudioRoute.LineSelection | app/api/audio/route.ts:40-48 | NaN, or a value at or above the count: 400. Negative: 500. Otherwise that line's text in its speaker's voice. |
| AudioRoute.WrittenNameIsCheckedName | app/api/audio/route.ts:18-52 | The written name equals the checked name iff the index is "summary" or canonical decimal. |
| AudioRoute.SavedRequestIsCached | app/api/audio/route.ts:18-24 | For canonical indices, once the file is saved the same request is a cache hit. |
| AudioRoute.NonCanonicalRequestResynthesises | app/api/audio/route.ts:18-52 | For a non-canonical index the saved file never satisfies the check, so the request synthesises again. |
| AudioRoute.LeadingZeroPlan | app/api/audio/route.ts:41-51 | On a two-line scenario, a cache miss for "01" synthesises line 1 in its speaker's voice. |
| AudioRoute.LeadingZeroNames | app/api/audio/route.ts:18-52 | "01" is checked under s_01.mp3 and written as s_1.mp3, which differs from it. |
| AudioRoute.LeadingZeroExample | app/api/audio/route.ts:41-52 | "01" is checked as s_01.mp3, written as s_1.mp3 and synthesised again after the write. |
| AudioRoute.Delivery | components/conversation-item.tsx:57-63 | The client always receives a reply. Its `url` is present iff the reply is not an error. |
| DownloadQueue.RemoveAll | components/audio/download-queue.tsx:57 | Every copy of the index is removed, all else is kept in order, and multiplicities are otherwise unchanged. |
| DownloadQueue.Drain | components/audio/download-queue.tsx:21-80 | An uninterrupted run fetches each distinct queued index exactly once, head first. |
| DownloadQueue.DuplicateFetchedOnce | components/audio/download-queue.tsx:57 | An index queued twice or more is fetched once. |
| DownloadQueue.RecordAllKeys | components/audio/download-queue.tsx:54-71 | After a run, a line has an entry iff it had one or its fetch delivered. Failures add nothing. |
| DownloadQueue.Prefetcher.constructor | components/audio/download-queue.tsx:17 | The prefetcher starts idle, with no fetch in flight. |
| DownloadQueue.Prefetcher.ProcessDownloadQueue | components/audio/download-queue.tsx:21-25 | With an empty queue or while busy, nothing happens. Otherwise it goes busy and requests the head. |
| DownloadQueue.Prefetcher.DownloadCompleted | components/audio/download-queue.tsx:42-74 | A delivered URL goes into the preloaded map. In both outcomes the index is filtered out of the current queue and busy clears. |
| DownloadQueue.Prefetcher.RunQueue | components/audio/download-queue.tsx:77-80 | Re-running until empty fetches exactly `Drain` of the queue and records the delivered URLs in that order. |
| ConversationItem.SpeakerLabel | components/conversation-item.tsx:134 | "Liam" iff speaker 0, "Aria" iff any other id. |
| ConversationItem.LabelMatchesVoiceIff | components/conversation-item.tsx:134 | The label names the voice that reads the line iff the speaker is 0 or 1. |
| ConversationItem.Item.constructor | components/conversation-item.tsx:34 | The initial URL is the preloaded one when that is truthy, else none. |
| ConversationItem.Item.FetchAudio | components/conversation-item.tsx:39-47 | With a truthy URL, only `onPlay`. Otherwise loading, with a request for its own index. |
| ConversationItem.Item.FetchSettled | components/conversation-item.tsx:57-77 | Delivered: the URL is stored, reported with the index, then `onPlay`. Thrown: nothing, the URL is kept. Both start the loading clear. |
| ConversationItem.Item.LoadingTimerFired | components/conversation-item.tsx:74-77 | Loading ends. |
| ConversationItem.Item.ClickPlay | components/conversation-item.tsx:138-142 | A disabled button does nothing. An enabled one acts as `FetchAudio`. |
| ConversationItem.Item.PreloadedChanged | components/conversation-item.tsx:82-86 | A changed truthy preloaded URL is adopted only when the item has none. An existing URL is never replaced. |
| ConversationItem.Item.CurrentInQueueChanged | components/conversation-item.tsx:89-93 | A fetch happens only when the item becomes current, has no URL and is not loading. |
| ConversationItem.Item.AudioElementShown | components/conversation-item.tsx:162 | The audio element is rendered only with a truthy URL. |
| ConversationItem.PlayButtonDisabled | components/conversation-item.tsx:142 | A loading line's button is always disabled. |
| ConversationItem.AudioOnlyOnCurrentLine | components/conversation-item.tsx:162-171 | Under the detail view's flags, a line shows audio iff it is current and has a URL. No two lines show it at once. |
| ConversationItem.PlayAllDisablesOnlyCurrentButton | components/conversation-item.tsx:142 | During play-all a button is disabled iff its line is loading or is the current line. |
| ConversationItem.FetchThenReplay | components/conversation-item.tsx:39-79 | The first click fetches, the delivery reports then plays, and a second click plays without a request. |
| ConversationItem.ErrorReplyRefetches | components/conversation-item.tsx:57-70 | An error reply is reported as undefined and still plays. The next click fetches again. |
| ScenarioList.Filtered | components/scenario-list.tsx:19-26 | Exactly the matching entries are kept, as a subsequence. Distinct ids stay distinct. |
| ScenarioList.EmptyQueryKeepsAll | components/scenario-list.tsx:19-26 | The empty query keeps every entry in order. |
| ScenarioList.QueryCaseIgnored | components/scenario-list.tsx:20 | A query and its lower-cased form filter alike. |
| ScenarioList.FindIndex | components/scenario-list.tsx:40 | -1 iff the id is absent. Otherwise the first position holding it. |
| ScenarioList.CurrentIndex | components/scenario-list.tsx:84-87 | -1 without a truthy selection or when it is not listed. Otherwise its position. |
| ScenarioList.HasNext | components/scenario-list.tsx:89-90 | `hasNext` implies a truthy selection, listed at a position that is not the last. |
| ScenarioList.HasPrevious | components/scenario-list.tsx:89-91 | `hasPrevious` implies a truthy selection, listed at a position after the first. |
| ScenarioList.HasNextIff | components/scenario-list.tsx:89-90 | `hasNext` iff the selection is truthy and listed before the last position. |
| ScenarioList.HasPreviousIff | components/scenario-list.tsx:91 | With distinct ids, `hasPrevious` iff the selection is truthy and listed after the first position. |
| ScenarioList.NextIsAnotherEntry | components/scenario-list.tsx:36-45 | With distinct ids and `hasNext`, next selects another id; unless that id is "", the selection's position becomes one further on. |
| ScenarioList.PreviousIsAnotherEntry | components/scenario-list.tsx:47-56 | With distinct ids and `hasPrevious`, previous selects another id; unless that id is "", the selection's position becomes one earlier. |
| ScenarioList.NextThenPrevious | components/scenario-list.tsx:36-56 | Next then previous returns to the selection, unless the next id is "". |
| ScenarioList.ListView.Visible | components/scenario-list.tsx:19-26 | The rendered list holds exactly the scenarios matching the query. |
| ScenarioList.ListView.constructor | components/scenario-list.tsx:15-17 | Mounting: no selection and an empty query. |
| ScenarioList.ListView.HandleScenarioSelect | components/scenario-list.tsx:28-30 | The selection becomes the id. |
| ScenarioList.ListView.ClearSelection | components/scenario-list.tsx:32-34 | The selection becomes null. |
| ScenarioList.ListView.SetSearchQuery | components/scenario-list.tsx:104 | The query becomes the typed text. |
| ScenarioList.ListView.NavigateToNext | components/scenario-list.tsx:36-45 | With `hasNext`, the next entry. A truthy unlisted selection jumps to the first entry. Otherwise nothing changes. |
| ScenarioList.ListView.NavigateToPrevious | components/scenario-list.tsx:47-56 | With `hasPrevious`, the entry before. Otherwise nothing changes. |
| ScenarioList.ListView.NavigateToRandom | components/scenario-list.tsx:58-81 | Empty list: no change. One entry: that entry. Two or more: the picked entry, which differs from the selection when ids are distinct and the selection is not "". |

## Left out

- ScenarioList.ListView.NavigateToRandom: the `Math.random` do-while loop is modelled by its outcome. `pick` is the index the loop settles on, and its requirement is the loop's exit condition. Termination of the loop is not modelled.
- ConversationItem.Item.FetchAudio: requires that no load is under way. Both call sites establish this: the play button is disabled while loading, and the auto-fetch effect checks `loading`. Overlapping fetches of one line are therefore not modelled.
- The summary's audio (`fetchSummaryAudio` and its `summaryUrl`/`loadingSummary` state) is not modelled beyond the route's summary branch. It has the same shape as a line's fetch and is not part of the playback sequencer.
- Simulated progress bars (`loadingProgress`, `downloadProgress`, `loadingSummaryProgress`) are left out. They use `setInterval`, `Math.random` and floating point and are cosmetic. Only the `loading` and `isDownloading` flags are kept.
- components/ui/audio.tsx and the `<audio>` element's own playback (`play()`, the `ended` event) are left out, as is components/audio/download-progress.tsx. An ended track is the call to `HandleAudioEnded`.
- ScenarioDetail.Sequencer.PlayConversation: a line's `onPlay` that runs after its fetch settles is the closure of the render where the fetch began, so it reads that render's `isPlayingAll` and `currentPlayingIndex`. `PlayConversation` describes callbacks made on the current render; the late callback is `PlayConversationFromRender`. It keeps `Valid`, which every handler requires, but can break `OnLine`: `LateOnPlayAfterNavigation` shows it leaving play-all at a line the scenario does not have, and `LateOnPlayRecovers` shows the way out.
- Asynchronous interleaving is not modelled exhaustively. Each `await` is split into an issuing method and a settling method, and the environment orders the calls. The model has no guard for late results, because the code has none.
- `loadScenarios` reads and parses a data file. The scenarios are a parameter, and its fallback to `{}` on a read error is not modelled.
- The `fs.mkdirSync` of the cache directory is left out. It runs outside the `try` of `cacheAudio` (lib/api.ts:63-66), so its failure would reach the route's catch and answer 500; that failure path is not modelled. `path.join` normalisation is also left out: file names are compared as plain strings.
- The `useEffect` cleanup on `id` change is left out. It clears the timer the handle holds after `stopPlayingAll` has already done so, and it leaves stray timers running, as the model does.
- Per-line components are keyed by index and survive a scenario change with their URLs. The model creates `Item` objects separately and does not tie their lifetime to navigation.
- `toLowerCase` covers ASCII letters only, and no Unicode case mapping or normalisation is modelled. A `char` stands for one UTF-16 code unit of text in the Basic Multilingual Plane.
- ScenarioCard.Truncate, ScenarioCard.ShortTitle and ScenarioDetail.ShortTitle: text outside the Basic Multilingual Plane is not modelled. A character there is a surrogate pair, two code units for `length` and `substring`, and a cut can split the pair; Dafny's `char` cannot hold a lone surrogate. The same holds for `length`, `substring` and `includes` elsewhere.
- Object keys are plain strings. JavaScript's integer-like key ordering in `Object.entries` and prototype keys are not modelled: the entry order is the given sequence.
- `${n}` is modelled for integers only. Exponent notation at 1e21 and above and precision loss beyond 2^53 are not modelled, and `parseInt` yields an unbounded integer.
- The Next.js page and the remaining UI components are not part of this model.
