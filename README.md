# Singapore travel planner: client core in Dafny

This project models the client side of a single-page Singapore travel guide. The guide shows
curated locations and trails on a map. An AI assistant, a Gemini model reached directly or
through a proxy, can suggest a walking route or a themed batch of new places. The model covers:

- the application store (`App`): it merges curated and generated locations, labels each with its
  distance from a user-chosen home base, de-duplicates newly suggested places by name ignoring
  case, turns a suggested route into a persistent "AI trail", and restores its three persisted
  keys with their defaults;
- the sidebar's derived lists (`Sidebar`): the tab and category filter, the AI-discovery count,
  the trail list with AI trails first, and the home-base form guard;
- the map's derived state (`MapDisplay`): the fit bounds, the rule deciding whether the camera
  fits a path or flies to a location, the location markers and the numbered route and trail
  overlays;
- the chat panel (`Chat`): the message protocol of one send, the loading guard, the discover
  form and the key handler;
- the Gemini gateway (`Gemini`): the lazily cached SDK client, the dispatch on the first tool
  call in direct mode, the proxy path, and home-base resolution with code-fence stripping.

`Types` holds the records; `Text` and `Seqs` hold the JavaScript string and array operations the
core uses (`trim`, `toLowerCase`, global `replace`, `toString`, `filter`), with the facts proved
about them.

Objects the source updates in place are classes: the store (`App.AppState`), the chat panel
(`Chat.ChatPanel`) and the module-level client cache (`Gemini.ClientCache`). Their methods state
the whole new state. Derivations the source computes with `useMemo` or plain expressions are
functions.

The store's handlers do not touch the network, the SDK, the clock or `JSON.parse` themselves.
Each of these is a parameter of the operation that needs it:

- `outcome` and `reply`: the gateway's answer;
- `first` and `followUp`: the chat session's answers;
- `resolve`: the awaited home-base lookup;
- `parse`: `JSON.parse`;
- `now` and `stamp`: `Date.now()`;
- `image`: the random picture URL;
- `distance`: the Haversine label.

An empty string stands for an unset environment setting (the API key, the proxy URL), because
the source only asks whether each is truthy.

## Model

| member | source | states |
|---|---|---|
| Text.Trim | components/ChatInterface.tsx:63 | `trim()` yields "" exactly for an all-whitespace string; otherwise the result starts and ends with non-whitespace. It is the slice of the input left after cutting off an all-whitespace prefix and suffix |
| Text.TrimIsSlice | components/ChatInterface.tsx:63 | cutting whitespace from the front and then from the back leaves a slice of the input whose margins are all whitespace, non-blank exactly when the input is |
| Text.TrimKeepsNoTriple | services/geminiService.ts:277 | trimming a text with no run of three equal characters creates no such run |
| Text.TrimUnpadded | services/geminiService.ts:277 | trimming a string without surrounding whitespace leaves it unchanged |
| Text.Lower | App.tsx:133-136 | `toLowerCase` keeps the length and folds each character on its own |
| Text.RemoveAll | services/geminiService.ts:277 | a global replace by "" deletes characters and nothing else: the result is a subsequence of the input, so never longer |
| Text.RemoveAllHead | services/geminiService.ts:277 | removing a run of three characters `c` from a text that does not start with `c` (or with `cc`) leaves a text that does not start with it either |
| Text.RemoveAllRunGone | services/geminiService.ts:277 | after removing every run of three characters `c`, no run of three `c` remains |
| Text.RemoveAllAbsent | services/geminiService.ts:277 | a pattern whose first character does not occur in the text removes nothing |
| Text.RemoveAllTrailing | services/geminiService.ts:277 | removing a pattern from text + pattern gives back the text when the text lacks the pattern's first character |
| Text.NatToString | components/ChatInterface.tsx:66 | `toString` of a non-negative integer is a non-empty digit string, one digit long exactly below 10 |
| Text.NatToStringInjective | services/geminiService.ts:221 | different numbers give different strings |
| Seqs.SubsequenceOfSuffix | services/geminiService.ts:277 | a subsequence of a suffix is a subsequence of the whole |
| Seqs.SubsequenceTransitive | services/geminiService.ts:277 | a subsequence of a subsequence is a subsequence: two rounds of deletion are one |
| Seqs.Filter | components/Sidebar.tsx:65-74 | `filter` keeps each element as often as it occurs when it passes and drops it otherwise, in the original order |
| Seqs.FilterKeepsAll | App.tsx:135-137 | when every element passes, the filter returns the whole list |
| Seqs.FilterKeepsNone | App.tsx:135-137 | when no element passes, the filter returns nothing |
| Seqs.FilterSplit | components/Sidebar.tsx:65-76 | two complementary filters split the list: their counts and lengths add up to the list's |
| Seqs.FilterCongruent | components/Sidebar.tsx:76 | two tests that agree on every element select the same list |
| Gemini.ClientCache.constructor | services/geminiService.ts:5-7 | the cache starts empty under the configured proxy URL |
| Gemini.ClientCache.GetClient | services/geminiService.ts:9-20 | a cached client is returned as is; otherwise a key builds and caches a client; with no key, a proxy gives "no client" and no proxy gives the configuration error |
| Gemini.StepsFromArgs | services/geminiService.ts:197-207 | one route step per `steps` entry, in order, with latitude and longitude paired as coordinates |
| Gemini.PlacesFromArgs | services/geminiService.ts:220-232 | one place per `locations` entry, in order: flagged as generated, id `gen-<stamp>-<index>`, price `$$` and social proof `[]` when missing, no distance label |
| Gemini.PlaceIdsDistinct | services/geminiService.ts:221 | the places of one batch have pairwise different ids |
| Gemini.TextOr | services/geminiService.ts:246 | the reply text is never empty: a non-empty model text is kept, and an empty one becomes "Here is your plan!" |
| Gemini.SendDirect | services/geminiService.ts:186-254 | a rejected first call rejects. A first call naming `suggest_route` or `suggest_places` yields the converted route or places with the follow-up's text; a missing argument array or a rejected follow-up rejects. Any other reply yields its own text only. At most one payload is set |
| Gemini.SendViaProxy | services/geminiService.ts:158-183 | a failed fetch rejects with its error; a non-ok status rejects with "Proxy call failed: …"; an ok reply resolves to exactly its JSON body |
| Gemini.SendMessage | services/geminiService.ts:156-254 | with a proxy URL the proxy path decides the answer. Without one, a rejected first call rejects, a plain reply yields its text only, a `suggest_route` or `suggest_places` call yields the converted payload, and at most one payload is set |
| Gemini.StripFences | services/geminiService.ts:277 | removing the fences only deletes characters, and no run of three backticks is left |
| Gemini.CleanedReply | services/geminiService.ts:277 | the text handed to `JSON.parse` neither starts nor ends with whitespace and holds no run of three backticks |
| Gemini.FenceRoundTrip | services/geminiService.ts:274-277 | a backtick-free body wrapped in a json code fence comes back unchanged |
| Gemini.UnfencedReplyIsTrimmed | services/geminiService.ts:277 | a reply without backticks is only trimmed before parsing |
| Gemini.ResolveViaProxy | services/geminiService.ts:266-287 | no place exactly when the text is missing or the cleaned text does not parse; otherwise the parsed name and coordinates |
| Gemini.ResolveDirect | services/geminiService.ts:292-321 | no place exactly when the call failed, the text is empty or it does not parse; otherwise the parsed name and coordinates |
| Gemini.ResolveLocation | services/geminiService.ts:258-322 | with a proxy it never rejects. Without one, a configuration error rejects, and so does a missing client (with the direct-mode error) |
| Gemini.FencedAnswerResolves | services/geminiService.ts:266-282 | a fenced proxy answer whose trimmed body parses resolves to that place |
| Sidebar.DisplayLocations | components/Sidebar.tsx:65-74 | an order-preserving selection holding exactly the locations the tab and category admit, each as often as it occurs in the input |
| Sidebar.GeneratedCount | components/Sidebar.tsx:76 | at most the number of locations; zero exactly when none is generated |
| Sidebar.TabsPartition | components/Sidebar.tsx:65-76 | with all categories, the curated and generated tabs split the locations, and the generated tab holds `generatedCount` of them |
| Sidebar.AllTrails | components/Sidebar.tsx:79 | generated trails first, then curated ones, each in its own order |
| Sidebar.AiTrailsLead | components/Sidebar.tsx:410 | when only generated trails carry the `gen-trail` prefix, the AI trails are exactly the leading block of the list |
| Sidebar.IsAiTrail | components/Sidebar.tsx:410 | a trail is shown as an AI trail exactly when its id starts with `gen-trail` |
| Sidebar.IsHomeBase | components/Sidebar.tsx:95 | the selected location is the home base exactly when a home base is set and has the same id |
| Sidebar.BaseSubmit | components/Sidebar.tsx:81-86 | a lookup happens exactly for a non-blank input, and it uses the untrimmed input |
| MapDisplay.Coords | components/MapDisplay.tsx:80-83 | the steps' coordinates, one per step, in order |
| MapDisplay.RouteBounds | components/MapDisplay.tsx:78-87 | bounds come from a route with steps, else from a trail with steps, else there are none; bounds are never empty |
| MapDisplay.MapUpdate | components/MapDisplay.tsx:62-72 | bounds are fitted when present; otherwise the map flies to the centre at zoom 15; with neither it stays |
| MapDisplay.Camera | components/MapDisplay.tsx:217-220 | the map stays put exactly when nothing is selected and neither route nor trail has a step; a fly-to goes to the selected location at zoom 15; fitted bounds are never empty, and a trail with steps is fitted when the route has none |
| MapDisplay.CameraPrecedence | components/MapDisplay.tsx:217-220 | the map flies to the selected location exactly when neither the route nor the trail has a step; a route with steps always decides the view |
| MapDisplay.LocationMarkers | components/MapDisplay.tsx:90-113 | one slot per location, empty exactly for the home base. Each marker is keyed by id and placed at the location; it uses the AI icon exactly for generated places and is faded to 0.4 while a trail is active |
| MapDisplay.NumberedFrom | components/MapDisplay.tsx:124-128 | step markers numbered consecutively from the first number, each at its step |
| MapDisplay.Overlay | components/MapDisplay.tsx:120-128 | a polyline through the step coordinates, with marker i numbered i+1 and placed on the polyline's i-th point |
| MapDisplay.RouteOverlay | components/MapDisplay.tsx:116-144 | no overlay without a route; otherwise its steps drawn in blue |
| MapDisplay.TrailOverlay | components/MapDisplay.tsx:147-172 | no overlay without a trail; otherwise its steps drawn in orange |
| Chat.Transcript | components/ChatInterface.tsx:62-124 | the user message first. On failure, one error bubble follows. On success, the reply follows, then the route notice if a route came back, then the places notice if places came back. Only the error bubble is flagged |
| Chat.Embed | components/ChatInterface.tsx:48 | a filled-in prompt template holds the subject right after the lead and then the tail; a lead opening with a visible character makes it non-blank |
| Chat.DiscoverPrompt | components/ChatInterface.tsx:129 | the themed prompt starts with the fixed request, quotes the theme right after it, and is never blank, so it always passes the send guard |
| Chat.ContextPrompt | components/ChatInterface.tsx:48 | the question about a location starts with "Tell me more about", names the location right after it, and is never blank |
| Chat.ChatPanel.constructor | components/ChatInterface.tsx:28-37 | the panel starts on the assistant tab, with no messages, empty input and theme, and not loading |
| Chat.ChatPanel.Ready | components/ChatInterface.tsx:63 | no request is in flight and a chat session exists |
| Chat.ChatPanel.Accepts | components/ChatInterface.tsx:63 | a send goes out exactly for a non-blank text while the panel is ready |
| Chat.ChatPanel.HandleSend | components/ChatInterface.tsx:62-124 | a blank text, a request in flight or a missing session changes nothing. Otherwise the transcript is appended, the input is cleared and loading ends; the route and places callbacks fire exactly when their payloads arrive |
| Chat.ChatPanel.ResetChat | components/ChatInterface.tsx:56-60 | no messages, a new session, not loading |
| Chat.ChatPanel.HandleDiscoverSubmit | components/ChatInterface.tsx:126-131 | a blank theme changes nothing. Otherwise the panel switches to the assistant tab and clears the theme; if the panel is not ready the messages, input and loading flag stay, and if it is the themed prompt's transcript is appended, the input is cleared, loading ends and the callbacks fire exactly when their payloads arrive |
| Chat.ChatPanel.OpenWithContext | components/ChatInterface.tsx:45-50 | without a non-empty context, or while the panel is closed, nothing changes. Otherwise the panel switches to the assistant tab; if it is not ready nothing else changes, and if it is the question's transcript is appended, the input is cleared, loading ends and the callbacks fire exactly when their payloads arrive |
| Chat.ChatPanel.HandleKeyDown | components/ChatInterface.tsx:133-138 | any key but Enter without Shift changes nothing, and so does Enter when the send guard refuses the input. Otherwise the input's transcript is appended, the input is cleared, loading ends and the callbacks fire exactly when their payloads arrive |
| App.WithDistance | App.tsx:87-93 | every location is kept except for its distance label, which is measured from the base |
| App.AllLocations | App.tsx:82-94 | curated then generated locations. Without a home base they are unchanged; with one, the same locations in the same order, each labelled with its distance from the base |
| App.UniqueNew | App.tsx:131-137 | an order-preserving selection of the newcomers whose lower-cased name is not already on the map, each kept as often as it came |
| App.FreshBatchKept | App.tsx:133-137 | a batch with no taken name is kept whole, even with duplicate names inside it |
| App.StaleBatchDropped | App.tsx:133-137 | a batch whose every name is already taken, ignoring case, adds nothing |
| App.PromoteRoute | App.tsx:110-117 | the trail keeps the route's title and steps, and its id starts with `gen-trail-` |
| App.PromotedTrailIsAi | App.tsx:111 | every promoted trail is recognised as an AI trail by the sidebar |
| App.HomeBaseFrom | App.tsx:153-162 | the home base has id `home-base` and the resolved name and coordinates; it is not generated and has no distance label |
| App.Restore | App.tsx:38-64 | a missing or empty stored value, or one that does not parse, gives the default; a non-empty value that parses gives exactly the parsed value |
| App.RestoreRoundTrip | App.tsx:68-79 | whenever `parse` undoes the serialisation, a value written by the persistence effects is read back unchanged |
| App.AppState.Locations | App.tsx:82-94 | the map's locations: one per curated and generated location, with the same names in the same order |
| App.AppState.constructor | App.tsx:25-66 | the first render's defaults, with the three persisted keys restored |
| App.AppState.SelectLocation | App.tsx:96-101 | the location is selected, the trail and route are cleared and the sidebar opens, so the map flies to the location at zoom 15; nothing else changes |
| App.AppState.CloseSelection | App.tsx:206 | only the selection is cleared |
| App.AppState.AskAI | App.tsx:103-106 | the chat opens with the location's name as its context; nothing else changes |
| App.AppState.HandleRouteGenerated | App.tsx:108-129 | the promoted trail is put in front of the generated trails and becomes the active AI trail. The route is cleared, the trails tab is shown and the sidebar opens |
| App.AppState.HandleLocationsGenerated | App.tsx:131-147 | the newcomers with untaken names are appended in order. If there are any, the generated list opens; if there are none, nothing changes |
| App.AppState.SetCustomHomeBase | App.tsx:149-166 | a found place becomes the home base. With no place the home base stays. The spinner stays on exactly when the lookup rejects |
| App.AppState.SelectTrail | App.tsx:168-172 | the trail becomes active, and the route and selection are cleared, so the map fits the trail when it has steps |

## Left out

- The Haversine distance (App.tsx:12-23) uses floating-point trigonometry. It is the parameter `distance`, and no property of its value is stated.
- The network, the Gemini SDK, `fetch` and `JSON.parse` are parameters: the gateway's answers, the HTTP reply and a `parse` function that yields nothing where the source would throw.
- The proxy request body (the message, the simplified history and the existing location names) is not modelled. The chat panel calls the gateway without a history or existing locations.
- `createTravelChat` (the system instruction and tool declarations) is not modelled. The chat panel only records whether a session exists.
- The `localStorage` writes of the persistence effects are not modelled; `App.RestoreRoundTrip` states what they guarantee for reading back.
- `Date.now()` and `Math.random()` are parameters (`now`, `stamp` and `image`). The `new Date()` timestamp of each chat message (components/ChatInterface.tsx:69-117) is not modelled: a message has no timestamp field. The model gives every message of one send the same `now`, and every place id of one batch the same `stamp`; the source reads the clock again for each message and for each place (services/geminiService.ts:221). Distinct place ids within a batch come from the index alone.
- Text.Lower: folds ASCII letters only; JavaScript's `toLowerCase` also folds other scripts.
- Rendering, Leaflet, the map's fly animation, popups, icons' artwork, scrolling and the minimised state of the chat panel are not modelled.
- Concurrency between awaited calls (a second send, or a state change while a request is in flight) is not modelled. Each handler runs to completion with its awaited results given up front.
- `suggestPrompt` (components/ChatInterface.tsx:140-142) is `handleSend` with a chosen prompt and has no member of its own.
- Selecting a location always clears the route and trail focus, even for a stop of the active route or trail (App.tsx:96-101).
- A rejected home-base lookup leaves `isResolvingBase` on, because the handler has no `catch`. The model keeps this behaviour.
- The proxy and cloud functions (`functions/index.js`, `api/gemini.js`), the photo services and scripts, the static data in `constants.ts` and the build configuration are not part of this model.
