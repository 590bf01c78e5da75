# Sidebar of agent-ui, modelled in Dafny

This project models the chat sidebar of agent-ui, a web front end for agent
backends. The sidebar is one React component file with three parts:

- **Endpoint panel** (`Endpoint`, module `Endpoint`). The user edits the
  backend address in a draft field. Saving checks the draft. On success it
  commits a cleaned copy to the shared store and empties everything that
  depended on the old backend: agents, sessions, messages, and the `agent` and
  `session` query ids. Escape cancels. An effect copies the committed address
  back into the draft whenever the address changes.
  - `Editor` holds the panel's whole state as a value.
  - One step function per handler says what that handler does to it.
  - `EndpointEditor` is the same state as an object. Each handler method
    updates the fields and states its new state as the step function applied
    to the old state.
  - The cleaning, `replace(/\/$/, '')` followed by `trim()`, is in module
    `Text`. It is stated with ECMAScript's white-space set.
- **Agent status panel** (`AgentStatusRadar`, module `StatusRadar`). It keeps a
  map from four fixed backend keys to their last health status. Each poll
  merges one status per backend into that map, and a dot is drawn per backend.
- **Sidebar gating** (`Sidebar`, module `SidebarGating`). This part decides
  which panels are mounted, when New Chat is enabled, what the mode panel
  holds, and what the collapse toggle changes.

Two behaviours of the code are easy to misread:

- Clicking the endpoint label only turns edit mode on (Sidebar.tsx line 261).
  It does not reseed the draft. Only the sync effect and cancel copy the
  committed address into the draft (`SaveThenSync`, `Cancel`).
- A committed endpoint can still end in `/`. The one slash is removed before
  the white space, so `"http://x/ "` commits as `"http://x/"`
  (`SlashBeforeBlankSurvives`). Only one slash goes per commit, so
  `"http://x//"` commits as `"http://x/"` (`CleanEndpointNotIdempotent`). What
  does hold is that a committed value never has white space at either end
  (`CleanEndpointIsTrimmed`, `RunKeepsEndpointTrimmed`).

`isValidUrl` and `truncateText` are not part of this model. They are
parameters: `validUrl: string -> bool` and `truncate: (string, nat) -> string`.
A `getStatusAPI` call is given as its outcome, either the number it returned
or `Threw`.

## Model

| member | source | states |
|---|---|---|
| Text.IsJsSpace | src/components/chat/Sidebar/Sidebar.tsx:202 | the characters `trim()` removes: ECMAScript's WhiteSpace and LineTerminator code points |
| Text.Trim | src/components/chat/Sidebar/Sidebar.tsx:202 | `trim()` never lengthens a string |
| Text.TrimIsTrimmed | src/components/chat/Sidebar/Sidebar.tsx:202 | after `trim()` neither end is a white-space character |
| Text.TrimCutsOnlySpace | src/components/chat/Sidebar/Sidebar.tsx:202 | `trim()` returns a contiguous middle part of its input; everything cut off on either side is white space |
| Text.TrimUnique | src/components/chat/Sidebar/Sidebar.tsx:202 | any split of a string into white space, a part with no white space at its ends, and white space gives exactly what `trim()` returns |
| Text.TrimIdempotent | src/components/chat/Sidebar/Sidebar.tsx:202 | trimming twice is the same as trimming once |
| Text.StripFinalSlash | src/components/chat/Sidebar/Sidebar.tsx:202 | `replace(/\/$/, '')` removes one character exactly when the input ends in '/', and that character is the final '/' |
| Text.CleanEndpoint | src/components/chat/Sidebar/Sidebar.tsx:202 | the committed value is the draft with one final '/' removed, then trimmed |
| Text.CleanEndpointIsTrimmed | src/components/chat/Sidebar/Sidebar.tsx:202 | the cleaned draft has no white space at either end and is never longer than the raw draft |
| Text.CleanEndpointFixedPoint | src/components/chat/Sidebar/Sidebar.tsx:202 | cleaning leaves a value unchanged if and only if it has no white space at its ends and does not end in '/' |
| Text.SlashBeforeBlankSurvives | src/components/chat/Sidebar/Sidebar.tsx:202 | `"http://x/ "` commits as `"http://x/"`: a '/' before trailing blanks is kept |
| Text.CleanEndpointNotIdempotent | src/components/chat/Sidebar/Sidebar.tsx:202 | one commit strips one slash of `"http://x//"`; cleaning again strips the next one |
| Text.CleanEndpointDropsFinalSlash | src/components/chat/Sidebar/Sidebar.tsx:202 | `"http://localhost:9999/"` commits as `"http://localhost:9999"` |
| Endpoint.Initial | src/components/chat/Sidebar/Sidebar.tsx:172-187 | at first render the panel is not editing, not mounted and not hovered, the draft is empty, the sync effect has not run, and the store values are as given |
| Endpoint.BeginEdit | src/components/chat/Sidebar/Sidebar.tsx:261 | clicking the label turns edit mode on and changes nothing else, the draft included |
| Endpoint.SetDraft | src/components/chat/Sidebar/Sidebar.tsx:241 | typing replaces the draft and changes nothing else |
| Endpoint.SetHovering | src/components/chat/Sidebar/Sidebar.tsx:259-260 | mouse enter or leave sets the hover flag and changes nothing else |
| Endpoint.Save | src/components/chat/Sidebar/Sidebar.tsx:197-211 | an invalid draft changes nothing; a valid one commits the cleaned draft, empties agents, sessions, messages and both ids, leaves edit mode, clears hover, and keeps the draft, the mount flag and the active flag |
| Endpoint.SaveToast | src/components/chat/Sidebar/Sidebar.tsx:198-200 | the invalid-URL toast is raised exactly when the draft fails validation |
| Endpoint.Cancel | src/components/chat/Sidebar/Sidebar.tsx:213-217 | cancel puts the committed endpoint back into the draft, leaves edit mode, clears hover, and touches neither the store nor the query ids |
| Endpoint.KeyDown | src/components/chat/Sidebar/Sidebar.tsx:219-225 | Enter is a save, Escape is a cancel, and every other key changes nothing |
| Endpoint.KeyDownToast | src/components/chat/Sidebar/Sidebar.tsx:219-225 | a key press raises the invalid-URL toast exactly when it is Enter and the draft is invalid |
| Endpoint.SyncDraft | src/components/chat/Sidebar/Sidebar.tsx:189-192 | when the committed endpoint differs from the one the effect last ran for, the effect copies it into the draft and marks the panel mounted; otherwise nothing changes; the store, edit mode and hover are never touched |
| Endpoint.SaveIdempotent | src/components/chat/Sidebar/Sidebar.tsx:197-211 | saving twice in a row is the same as saving once |
| Endpoint.SaveThenSync | src/components/chat/Sidebar/Sidebar.tsx:189-211 | after a valid save and the next effect pass, the draft shows the cleaned value only if the committed endpoint changed; otherwise the raw draft stays |
| Endpoint.StatusColorOf | src/components/chat/Sidebar/Sidebar.tsx:194-195 | the dot is positive if and only if the endpoint is active |
| Endpoint.EndpointLabel | src/components/chat/Sidebar/Sidebar.tsx:287-291 | the label is never empty: it is the default address before mount, else the truncated endpoint, or the placeholder when that truncates to nothing |
| Endpoint.View | src/components/chat/Sidebar/Sidebar.tsx:236-297 | the input shows exactly while editing and holds the draft; the edit prompt shows exactly when not editing and hovered; otherwise the label and the status dot show |
| Endpoint.SaveShowsCommittedLabel | src/components/chat/Sidebar/Sidebar.tsx:197-211 | after a valid save the panel shows the label of the cleaned draft, not the input and not the hover prompt |
| Endpoint.InvalidSaveKeepsInput | src/components/chat/Sidebar/Sidebar.tsx:198-200 | after an invalid save, the input stays open with the draft as typed |
| Endpoint.CancelShowsCommittedLabel | src/components/chat/Sidebar/Sidebar.tsx:213-217 | after Escape the panel shows the label of the endpoint already committed |
| Endpoint.Apply | src/components/chat/Sidebar/Sidebar.tsx:189-261 | any event other than a save attempt keeps the store and ids; a save attempt either keeps them or commits the cleaned draft with every dependent emptied |
| Endpoint.Run | src/components/chat/Sidebar/Sidebar.tsx:189-261 | a run of panel events applies each event's handler in order |
| Endpoint.RunWithoutSaveKeepsStore | src/components/chat/Sidebar/Sidebar.tsx:213-225 | any sequence of events without a save attempt leaves the store and the query ids as they were |
| Endpoint.RunResetsOrKeepsDependents | src/components/chat/Sidebar/Sidebar.tsx:203-210 | after any sequence of events, the dependent state and the endpoint are either exactly as they were or all dependents have been emptied |
| Endpoint.EndpointChangeResetsDependents | src/components/chat/Sidebar/Sidebar.tsx:203-210 | over any run of the panel's events, if the committed endpoint has changed then agents, sessions, messages and both ids are empty |
| Endpoint.RunKeepsEndpointTrimmed | src/components/chat/Sidebar/Sidebar.tsx:202-203 | a committed endpoint without white space at its ends keeps that shape through any sequence of events |
| Endpoint.EditThenEscape | src/components/chat/Sidebar/Sidebar.tsx:213-225 | clicking the label, then typing anything, then pressing Escape leaves the store as it was, with the committed endpoint in the draft and edit mode off |
| Endpoint.EndpointEditor.constructor | src/components/chat/Sidebar/Sidebar.tsx:172-187 | the object starts in the `Initial` state |
| Endpoint.EndpointEditor.ClickLabel | src/components/chat/Sidebar/Sidebar.tsx:261 | the new state is `BeginEdit` of the old one |
| Endpoint.EndpointEditor.OnChange | src/components/chat/Sidebar/Sidebar.tsx:241 | the new state is `SetDraft` of the old one |
| Endpoint.EndpointEditor.OnHover | src/components/chat/Sidebar/Sidebar.tsx:259-260 | the new state is `SetHovering` of the old one |
| Endpoint.EndpointEditor.HandleSave | src/components/chat/Sidebar/Sidebar.tsx:197-211 | the new state is `Save` of the old one, and the toast is `SaveToast` |
| Endpoint.EndpointEditor.Commit | src/components/chat/Sidebar/Sidebar.tsx:203-210 | the eight setters of a valid save write the new endpoint, clear both ids, edit mode and hover, and empty the three collections; nothing else changes |
| Endpoint.EndpointEditor.HandleCancel | src/components/chat/Sidebar/Sidebar.tsx:213-217 | the new state is `Cancel` of the old one |
| Endpoint.EndpointEditor.HandleKeyDown | src/components/chat/Sidebar/Sidebar.tsx:219-225 | the new state is `KeyDown` of the old one, and the toast is `KeyDownToast` |
| Endpoint.EndpointEditor.SyncDraftEffect | src/components/chat/Sidebar/Sidebar.tsx:189-192 | the new state is `SyncDraft` of the old one |
| StatusRadar.InitialStatusMap | src/components/chat/Sidebar/Sidebar.tsx:103-108 | before any poll, no entry has a status |
| StatusRadar.TargetsMatchInitialMap | src/components/chat/Sidebar/Sidebar.tsx:103-115 | the four targets have distinct keys, and these are exactly the keys of the initial map |
| StatusRadar.StatusOrZero | src/components/chat/Sidebar/Sidebar.tsx:120-125 | a call that returned gives its status; a call that threw gives 0 |
| StatusRadar.Results | src/components/chat/Sidebar/Sidebar.tsx:118-127 | the poll gives one `[key, status]` pair per target, in target order |
| StatusRadar.FromEntries | src/components/chat/Sidebar/Sidebar.tsx:130 | `Object.fromEntries` has exactly the pairs' keys |
| StatusRadar.FromEntriesLookup | src/components/chat/Sidebar/Sidebar.tsx:130 | a pair whose key does not occur again later gives that key its value |
| StatusRadar.Poll | src/components/chat/Sidebar/Sidebar.tsx:128-131 | the previous map overlaid with `fromEntries` of the results |
| StatusRadar.PollKeys | src/components/chat/Sidebar/Sidebar.tsx:128-131 | the merge keeps every key of the previous map and adds the targets' keys |
| StatusRadar.PollLookup | src/components/chat/Sidebar/Sidebar.tsx:117-131 | after a poll, each target's entry is its call's status, or 0 when the call threw |
| StatusRadar.PollOthers | src/components/chat/Sidebar/Sidebar.tsx:128-131 | entries whose keys are not targets' are unchanged by a poll |
| StatusRadar.LastPollWins | src/components/chat/Sidebar/Sidebar.tsx:128-131 | a later poll overwrites everything an earlier poll wrote |
| StatusRadar.Polls | src/components/chat/Sidebar/Sidebar.tsx:134-138 | a run of polls applies each poll's merge in the order the polls finish |
| StatusRadar.PollsKeepKeys | src/components/chat/Sidebar/Sidebar.tsx:103-131 | however many polls finish, the map keeps exactly the four initial keys |
| StatusRadar.PollsIsLastPoll | src/components/chat/Sidebar/Sidebar.tsx:134-138 | after one or more polls, in the order they finish, the map is what the last poll alone makes of the starting map |
| StatusRadar.DotClass | src/components/chat/Sidebar/Sidebar.tsx:140-148 | pending if and only if there is no status yet; healthy if and only if the status is from 200 to 299; unhealthy otherwise |
| StatusRadar.DotFor | src/components/chat/Sidebar/Sidebar.tsx:159 | a key missing from the map reads as `undefined` and is drawn unhealthy; otherwise the dot is drawn from the key's status |
| StatusRadar.Dots | src/components/chat/Sidebar/Sidebar.tsx:157-164 | one caption and dot per target, in target order |
| StatusRadar.InitialDotsPending | src/components/chat/Sidebar/Sidebar.tsx:103-108 | before the first poll answers, all four dots are pending |
| StatusRadar.DotsAfterPoll | src/components/chat/Sidebar/Sidebar.tsx:117-148 | after any poll no dot is pending, and a dot is healthy if and only if its call returned a 2xx status |
| StatusRadar.OneBackendDown | src/components/chat/Sidebar/Sidebar.tsx:117-148 | with statuses 200 and 503, one thrown call, and 204, the dots are healthy, unhealthy, unhealthy, healthy |
| SidebarGating.ModeBody | src/components/chat/Sidebar/Sidebar.tsx:404-421 | while loading, exactly three skeleton rows show; otherwise the selectors show, and the model name shows if and only if a model is selected and an agent or a team is chosen |
| SidebarGating.Render | src/components/chat/Sidebar/Sidebar.tsx:353-431 | New Chat is disabled if and only if there are no messages; the panels are mounted if and only if the sidebar is mounted; the mode panel and Sessions show if and only if the sidebar is mounted and the endpoint is active; the aside is collapsed, and the toggle is labelled, by the collapse flag |
| SidebarGating.ModelShownIff | src/components/chat/Sidebar/Sidebar.tsx:387-419 | the model name is on screen if and only if the sidebar is mounted, the endpoint is active and not loading, the model is non-empty, and the agent or team id is non-empty |
| SidebarGating.ToggleCollapse | src/components/chat/Sidebar/Sidebar.tsx:361 | the toggle flips the collapse flag and nothing else |
| SidebarGating.ToggleTwice | src/components/chat/Sidebar/Sidebar.tsx:361 | two clicks on the toggle restore both the state and the rendering |
| SidebarGating.CollapseKeepsContent | src/components/chat/Sidebar/Sidebar.tsx:357-380 | collapsing changes only the aside's collapsed look and the toggle label; every panel stays mounted |
| SidebarGating.FirstRenderIsBare | src/components/chat/Sidebar/Sidebar.tsx:387 | before the mount effect, no panel, mode section or session list is shown |

## Left out

- The 15-second poll timer and its cleanup (Sidebar.tsx lines 134-138) are time. They are not modelled; a run of polls is a sequence of rounds in the order they finish (`Polls`).
- The concurrency of the four status calls under `Promise.all` is not modelled. The result order is the target order, whatever order the calls settle in.
- `getStatusAPI`, and the auth token it is given, are not part of this model. A call is given as its outcome. The status is an integer: a non-integer or `NaN` status is not modelled.
- `handleRefresh` (lines 227-231) is not modelled. It runs `initialize` from the `useChatActions` hook, which is not part of this model, and the spin animation is timing only.
- The sidebar's mount-and-initialize effect (lines 342-346) is not modelled, because `initialize` is not part of this model. The sidebar's `isMounted` flag is an input of `Render`.
- `handleNewChat` (lines 348-351) is not modelled: it only calls `clearChat` and `focusChatInput`, which are not part of this model.
- `PortsPanel` (lines 57-99) is not modelled: it is fixed text and a clipboard write, which is I/O.
- Toast texts are not modelled; the model says which toast a handler raises.
- `isValidUrl` and `truncateText` are parameters, because their bodies are not part of this model. The provider icon (`getProviderIcon`) is not modelled.
- The child components `AuthToken`, `ModeSelector`, `EntitySelector` and `Sessions` are not part of this model. The model records only whether each one is mounted.
- Animations and CSS classes are not modelled. Collapse is a flag, the dots and status colours are enumerations.
- Strings are sequences of Unicode scalar values. A lone UTF-16 surrogate, which `trim()` would keep, cannot be written.
- `handleSave` is declared `async` but never awaits, so each handler is one atomic step. The order in which React batches the setters cannot be observed, and is not modelled.
- Event runs (`Run`) apply events whatever the panel currently shows. Typing while no input is shown is therefore allowed, so the run lemmas cover a superset of real interactions.
- src/lib/brand.ts, src/app/layout.tsx and the chat area are not part of this model. They only supply the product name and the page around the sidebar.
