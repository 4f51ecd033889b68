# Katler dashboard: a Dafny model

Katler is a team chat organised around projects. Each message carries a tag
(`none`, `decision`, `idea` or `problem`). This project models the
client-side state machine of the `Dashboard` React component in
`src/components/dashboard.tsx`. It covers the component's eight state fields
(`projects`, `activeProject`, `messages`, `newMessage`, `activeTag`, `filter`,
`showNewProject`, `projectName`) and the handlers that change them:

- the realtime INSERT callback;
- `fetchProjects` and `fetchMessages`;
- `createProject` and `sendMessage`;
- the tag-toggle buttons and the filter buttons;
- the small setters wired to buttons and inputs.

Each store call becomes an input of the method that models its handler:

- the message table the query runs over (`FetchMessages`, with `None` standing for a `null` result), or a query's `data` (`FetchProjects`, with `None` standing for `null`);
- the row that `.single()` returns after the project insert;
- the `new` row of a realtime payload.

The inserts that the handlers send are returned as values
(`ProjectInsert`, `MessageInsert`).

Files:

- `rows.dfy` (module `Rows`): `Option` and the rows of the `projects` and `messages` tables.
- `text.dfy` (module `Text`): JavaScript's `String.prototype.trim` over ECMAScript's WhiteSpace and LineTerminator code points, plus the blank test that `sendMessage` uses.
- `tags.dfy` (module `Tags`): the tag names, the toggle rule and the filter choices.
- `stream.dfy` (module `MessageStream`): the message query (`.eq("project_id")`, then `.eq("tag")` when a filter is set), the realtime append rule, and the lemmas that relate them.
- `dashboard.dfy` (module `DashboardComponent`): class `Dashboard`, one method per handler. Each method's postcondition gives the whole new state as the old `Snapshot()` with named fields replaced, so every field it does not name is unchanged. `Valid()` keeps `activeTag` within the four tag names and `filter` within the four filter choices.

## Model

| member | source | states |
|---|---|---|
| Text.TrimStart | src/components/dashboard.tsx:71 | the result is the suffix of the input left after its leading whitespace; everything cut is whitespace and the result does not start with whitespace |
| Text.TrimEnd | src/components/dashboard.tsx:71 | the result is the prefix of the input left after its trailing whitespace; everything cut is whitespace and the result does not end with whitespace |
| Text.Trim | src/components/dashboard.tsx:71 | `trim()` returns a contiguous slice of its input with only whitespace removed at either end; a non-empty result neither starts nor ends with whitespace; the result is empty exactly when every character is whitespace |
| Tags.ToggleTag | src/components/dashboard.tsx:221-235 | pressing tag t gives "none" exactly when t was already selected and t otherwise; the result is always one of none/decision/idea/problem |
| Tags.ToggleTwice | src/components/dashboard.tsx:221-235 | pressing the same tag twice restores the previous selection exactly when it was "none" or that tag; otherwise the two presses end at "none" |
| MessageStream.Query | src/components/dashboard.tsx:52-53 | every row the message query returns has the active project's id and, when a non-empty filter is set, the filter's tag; it is no longer than the table |
| MessageStream.MatchIndices | src/components/dashboard.tsx:52-53 | the positions of the rows the query keeps, strictly increasing, each a matching row, and every matching position included |
| MessageStream.QueryAppend | src/components/dashboard.tsx:52-53 | a row added at the end of the table appears at the end of the query's result if it matches, and nothing else changes |
| MessageStream.QuerySelectsMatchesInOrder | src/components/dashboard.tsx:52-53 | the query's result is the table's rows at the matching positions, in their order: an order-preserving subsequence |
| MessageStream.QueryKeepsEveryMatch | src/components/dashboard.tsx:52-53 | a matching row occurs in the result as often as in the table; a non-matching row does not occur |
| MessageStream.FilterNarrowsProjectList | src/components/dashboard.tsx:52-53 | the filtered query equals the tag filter applied to the project's unfiltered list (with no filter, the query is idempotent) |
| MessageStream.Receive | src/components/dashboard.tsx:29-32 | the realtime update keeps all earlier messages in place and appends exactly the payload row, at the tail, iff a project is active and the row's project_id is its id |
| MessageStream.RealtimeAgreesWithRefetch | src/components/dashboard.tsx:29-32 | when every insert is delivered, in `created_at` order: after one insert, the realtime list equals a fresh fetch of the grown table exactly when the row belongs to another project or the query keeps it |
| MessageStream.RealtimeIgnoresFilter | src/components/dashboard.tsx:30-31 | a row of the active project whose tag differs from the set filter is still appended, so the list then differs from what the filtered query would return |
| MessageStream.UnfilteredRealtimeTracksTable | src/components/dashboard.tsx:29-32 | with no filter, when the fetch completes before the inserts and every insert is delivered, in `created_at` order, any run of realtime inserts keeps the fetched list equal to a fresh fetch of the grown table: no duplicates, no losses, no reordering |
| MessageStream.OutOfOrderDeliveryDiverges | src/components/dashboard.tsx:31 | two distinct rows of the active project delivered in the opposite of their table order stay in arrival order, which differs from what a fresh fetch returns |
| DashboardComponent.Dashboard.constructor | src/components/dashboard.tsx:15-22 | the initial state: no projects, no active project, no messages, empty inputs, tag "none", no filter, form closed |
| DashboardComponent.Dashboard.OnMessageInserted | src/components/dashboard.tsx:29-32 | only `messages` changes, and it becomes the realtime update of the old list; the filter is not consulted |
| DashboardComponent.Dashboard.FetchProjects | src/components/dashboard.tsx:46-49 | a non-null result replaces `projects` and nothing else changes; a null result changes nothing |
| DashboardComponent.Dashboard.FetchMessages | src/components/dashboard.tsx:51-56 | a non-null result replaces `messages` wholesale with the query's rows for the active project and filter; a null result changes no field |
| DashboardComponent.Dashboard.CreateProject | src/components/dashboard.tsx:58-67 | an empty name sends nothing and changes nothing; otherwise the insert carries the name and user id, and a returned row is put at index 0 before the unchanged old list and made active, with the name cleared and the form closed; a null row changes nothing |
| DashboardComponent.Dashboard.SendMessage | src/components/dashboard.tsx:69-80 | an insert is sent iff the trimmed input is non-empty and a project is active; it carries the untrimmed input, project id, user id and selected tag; then only `newMessage` becomes "" and `activeTag` "none", and `messages` is untouched; every sent tag is one of none/decision/idea/problem |
| DashboardComponent.Dashboard.PressTag | src/components/dashboard.tsx:219-239 | only `activeTag` changes, to the toggle of its old value by the pressed tag |
| DashboardComponent.Dashboard.SetFilter | src/components/dashboard.tsx:153-176 | only `filter` changes; it takes one of null/decision/idea/problem; `messages` stays until the next fetch |
| DashboardComponent.Dashboard.SelectProject | src/components/dashboard.tsx:114 | only `activeProject` changes, to the clicked project |
| DashboardComponent.Dashboard.OpenNewProject | src/components/dashboard.tsx:90 | only `showNewProject` changes, to true |
| DashboardComponent.Dashboard.CancelNewProject | src/components/dashboard.tsx:106 | only `showNewProject` changes, to false; the typed name is kept |
| DashboardComponent.Dashboard.EditProjectName | src/components/dashboard.tsx:101 | only `projectName` changes, to the input's text |
| DashboardComponent.Dashboard.EditMessage | src/components/dashboard.tsx:244 | only `newMessage` changes, to the input's text |
| DashboardComponent.LaunchSession | src/components/dashboard.tsx:58-80 | creating "Launch", sending "Ship it" tagged decision and receiving its realtime echo leaves "Launch" active and first, and the last message is "Ship it" with tag decision from this user |

## Left out

- Store I/O: `select`, `insert`, `order`, `single` and `auth.signOut` (src/components/dashboard.tsx:47, 52, 60, 72, 82) go to a library outside this model. Their results are parameters, and the `logout` handler is not modelled.
- Ordering by `created_at`: `FetchMessages` takes the message table already in creation order, and `FetchProjects` takes the project list as the store returns it. The store's sorting is not modelled.
- The realtime channel's lifecycle: `channel`, `subscribe` and `removeChannel`, and when `useEffect` runs (src/components/dashboard.tsx:25-44). Because of this, `OnMessageInserted` reads the current `activeProject`. In the source, a callback subscribed under an earlier project can still fire briefly before the effect re-subscribes.
- DashboardComponent.Dashboard.FetchMessages: requires an active project. The source calls `fetchMessages` only from the effect guarded by `if (activeProject)` (src/components/dashboard.tsx:39).
- Interleaving at `await`: each handler runs as one atomic step. In the source, other updates can land while an insert or fetch is pending. One example: `createProject` prepends to the `projects` captured at render time, and a fetch result that arrives meanwhile would be overwritten. Another: `sendMessage` clears text typed during the insert. A realtime row that arrives while `fetchMessages` is pending is appended to the old list and then overwritten by the fetched `data`: it is lost if the query ran before the insert, and it appears twice if the fetched data already held it and its event arrives after the fetched list is set. `UnfilteredRealtimeTracksTable` holds only when the fetch completes before the inserts.
- Realtime delivery: the model assumes the callback receives every insert, in `created_at` order, so `table + rows` is the grown table as the ordered fetch returns it. In the source, an insert made while the channel is joining is never delivered. A row delivered out of `created_at` order keeps its arrival place (src/components/dashboard.tsx:31), but a refetch would sort it (`OutOfOrderDeliveryDiverges`).
- Stale results: the code has no scope token, so `FetchMessages` applies whatever result arrives, even one issued under an earlier project or filter.
- Rendering, tag badge colours, scroll-to-bottom and `toLocaleTimeString` (src/components/dashboard.tsx:42-44, 84-258): presentation that depends on the clock and the locale.
- src/components/auth-form.tsx and src/app/page.tsx: sign-in, sign-up and session handling over the auth client. They are not part of this model.
