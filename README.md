# fizzy-go core in Dafny

This project models the deterministic core of the Go client library for the Fizzy
project-management API. The library's transport is left out.

- **Client configuration.** `Client` holds the base URL, the account-scoped base
  (`BaseURL + accountSlug`), an optional board-scoped base (`AccountBaseURL + "/boards/" + id`),
  the access token, the HTTP client handle and the selected board. `NewClient` checks its two
  required inputs, runs the options in order and then derives the two base URLs. `SetBoard`
  changes the selected board later.
- **Request planning.** Each resource method (boards, columns, cards, steps, comments,
  reactions, notifications, users, identity, tags) is a function from the client's fields and the
  method's arguments. It returns either the distinguished `ErrNoBoardSelected` error (board-scoped
  methods only) or a planned call: HTTP method, URL, query, headers, JSON body, and how the
  response is judged.
- **Response decision.** `decodeResponse` needs an exact status match (200 unless the method
  passes one). A mismatch becomes an API error carrying the status and the body text. A match
  decodes the body only when the method supplies a destination. The three create methods for
  comments, reactions and steps skip `decodeResponse` and check for 201 themselves.
  `CreateCardStep` and `CreateCommentReaction` build their result from their own arguments;
  `CreateCardComment` returns the zero `Comment`.
- **Serialisers.** These are the `url.Values` query that `GetCards` builds from `CardFilters`, and
  the `omitempty`/pointer presence rules that decide which payload keys reach the wire.

Modules, in dependency order:

- `Wrappers`: `Option` and `Result`.
- `Json`: a JSON value with objects as ordered key/value lists, plus field lookup.
- `Paths`: the `base/seg/seg` path convention and `%d` formatting of card numbers.
- `Fizzy`: client.go.
- `Types`: types.go.
- One module per resource file: `Boards`, `Columns`, `Cards`, `Steps`, `Comments`, `Reactions`,
  `Notifications`, `Users`, `Identity`, `Tags`.
- `Api`: every method as one `Operation` value. It also holds `Plan`/`Run` dispatch, an independent
  routing table (`RouteOf`), and the lemmas that hold across all 50 operations.

The response is an abstract input, `Exchange<T>`: either a transport failure, or a status, the body
text, whether that body could be read, and the value the body decodes to (if any). A method's
outcome is `Perform(plan, exchange)`, except for the three create methods above, whose outcome is
their own result function (`CreateCardStepResult` and so on). Each has a lemma tying it to `Perform`
of its plan: both succeed together and fail with the same error.

Behaviour worth noting:

- `CreateCardComment` returns the zero `Comment` on 201 and ignores the body text it sent
  (comments.go:69).
- `UpdateBoard`, `UpdateColumn` and `UpdateUser` expect 204 and decode nothing (boards.go:67,
  columns.go:83, users.go:57). `UpdateCard`, `UpdateCardStep` and `UpdateCardComment` expect 200
  and decode the returned record.
- A status mismatch in `decodeResponse` whose body cannot be read gives a separate read error
  (`ReadFailed`), not an API error (client.go:121-124). In the three create methods that check 201
  themselves, a body that fails to read is ignored: the API error then carries the text that was read.

## Model

| member | source | states |
|---|---|---|
| Fizzy.Client.constructor | client.go:59-63 | The new client holds the default base URL, the given token and the default transport, with no derived URLs and no board. |
| Fizzy.Client.Apply | client.go:28-47 | Running one library option writes only the field that option sets (board id, HTTP client or base URL). |
| Fizzy.Client.SetBoard | client.go:77-84 | The board id becomes `id`. The board base becomes the account base + "/boards/" + id, or empty for an empty id. Nothing else changes, and the scope invariant is preserved. |
| Fizzy.NewClient | client.go:49-75 | Fails exactly as `Configure` says. Otherwise it returns a fresh client that satisfies the scope invariant and whose fields are `Configure`'s result. The loop invariant ties the client to the options applied so far. |
| Fizzy.ConfigureValidates | client.go:52-57 | Construction fails exactly when the slug or the token is empty. An empty slug is reported first, then an empty token. |
| Fizzy.ConfigureDefaults | client.go:59-72 | With no options, the client has the default base URL, account base = default + slug, no board base and the default transport. |
| Fizzy.ConfigureDerives | client.go:65-72 | After construction, account base = final base URL + slug, and the board base = that + "/boards/" + the final board id when one is set. With only library options, the token is kept, and base URL, board and transport are what the options left. |
| Fizzy.ApplyAllAppend | client.go:65-67 | Running options `a` then `b` is running `a + b`. |
| Fizzy.ApplyAllKeeps | client.go:28-47 | No library option writes the token, the account base or the board base. |
| Fizzy.ApplyAllUntouched | client.go:28-47 | A field that no option writes keeps its value. |
| Fizzy.LastOptionWins | client.go:65-67 | The last option that writes a field decides that field's value. |
| Fizzy.OptionsCommute | client.go:65-72 | Two adjacent options that write different fields (e.g. WithBoard and WithBaseURL) can be swapped without changing the result. |
| Fizzy.SelectKeepsScope | client.go:77-84 | Selecting a board keeps the scope invariant and changes only the board id and board base. |
| Fizzy.SelectThenClear | client.go:77-84 | After selecting any board, selecting "" leaves an empty board base, the same state as clearing directly. |
| Fizzy.NewRequest | client.go:86-106 | —, specified by Api.EveryRequestAuthenticated (the three headers) and Api.OnlyGetCardsQueries (no query of its own). |
| Fizzy.Perform | boards.go:17-22 | Success exactly when a response arrived with the call's expected code and, for a decoding call, decoded; the value is then the decoded one for a decoding call and none otherwise. A transport failure is a transport error. |
| Fizzy.DecodeResponse | client.go:108-135 | Success exactly when a response arrived with the expected code (the first status argument, else 200) and, if a destination is given, it decoded. On success, that code and the decoded value (none without a destination). A transport failure is a transport error. A mismatch is `Api(status, body)`, or a read error when the body cannot be read. A failed decode is a decode error. |
| Fizzy.CheckCreated | comments.go:64-67 | Success exactly on 201. Any other status is `Api(status, body)`, and a transport failure is a transport error. |
| Fizzy.WrongStatusIsApiError | client.go:120-126 | For any planned call, a status other than its expected one (2xx or not) gives `Api(status, body)`. |
| Fizzy.ExpectedStatusSucceeds | client.go:128-134 | On the expected status, a decoding call returns exactly the decoded value, and a non-decoding call returns nothing. |
| Types.AllColors | types.go:181-205 | The nine colours in declaration order: `var(--color-card-default)` (Blue) first, then `var(--color-card-i)` for i = 1 to 8 (Gray, Tan, Yellow, Lime, Aqua, Violet, Purple, Pink), pairwise distinct. |
| Types.CreateBoardJson | types.go:12-17 | —, specified by Types.CreateBoardWire and Types.CreateBoardRoundTrip. |
| Types.UpdateBoardJson | types.go:19-24 | —, specified by Types.UpdateBoardWire and Types.UpdateBoardRoundTrip. |
| Types.CreateColumnJson | types.go:38-41 | —, specified by Types.CreateColumnWire and Types.CreateColumnRoundTrip. |
| Types.UpdateColumnJson | types.go:43-46 | —, specified by Types.UpdateColumnWire and Types.UpdateColumnRoundTrip. |
| Types.CreateCardJson | types.go:84-92 | —, specified by Types.CreateCardWire and Types.CreateCardRoundTrip. |
| Types.UpdateCardJson | types.go:94-100 | —, specified by Types.UpdateCardWire and Types.UpdateCardRoundTrip. |
| Types.CreateBoardWire | types.go:12-17 | All four board keys are always written, each with its value, and no other key. |
| Types.UpdateBoardWire | types.go:19-24 | Empty `name`/`public_description` are left out. `all_access`/`auto_postpone_period` are left out only when nil, so a pointer to false or 0 is written. No other key appears. |
| Types.CreateColumnWire | types.go:38-41 | `name` is always written. `color` is written only when set. |
| Types.UpdateColumnWire | types.go:43-46 | Both column keys are left out when unset. |
| Types.CreateCardWire | types.go:84-92 | `title` is always written. The six other keys are written only when not empty, each with its value. |
| Types.UpdateCardWire | types.go:94-100 | Every card update key is left out when empty, and written with its value otherwise. |
| Types.ZeroUpdateCardIsEmpty | types.go:94-100 | The zero card update serialises to `{}`. |
| Types.CreateBoardRoundTrip | types.go:12-17 | Reading the board payload back from its wire form gives the payload sent. |
| Types.UpdateBoardRoundTrip | types.go:19-24 | Leaving out unset board fields loses nothing: the payload read back is the payload sent. |
| Types.CreateColumnRoundTrip | types.go:38-41 | The column payload read back is the payload sent. |
| Types.UpdateColumnRoundTrip | types.go:43-46 | The column update read back is the update sent. |
| Types.CreateCardRoundTrip | types.go:84-92 | The card payload read back, tag ids in order, is the payload sent. |
| Types.UpdateCardRoundTrip | types.go:94-100 | The card update read back is the update sent. |
| Paths.UnderExtends | cards.go:14 | Every path built under a base URL starts with that base. |
| Paths.UnderAppend | reactions.go:56 | Appending segments in two steps gives the same path as appending them at once. |
| Paths.DecimalRoundTrip | cards.go:72 | The `%d` form of a card number parses back to that number, negative numbers included. |
| Paths.DecimalSegment | cards.go:72 | Distinct card numbers give distinct path segments, and none contains a `/`. |
| Boards.GetBoards | boards.go:9-24 | GET account base + "/boards", expects 200, decodes the list. |
| Boards.GetBoard | boards.go:26-41 | GET account base + "/boards/" + id, expects 200, decodes. |
| Boards.CreateBoard | boards.go:43-55 | POST account base + "/boards" with `{"board": payload}`, expects 201, decodes nothing. |
| Boards.UpdateBoard | boards.go:57-73 | PUT account base + "/boards/" + id with `{"board": payload}`, expects 204. |
| Boards.DeleteBoard | boards.go:75-89 | DELETE account base + "/boards/" + id with no body, expects 204. |
| Columns.GetColumns | columns.go:9-28 | Fails with ErrNoBoardSelected exactly when no board base is set. Otherwise GET board base + "/columns", expects 200, decodes. |
| Columns.GetColumn | columns.go:30-49 | The same board guard. Then GET board base + "/columns/" + id, expects 200. |
| Columns.CreateColumn | columns.go:51-67 | The same board guard. Then POST `{"column": payload}` to board base + "/columns", expects 201, decodes nothing. |
| Columns.UpdateColumn | columns.go:69-89 | The same board guard. Then PUT `{"column": payload}` to board base + "/columns/" + id, expects 204. |
| Columns.DeleteColumn | columns.go:91-109 | The same board guard. Then DELETE board base + "/columns/" + id, expects 204. |
| Cards.AddAllContents | cards.go:23-43 | Adding a list of values under a key appends them, in order, to that key's values and leaves every other key alone. Nothing is added for an empty list. |
| Cards.PutContents | cards.go:23-58 | One filter step on a fresh key leaves exactly its contribution under that key and touches no other key. |
| Cards.FoldKeys | cards.go:23-58 | Every key of the built query comes from one of the filter steps. |
| Cards.FoldCarries | cards.go:23-58 | With pairwise-distinct keys, each step's contribution reaches the final query intact. |
| Cards.FilterStepKeys | cards.go:23-58 | The twelve filter steps use the twelve wire keys, pairwise distinct, in source order. |
| Cards.CardQuery | cards.go:21-58 | —, specified by Cards.CardQueryContents, and equal to what Cards.BuildCardQuery builds. |
| Cards.CardQueryContents | cards.go:21-58 | Each filter reaches the query under its own wire key with exactly its values, in order. An empty filter leaves no key, and no other key is ever sent. |
| Cards.SliceFiltersSent | cards.go:23-43 | `board_ids[]`, `tag_ids[]`, `assignee_ids[]`, `creator_ids[]`, `closer_ids[]`, `card_ids[]` and `terms[]` hold exactly their filter's values, in input order, and are absent when the filter is empty. |
| Cards.ScalarFiltersSent | cards.go:44-58 | `indexed_by`, `sorted_by`, `assignment_status`, `creation` (CreationStatus) and `closure` (ClosureStatus) each hold the single value when non-empty and are absent otherwise. |
| Cards.NoFiltersNoQuery | cards.go:21-63 | Empty filters give an empty query. |
| Cards.SomeFilterSomeQuery | cards.go:21-58 | Any filter that is set puts at least one key on the query. |
| Cards.AddEach | cards.go:23-43 | The per-filter loop of `q.Add` calls builds `AddAll` of the values. |
| Cards.FoldStep | cards.go:23-58 | Applying one more filter step extends the query built from the earlier steps. |
| Cards.BuildCardQuery | cards.go:21-58 | The twelve filter statements, run in source order, build exactly `CardQuery(filters)`. |
| Cards.GetCards | cards.go:13-69 | GET account base + "/cards" with `CardQuery(filters)` as its query and no body, expects 200, decodes. |
| Cards.GetCard | cards.go:71-86 | GET account base + "/cards/" + decimal(n), expects 200, decodes. |
| Cards.CreateCard | cards.go:88-104 | Fails with ErrNoBoardSelected exactly when no board base is set. Otherwise POST `{"card": payload}` to board base + "/cards", expects 201, decodes nothing. |
| Cards.UpdateCard | cards.go:106-123 | PUT `{"card": payload}` to account base + "/cards/" + decimal(n), expects 200, decodes the updated card. |
| Cards.DeleteCard | cards.go:125-135 | DELETE account base + "/cards/" + decimal(n), no body, expects 204. |
| Cards.DeleteCardImage | cards.go:137-147 | DELETE …/cards/n/image, expects 204. |
| Cards.CloseCard | cards.go:149-159 | POST …/cards/n/closure with no body, expects 204. |
| Cards.ReopenCard | cards.go:161-171 | DELETE …/cards/n/closure, expects 204. |
| Cards.PostponeCard | cards.go:174-184 | POST …/cards/n/not_now with no body, expects 204. |
| Cards.TriageCard | cards.go:187-199 | POST the flat `{"column_id": id}` to …/cards/n/triage, expects 204. |
| Cards.UnTriageCard | cards.go:202-212 | DELETE …/cards/n/triage, expects 204. |
| Cards.WatchCard | cards.go:214-224 | POST …/cards/n/watch with no body, expects 204. |
| Cards.UnwatchCard | cards.go:226-236 | DELETE …/cards/n/watch, expects 204. |
| Cards.MarkCardGolden | cards.go:239-249 | POST …/cards/n/goldness with no body, expects 204. |
| Cards.UnmarkCardGolden | cards.go:251-261 | DELETE …/cards/n/goldness, expects 204. |
| Cards.AssignCard | cards.go:264-276 | POST the flat `{"assignee_id": id}` to …/cards/n/assignments, expects 204. |
| Cards.TagCard | cards.go:279-291 | POST the flat `{"tag_title": title}` to …/cards/n/taggings, expects 204. |
| Steps.BuildStepPayload | steps.go:61-71 | The update map holds "content" exactly when content is given and "completed" exactly when completed is given, each with its value, and nothing else. Its wire form is `UpdateStepFields`. |
| Steps.UpdateStepWire | steps.go:61-71 | The update body holds exactly the given fields, with their values. |
| Steps.EmptyUpdateStillWrapped | steps.go:61-73 | With neither field given, the body is `{"step": {}}`. |
| Steps.CreateIsFullUpdate | steps.go:32-37 | The create body's step object is the one an update setting both fields would send: both keys are always present. |
| Steps.GetCardStep | steps.go:10-25 | GET …/cards/n/steps/id, expects 200, decodes. |
| Steps.CreateCardStep | steps.go:29-56 | POST `{"step": {"completed": …, "content": …}}` to …/cards/n/steps, judged by the method's own 201 check. |
| Steps.CreateCardStepOutcome | steps.go:44-55 | The step creation succeeds exactly when Perform of its plan does, and otherwise fails with the same error. |
| Steps.CreateCardStepResult | steps.go:50-55 | Success exactly on 201, giving a step with an empty id and the given content and completion. Otherwise `Api(status, body)` or a transport error. |
| Steps.UpdateCardStep | steps.go:58-85 | PUT `{"step": fields given}` to …/cards/n/steps/id, expects the default 200, decodes. |
| Steps.DeleteCardStep | steps.go:87-97 | DELETE …/cards/n/steps/id, expects 204. |
| Comments.CommentBodyJson | comments.go:49-51 | —, specified by Comments.CommentBodyRoundTrip. |
| Comments.CommentBodyRoundTrip | comments.go:49-51 | The comment text is read back unchanged from `{"comment": {"body": …}}`. |
| Comments.GetCardComments | comments.go:10-25 | GET …/cards/n/comments, expects 200, decodes. |
| Comments.GetCardComment | comments.go:27-42 | GET …/cards/n/comments/id, expects 200, decodes. |
| Comments.CreateCardComment | comments.go:46-70 | POST `{"comment": {"body": body}}` to …/cards/n/comments, judged by the method's own 201 check. |
| Comments.CreateCardCommentOutcome | comments.go:64-69 | The comment creation succeeds exactly when Perform of its plan does, and otherwise fails with the same error. |
| Comments.CreateCardCommentResult | comments.go:64-69 | Success exactly on 201, giving the all-empty comment. Otherwise `Api(status, body)` or a transport error. |
| Comments.UpdateCardComment | comments.go:72-91 | PUT the same `{"comment": {"body": …}}` shape to …/comments/id, expects 200, decodes. |
| Comments.DeleteCardComment | comments.go:93-103 | DELETE …/comments/id, expects 204. |
| Reactions.ReactionBodyJson | reactions.go:32-34 | —, specified by Reactions.ReactionBodyRoundTrip. |
| Reactions.ReactionBodyRoundTrip | reactions.go:32-34 | The reaction content is read back unchanged from `{"reaction": {"content": …}}`. |
| Reactions.GetCommentReactions | reactions.go:10-25 | GET …/cards/n/comments/cid/reactions, expects 200, decodes. |
| Reactions.CreateCommentReaction | reactions.go:29-53 | POST `{"reaction": {"content": c}}` to the same path, judged by the method's own 201 check. |
| Reactions.CreateCommentReactionOutcome | reactions.go:47-52 | The reaction creation succeeds exactly when Perform of its plan does, and otherwise fails with the same error. |
| Reactions.CreateCommentReactionResult | reactions.go:47-52 | Success exactly on 201, giving a reaction holding only the given content. Otherwise `Api(status, body)` or a transport error. |
| Reactions.DeleteCommentReaction | reactions.go:55-65 | DELETE …/reactions/rid, expects 204. |
| Notifications.GetNotifications | notifications.go:9-24 | GET account base + "/notifications", expects 200, decodes. |
| Notifications.GetNotification | notifications.go:26-41 | GET …/notifications/id, expects 200, decodes. |
| Notifications.MarkNotificationRead | notifications.go:43-53 | POST …/notifications/id/reading with no body, expects 204. |
| Notifications.MarkNotificationUnread | notifications.go:55-65 | DELETE …/notifications/id/reading, expects 204. |
| Notifications.MarkAllNotificationsRead | notifications.go:67-77 | POST …/notifications/bulk_reading with no body, expects 204. |
| Users.UpdateUserJson | users.go:43-45 | —, specified by Users.UpdateUserWire and Users.UpdateUserRoundTrip. |
| Users.UpdateUserWire | users.go:43-45 | `name` is left out when empty and written otherwise, and no other key appears. |
| Users.UpdateUserRoundTrip | users.go:43-45 | The user update read back is the update sent. |
| Users.GetUsers | users.go:9-24 | GET account base + "/users", expects 200, decodes. |
| Users.GetUser | users.go:26-41 | GET account base + "/users/" + id, expects 200, decodes. |
| Users.UpdateUser | users.go:47-63 | PUT `{"user": payload}` to …/users/id, expects 204. |
| Users.DeactivateUser | users.go:65-79 | DELETE …/users/id, expects 204. |
| Identity.GetMyIdentity | identity.go:9-24 | GET base URL + "/my/identity" (outside the account), expects 200, decodes. |
| Tags.GetTags | tags.go:9-24 | GET account base + "/tags", no body, expects 200, decodes. |
| Api.Plan | client.go:86-106 | —, specified by Api.PlanFollowsRoute, Api.NoBoardSelectedExactly and the family plan rows below. |
| Api.Run | client.go:108-135 | —, specified by Api.NoBoardSelectedExactly, Api.WrongStatusFails and Api.RouteStatusSucceeds. |
| Api.BoardPlan | boards.go:9-89 | Every boards.go operation dispatches to a plan that succeeds: no board need be selected, and every URL is taken to parse. |
| Api.ColumnPlan | columns.go:9-109 | A columns.go plan fails exactly when no board is selected, and then with ErrNoBoardSelected. |
| Api.CardRecordPlan | cards.go:13-135 | Of the card list/get/create/update/delete plans only CreateCard can fail, exactly when no board is selected, and then with ErrNoBoardSelected. |
| Api.CardActionPlan | cards.go:137-291 | Every card sub-resource plan succeeds whether or not a board is selected (every URL taken to parse). |
| Api.StepPlan | steps.go:10-97 | Every step plan succeeds: these methods have no board guard, and every URL is taken to parse. |
| Api.CommentPlan | comments.go:10-103 | Every comment plan succeeds: these methods have no board guard, and every URL is taken to parse. |
| Api.ReactionPlan | reactions.go:10-65 | Every reaction plan succeeds: these methods have no board guard, and every URL is taken to parse. |
| Api.NotificationPlan | notifications.go:9-77 | Every notification plan succeeds: these methods have no board guard, and every URL is taken to parse. |
| Api.UserPlan | users.go:9-79 | Every user plan succeeds: these methods have no board guard, and every URL is taken to parse. |
| Api.NoBoardSelectedExactly | cards.go:88-91 | ErrNoBoardSelected is returned exactly by the board-scoped operations (columns and card creation) when no board is selected, whatever the server would answer. Board, card-by-number and all other methods never return it. |
| Api.BoardPlansFollowRoutes | boards.go:9-89 | Every board plan succeeds and follows its routing-table entry: verb, path under the account base, status, decoding, body presence and headers. |
| Api.ColumnPlansFollowRoutes | columns.go:9-109 | Every successful column plan follows its route under the board base. |
| Api.CardRecordPlansFollowRoutes | cards.go:13-135 | Every successful card list/get/create/update/delete plan follows its route, including the filter query of GetCards. |
| Api.CardActionPlansFollowRoutes | cards.go:137-291 | Every card sub-resource plan succeeds and follows its route. |
| Api.CardStatePlansFollowRoutes | cards.go:137-212 | The image deletion, closure, postponement and triage plans follow their routes. |
| Api.CardMarkPlansFollowRoutes | cards.go:214-291 | The watch, goldness, assignment and tagging plans follow their routes. |
| Api.WatchFollowsRoute | cards.go:214-224 | The WatchCard call is a bodiless POST of …/cards/n/watch that expects 204 and decodes nothing. |
| Api.UnwatchFollowsRoute | cards.go:226-236 | The UnwatchCard call is a DELETE of …/cards/n/watch that expects 204. |
| Api.GoldnessFollowsRoute | cards.go:239-249 | The MarkCardGolden call is a bodiless POST of …/cards/n/goldness that expects 204. |
| Api.UngoldnessFollowsRoute | cards.go:251-261 | The UnmarkCardGolden call is a DELETE of …/cards/n/goldness that expects 204. |
| Api.AssignmentFollowsRoute | cards.go:264-276 | The AssignCard call is a POST with a body to …/cards/n/assignments that expects 204. |
| Api.TaggingFollowsRoute | cards.go:279-291 | The TagCard call is a POST with a body to …/cards/n/taggings that expects 204. |
| Api.StepPlansFollowRoutes | steps.go:10-97 | Every step plan succeeds and follows its route. |
| Api.CommentPlansFollowRoutes | comments.go:10-103 | Every comment plan succeeds and follows its route. |
| Api.CommentListFollowsRoute | comments.go:10-25 | The GetCardComments call is a GET of …/cards/n/comments that expects 200 and decodes. |
| Api.CommentFollowsRoute | comments.go:27-42 | The GetCardComment call is a GET of …/comments/id that expects 200 and decodes. |
| Api.CommentCreationFollowsRoute | comments.go:46-70 | The CreateCardComment call is a POST with a body to …/cards/n/comments judged by 201 alone. |
| Api.CommentUpdateFollowsRoute | comments.go:72-91 | The UpdateCardComment call is a PUT with a body to …/comments/id that expects 200 and decodes. |
| Api.CommentDeletionFollowsRoute | comments.go:93-103 | The DeleteCardComment call is a DELETE of …/comments/id that expects 204. |
| Api.ReactionPlansFollowRoutes | reactions.go:10-65 | Every reaction plan succeeds and follows its route. |
| Api.NotificationPlansFollowRoutes | notifications.go:9-77 | Every notification plan succeeds and follows its route. |
| Api.NotificationListFollowsRoute | notifications.go:9-24 | The GetNotifications call is a GET of account base + "/notifications" that expects 200, decodes and has the standard headers. |
| Api.NotificationFollowsRoute | notifications.go:26-41 | The GetNotification call is a GET of …/notifications/id that expects 200 and decodes. |
| Api.ReadingFollowsRoute | notifications.go:43-53 | The MarkNotificationRead call is a bodiless POST of …/notifications/id/reading that expects 204. |
| Api.UnreadingFollowsRoute | notifications.go:55-65 | The MarkNotificationUnread call is a bodiless DELETE of …/notifications/id/reading that expects 204. |
| Api.BulkReadingFollowsRoute | notifications.go:67-77 | The MarkAllNotificationsRead call is a bodiless POST of …/notifications/bulk_reading that expects 204. |
| Api.UserPlansFollowRoutes | users.go:9-79 | Every user plan succeeds and follows its route. |
| Api.UserListFollowsRoute | users.go:9-24 | The GetUsers call is a GET of account base + "/users" that expects 200 and decodes. |
| Api.UserFollowsRoute | users.go:26-41 | The GetUser call is a GET of …/users/id that expects 200 and decodes. |
| Api.UserUpdateFollowsRoute | users.go:47-63 | The UpdateUser call is a PUT with a body to …/users/id that expects 204. |
| Api.DeactivationFollowsRoute | users.go:65-79 | The DeactivateUser call is a DELETE of …/users/id that expects 204. |
| Api.PlanFollowsRoute | client.go:86-106 | Every successful plan of the 50 operations follows the routing table and carries the standard headers. |
| Api.RouteDiscipline | client.go:108-135 | Across the routing table of all 50 methods of the resource files, whose status arguments decodeResponse judges, reads are GETs expecting 200 that decode. Deletions are DELETEs expecting 204 that decode nothing. Neither sends a body. The creations, and only they, expect 201, as POSTs with a body whose response is not decoded. |
| Api.VerbDiscipline | client.go:108-135 | The same discipline holds of every planned request of the 50 methods. |
| Api.EveryRequestAuthenticated | client.go:101-103 | Every request carries `Authorization: Bearer <token>`, `Accept: application/json` and `Content-Type: application/json`. |
| Api.OnlyGetCardsQueries | cards.go:21-60 | Only GetCards attaches a query of its own; every other plan has an empty query. |
| Api.RequestsStayInAccount | client.go:69-72 | For a consistent client, every request except GetMyIdentity goes below base URL + slug. A board-scoped request goes below the selected board's base. GetMyIdentity goes to base URL + "/my/identity". |
| Api.ClosureToggles | cards.go:149-171 | CloseCard and ReopenCard are a POST and a DELETE of the same URL, both expecting 204. |
| Api.TriageToggles | cards.go:187-212 | TriageCard and UnTriageCard are a POST and a DELETE of the same URL, both expecting 204. |
| Api.WatchToggles | cards.go:214-236 | WatchCard and UnwatchCard are a POST and a DELETE of the same URL, both expecting 204. |
| Api.GoldnessToggles | cards.go:239-261 | MarkCardGolden and UnmarkCardGolden are a POST and a DELETE of the same URL, both expecting 204. |
| Api.ReadingToggles | notifications.go:43-65 | MarkNotificationRead and MarkNotificationUnread are a POST and a DELETE of the same URL, both expecting 204. |
| Api.CardNumbersAddressDistinctCards | cards.go:71-86 | Two card numbers that give the same card URL are equal. |
| Api.WrongStatusFails | client.go:120-126 | For every operation, a status other than its route's gives `Api(status, body)`. |
| Api.RouteStatusSucceeds | client.go:108-135 | On the route's status, a decoding operation returns the decoded value unchanged, and any other operation returns nothing. |

## Left out

- Transport: `HTTPClient.Do`, `http.NewRequestWithContext`, context cancellation and timeouts, and
  `DefaultTimeout`. The response is an abstract `Exchange` input.
- `WithHTTPClient`: the HTTP client handle is an opaque `Transport` value, so pointer identity and
  aliasing are not modelled, nor is `WithHTTPClient(nil)`, which makes the first `HTTPClient.Do`
  call panic.
- Path characters that `url.Parse` treats specially: `http.NewRequestWithContext` parses the URL
  string, so a `?` in an id or the slug would start a query and a `#` a fragment. The model takes
  ids and the slug to hold neither, so its `url` is the whole path and its `query` the whole query;
  Api.OnlyGetCardsQueries speaks of the query a method attaches itself.
- The `json.Marshal` failure branch of `newRequest` (client.go:89-92). Every body the library
  builds is a plain JSON value, which always marshals.
- The error branch of `http.NewRequestWithContext` (client.go:96-99), which fails when `url.Parse`
  rejects the endpoint. Caller strings reach it: an id such as `"%zz"` (an invalid escape) or one
  holding a control character, or a `WithBaseURL` value without a scheme such as `"://x"`. Every
  affected method then fails before any I/O. The model takes every endpoint URL to parse, so the
  plan rows that say a plan "succeeds" (Api.BoardPlan, Api.CardActionPlan, Api.StepPlan,
  Api.CommentPlan, Api.ReactionPlan, Api.NotificationPlan, Api.UserPlan and the
  `…PlansFollowRoutes` lemmas) hold only under that assumption.
- ClientOption: only the library's own options, `WithBoard`, `WithHTTPClient` and `WithBaseURL`,
  are modelled, as a datatype. `ClientOption` is an open function type (client.go:28), so a
  caller-written option can write any exported field, such as emptying the token or setting a board
  base without a board. Fizzy.ApplyAllKeeps, Fizzy.ConfigureDerives and the scope invariant then no
  longer hold.
- `encoding/json` internals. Bodies are a JSON value with objects as ordered key/value lists:
  struct fields in declaration order, Go map keys in sorted order. Decoding a response into an
  entity struct is an input (`decoded: Option<T>`).
- The entity structs used only for decoding (Board, Column, Card, Notification, Tag, Account,
  identity response) are opaque. Only the records the create methods build themselves, User,
  Comment, Reaction and Step, are spelled out.
- `url.Values.Encode` (cards.go:60) with its key sorting and percent-escaping. The query is a map
  from key to its ordered value list. The query already on the endpoint URL, which `req.URL.Query()`
  starts from, is taken to be empty: the base URL is assumed to carry no query of its own.
- The exact `fmt.Errorf` texts and `%w` wrapping. Errors are datatype variants.
- The `io.ReadAll` error that the three synthesising create methods ignore. The model's API error
  there carries the body as delivered.
- Go `int` width for card numbers and `auto_postpone_period`. Integers are unbounded, and `%d` is
  `Paths.Decimal`.
- Nil versus empty slices. `tag_ids` with `omitempty` is left out for both, as Go does.
- Client fields are exported, so a caller can assign them directly and break the scope invariant.
  `Valid` holds only for clients built by `NewClient` and changed by `SetBoard`.
- The resource methods read a `ClientState` snapshot of the client's fields instead of the object,
  because they never change it.
- Test files are not modelled.
