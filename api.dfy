/**
 * The client's whole surface: one Operation per exported request method, what each
 * plans to send, and the properties that hold across all of them.
 */
module Api {
  import opened Wrappers
  import opened Json
  import opened Paths
  import opened Types
  import opened Fizzy
  import Boards
  import Columns
  import Cards
  import Steps
  import Comments
  import Reactions
  import Notifications
  import Users
  import Identity
  import Tags

  datatype Operation =
    // boards.go
    | GetBoards
    | GetBoard(boardID: string)
    | CreateBoard(newBoard: CreateBoardPayload)
    | UpdateBoard(boardID: string, boardChanges: UpdateBoardPayload)
    | DeleteBoard(boardID: string)
    // columns.go
    | GetColumns
    | GetColumn(columnID: string)
    | CreateColumn(newColumn: CreateColumnPayload)
    | UpdateColumn(columnID: string, columnChanges: UpdateColumnPayload)
    | DeleteColumn(columnID: string)
    // cards.go
    | GetCards(filters: CardFilters)
    | GetCard(cardNumber: int)
    | CreateCard(newCard: CreateCardPayload)
    | UpdateCard(cardNumber: int, cardChanges: UpdateCardPayload)
    | DeleteCard(cardNumber: int)
    | DeleteCardImage(cardNumber: int)
    | CloseCard(cardNumber: int)
    | ReopenCard(cardNumber: int)
    | PostponeCard(cardNumber: int)
    | TriageCard(cardNumber: int, columnID: string)
    | UnTriageCard(cardNumber: int)
    | WatchCard(cardNumber: int)
    | UnwatchCard(cardNumber: int)
    | MarkCardGolden(cardNumber: int)
    | UnmarkCardGolden(cardNumber: int)
    | AssignCard(cardNumber: int, userID: string)
    | TagCard(cardNumber: int, tagTitle: string)
    // steps.go
    | GetCardStep(cardNumber: int, stepID: string)
    | CreateCardStep(cardNumber: int, content: string, completed: bool)
    | UpdateCardStep(cardNumber: int, stepID: string, newContent: Option<string>, newCompleted: Option<bool>)
    | DeleteCardStep(cardNumber: int, stepID: string)
    // comments.go
    | GetCardComments(cardNumber: int)
    | GetCardComment(cardNumber: int, commentID: string)
    | CreateCardComment(cardNumber: int, body: string)
    | UpdateCardComment(cardNumber: int, commentID: string, body: string)
    | DeleteCardComment(cardNumber: int, commentID: string)
    // reactions.go
    | GetCommentReactions(cardNumber: int, commentID: string)
    | CreateCommentReaction(cardNumber: int, commentID: string, content: string)
    | DeleteCommentReaction(cardNumber: int, commentID: string, reactionID: string)
    // notifications.go
    | GetNotifications
    | GetNotification(notificationID: string)
    | MarkNotificationRead(notificationID: string)
    | MarkNotificationUnread(notificationID: string)
    | MarkAllNotificationsRead
    // users.go
    | GetUsers
    | GetUser(userID: string)
    | UpdateUser(userID: string, userChanges: Users.UpdateUserPayload)
    | DeactivateUser(userID: string)
    // identity.go
    | GetMyIdentity
    // tags.go
    | GetTags

  /** The operations that first check for a selected board: every column method and CreateCard. */
  predicate BoardScoped(op: Operation) {
    op.GetColumns? || op.GetColumn? || op.CreateColumn? || op.UpdateColumn? || op.DeleteColumn? || op.CreateCard?
  }

  /** The base URL an operation's path is built on. */
  function Scope(st: ClientState, op: Operation): string {
    if op.GetMyIdentity? then st.baseURL
    else if BoardScoped(op) then st.boardBaseURL
    else st.accountBaseURL
  }

  // The resource families, one per source file (cards.go in two parts).

  predicate OfBoards(op: Operation) {
    op.GetBoards? || op.GetBoard? || op.CreateBoard? || op.UpdateBoard? || op.DeleteBoard?
  }

  predicate OfColumns(op: Operation) {
    op.GetColumns? || op.GetColumn? || op.CreateColumn? || op.UpdateColumn? || op.DeleteColumn?
  }

  /** The card methods that address a card by number or list and create cards. */
  predicate OfCardRecords(op: Operation) {
    op.GetCards? || op.GetCard? || op.CreateCard? || op.UpdateCard? || op.DeleteCard?
  }

  /** The card methods acting on a sub-resource of one card. */
  predicate OfCardActions(op: Operation) {
    || op.DeleteCardImage? || op.CloseCard? || op.ReopenCard? || op.PostponeCard? || op.TriageCard?
    || op.UnTriageCard? || op.WatchCard? || op.UnwatchCard? || op.MarkCardGolden? || op.UnmarkCardGolden?
    || op.AssignCard? || op.TagCard?
  }

  /** The card sub-resources that mark a card for someone: watching, goldness, assignees and tags. */
  predicate OfCardMarks(op: Operation) {
    op.WatchCard? || op.UnwatchCard? || op.MarkCardGolden? || op.UnmarkCardGolden? || op.AssignCard? || op.TagCard?
  }

  predicate OfSteps(op: Operation) {
    op.GetCardStep? || op.CreateCardStep? || op.UpdateCardStep? || op.DeleteCardStep?
  }

  predicate OfComments(op: Operation) {
    op.GetCardComments? || op.GetCardComment? || op.CreateCardComment? || op.UpdateCardComment? || op.DeleteCardComment?
  }

  predicate OfReactions(op: Operation) {
    op.GetCommentReactions? || op.CreateCommentReaction? || op.DeleteCommentReaction?
  }

  predicate OfNotifications(op: Operation) {
    op.GetNotifications? || op.GetNotification? || op.MarkNotificationRead? || op.MarkNotificationUnread?
    || op.MarkAllNotificationsRead?
  }

  predicate OfUsers(op: Operation) {
    op.GetUsers? || op.GetUser? || op.UpdateUser? || op.DeactivateUser?
  }

  /** What each exported method plans to send, dispatched by resource family. */
  function Plan(st: ClientState, op: Operation): Result<Call, Error> {
    if OfBoards(op) then BoardPlan(st, op)
    else if OfColumns(op) then ColumnPlan(st, op)
    else if OfCardRecords(op) then CardRecordPlan(st, op)
    else if OfCardActions(op) then CardActionPlan(st, op)
    else if OfSteps(op) then StepPlan(st, op)
    else if OfComments(op) then CommentPlan(st, op)
    else if OfReactions(op) then ReactionPlan(st, op)
    else if OfNotifications(op) then NotificationPlan(st, op)
    else if OfUsers(op) then UserPlan(st, op)
    else if op.GetMyIdentity? then Success(Identity.GetMyIdentity(st))
    else Success(Tags.GetTags(st))
  }

  /** The plans of boards.go. */
  function BoardPlan(st: ClientState, op: Operation): (r: Result<Call, Error>)
    requires OfBoards(op)
    ensures r.Success?
  {
    match op
    case GetBoards => Success(Boards.GetBoards(st))
    case GetBoard(id) => Success(Boards.GetBoard(st, id))
    case CreateBoard(p) => Success(Boards.CreateBoard(st, p))
    case UpdateBoard(id, p) => Success(Boards.UpdateBoard(st, id, p))
    case DeleteBoard(id) => Success(Boards.DeleteBoard(st, id))
  }

  /** The plans of columns.go. */
  function ColumnPlan(st: ClientState, op: Operation): (r: Result<Call, Error>)
    requires OfColumns(op)
    ensures r.Failure? <==> st.boardBaseURL == ""
    ensures r.Failure? ==> r.error == NoBoardSelected
  {
    match op
    case GetColumns => Columns.GetColumns(st)
    case GetColumn(id) => Columns.GetColumn(st, id)
    case CreateColumn(p) => Columns.CreateColumn(st, p)
    case UpdateColumn(id, p) => Columns.UpdateColumn(st, id, p)
    case DeleteColumn(id) => Columns.DeleteColumn(st, id)
  }

  /** The plans of cards.go: listing, creating and addressing cards by number. */
  function CardRecordPlan(st: ClientState, op: Operation): (r: Result<Call, Error>)
    requires OfCardRecords(op)
    ensures r.Failure? <==> op.CreateCard? && st.boardBaseURL == ""
    ensures r.Failure? ==> r.error == NoBoardSelected
  {
    match op
    case GetCards(f) => Success(Cards.GetCards(st, f))
    case GetCard(n) => Success(Cards.GetCard(st, n))
    case CreateCard(p) => Cards.CreateCard(st, p)
    case UpdateCard(n, p) => Success(Cards.UpdateCard(st, n, p))
    case DeleteCard(n) => Success(Cards.DeleteCard(st, n))
  }

  /** The plans of cards.go: the sub-resources of one card. */
  function CardActionPlan(st: ClientState, op: Operation): (r: Result<Call, Error>)
    requires OfCardActions(op)
    ensures r.Success?
  {
    match op
    case DeleteCardImage(n) => Success(Cards.DeleteCardImage(st, n))
    case CloseCard(n) => Success(Cards.CloseCard(st, n))
    case ReopenCard(n) => Success(Cards.ReopenCard(st, n))
    case PostponeCard(n) => Success(Cards.PostponeCard(st, n))
    case TriageCard(n, col) => Success(Cards.TriageCard(st, n, col))
    case UnTriageCard(n) => Success(Cards.UnTriageCard(st, n))
    case WatchCard(n) => Success(Cards.WatchCard(st, n))
    case UnwatchCard(n) => Success(Cards.UnwatchCard(st, n))
    case MarkCardGolden(n) => Success(Cards.MarkCardGolden(st, n))
    case UnmarkCardGolden(n) => Success(Cards.UnmarkCardGolden(st, n))
    case AssignCard(n, u) => Success(Cards.AssignCard(st, n, u))
    case TagCard(n, t) => Success(Cards.TagCard(st, n, t))
  }

  /** The plans of steps.go. */
  function StepPlan(st: ClientState, op: Operation): (r: Result<Call, Error>)
    requires OfSteps(op)
    ensures r.Success?
  {
    match op
    case GetCardStep(n, s) => Success(Steps.GetCardStep(st, n, s))
    case CreateCardStep(n, c, done) => Success(Steps.CreateCardStep(st, n, c, done))
    case UpdateCardStep(n, s, c, done) => Success(Steps.UpdateCardStep(st, n, s, c, done))
    case DeleteCardStep(n, s) => Success(Steps.DeleteCardStep(st, n, s))
  }

  /** The plans of comments.go. */
  function CommentPlan(st: ClientState, op: Operation): (r: Result<Call, Error>)
    requires OfComments(op)
    ensures r.Success?
  {
    match op
    case GetCardComments(n) => Success(Comments.GetCardComments(st, n))
    case GetCardComment(n, c) => Success(Comments.GetCardComment(st, n, c))
    case CreateCardComment(n, b) => Success(Comments.CreateCardComment(st, n, b))
    case UpdateCardComment(n, c, b) => Success(Comments.UpdateCardComment(st, n, c, b))
    case DeleteCardComment(n, c) => Success(Comments.DeleteCardComment(st, n, c))
  }

  /** The plans of reactions.go. */
  function ReactionPlan(st: ClientState, op: Operation): (r: Result<Call, Error>)
    requires OfReactions(op)
    ensures r.Success?
  {
    match op
    case GetCommentReactions(n, c) => Success(Reactions.GetCommentReactions(st, n, c))
    case CreateCommentReaction(n, c, x) => Success(Reactions.CreateCommentReaction(st, n, c, x))
    case DeleteCommentReaction(n, c, r) => Success(Reactions.DeleteCommentReaction(st, n, c, r))
  }

  /** The plans of notifications.go. */
  function NotificationPlan(st: ClientState, op: Operation): (r: Result<Call, Error>)
    requires OfNotifications(op)
    ensures r.Success?
  {
    match op
    case GetNotifications => Success(Notifications.GetNotifications(st))
    case GetNotification(id) => Success(Notifications.GetNotification(st, id))
    case MarkNotificationRead(id) => Success(Notifications.MarkNotificationRead(st, id))
    case MarkNotificationUnread(id) => Success(Notifications.MarkNotificationUnread(st, id))
    case MarkAllNotificationsRead => Success(Notifications.MarkAllNotificationsRead(st))
  }

  /** The plans of users.go. */
  function UserPlan(st: ClientState, op: Operation): (r: Result<Call, Error>)
    requires OfUsers(op)
    ensures r.Success?
  {
    match op
    case GetUsers => Success(Users.GetUsers(st))
    case GetUser(id) => Success(Users.GetUser(st, id))
    case UpdateUser(id, p) => Success(Users.UpdateUser(st, id, p))
    case DeactivateUser(id) => Success(Users.DeactivateUser(st, id))
  }

  /** A whole method call: the plan, then the exchange judged as the plan says. */
  function Run<T>(st: ClientState, op: Operation, ex: Exchange<T>): Result<Option<T>, Error> {
    match Plan(st, op)
    case Failure(e) => Failure(e)
    case Success(c) => Perform(c, ex)
  }

  // ---------------------------------------------------------------------------
  // Properties across every operation

  /**
   * ErrNoBoardSelected is returned exactly by the board-scoped operations when no board
   * is selected, and before any request exists: whatever the server would say.
   */
  lemma NoBoardSelectedExactly<T>(st: ClientState, op: Operation, ex: Exchange<T>)
    ensures Plan(st, op).Failure? <==> BoardScoped(op) && st.boardBaseURL == ""
    ensures Plan(st, op).Failure? ==> Plan(st, op).error == NoBoardSelected && Run(st, op, ex) == Failure(NoBoardSelected)
  {
  }

  // ---------------------------------------------------------------------------
  // The routing table: for each operation its verb, success status, whether the response
  // is decoded, whether a JSON body is sent, and its path below the scope

  datatype Route = Route(verb: Method, status: int, decodes: bool, carriesBody: bool)

  function RouteOf(op: Operation): Route {
    match op
    case GetBoards => Route(GET, 200, true, false)
    case GetBoard(_) => Route(GET, 200, true, false)
    case CreateBoard(_) => Route(POST, 201, false, true)
    case UpdateBoard(_, _) => Route(PUT, 204, false, true)
    case DeleteBoard(_) => Route(DELETE, 204, false, false)
    case GetColumns => Route(GET, 200, true, false)
    case GetColumn(_) => Route(GET, 200, true, false)
    case CreateColumn(_) => Route(POST, 201, false, true)
    case UpdateColumn(_, _) => Route(PUT, 204, false, true)
    case DeleteColumn(_) => Route(DELETE, 204, false, false)
    case GetCards(_) => Route(GET, 200, true, false)
    case GetCard(_) => Route(GET, 200, true, false)
    case CreateCard(_) => Route(POST, 201, false, true)
    case UpdateCard(_, _) => Route(PUT, 200, true, true)
    case DeleteCard(_) => Route(DELETE, 204, false, false)
    case DeleteCardImage(_) => Route(DELETE, 204, false, false)
    case CloseCard(_) => Route(POST, 204, false, false)
    case ReopenCard(_) => Route(DELETE, 204, false, false)
    case PostponeCard(_) => Route(POST, 204, false, false)
    case TriageCard(_, _) => Route(POST, 204, false, true)
    case UnTriageCard(_) => Route(DELETE, 204, false, false)
    case WatchCard(_) => Route(POST, 204, false, false)
    case UnwatchCard(_) => Route(DELETE, 204, false, false)
    case MarkCardGolden(_) => Route(POST, 204, false, false)
    case UnmarkCardGolden(_) => Route(DELETE, 204, false, false)
    case AssignCard(_, _) => Route(POST, 204, false, true)
    case TagCard(_, _) => Route(POST, 204, false, true)
    case GetCardStep(_, _) => Route(GET, 200, true, false)
    case CreateCardStep(_, _, _) => Route(POST, 201, false, true)
    case UpdateCardStep(_, _, _, _) => Route(PUT, 200, true, true)
    case DeleteCardStep(_, _) => Route(DELETE, 204, false, false)
    case GetCardComments(_) => Route(GET, 200, true, false)
    case GetCardComment(_, _) => Route(GET, 200, true, false)
    case CreateCardComment(_, _) => Route(POST, 201, false, true)
    case UpdateCardComment(_, _, _) => Route(PUT, 200, true, true)
    case DeleteCardComment(_, _) => Route(DELETE, 204, false, false)
    case GetCommentReactions(_, _) => Route(GET, 200, true, false)
    case CreateCommentReaction(_, _, _) => Route(POST, 201, false, true)
    case DeleteCommentReaction(_, _, _) => Route(DELETE, 204, false, false)
    case GetNotifications => Route(GET, 200, true, false)
    case GetNotification(_) => Route(GET, 200, true, false)
    case MarkNotificationRead(_) => Route(POST, 204, false, false)
    case MarkNotificationUnread(_) => Route(DELETE, 204, false, false)
    case MarkAllNotificationsRead => Route(POST, 204, false, false)
    case GetUsers => Route(GET, 200, true, false)
    case GetUser(_) => Route(GET, 200, true, false)
    case UpdateUser(_, _) => Route(PUT, 204, false, true)
    case DeactivateUser(_) => Route(DELETE, 204, false, false)
    case GetMyIdentity => Route(GET, 200, true, false)
    case GetTags => Route(GET, 200, true, false)
  }

  /** The path segments each operation appends to its scope's base URL. */
  function PathOf(op: Operation): seq<string> {
    match op
    case GetBoards => ["boards"]
    case GetBoard(id) => ["boards", id]
    case CreateBoard(_) => ["boards"]
    case UpdateBoard(id, _) => ["boards", id]
    case DeleteBoard(id) => ["boards", id]
    case GetColumns => ["columns"]
    case GetColumn(id) => ["columns", id]
    case CreateColumn(_) => ["columns"]
    case UpdateColumn(id, _) => ["columns", id]
    case DeleteColumn(id) => ["columns", id]
    case GetCards(_) => ["cards"]
    case GetCard(n) => ["cards", Decimal(n)]
    case CreateCard(_) => ["cards"]
    case UpdateCard(n, _) => ["cards", Decimal(n)]
    case DeleteCard(n) => ["cards", Decimal(n)]
    case DeleteCardImage(n) => ["cards", Decimal(n), "image"]
    case CloseCard(n) => ["cards", Decimal(n), "closure"]
    case ReopenCard(n) => ["cards", Decimal(n), "closure"]
    case PostponeCard(n) => ["cards", Decimal(n), "not_now"]
    case TriageCard(n, _) => ["cards", Decimal(n), "triage"]
    case UnTriageCard(n) => ["cards", Decimal(n), "triage"]
    case WatchCard(n) => ["cards", Decimal(n), "watch"]
    case UnwatchCard(n) => ["cards", Decimal(n), "watch"]
    case MarkCardGolden(n) => ["cards", Decimal(n), "goldness"]
    case UnmarkCardGolden(n) => ["cards", Decimal(n), "goldness"]
    case AssignCard(n, _) => ["cards", Decimal(n), "assignments"]
    case TagCard(n, _) => ["cards", Decimal(n), "taggings"]
    case GetCardStep(n, s) => ["cards", Decimal(n), "steps", s]
    case CreateCardStep(n, _, _) => ["cards", Decimal(n), "steps"]
    case UpdateCardStep(n, s, _, _) => ["cards", Decimal(n), "steps", s]
    case DeleteCardStep(n, s) => ["cards", Decimal(n), "steps", s]
    case GetCardComments(n) => ["cards", Decimal(n), "comments"]
    case GetCardComment(n, c) => ["cards", Decimal(n), "comments", c]
    case CreateCardComment(n, _) => ["cards", Decimal(n), "comments"]
    case UpdateCardComment(n, c, _) => ["cards", Decimal(n), "comments", c]
    case DeleteCardComment(n, c) => ["cards", Decimal(n), "comments", c]
    case GetCommentReactions(n, c) => ["cards", Decimal(n), "comments", c, "reactions"]
    case CreateCommentReaction(n, c, _) => ["cards", Decimal(n), "comments", c, "reactions"]
    case DeleteCommentReaction(n, c, r) => ["cards", Decimal(n), "comments", c, "reactions", r]
    case GetNotifications => ["notifications"]
    case GetNotification(id) => ["notifications", id]
    case MarkNotificationRead(id) => ["notifications", id, "reading"]
    case MarkNotificationUnread(id) => ["notifications", id, "reading"]
    case MarkAllNotificationsRead => ["notifications", "bulk_reading"]
    case GetUsers => ["users"]
    case GetUser(id) => ["users", id]
    case UpdateUser(id, _) => ["users", id]
    case DeactivateUser(id) => ["users", id]
    case GetMyIdentity => ["my", "identity"]
    case GetTags => ["tags"]
  }

  /** The query an operation sends: only GetCards has one. */
  function QueryOf(op: Operation): map<string, seq<string>> {
    if op.GetCards? then Cards.CardQuery(op.filters) else map[]
  }

  /**
   * The planned request follows the operation's route under its scope, carries the
   * operation's query, and is authenticated with the client's token.
   */
  predicate FollowsRoute(st: ClientState, op: Operation)
    requires Plan(st, op).Success?
  {
    Follows(st, op, Plan(st, op).value)
  }

  /** The call `c` follows the route of `op` under its scope, as FollowsRoute describes. */
  predicate Follows(st: ClientState, op: Operation, c: Call) {
    var r := RouteOf(op);
    && Sends(c, r.verb, Under(Scope(st, op), PathOf(op)), QueryOf(op), c.request.body, r.status, r.decodes)
    && (c.request.body.Some? <==> r.carriesBody)
    && c.request.headers == StandardHeaders(st.accessToken)
  }

  lemma BoardPlansFollowRoutes(st: ClientState, op: Operation)
    requires OfBoards(op)
    ensures BoardPlan(st, op).Success? && Follows(st, op, BoardPlan(st, op).value)
  {
  }

  lemma ColumnPlansFollowRoutes(st: ClientState, op: Operation)
    requires OfColumns(op) && ColumnPlan(st, op).Success?
    ensures Follows(st, op, ColumnPlan(st, op).value)
  {
  }

  lemma CardRecordPlansFollowRoutes(st: ClientState, op: Operation)
    requires OfCardRecords(op) && CardRecordPlan(st, op).Success?
    ensures Follows(st, op, CardRecordPlan(st, op).value)
  {
  }

  lemma CardStatePlansFollowRoutes(st: ClientState, op: Operation)
    requires OfCardActions(op) && !OfCardMarks(op)
    ensures CardActionPlan(st, op).Success? && Follows(st, op, CardActionPlan(st, op).value)
  {
  }

  lemma CardMarkPlansFollowRoutes(st: ClientState, op: Operation)
    requires OfCardMarks(op)
    ensures CardActionPlan(st, op).Success? && Follows(st, op, CardActionPlan(st, op).value)
  {
    match op
    case WatchCard(n) => WatchFollowsRoute(st, n);
    case UnwatchCard(n) => UnwatchFollowsRoute(st, n);
    case MarkCardGolden(n) => GoldnessFollowsRoute(st, n);
    case UnmarkCardGolden(n) => UngoldnessFollowsRoute(st, n);
    case AssignCard(n, u) => AssignmentFollowsRoute(st, n, u);
    case TagCard(n, t) => TaggingFollowsRoute(st, n, t);
  }

  // One lemma per watch, goldness, assignment and tagging operation.

  lemma WatchFollowsRoute(st: ClientState, cardNumber: int)
    ensures Follows(st, WatchCard(cardNumber), Cards.WatchCard(st, cardNumber))
  {
  }

  lemma UnwatchFollowsRoute(st: ClientState, cardNumber: int)
    ensures Follows(st, UnwatchCard(cardNumber), Cards.UnwatchCard(st, cardNumber))
  {
  }

  lemma GoldnessFollowsRoute(st: ClientState, cardNumber: int)
    ensures Follows(st, MarkCardGolden(cardNumber), Cards.MarkCardGolden(st, cardNumber))
  {
  }

  lemma UngoldnessFollowsRoute(st: ClientState, cardNumber: int)
    ensures Follows(st, UnmarkCardGolden(cardNumber), Cards.UnmarkCardGolden(st, cardNumber))
  {
  }

  lemma AssignmentFollowsRoute(st: ClientState, cardNumber: int, userID: string)
    ensures Follows(st, AssignCard(cardNumber, userID), Cards.AssignCard(st, cardNumber, userID))
  {
  }

  lemma TaggingFollowsRoute(st: ClientState, cardNumber: int, tagTitle: string)
    ensures Follows(st, TagCard(cardNumber, tagTitle), Cards.TagCard(st, cardNumber, tagTitle))
  {
  }

  lemma CardActionPlansFollowRoutes(st: ClientState, op: Operation)
    requires OfCardActions(op)
    ensures CardActionPlan(st, op).Success? && Follows(st, op, CardActionPlan(st, op).value)
  {
    if OfCardMarks(op) {
      CardMarkPlansFollowRoutes(st, op);
    } else {
      CardStatePlansFollowRoutes(st, op);
    }
  }

  lemma StepPlansFollowRoutes(st: ClientState, op: Operation)
    requires OfSteps(op)
    ensures StepPlan(st, op).Success? && Follows(st, op, StepPlan(st, op).value)
  {
  }

  lemma CommentPlansFollowRoutes(st: ClientState, op: Operation)
    requires OfComments(op)
    ensures CommentPlan(st, op).Success? && Follows(st, op, CommentPlan(st, op).value)
  {
    match op
    case GetCardComments(n) => CommentListFollowsRoute(st, n);
    case GetCardComment(n, c) => CommentFollowsRoute(st, n, c);
    case CreateCardComment(n, b) => CommentCreationFollowsRoute(st, n, b);
    case UpdateCardComment(n, c, b) => CommentUpdateFollowsRoute(st, n, c, b);
    case DeleteCardComment(n, c) => CommentDeletionFollowsRoute(st, n, c);
  }

  // One lemma per comment operation.

  lemma CommentListFollowsRoute(st: ClientState, cardNumber: int)
    ensures Follows(st, GetCardComments(cardNumber), Comments.GetCardComments(st, cardNumber))
  {
  }

  lemma CommentFollowsRoute(st: ClientState, cardNumber: int, commentID: string)
    ensures Follows(st, GetCardComment(cardNumber, commentID), Comments.GetCardComment(st, cardNumber, commentID))
  {
  }

  lemma CommentCreationFollowsRoute(st: ClientState, cardNumber: int, body: string)
    ensures Follows(st, CreateCardComment(cardNumber, body), Comments.CreateCardComment(st, cardNumber, body))
  {
  }

  lemma CommentUpdateFollowsRoute(st: ClientState, cardNumber: int, commentID: string, body: string)
    ensures Follows(st, UpdateCardComment(cardNumber, commentID, body), Comments.UpdateCardComment(st, cardNumber, commentID, body))
  {
  }

  lemma CommentDeletionFollowsRoute(st: ClientState, cardNumber: int, commentID: string)
    ensures Follows(st, DeleteCardComment(cardNumber, commentID), Comments.DeleteCardComment(st, cardNumber, commentID))
  {
  }

  lemma ReactionPlansFollowRoutes(st: ClientState, op: Operation)
    requires OfReactions(op)
    ensures ReactionPlan(st, op).Success? && Follows(st, op, ReactionPlan(st, op).value)
  {
  }

  lemma NotificationPlansFollowRoutes(st: ClientState, op: Operation)
    requires OfNotifications(op)
    ensures NotificationPlan(st, op).Success? && Follows(st, op, NotificationPlan(st, op).value)
  {
    match op
    case GetNotifications => NotificationListFollowsRoute(st);
    case GetNotification(id) => NotificationFollowsRoute(st, id);
    case MarkNotificationRead(id) => ReadingFollowsRoute(st, id);
    case MarkNotificationUnread(id) => UnreadingFollowsRoute(st, id);
    case MarkAllNotificationsRead => BulkReadingFollowsRoute(st);
  }

  // One lemma per notification operation keeps each proof to a single route.

  lemma NotificationListFollowsRoute(st: ClientState)
    ensures Follows(st, GetNotifications, Notifications.GetNotifications(st))
  {
  }

  lemma NotificationFollowsRoute(st: ClientState, notificationID: string)
    ensures Follows(st, GetNotification(notificationID), Notifications.GetNotification(st, notificationID))
  {
  }

  lemma ReadingFollowsRoute(st: ClientState, notificationID: string)
    ensures Follows(st, MarkNotificationRead(notificationID), Notifications.MarkNotificationRead(st, notificationID))
  {
  }

  lemma UnreadingFollowsRoute(st: ClientState, notificationID: string)
    ensures Follows(st, MarkNotificationUnread(notificationID), Notifications.MarkNotificationUnread(st, notificationID))
  {
  }

  lemma BulkReadingFollowsRoute(st: ClientState)
    ensures Follows(st, MarkAllNotificationsRead, Notifications.MarkAllNotificationsRead(st))
  {
  }

  lemma UserPlansFollowRoutes(st: ClientState, op: Operation)
    requires OfUsers(op)
    ensures UserPlan(st, op).Success? && Follows(st, op, UserPlan(st, op).value)
  {
    match op
    case GetUsers => UserListFollowsRoute(st);
    case GetUser(id) => UserFollowsRoute(st, id);
    case UpdateUser(id, p) => UserUpdateFollowsRoute(st, id, p);
    case DeactivateUser(id) => DeactivationFollowsRoute(st, id);
  }

  // One lemma per user operation, as for the notifications.

  lemma UserListFollowsRoute(st: ClientState)
    ensures Follows(st, GetUsers, Users.GetUsers(st))
  {
  }

  lemma UserFollowsRoute(st: ClientState, userID: string)
    ensures Follows(st, GetUser(userID), Users.GetUser(st, userID))
  {
  }

  lemma UserUpdateFollowsRoute(st: ClientState, userID: string, payload: Users.UpdateUserPayload)
    ensures Follows(st, UpdateUser(userID, payload), Users.UpdateUser(st, userID, payload))
  {
  }

  lemma DeactivationFollowsRoute(st: ClientState, userID: string)
    ensures Follows(st, DeactivateUser(userID), Users.DeactivateUser(st, userID))
  {
  }

  /** Every planned request follows its route: the routing table is the client's. */
  lemma PlanFollowsRoute(st: ClientState, op: Operation)
    requires Plan(st, op).Success?
    ensures FollowsRoute(st, op)
  {
    if OfBoards(op) {
      BoardPlansFollowRoutes(st, op);
    } else if OfColumns(op) {
      ColumnPlansFollowRoutes(st, op);
    } else if OfCardRecords(op) {
      CardRecordPlansFollowRoutes(st, op);
    } else if OfCardActions(op) {
      CardActionPlansFollowRoutes(st, op);
    } else if OfSteps(op) {
      StepPlansFollowRoutes(st, op);
    } else if OfComments(op) {
      CommentPlansFollowRoutes(st, op);
    } else if OfReactions(op) {
      ReactionPlansFollowRoutes(st, op);
    } else if OfNotifications(op) {
      NotificationPlansFollowRoutes(st, op);
    } else if OfUsers(op) {
      UserPlansFollowRoutes(st, op);
    }
  }

  // ---------------------------------------------------------------------------
  // What follows for every request

  /** The operations that create a resource. */
  predicate Creates(op: Operation) {
    op.CreateBoard? || op.CreateColumn? || op.CreateCard? || op.CreateCardStep? || op.CreateCardComment?
    || op.CreateCommentReaction?
  }

  /**
   * A route's discipline: reads are GETs expecting 200 and decoding the body; deletions
   * are DELETEs expecting 204 and decoding nothing; neither sends a body; the creations,
   * and only they, expect 201, as POSTs with a body whose response is not decoded.
   */
  predicate Disciplined(op: Operation) {
    var r := RouteOf(op);
    && (r.verb == GET ==> !r.carriesBody && r.status == StatusOK && r.decodes)
    && (r.verb == DELETE ==> !r.carriesBody && r.status == StatusNoContent && !r.decodes)
    && (r.status == StatusCreated <==> Creates(op))
    && (Creates(op) ==> r.verb == POST && r.carriesBody && !r.decodes)
  }

  /** Every route of the table keeps the discipline. */
  lemma RouteDiscipline(op: Operation)
    ensures Disciplined(op)
  {
  }

  /** The routing table's discipline holds of every planned request. */
  lemma VerbDiscipline(st: ClientState, op: Operation)
    requires Plan(st, op).Success?
    ensures var c := Plan(st, op).value;
            && (c.request.verb == GET ==>
                  c.request.body.None? && ExpectedCode(c.handling) == StatusOK
                  && c.handling.Decoding? && c.handling.into)
            && (c.request.verb == DELETE ==>
                  c.request.body.None? && ExpectedCode(c.handling) == StatusNoContent
                  && c.handling.Decoding? && !c.handling.into)
            && (ExpectedCode(c.handling) == StatusCreated <==> Creates(op))
            && (Creates(op) ==> c.request.verb == POST && c.request.body.Some?)
  {
    PlanFollowsRoute(st, op);
    RouteDiscipline(op);
  }

  /** Every request carries the client's bearer token and asks for and sends JSON. */
  lemma EveryRequestAuthenticated(st: ClientState, op: Operation)
    requires Plan(st, op).Success?
    ensures var h := Plan(st, op).value.request.headers;
            && "Authorization" in h && h["Authorization"] == "Bearer " + st.accessToken
            && "Accept" in h && h["Accept"] == "application/json"
            && "Content-Type" in h && h["Content-Type"] == "application/json"
  {
    PlanFollowsRoute(st, op);
  }

  /** Only GetCards attaches a query of its own (ids are taken to hold no `?` or `#`). */
  lemma OnlyGetCardsQueries(st: ClientState, op: Operation)
    requires Plan(st, op).Success? && Plan(st, op).value.request.query != map[]
    ensures op.GetCards?
  {
    PlanFollowsRoute(st, op);
  }

  /**
   * Within a client built by NewClient (or reconfigured by SetBoard), every request but
   * GetMyIdentity goes below the account's base URL, and a board-scoped one below the
   * selected board's.
   */
  lemma RequestsStayInAccount(st: ClientState, accountSlug: string, op: Operation)
    requires Consistent(st, accountSlug) && Plan(st, op).Success?
    ensures var url := Plan(st, op).value.request.url;
            && (!op.GetMyIdentity? ==> IsPrefix(st.baseURL + accountSlug, url))
            && (BoardScoped(op) ==> IsPrefix(st.baseURL + accountSlug + "/boards/" + st.boardID, url))
            && (op.GetMyIdentity? ==> url == st.baseURL + "/my/identity")
  {
    PlanFollowsRoute(st, op);
    var url := Plan(st, op).value.request.url;
    UnderExtends(Scope(st, op), PathOf(op));
    if BoardScoped(op) {
      NoBoardSelectedExactly<int>(st, op, TransportFailed);
      PrefixTransitive(st.baseURL + accountSlug, Scope(st, op), url);
    }
    if op.GetMyIdentity? {
      Under2(st.baseURL, "my", "identity");
    }
  }

  predicate IsPrefix(p: string, s: string) {
    |p| <= |s| && s[..|p|] == p
  }

  lemma PrefixTransitive(p: string, q: string, s: string)
    requires IsPrefix(p, q) && IsPrefix(q, s)
    ensures IsPrefix(p, s)
  {
    assert s[..|p|] == s[..|q|][..|p|];
  }

  /** `on` and `off` are a POST and a DELETE of the same URL, both judged by 204 No Content. */
  predicate TogglePair(on: Result<Call, Error>, off: Result<Call, Error>) {
    && on.Success? && off.Success?
    && on.value.request.url == off.value.request.url
    && on.value.request.verb == POST && off.value.request.verb == DELETE
    && ExpectedCode(on.value.handling) == StatusNoContent
    && ExpectedCode(off.value.handling) == StatusNoContent
  }

  // Closing, triage, watching, goldness and notification reading are each switched on
  // and off at one URL (stated on the family plans that Plan dispatches to).

  lemma ClosureToggles(st: ClientState, cardNumber: int)
    ensures TogglePair(CardActionPlan(st, CloseCard(cardNumber)), CardActionPlan(st, ReopenCard(cardNumber)))
  {
  }

  lemma TriageToggles(st: ClientState, cardNumber: int, columnID: string)
    ensures TogglePair(CardActionPlan(st, TriageCard(cardNumber, columnID)), CardActionPlan(st, UnTriageCard(cardNumber)))
  {
  }

  lemma WatchToggles(st: ClientState, cardNumber: int)
    ensures TogglePair(CardActionPlan(st, WatchCard(cardNumber)), CardActionPlan(st, UnwatchCard(cardNumber)))
  {
  }

  lemma GoldnessToggles(st: ClientState, cardNumber: int)
    ensures TogglePair(CardActionPlan(st, MarkCardGolden(cardNumber)), CardActionPlan(st, UnmarkCardGolden(cardNumber)))
  {
  }

  lemma ReadingToggles(st: ClientState, notificationID: string)
    ensures TogglePair(NotificationPlan(st, MarkNotificationRead(notificationID)), NotificationPlan(st, MarkNotificationUnread(notificationID)))
  {
  }

  /** A card number names one card: different numbers give different card URLs. */
  lemma CardNumbersAddressDistinctCards(st: ClientState, n: int, m: int)
    requires Plan(st, GetCard(n)).value.request.url == Plan(st, GetCard(m)).value.request.url
    ensures n == m
  {
    var prefix := st.accountBaseURL + "/cards/";
    Under2(st.accountBaseURL, "cards", Decimal(n));
    Under2(st.accountBaseURL, "cards", Decimal(m));
    assert (prefix + Decimal(n))[|prefix|..] == Decimal(n);
    assert (prefix + Decimal(m))[|prefix|..] == Decimal(m);
    DecimalSegment(n, m);
  }

  /** A status other than the route's is an API error carrying that status and body, for every operation. */
  lemma WrongStatusFails<T>(st: ClientState, op: Operation, status: int, body: string, decoded: Option<T>)
    requires Plan(st, op).Success? && status != RouteOf(op).status
    ensures Run(st, op, Delivered(status, body, true, decoded)) == Failure(Api(status, body))
  {
    PlanFollowsRoute(st, op);
    WrongStatusIsApiError(Plan(st, op).value, status, body, decoded);
  }

  /** On its route's status, a decoding operation returns the decoded value and any other returns nothing. */
  lemma RouteStatusSucceeds<T>(st: ClientState, op: Operation, body: string, v: T)
    requires Plan(st, op).Success?
    ensures Run(st, op, Delivered(RouteOf(op).status, body, true, Some(v))) ==
            Success(if RouteOf(op).decodes then Some(v) else None)
  {
    PlanFollowsRoute(st, op);
  }
}
