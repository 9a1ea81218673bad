/**
 * The client configuration and the shared request/response plumbing of client.go:
 * option application, derivation of the account- and board-scoped base URLs,
 * board selection, request headers and the exact-status response decision.
 */
module Fizzy {
  import opened Wrappers
  import opened Json

  const DefaultBaseURL: string := "https://app.fizzy.do"

  const StatusOK: int := 200
  const StatusCreated: int := 201
  const StatusNoContent: int := 204

  /**
   * The HTTP client a Client sends through. DefaultTransport stands for the
   * `http.Client` with DefaultTimeout that NewClient installs; Provided(id) for one
   * handed in by WithHTTPClient, identified only by an opaque id.
   */
  datatype Transport = DefaultTransport | Provided(id: nat)

  datatype ValidationError = AccountSlugRequired | AccessTokenRequired

  /** The error taxonomy; NoBoardSelected is the distinguished ErrNoBoardSelected value. */
  datatype Error =
    | Validation(reason: ValidationError)
    | NoBoardSelected
    | TransportError
    | ReadFailed(status: int)
    | Api(status: int, body: string)
    | DecodeError

  /** A snapshot of the fields of a Client: what every resource method reads. */
  datatype ClientState = ClientState(
    baseURL: string,
    accountBaseURL: string,
    boardBaseURL: string,
    accessToken: string,
    httpClient: Transport,
    boardID: string)

  /** The three ClientOption constructors the library offers. */
  datatype ClientOption =
    | WithBoard(boardID: string)
    | WithHTTPClient(httpClient: Transport)
    | WithBaseURL(baseURL: string)

  /** Two options that write the same field of the Client. */
  predicate SameField(a: ClientOption, b: ClientOption) {
    (a.WithBoard? && b.WithBoard?) || (a.WithHTTPClient? && b.WithHTTPClient?) || (a.WithBaseURL? && b.WithBaseURL?)
  }

  /** What running one option closure does to the Client it is given. */
  function ApplyOption(st: ClientState, opt: ClientOption): ClientState {
    match opt
    case WithBoard(id) => st.(boardID := id)
    case WithHTTPClient(h) => st.(httpClient := h)
    case WithBaseURL(u) => st.(baseURL := u)
  }

  /** The options run in order, the last one last. */
  function ApplyAll(st: ClientState, opts: seq<ClientOption>): ClientState
    decreases |opts|
  {
    if opts == [] then st else ApplyOption(ApplyAll(st, opts[..|opts| - 1]), opts[|opts| - 1])
  }

  /** The Client literal NewClient starts from, before any option runs. */
  function Initial(accessToken: string): ClientState {
    ClientState(DefaultBaseURL, "", "", accessToken, DefaultTransport, "")
  }

  /** The board-scoped base for a board id; empty when no board is selected. */
  function BoardURL(accountBaseURL: string, boardID: string): string {
    if boardID != "" then accountBaseURL + "/boards/" + boardID else ""
  }

  /** The base URLs NewClient derives once every option has run. */
  function Derive(st: ClientState, accountSlug: string): ClientState {
    var account := st.baseURL + accountSlug;
    st.(accountBaseURL := account,
        boardBaseURL := if st.boardID != "" then BoardURL(account, st.boardID) else st.boardBaseURL)
  }

  /** The outcome NewClient promises for its arguments. */
  function Configure(accountSlug: string, accessToken: string, opts: seq<ClientOption>): Result<ClientState, Error> {
    if accountSlug == "" then Failure(Validation(AccountSlugRequired))
    else if accessToken == "" then Failure(Validation(AccessTokenRequired))
    else Success(Derive(ApplyAll(Initial(accessToken), opts), accountSlug))
  }

  /** What SetBoard does to the Client. */
  function Select(st: ClientState, boardID: string): ClientState {
    st.(boardID := boardID, boardBaseURL := BoardURL(st.accountBaseURL, boardID))
  }

  /**
   * The scope invariant: the account base is the base URL followed by the slug, and the
   * board base is present exactly when a board is selected and then extends the account base.
   */
  predicate Consistent(st: ClientState, accountSlug: string) {
    && st.accountBaseURL == st.baseURL + accountSlug
    && (st.boardBaseURL != "" <==> st.boardID != "")
    && (st.boardID != "" ==> st.boardBaseURL == st.accountBaseURL + "/boards/" + st.boardID)
  }

  class Client {
    var baseURL: string
    var accountBaseURL: string
    var boardBaseURL: string
    var accessToken: string
    var httpClient: Transport
    var boardID: string
    /** The slug NewClient was given; the Go struct does not keep it. */
    ghost var accountSlug: string

    function State(): ClientState
      reads this
    {
      ClientState(baseURL, accountBaseURL, boardBaseURL, accessToken, httpClient, boardID)
    }

    ghost predicate Valid()
      reads this
    {
      Consistent(State(), accountSlug)
    }

    /** The `&Client{...}` literal of NewClient. */
    constructor (accessToken: string)
      ensures State() == Initial(accessToken) && accountSlug == ""
    {
      this.baseURL := DefaultBaseURL;
      this.accountBaseURL := "";
      this.boardBaseURL := "";
      this.accessToken := accessToken;
      this.httpClient := DefaultTransport;
      this.boardID := "";
      this.accountSlug := "";
    }

    /** Runs one option closure on this Client. */
    method Apply(opt: ClientOption)
      modifies this
      ensures State() == ApplyOption(old(State()), opt) && accountSlug == old(accountSlug)
    {
      match opt
      case WithBoard(id) => boardID := id;
      case WithHTTPClient(h) => httpClient := h;
      case WithBaseURL(u) => baseURL := u;
    }

    /** Selects a board, or clears the selection when `id` is empty; no request is made. */
    method SetBoard(id: string)
      modifies this
      ensures State() == Select(old(State()), id) && accountSlug == old(accountSlug)
      ensures old(Valid()) ==> Valid()
    {
      boardID := id;
      if id != "" {
        boardBaseURL := accountBaseURL + "/boards/" + id;
      } else {
        boardBaseURL := "";
      }
    }
  }

  method NewClient(accountSlug: string, accessToken: string, opts: seq<ClientOption>) returns (r: Result<Client, Error>)
    ensures r.Failure? ==> Configure(accountSlug, accessToken, opts) == Failure(r.error)
    ensures r.Success? ==> && fresh(r.value) && r.value.Valid() && r.value.accountSlug == accountSlug
                           && Configure(accountSlug, accessToken, opts) == Success(r.value.State())
  {
    if accountSlug == "" {
      return Failure(Validation(AccountSlugRequired));
    }
    if accessToken == "" {
      return Failure(Validation(AccessTokenRequired));
    }
    var c := new Client(accessToken);
    var i := 0;
    while i < |opts|
      invariant 0 <= i <= |opts|
      invariant c.State() == ApplyAll(Initial(accessToken), opts[..i]) && c.accountSlug == ""
    {
      assert opts[..i + 1][..i] == opts[..i];
      c.Apply(opts[i]);
      i := i + 1;
    }
    assert opts[..i] == opts;
    ApplyAllKeeps(Initial(accessToken), opts);
    c.accountBaseURL := c.baseURL + accountSlug;
    if c.boardID != "" {
      c.boardBaseURL := c.accountBaseURL + "/boards/" + c.boardID;
    }
    c.accountSlug := accountSlug;
    return Success(c);
  }

  // ---------------------------------------------------------------------------
  // Properties of construction and board selection

  /** The slug is checked first, then the token; any other input is accepted. */
  lemma ConfigureValidates(accountSlug: string, accessToken: string, opts: seq<ClientOption>)
    ensures Configure(accountSlug, accessToken, opts).Failure? <==> accountSlug == "" || accessToken == ""
    ensures accountSlug == "" ==> Configure(accountSlug, accessToken, opts) == Failure(Validation(AccountSlugRequired))
    ensures accountSlug != "" && accessToken == "" ==>
              Configure(accountSlug, accessToken, opts) == Failure(Validation(AccessTokenRequired))
  {
  }

  lemma {:induction false} ApplyAllAppend(st: ClientState, a: seq<ClientOption>, b: seq<ClientOption>)
    ensures ApplyAll(st, a + b) == ApplyAll(ApplyAll(st, a), b)
    decreases |b|
  {
    if b == [] {
      assert a + b == a;
    } else {
      assert (a + b)[..|a + b| - 1] == a + b[..|b| - 1];
      ApplyAllAppend(st, a, b[..|b| - 1]);
    }
  }

  /** No option writes the token or the derived URLs. */
  lemma {:induction false} ApplyAllKeeps(st: ClientState, opts: seq<ClientOption>)
    ensures ApplyAll(st, opts).accessToken == st.accessToken
    ensures ApplyAll(st, opts).accountBaseURL == st.accountBaseURL
    ensures ApplyAll(st, opts).boardBaseURL == st.boardBaseURL
    decreases |opts|
  {
    if opts != [] {
      ApplyAllKeeps(st, opts[..|opts| - 1]);
    }
  }

  /** Options that do not write a field leave it as it was. */
  lemma {:induction false} ApplyAllUntouched(st: ClientState, opts: seq<ClientOption>, probe: ClientOption)
    requires forall j :: 0 <= j < |opts| ==> !SameField(opts[j], probe)
    ensures probe.WithBaseURL? ==> ApplyAll(st, opts).baseURL == st.baseURL
    ensures probe.WithBoard? ==> ApplyAll(st, opts).boardID == st.boardID
    ensures probe.WithHTTPClient? ==> ApplyAll(st, opts).httpClient == st.httpClient
    decreases |opts|
  {
    if opts != [] {
      ApplyAllUntouched(st, opts[..|opts| - 1], probe);
    }
  }

  /** The last option that writes a field decides its value. */
  lemma LastOptionWins(st: ClientState, opts: seq<ClientOption>, i: nat)
    requires i < |opts|
    requires forall j :: i < j < |opts| ==> !SameField(opts[j], opts[i])
    ensures opts[i].WithBaseURL? ==> ApplyAll(st, opts).baseURL == opts[i].baseURL
    ensures opts[i].WithBoard? ==> ApplyAll(st, opts).boardID == opts[i].boardID
    ensures opts[i].WithHTTPClient? ==> ApplyAll(st, opts).httpClient == opts[i].httpClient
  {
    var pre, post := opts[..i + 1], opts[i + 1..];
    assert opts == pre + post;
    assert pre[..|pre| - 1] == opts[..i];
    ApplyAllAppend(st, pre, post);
    ApplyAllUntouched(ApplyAll(st, pre), post, opts[i]);
  }

  /** Two adjacent options that write different fields may be given in either order. */
  lemma OptionsCommute(st: ClientState, pre: seq<ClientOption>, x: ClientOption, y: ClientOption, post: seq<ClientOption>)
    requires !SameField(x, y)
    ensures ApplyAll(st, pre + [x, y] + post) == ApplyAll(st, pre + [y, x] + post)
  {
    ApplyAllAppend(st, pre + [x, y], post);
    ApplyAllAppend(st, pre + [y, x], post);
    ApplyAllAppend(st, pre, [x, y]);
    ApplyAllAppend(st, pre, [y, x]);
    assert [x, y][..1] == [x] && [y, x][..1] == [y];
  }

  /**
   * A constructed client satisfies the scope invariant, keeps the token, and takes its base
   * URL, board and transport from the options (the defaults when no option sets them).
   */
  lemma ConfigureDerives(accountSlug: string, accessToken: string, opts: seq<ClientOption>)
    requires accountSlug != "" && accessToken != ""
    ensures Configure(accountSlug, accessToken, opts).Success?
    ensures var st := Configure(accountSlug, accessToken, opts).value;
            var drafted := ApplyAll(Initial(accessToken), opts);
            && Consistent(st, accountSlug)
            && st.accessToken == accessToken
            && st.baseURL == drafted.baseURL && st.boardID == drafted.boardID && st.httpClient == drafted.httpClient
            && st.accountBaseURL == drafted.baseURL + accountSlug
            && (drafted.boardID != "" ==> st.boardBaseURL == drafted.baseURL + accountSlug + "/boards/" + drafted.boardID)
  {
    ApplyAllKeeps(Initial(accessToken), opts);
  }

  /** With no options: the default base URL, the account base under it, and no board. */
  lemma ConfigureDefaults(accountSlug: string, accessToken: string)
    requires accountSlug != "" && accessToken != ""
    ensures Configure(accountSlug, accessToken, []) ==
            Success(ClientState(DefaultBaseURL, DefaultBaseURL + accountSlug, "", accessToken, DefaultTransport, ""))
  {
  }

  /** Selecting a board keeps the scope invariant and touches only the board fields. */
  lemma SelectKeepsScope(st: ClientState, accountSlug: string, id: string)
    requires Consistent(st, accountSlug)
    ensures Consistent(Select(st, id), accountSlug)
    ensures Select(st, id).(boardID := st.boardID, boardBaseURL := st.boardBaseURL) == st
    ensures Select(st, id).boardID == id
  {
  }

  /** Selecting an empty id clears the board base, whatever was selected before. */
  lemma SelectThenClear(st: ClientState, id: string)
    ensures Select(Select(st, id), "").boardBaseURL == ""
    ensures Select(Select(st, id), "") == Select(st, "")
  {
  }

  // ---------------------------------------------------------------------------
  // Requests and responses

  datatype Method = GET | POST | PUT | DELETE

  /**
   * An outbound request: method, URL, query parameters (a url.Values multimap),
   * headers, and the JSON body when one is attached.
   */
  datatype Request = Request(
    verb: Method,
    url: string,
    query: map<string, seq<string>>,
    headers: map<string, string>,
    body: Option<Json>)

  /** The three headers newRequest sets on every request. */
  function StandardHeaders(accessToken: string): map<string, string> {
    map["Authorization" := "Bearer " + accessToken,
        "Accept" := "application/json",
        "Content-Type" := "application/json"]
  }

  /** newRequest: the body is attached only when one is given. */
  function NewRequest(st: ClientState, verb: Method, url: string, body: Option<Json>): Request {
    Request(verb, url, map[], StandardHeaders(st.accessToken), body)
  }

  /**
   * How a method treats the response: through decodeResponse with the expected status
   * arguments it passes and whether it supplies a destination, or through the own
   * "201 Created, no body" check of the three create methods that synthesise their result.
   */
  datatype Handling =
    | Decoding(expectedStatus: seq<int>, into: bool)
    | CreatedNoBody

  /** One planned exchange: the request and how its response is judged. */
  datatype Call = Call(request: Request, handling: Handling)

  /** decodeResponse's expected code: the first status argument, or 200 without one. */
  function ExpectedCode(h: Handling): int {
    match h
    case Decoding(es, _) => if |es| > 0 then es[0] else StatusOK
    case CreatedNoBody => StatusCreated
  }

  /**
   * The shape of a planned call: it sends `verb` to `url` with `query` and `body`, the
   * response must carry `status`, and `decodes` says whether the body is decoded into the result.
   */
  predicate Sends(c: Call, verb: Method, url: string, query: map<string, seq<string>>, body: Option<Json>,
                  status: int, decodes: bool) {
    && c.request.verb == verb
    && c.request.url == url
    && c.request.query == query
    && c.request.body == body
    && ExpectedCode(c.handling) == status
    && (if c.handling.Decoding? then c.handling.into == decodes else !decodes)
  }

  /** A planned call without query parameters. */
  predicate Plans(c: Call, verb: Method, url: string, body: Option<Json>, status: int, decodes: bool) {
    Sends(c, verb, url, map[], body, status, decodes)
  }

  /**
   * What came back from the transport: a transport failure or a response with its status,
   * the body text read from it (and whether reading it failed), and the destination value
   * the body decodes to (None when it does not decode).
   */
  datatype Exchange<T> =
    | TransportFailed
    | Delivered(status: int, body: string, bodyReadable: bool, decoded: Option<T>)

  datatype Decoded<T> = Decoded(status: int, value: Option<T>)

  /** decodeResponse: exact status match, then an optional decode into the destination. */
  function DecodeResponse<T>(ex: Exchange<T>, into: bool, expectedStatus: seq<int>): (r: Result<Decoded<T>, Error>)
    ensures var code := ExpectedCode(Decoding(expectedStatus, into));
            && (r.Success? <==> ex.Delivered? && ex.status == code && (into ==> ex.decoded.Some?))
            && (r.Success? ==> r.value.status == code && r.value.value == (if into then ex.decoded else None))
            && (ex.TransportFailed? ==> r == Failure(TransportError))
            && (ex.Delivered? && ex.status != code ==>
                  r == Failure(if ex.bodyReadable then Api(ex.status, ex.body) else ReadFailed(ex.status)))
            && (ex.Delivered? && ex.status == code && into && ex.decoded.None? ==> r == Failure(DecodeError))
  {
    var code := if |expectedStatus| > 0 then expectedStatus[0] else StatusOK;
    match ex
    case TransportFailed => Failure(TransportError)
    case Delivered(status, body, readable, decoded) =>
      if status != code then
        (if readable then Failure(Api(status, body)) else Failure(ReadFailed(status)))
      else if into then
        (if decoded.Some? then Success(Decoded(status, decoded)) else Failure(DecodeError))
      else Success(Decoded(status, None))
  }

  /**
   * The inline check of the three synthesising create methods: only 201 is success,
   * and any other status is an API error with the body text (a read error is ignored).
   */
  function CheckCreated<T>(ex: Exchange<T>): (r: Result<(), Error>)
    ensures r.Success? <==> ex.Delivered? && ex.status == StatusCreated
    ensures ex.Delivered? && ex.status != StatusCreated ==> r == Failure(Api(ex.status, ex.body))
    ensures ex.TransportFailed? ==> r == Failure(TransportError)
  {
    match ex
    case TransportFailed => Failure(TransportError)
    case Delivered(status, body, _, _) =>
      if status != StatusCreated then Failure(Api(status, body)) else Success(())
  }

  /** The result a planned call hands back: the decoded value, if any, or the error. */
  function Perform<T>(call: Call, ex: Exchange<T>): (r: Result<Option<T>, Error>)
    ensures var decodes := call.handling.Decoding? && call.handling.into;
            && (r.Success? <==> ex.Delivered? && ex.status == ExpectedCode(call.handling) && (decodes ==> ex.decoded.Some?))
            && (r.Success? ==> r.value == (if decodes then ex.decoded else None))
            && (ex.TransportFailed? ==> r == Failure(TransportError))
  {
    match call.handling
    case Decoding(es, into) =>
      (match DecodeResponse(ex, into, es)
       case Success(d) => Success(d.value)
       case Failure(e) => Failure(e))
    case CreatedNoBody =>
      (match CheckCreated(ex)
       case Success(_) => Success(None)
       case Failure(e) => Failure(e))
  }

  /** A status other than the expected one, 2xx or not, is an API error carrying that status and body. */
  lemma WrongStatusIsApiError<T>(call: Call, status: int, body: string, decoded: Option<T>)
    requires status != ExpectedCode(call.handling)
    ensures Perform(call, Delivered(status, body, true, decoded)) == Failure(Api(status, body))
  {
  }

  /** On the expected status, a decoding call returns exactly the decoded value, and a discarding call nothing. */
  lemma ExpectedStatusSucceeds<T>(call: Call, body: string, readable: bool, v: T)
    requires call.handling.Decoding?
    ensures Perform(call, Delivered(ExpectedCode(call.handling), body, readable, Some(v))) ==
            Success(if call.handling.into then Some(v) else None)
  {
  }
}
