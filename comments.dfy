/** comments.go: comments of a card, under `/cards/<n>/comments`. */
module Comments {
  import opened Wrappers
  import opened Json
  import opened Paths
  import opened Types
  import opened Fizzy

  /** `{"comment": {"body": <body>}}`, the body of both create and update. */
  function CommentBodyJson(body: string): Json {
    Wrapped("comment", Wrapped("body", JString(body)))
  }

  /** Reading back the comment text from a comment body. */
  function DecodeCommentBody(j: Json): Option<string> {
    if j.JObject? then
      match Lookup(j.fields, "comment")
      case Some(inner) => if inner.JObject? then StringField(inner.fields, "body") else None
      case None => None
    else None
  }

  lemma CommentBodyRoundTrip(body: string)
    ensures DecodeCommentBody(CommentBodyJson(body)) == Some(body)
  {
  }

  function GetCardComments(st: ClientState, cardNumber: int): (c: Call)
    ensures Plans(c, GET, Under(st.accountBaseURL, ["cards", Decimal(cardNumber), "comments"]), None, StatusOK, true)
  {
    Under3(st.accountBaseURL, "cards", Decimal(cardNumber), "comments");
    Call(NewRequest(st, GET, st.accountBaseURL + "/cards/" + Decimal(cardNumber) + "/comments", None),
         Decoding([], true))
  }

  function GetCardComment(st: ClientState, cardNumber: int, commentID: string): (c: Call)
    ensures Plans(c, GET, Under(st.accountBaseURL, ["cards", Decimal(cardNumber), "comments", commentID]),
                  None, StatusOK, true)
  {
    Under4(st.accountBaseURL, "cards", Decimal(cardNumber), "comments", commentID);
    Call(NewRequest(st, GET, st.accountBaseURL + "/cards/" + Decimal(cardNumber) + "/comments/" + commentID, None),
         Decoding([], true))
  }

  function CreateCardComment(st: ClientState, cardNumber: int, body: string): (c: Call)
    ensures Plans(c, POST, Under(st.accountBaseURL, ["cards", Decimal(cardNumber), "comments"]),
                  Some(CommentBodyJson(body)), StatusCreated, false)
    ensures c.handling == CreatedNoBody
  {
    Under3(st.accountBaseURL, "cards", Decimal(cardNumber), "comments");
    Call(NewRequest(st, POST, st.accountBaseURL + "/cards/" + Decimal(cardNumber) + "/comments",
                    Some(CommentBodyJson(body))),
         CreatedNoBody)
  }

  /** What CreateCardComment returns: on 201 an empty comment (the API sends no body); otherwise the error. */
  function CreateCardCommentResult<T>(ex: Exchange<T>): (r: Result<Comment, Error>)
    ensures r.Success? <==> ex.Delivered? && ex.status == StatusCreated
    ensures r.Success? ==> r.value == ZeroComment
    ensures ex.Delivered? && ex.status != StatusCreated ==> r == Failure(Api(ex.status, ex.body))
    ensures ex.TransportFailed? ==> r == Failure(TransportError)
  {
    match CheckCreated(ex)
    case Success(_) => Success(ZeroComment)
    case Failure(e) => Failure(e)
  }
  /** The comment creation's outcome is Perform of its plan, with the zero comment in place of "no value". */
  lemma CreateCardCommentOutcome<T>(st: ClientState, cardNumber: int, body: string, ex: Exchange<T>)
    ensures var r := CreateCardCommentResult(ex);
            var p := Perform(CreateCardComment(st, cardNumber, body), ex);
            && (r.Success? <==> p.Success?)
            && (p.Success? ==> p.value.None?)
            && (r.Failure? ==> r.error == p.error)
  {
  }


  function UpdateCardComment(st: ClientState, cardNumber: int, commentID: string, body: string): (c: Call)
    ensures Plans(c, PUT, Under(st.accountBaseURL, ["cards", Decimal(cardNumber), "comments", commentID]),
                  Some(CommentBodyJson(body)), StatusOK, true)
  {
    Under4(st.accountBaseURL, "cards", Decimal(cardNumber), "comments", commentID);
    Call(NewRequest(st, PUT, st.accountBaseURL + "/cards/" + Decimal(cardNumber) + "/comments/" + commentID,
                    Some(CommentBodyJson(body))),
         Decoding([], true))
  }

  function DeleteCardComment(st: ClientState, cardNumber: int, commentID: string): (c: Call)
    ensures Plans(c, DELETE, Under(st.accountBaseURL, ["cards", Decimal(cardNumber), "comments", commentID]),
                  None, StatusNoContent, false)
  {
    Under4(st.accountBaseURL, "cards", Decimal(cardNumber), "comments", commentID);
    Call(NewRequest(st, DELETE, st.accountBaseURL + "/cards/" + Decimal(cardNumber) + "/comments/" + commentID, None),
         Decoding([StatusNoContent], false))
  }
}
