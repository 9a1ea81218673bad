/** reactions.go: reactions to a comment, under `/cards/<n>/comments/<id>/reactions`. */
module Reactions {
  import opened Wrappers
  import opened Json
  import opened Paths
  import opened Types
  import opened Fizzy

  /** `{"reaction": {"content": <content>}}`. */
  function ReactionBodyJson(content: string): Json {
    Wrapped("reaction", Wrapped("content", JString(content)))
  }

  function DecodeReactionBody(j: Json): Option<string> {
    if j.JObject? then
      match Lookup(j.fields, "reaction")
      case Some(inner) => if inner.JObject? then StringField(inner.fields, "content") else None
      case None => None
    else None
  }

  lemma ReactionBodyRoundTrip(content: string)
    ensures DecodeReactionBody(ReactionBodyJson(content)) == Some(content)
  {
  }

  function GetCommentReactions(st: ClientState, cardNumber: int, commentID: string): (c: Call)
    ensures Plans(c, GET, Under(st.accountBaseURL, ["cards", Decimal(cardNumber), "comments", commentID, "reactions"]),
                  None, StatusOK, true)
  {
    Under5(st.accountBaseURL, "cards", Decimal(cardNumber), "comments", commentID, "reactions");
    Call(NewRequest(st, GET, st.accountBaseURL + "/cards/" + Decimal(cardNumber) + "/comments/" + commentID + "/reactions",
                    None),
         Decoding([], true))
  }

  function CreateCommentReaction(st: ClientState, cardNumber: int, commentID: string, content: string): (c: Call)
    ensures Plans(c, POST, Under(st.accountBaseURL, ["cards", Decimal(cardNumber), "comments", commentID, "reactions"]),
                  Some(ReactionBodyJson(content)), StatusCreated, false)
    ensures c.handling == CreatedNoBody
  {
    Under5(st.accountBaseURL, "cards", Decimal(cardNumber), "comments", commentID, "reactions");
    Call(NewRequest(st, POST, st.accountBaseURL + "/cards/" + Decimal(cardNumber) + "/comments/" + commentID + "/reactions",
                    Some(ReactionBodyJson(content))),
         CreatedNoBody)
  }

  /** What CreateCommentReaction returns: on 201 a reaction holding only its content; otherwise the error. */
  function CreateCommentReactionResult<T>(content: string, ex: Exchange<T>): (r: Result<Reaction, Error>)
    ensures r.Success? <==> ex.Delivered? && ex.status == StatusCreated
    ensures r.Success? ==> r.value == Reaction("", content, ZeroUser, "")
    ensures ex.Delivered? && ex.status != StatusCreated ==> r == Failure(Api(ex.status, ex.body))
    ensures ex.TransportFailed? ==> r == Failure(TransportError)
  {
    match CheckCreated(ex)
    case Success(_) => Success(Reaction("", content, ZeroUser, ""))
    case Failure(e) => Failure(e)
  }
  /** The reaction creation's outcome is Perform of its plan, with the synthesised reaction in place of "no value". */
  lemma CreateCommentReactionOutcome<T>(st: ClientState, cardNumber: int, commentID: string, content: string,
                                        ex: Exchange<T>)
    ensures var r := CreateCommentReactionResult(content, ex);
            var p := Perform(CreateCommentReaction(st, cardNumber, commentID, content), ex);
            && (r.Success? <==> p.Success?)
            && (p.Success? ==> p.value.None?)
            && (r.Failure? ==> r.error == p.error)
  {
  }


  function DeleteCommentReaction(st: ClientState, cardNumber: int, commentID: string, reactionID: string): (c: Call)
    ensures Plans(c, DELETE,
                  Under(st.accountBaseURL, ["cards", Decimal(cardNumber), "comments", commentID, "reactions", reactionID]),
                  None, StatusNoContent, false)
  {
    var comment := st.accountBaseURL + "/cards/" + Decimal(cardNumber) + "/comments/" + commentID;
    Under4(st.accountBaseURL, "cards", Decimal(cardNumber), "comments", commentID);
    assert Under(st.accountBaseURL, ["cards", Decimal(cardNumber), "comments", commentID]) == comment;
    Under2(comment, "reactions", reactionID);
    assert comment + "/" + "reactions" + "/" + reactionID == comment + "/reactions/" + reactionID;
    UnderAppend(st.accountBaseURL, ["cards", Decimal(cardNumber), "comments", commentID], ["reactions", reactionID]);
    assert ["cards", Decimal(cardNumber), "comments", commentID] + ["reactions", reactionID] ==
           ["cards", Decimal(cardNumber), "comments", commentID, "reactions", reactionID];
    Call(NewRequest(st, DELETE, comment + "/reactions/" + reactionID, None),
         Decoding([StatusNoContent], false))
  }
}
