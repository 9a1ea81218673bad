/** Request plans of boards.go: all account-scoped, so none needs a selected board. */
module Boards {
  import opened Wrappers
  import opened Json
  import opened Paths
  import opened Types
  import opened Fizzy

  function GetBoards(st: ClientState): (c: Call)
    ensures Plans(c, GET, Under(st.accountBaseURL, ["boards"]), None, StatusOK, true)
  {
    Under1(st.accountBaseURL, "boards");
    Call(NewRequest(st, GET, st.accountBaseURL + "/boards", None), Decoding([], true))
  }

  function GetBoard(st: ClientState, boardID: string): (c: Call)
    ensures Plans(c, GET, Under(st.accountBaseURL, ["boards", boardID]), None, StatusOK, true)
  {
    Under2(st.accountBaseURL, "boards", boardID);
    Call(NewRequest(st, GET, st.accountBaseURL + "/boards/" + boardID, None), Decoding([], true))
  }

  function CreateBoard(st: ClientState, payload: CreateBoardPayload): (c: Call)
    ensures Plans(c, POST, Under(st.accountBaseURL, ["boards"]),
                  Some(Wrapped("board", CreateBoardJson(payload))), StatusCreated, false)
  {
    Under1(st.accountBaseURL, "boards");
    var body := Wrapped("board", CreateBoardJson(payload));
    Call(NewRequest(st, POST, st.accountBaseURL + "/boards", Some(body)), Decoding([StatusCreated], false))
  }

  function UpdateBoard(st: ClientState, boardID: string, payload: UpdateBoardPayload): (c: Call)
    ensures Plans(c, PUT, Under(st.accountBaseURL, ["boards", boardID]),
                  Some(Wrapped("board", UpdateBoardJson(payload))), StatusNoContent, false)
  {
    Under2(st.accountBaseURL, "boards", boardID);
    var body := Wrapped("board", UpdateBoardJson(payload));
    Call(NewRequest(st, PUT, st.accountBaseURL + "/boards/" + boardID, Some(body)), Decoding([StatusNoContent], false))
  }

  function DeleteBoard(st: ClientState, boardID: string): (c: Call)
    ensures Plans(c, DELETE, Under(st.accountBaseURL, ["boards", boardID]), None, StatusNoContent, false)
  {
    Under2(st.accountBaseURL, "boards", boardID);
    Call(NewRequest(st, DELETE, st.accountBaseURL + "/boards/" + boardID, None), Decoding([StatusNoContent], false))
  }
}
