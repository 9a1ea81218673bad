/** Request plans of columns.go: every column method is board-scoped. */
module Columns {
  import opened Wrappers
  import opened Json
  import opened Paths
  import opened Types
  import opened Fizzy

  function GetColumns(st: ClientState): (r: Result<Call, Error>)
    ensures r.Failure? <==> st.boardBaseURL == ""
    ensures r.Failure? ==> r.error == NoBoardSelected
    ensures r.Success? ==> Plans(r.value, GET, Under(st.boardBaseURL, ["columns"]), None, StatusOK, true)
  {
    if st.boardBaseURL == "" then Failure(NoBoardSelected)
    else
      Under1(st.boardBaseURL, "columns");
      Success(Call(NewRequest(st, GET, st.boardBaseURL + "/columns", None), Decoding([], true)))
  }

  function GetColumn(st: ClientState, columnID: string): (r: Result<Call, Error>)
    ensures r.Failure? <==> st.boardBaseURL == ""
    ensures r.Failure? ==> r.error == NoBoardSelected
    ensures r.Success? ==> Plans(r.value, GET, Under(st.boardBaseURL, ["columns", columnID]), None, StatusOK, true)
  {
    if st.boardBaseURL == "" then Failure(NoBoardSelected)
    else
      Under2(st.boardBaseURL, "columns", columnID);
      Success(Call(NewRequest(st, GET, st.boardBaseURL + "/columns/" + columnID, None), Decoding([], true)))
  }

  function CreateColumn(st: ClientState, payload: CreateColumnPayload): (r: Result<Call, Error>)
    ensures r.Failure? <==> st.boardBaseURL == ""
    ensures r.Failure? ==> r.error == NoBoardSelected
    ensures r.Success? ==> Plans(r.value, POST, Under(st.boardBaseURL, ["columns"]),
                                 Some(Wrapped("column", CreateColumnJson(payload))), StatusCreated, false)
  {
    if st.boardBaseURL == "" then Failure(NoBoardSelected)
    else
      Under1(st.boardBaseURL, "columns");
      var body := Wrapped("column", CreateColumnJson(payload));
      Success(Call(NewRequest(st, POST, st.boardBaseURL + "/columns", Some(body)), Decoding([StatusCreated], false)))
  }

  function UpdateColumn(st: ClientState, columnID: string, payload: UpdateColumnPayload): (r: Result<Call, Error>)
    ensures r.Failure? <==> st.boardBaseURL == ""
    ensures r.Failure? ==> r.error == NoBoardSelected
    ensures r.Success? ==> Plans(r.value, PUT, Under(st.boardBaseURL, ["columns", columnID]),
                                 Some(Wrapped("column", UpdateColumnJson(payload))), StatusNoContent, false)
  {
    if st.boardBaseURL == "" then Failure(NoBoardSelected)
    else
      Under2(st.boardBaseURL, "columns", columnID);
      var body := Wrapped("column", UpdateColumnJson(payload));
      Success(Call(NewRequest(st, PUT, st.boardBaseURL + "/columns/" + columnID, Some(body)),
                   Decoding([StatusNoContent], false)))
  }

  function DeleteColumn(st: ClientState, columnID: string): (r: Result<Call, Error>)
    ensures r.Failure? <==> st.boardBaseURL == ""
    ensures r.Failure? ==> r.error == NoBoardSelected
    ensures r.Success? ==> Plans(r.value, DELETE, Under(st.boardBaseURL, ["columns", columnID]), None, StatusNoContent, false)
  {
    if st.boardBaseURL == "" then Failure(NoBoardSelected)
    else
      Under2(st.boardBaseURL, "columns", columnID);
      Success(Call(NewRequest(st, DELETE, st.boardBaseURL + "/columns/" + columnID, None),
                   Decoding([StatusNoContent], false)))
  }
}
