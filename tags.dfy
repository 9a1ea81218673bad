/** The request plan of tags.go. */
module Tags {
  import opened Wrappers
  import opened Paths
  import opened Fizzy

  function GetTags(st: ClientState): (c: Call)
    ensures Plans(c, GET, Under(st.accountBaseURL, ["tags"]), None, StatusOK, true)
  {
    Under1(st.accountBaseURL, "tags");
    Call(NewRequest(st, GET, st.accountBaseURL + "/tags", None), Decoding([], true))
  }
}
