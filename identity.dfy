/** The request plan of identity.go: the one endpoint outside the account scope. */
module Identity {
  import opened Wrappers
  import opened Paths
  import opened Fizzy

  function GetMyIdentity(st: ClientState): (c: Call)
    ensures Plans(c, GET, Under(st.baseURL, ["my", "identity"]), None, StatusOK, true)
  {
    Under2(st.baseURL, "my", "identity");
    Call(NewRequest(st, GET, st.baseURL + "/my/identity", None), Decoding([], true))
  }
}
