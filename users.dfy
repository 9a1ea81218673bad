/** Request plans of users.go and the wire form of UpdateUserPayload. */
module Users {
  import opened Wrappers
  import opened Json
  import opened Paths
  import opened Fizzy

  /** `name` carries `omitempty`: an empty name is left out. */
  datatype UpdateUserPayload = UpdateUserPayload(name: string)

  const UpdateUserKeys: seq<string> := ["name"]

  function UpdateUserJson(p: UpdateUserPayload): Json {
    JObject(Members(UpdateUserKeys, [OmitEmpty(p.name)]))
  }

  function DecodeUpdateUser(j: Json): Option<UpdateUserPayload> {
    if !j.JObject? then None
    else
      var name := StringField(j.fields, "name");
      if name.Some? then Some(UpdateUserPayload(name.value)) else None
  }

  lemma UpdateUserWire(p: UpdateUserPayload)
    ensures var fs := UpdateUserJson(p).fields;
            && Lookup(fs, "name") == (if p.name == "" then None else Some(JString(p.name)))
            && forall k :: k in Keys(fs) ==> k in UpdateUserKeys
  {
    MembersLookup(UpdateUserKeys, [OmitEmpty(p.name)], 0);
    MembersNames(UpdateUserKeys, [OmitEmpty(p.name)]);
  }

  lemma UpdateUserRoundTrip(p: UpdateUserPayload)
    ensures DecodeUpdateUser(UpdateUserJson(p)) == Some(p)
  {
    UpdateUserWire(p);
  }

  function GetUsers(st: ClientState): (c: Call)
    ensures Plans(c, GET, Under(st.accountBaseURL, ["users"]), None, StatusOK, true)
  {
    Under1(st.accountBaseURL, "users");
    Call(NewRequest(st, GET, st.accountBaseURL + "/users", None), Decoding([], true))
  }

  function GetUser(st: ClientState, userID: string): (c: Call)
    ensures Plans(c, GET, Under(st.accountBaseURL, ["users", userID]), None, StatusOK, true)
  {
    Under2(st.accountBaseURL, "users", userID);
    Call(NewRequest(st, GET, st.accountBaseURL + "/users/" + userID, None), Decoding([], true))
  }

  function UpdateUser(st: ClientState, userID: string, payload: UpdateUserPayload): (c: Call)
    ensures Plans(c, PUT, Under(st.accountBaseURL, ["users", userID]),
                  Some(Wrapped("user", UpdateUserJson(payload))), StatusNoContent, false)
  {
    Under2(st.accountBaseURL, "users", userID);
    var body := Wrapped("user", UpdateUserJson(payload));
    Call(NewRequest(st, PUT, st.accountBaseURL + "/users/" + userID, Some(body)), Decoding([StatusNoContent], false))
  }

  function DeactivateUser(st: ClientState, userID: string): (c: Call)
    ensures Plans(c, DELETE, Under(st.accountBaseURL, ["users", userID]), None, StatusNoContent, false)
  {
    Under2(st.accountBaseURL, "users", userID);
    Call(NewRequest(st, DELETE, st.accountBaseURL + "/users/" + userID, None), Decoding([StatusNoContent], false))
  }
}
