/**
 * steps.go: checklist steps of a card, under `/cards/<n>/steps`. The step bodies are Go
 * maps, so encoding/json writes their keys sorted: "completed" before "content".
 */
module Steps {
  import opened Wrappers
  import opened Json
  import opened Paths
  import opened Types
  import opened Fizzy

  const StepKeys: seq<string> := ["completed", "content"]

  /** The inner step object CreateCardStep sends: both keys, always. */
  function CreateStepFields(content: string, completed: bool): seq<(string, Json)> {
    Members(StepKeys, [Some(JBool(completed)), Some(JString(content))])
  }

  /** The inner step object UpdateCardStep sends: a key only for each pointer that is non-nil. */
  function UpdateStepFields(content: Option<string>, completed: Option<bool>): seq<(string, Json)> {
    Members(StepKeys, [if completed.Some? then Some(JBool(completed.value)) else None,
                       if content.Some? then Some(JString(content.value)) else None])
  }

  /** encoding/json writes a map's entries in sorted key order; StepKeys is sorted. */
  function StepMapFields(m: map<string, Json>): seq<(string, Json)> {
    Members(StepKeys, [if "completed" in m then Some(m["completed"]) else None,
                       if "content" in m then Some(m["content"]) else None])
  }

  /** UpdateCardStep's map, built by inserting each non-nil field in place. */
  method BuildStepPayload(content: Option<string>, completed: Option<bool>) returns (m: map<string, Json>)
    ensures "content" in m <==> content.Some?
    ensures content.Some? ==> m["content"] == JString(content.value)
    ensures "completed" in m <==> completed.Some?
    ensures completed.Some? ==> m["completed"] == JBool(completed.value)
    ensures forall k :: k in m ==> k in StepKeys
    ensures StepMapFields(m) == UpdateStepFields(content, completed)
  {
    m := map[];
    if content.Some? {
      m := m["content" := JString(content.value)];
    }
    if completed.Some? {
      m := m["completed" := JBool(completed.value)];
    }
  }

  /** The update body holds exactly the given fields, with their values. */
  lemma UpdateStepWire(content: Option<string>, completed: Option<bool>)
    ensures var fs := UpdateStepFields(content, completed);
            && Lookup(fs, "content") == (if content.Some? then Some(JString(content.value)) else None)
            && Lookup(fs, "completed") == (if completed.Some? then Some(JBool(completed.value)) else None)
            && forall k :: k in Keys(fs) ==> k in StepKeys
  {
    var vs := [if completed.Some? then Some(JBool(completed.value)) else None,
               if content.Some? then Some(JString(content.value)) else None];
    MembersLookup(StepKeys, vs, 0);
    MembersLookup(StepKeys, vs, 1);
    MembersNames(StepKeys, vs);
  }

  /** With neither pointer set, UpdateCardStep still sends `{"step": {}}`. */
  lemma EmptyUpdateStillWrapped()
    ensures Wrapped("step", JObject(UpdateStepFields(None, None))) == JObject([("step", JObject([]))])
  {
    MembersNone(StepKeys, [None, None]);
  }

  /** Creating sends the same step object as an update that sets both fields. */
  lemma CreateIsFullUpdate(content: string, completed: bool)
    ensures CreateStepFields(content, completed) == UpdateStepFields(Some(content), Some(completed))
  {
  }

  function GetCardStep(st: ClientState, cardNumber: int, stepID: string): (c: Call)
    ensures Plans(c, GET, Under(st.accountBaseURL, ["cards", Decimal(cardNumber), "steps", stepID]),
                  None, StatusOK, true)
  {
    Under4(st.accountBaseURL, "cards", Decimal(cardNumber), "steps", stepID);
    Call(NewRequest(st, GET, st.accountBaseURL + "/cards/" + Decimal(cardNumber) + "/steps/" + stepID, None),
         Decoding([], true))
  }

  function CreateCardStep(st: ClientState, cardNumber: int, content: string, completed: bool): (c: Call)
    ensures Plans(c, POST, Under(st.accountBaseURL, ["cards", Decimal(cardNumber), "steps"]),
                  Some(Wrapped("step", JObject(CreateStepFields(content, completed)))), StatusCreated, false)
    ensures c.handling == CreatedNoBody
  {
    Under3(st.accountBaseURL, "cards", Decimal(cardNumber), "steps");
    var body := Wrapped("step", JObject(CreateStepFields(content, completed)));
    Call(NewRequest(st, POST, st.accountBaseURL + "/cards/" + Decimal(cardNumber) + "/steps", Some(body)),
         CreatedNoBody)
  }

  /**
   * What CreateCardStep returns, the response having no body to decode: on 201 a step
   * holding only the given content and completion (no id); otherwise the error.
   */
  function CreateCardStepResult<T>(content: string, completed: bool, ex: Exchange<T>): (r: Result<Step, Error>)
    ensures r.Success? <==> ex.Delivered? && ex.status == StatusCreated
    ensures r.Success? ==> r.value.id == "" && r.value.content == content && r.value.completed == completed
    ensures ex.Delivered? && ex.status != StatusCreated ==> r == Failure(Api(ex.status, ex.body))
    ensures ex.TransportFailed? ==> r == Failure(TransportError)
  {
    match CheckCreated(ex)
    case Success(_) => Success(Step("", content, completed))
    case Failure(e) => Failure(e)
  }
  /** The step creation's outcome is Perform of its plan, with the synthesised step in place of "no value". */
  lemma CreateCardStepOutcome<T>(st: ClientState, cardNumber: int, content: string, completed: bool, ex: Exchange<T>)
    ensures var r := CreateCardStepResult(content, completed, ex);
            var p := Perform(CreateCardStep(st, cardNumber, content, completed), ex);
            && (r.Success? <==> p.Success?)
            && (p.Success? ==> p.value.None?)
            && (r.Failure? ==> r.error == p.error)
  {
  }


  function UpdateCardStep(st: ClientState, cardNumber: int, stepID: string,
                          content: Option<string>, completed: Option<bool>): (c: Call)
    ensures Plans(c, PUT, Under(st.accountBaseURL, ["cards", Decimal(cardNumber), "steps", stepID]),
                  Some(Wrapped("step", JObject(UpdateStepFields(content, completed)))), StatusOK, true)
  {
    Under4(st.accountBaseURL, "cards", Decimal(cardNumber), "steps", stepID);
    var body := Wrapped("step", JObject(UpdateStepFields(content, completed)));
    Call(NewRequest(st, PUT, st.accountBaseURL + "/cards/" + Decimal(cardNumber) + "/steps/" + stepID, Some(body)),
         Decoding([], true))
  }

  function DeleteCardStep(st: ClientState, cardNumber: int, stepID: string): (c: Call)
    ensures Plans(c, DELETE, Under(st.accountBaseURL, ["cards", Decimal(cardNumber), "steps", stepID]),
                  None, StatusNoContent, false)
  {
    Under4(st.accountBaseURL, "cards", Decimal(cardNumber), "steps", stepID);
    Call(NewRequest(st, DELETE, st.accountBaseURL + "/cards/" + Decimal(cardNumber) + "/steps/" + stepID, None),
         Decoding([StatusNoContent], false))
  }
}
