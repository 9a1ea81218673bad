/**
 * cards.go: the card filters as a url.Values query, and the request plans of the card
 * endpoints. Cards are addressed by number under the account (`/cards/<n>`); only
 * CreateCard is board-scoped.
 */
module Cards {
  import opened Wrappers
  import opened Json
  import opened Paths
  import opened Types
  import opened Fizzy

  // ---------------------------------------------------------------------------
  // The query (url.Values: each key maps to its list of values)

  type Query = map<string, seq<string>>

  /** url.Values.Add: appends `v` to the values of `key`. */
  function Add(q: Query, key: string, v: string): Query {
    q[key := (if key in q then q[key] else []) + [v]]
  }

  /** One Add per value, in order: the loop of GetCards over one slice filter. */
  function AddAll(q: Query, key: string, vals: seq<string>): Query
    decreases |vals|
  {
    if vals == [] then q else Add(AddAll(q, key, vals[..|vals| - 1]), key, vals[|vals| - 1])
  }

  /** url.Values.Set guarded by a non-empty check: one scalar filter. */
  function SetNonEmpty(q: Query, key: string, v: string): Query {
    if v == "" then q else q[key := [v]]
  }

  /** One filter step of GetCards: a slice filter added value by value, or a scalar one set. */
  datatype FilterStep = Many(key: string, values: seq<string>) | One(key: string, value: string)

  function Put(q: Query, x: FilterStep): Query {
    match x
    case Many(k, vs) => AddAll(q, k, vs)
    case One(k, v) => SetNonEmpty(q, k, v)
  }

  /** The steps applied in order. */
  function Fold(q: Query, xs: seq<FilterStep>): Query
    decreases |xs|
  {
    if xs == [] then q else Put(Fold(q, xs[..|xs| - 1]), xs[|xs| - 1])
  }

  /** The twelve filter steps of GetCards, in the order the source applies them. */
  function CardFilterSteps(f: CardFilters): seq<FilterStep> {
    [Many("board_ids[]", f.boardIDs),
     Many("tag_ids[]", f.tagIDs),
     Many("assignee_ids[]", f.assigneeIDs),
     Many("creator_ids[]", f.creatorIDs),
     Many("closer_ids[]", f.closerIDs),
     Many("card_ids[]", f.cardIDs),
     Many("terms[]", f.terms),
     One("indexed_by", f.indexedBy),
     One("sorted_by", f.sortedBy),
     One("assignment_status", f.assignmentStatus),
     One("creation", f.creationStatus),
     One("closure", f.closureStatus)]
  }

  /** The query GetCards attaches to its request. */
  function CardQuery(f: CardFilters): Query {
    Fold(map[], CardFilterSteps(f))
  }

  /** The wire keys of the filter steps, in order. */
  const CardQueryKeys: seq<string> :=
    ["board_ids[]", "tag_ids[]", "assignee_ids[]", "creator_ids[]", "closer_ids[]", "card_ids[]", "terms[]",
     "indexed_by", "sorted_by", "assignment_status", "creation", "closure"]

  /** `q` holds exactly `vals` under `key`, and no entry at all when `vals` is empty. */
  predicate Carries(q: Query, key: string, vals: seq<string>) {
    if vals == [] then key !in q else key in q && q[key] == vals
  }

  /** The values a scalar filter contributes: none when empty, else itself. */
  function Scalar(v: string): seq<string> {
    if v == "" then [] else [v]
  }

  /** The values a step contributes to its key. */
  function Contribution(x: FilterStep): seq<string> {
    match x
    case Many(_, vs) => vs
    case One(_, v) => Scalar(v)
  }

  /** Adding a list appends it, in order, to the key's values and leaves every other key alone. */
  lemma {:induction false} AddAllContents(q: Query, key: string, vals: seq<string>)
    ensures AddAll(q, key, vals) ==
            if vals == [] then q else q[key := (if key in q then q[key] else []) + vals]
    decreases |vals|
  {
    if vals != [] {
      var init := vals[..|vals| - 1];
      var prior := if key in q then q[key] else [];
      AddAllContents(q, key, init);
      assert init + [vals[|vals| - 1]] == vals;
      assert prior + init + [vals[|vals| - 1]] == prior + vals;
      if init != [] {
        assert q[key := prior + init][key := prior + init + [vals[|vals| - 1]]] == q[key := prior + vals];
      }
    }
  }

  /** A step on a fresh key carries its contribution and leaves every other key alone. */
  lemma PutContents(q: Query, x: FilterStep)
    ensures x.key !in q ==> Carries(Put(q, x), x.key, Contribution(x))
    ensures forall k :: k != x.key ==> (k in Put(q, x) <==> k in q)
    ensures forall k :: k != x.key && k in q ==> Put(q, x)[k] == q[k]
  {
    if x.Many? {
      AddAllContents(q, x.key, x.values);
    }
  }

  /** The keys of a fold are those it started with and those of its steps. */
  lemma {:induction false} FoldKeys(q: Query, xs: seq<FilterStep>, k: string)
    requires k in Fold(q, xs) && k !in q
    ensures exists j :: 0 <= j < |xs| && xs[j].key == k
    decreases |xs|
  {
    var n := |xs|;
    PutContents(Fold(q, xs[..n - 1]), xs[n - 1]);
    if k != xs[n - 1].key {
      FoldKeys(q, xs[..n - 1], k);
      var j :| 0 <= j < n - 1 && xs[..n - 1][j].key == k;
      assert xs[j].key == k;
    }
  }

  /** With pairwise distinct keys, each step's contribution reaches the folded query intact. */
  lemma {:induction false} FoldCarries(xs: seq<FilterStep>, i: nat)
    requires i < |xs|
    requires forall a, b :: 0 <= a < b < |xs| ==> xs[a].key != xs[b].key
    ensures Carries(Fold(map[], xs), xs[i].key, Contribution(xs[i]))
    decreases |xs|
  {
    var n := |xs|;
    var prev := Fold(map[], xs[..n - 1]);
    PutContents(prev, xs[n - 1]);
    if i == n - 1 {
      if xs[i].key in prev {
        FoldKeys(map[], xs[..n - 1], xs[i].key);
      }
    } else {
      FoldCarries(xs[..n - 1], i);
    }
  }

  /**
   * Each filter reaches the query under its own wire key with exactly its values, in
   * order; an empty filter sends nothing; no other key is ever sent.
   */
  lemma CardQueryContents(f: CardFilters)
    ensures forall i :: 0 <= i < |CardQueryKeys| ==>
              Carries(CardQuery(f), CardQueryKeys[i], Contribution(CardFilterSteps(f)[i]))
    ensures forall k :: k in CardQuery(f) ==> k in CardQueryKeys
  {
    var xs := CardFilterSteps(f);
    FilterStepKeys(f);
    forall i | 0 <= i < |CardQueryKeys|
      ensures Carries(CardQuery(f), CardQueryKeys[i], Contribution(xs[i]))
    {
      FoldCarries(xs, i);
    }
    forall k | k in CardQuery(f)
      ensures k in CardQueryKeys
    {
      FoldKeys(map[], xs, k);
    }
  }

  /** Each slice filter is sent under its wire key with exactly its values, in order. */
  lemma SliceFiltersSent(f: CardFilters)
    ensures var q := CardQuery(f);
            && Carries(q, "board_ids[]", f.boardIDs)
            && Carries(q, "tag_ids[]", f.tagIDs)
            && Carries(q, "assignee_ids[]", f.assigneeIDs)
            && Carries(q, "creator_ids[]", f.creatorIDs)
            && Carries(q, "closer_ids[]", f.closerIDs)
            && Carries(q, "card_ids[]", f.cardIDs)
            && Carries(q, "terms[]", f.terms)
  {
    FilterStepKeys(f);
    FoldCarries(CardFilterSteps(f), 0);
    FoldCarries(CardFilterSteps(f), 1);
    FoldCarries(CardFilterSteps(f), 2);
    FoldCarries(CardFilterSteps(f), 3);
    FoldCarries(CardFilterSteps(f), 4);
    FoldCarries(CardFilterSteps(f), 5);
    FoldCarries(CardFilterSteps(f), 6);
  }

  /**
   * Each scalar filter is sent as a single value when non-empty and is absent otherwise;
   * CreationStatus goes out as "creation" and ClosureStatus as "closure".
   */
  lemma ScalarFiltersSent(f: CardFilters)
    ensures var q := CardQuery(f);
            && Carries(q, "indexed_by", Scalar(f.indexedBy))
            && Carries(q, "sorted_by", Scalar(f.sortedBy))
            && Carries(q, "assignment_status", Scalar(f.assignmentStatus))
            && Carries(q, "creation", Scalar(f.creationStatus))
            && Carries(q, "closure", Scalar(f.closureStatus))
  {
    FilterStepKeys(f);
    FoldCarries(CardFilterSteps(f), 7);
    FoldCarries(CardFilterSteps(f), 8);
    FoldCarries(CardFilterSteps(f), 9);
    FoldCarries(CardFilterSteps(f), 10);
    FoldCarries(CardFilterSteps(f), 11);
  }

  /** The steps' keys are the wire keys, pairwise distinct. */
  lemma FilterStepKeys(f: CardFilters)
    ensures |CardFilterSteps(f)| == |CardQueryKeys|
    ensures forall j :: 0 <= j < |CardQueryKeys| ==> CardFilterSteps(f)[j].key == CardQueryKeys[j]
    ensures forall a, b :: 0 <= a < b < |CardQueryKeys| ==> CardQueryKeys[a] != CardQueryKeys[b]
  {
  }

  /** Without filters GetCards sends no query at all. */
  lemma NoFiltersNoQuery(f: CardFilters)
    requires f == NoFilters
    ensures CardQuery(f) == map[]
  {
    var q := CardQuery(f);
    CardQueryContents(f);
    forall i | 0 <= i < |CardQueryKeys|
      ensures CardQueryKeys[i] !in q
    {
      assert Contribution(CardFilterSteps(f)[i]) == [];
    }
    assert forall k :: k !in q;
    assert q.Keys == {};
  }

  /** Any filter that is set puts something on the query. */
  lemma SomeFilterSomeQuery(f: CardFilters)
    requires f != NoFilters
    ensures CardQuery(f) != map[]
  {
    SliceFiltersSent(f);
    ScalarFiltersSent(f);
  }

  /** The loop of GetCards over one slice filter, calling Add per element. */
  method AddEach(q: Query, key: string, vals: seq<string>) returns (r: Query)
    ensures r == AddAll(q, key, vals)
  {
    r := q;
    for i := 0 to |vals|
      invariant r == AddAll(q, key, vals[..i])
    {
      assert vals[..i + 1][..i] == vals[..i];
      r := Add(r, key, vals[i]);
    }
    assert vals[..|vals|] == vals;
  }

  /** One more step extends the fold of a prefix. */
  lemma FoldStep(q: Query, xs: seq<FilterStep>, k: nat)
    requires k < |xs|
    ensures Fold(q, xs[..k + 1]) == Put(Fold(q, xs[..k]), xs[k])
  {
    assert xs[..k + 1][..k] == xs[..k];
  }

  /** GetCards' query construction, step by step as the source does it. */
  method BuildCardQuery(f: CardFilters) returns (q: Query)
    ensures q == CardQuery(f)
  {
    ghost var xs := CardFilterSteps(f);
    q := map[];
    FoldStep(map[], xs, 0);
    q := AddEach(q, "board_ids[]", f.boardIDs);
    FoldStep(map[], xs, 1);
    q := AddEach(q, "tag_ids[]", f.tagIDs);
    FoldStep(map[], xs, 2);
    q := AddEach(q, "assignee_ids[]", f.assigneeIDs);
    FoldStep(map[], xs, 3);
    q := AddEach(q, "creator_ids[]", f.creatorIDs);
    FoldStep(map[], xs, 4);
    q := AddEach(q, "closer_ids[]", f.closerIDs);
    FoldStep(map[], xs, 5);
    q := AddEach(q, "card_ids[]", f.cardIDs);
    FoldStep(map[], xs, 6);
    q := AddEach(q, "terms[]", f.terms);
    FoldStep(map[], xs, 7);
    if f.indexedBy != "" {
      q := q["indexed_by" := [f.indexedBy]];
    }
    FoldStep(map[], xs, 8);
    if f.sortedBy != "" {
      q := q["sorted_by" := [f.sortedBy]];
    }
    FoldStep(map[], xs, 9);
    if f.assignmentStatus != "" {
      q := q["assignment_status" := [f.assignmentStatus]];
    }
    FoldStep(map[], xs, 10);
    if f.creationStatus != "" {
      q := q["creation" := [f.creationStatus]];
    }
    FoldStep(map[], xs, 11);
    if f.closureStatus != "" {
      q := q["closure" := [f.closureStatus]];
    }
    assert xs[..12] == xs;
  }

  // ---------------------------------------------------------------------------
  // Request plans

  function GetCards(st: ClientState, filters: CardFilters): (c: Call)
    ensures Sends(c, GET, Under(st.accountBaseURL, ["cards"]), CardQuery(filters), None, StatusOK, true)
  {
    Under1(st.accountBaseURL, "cards");
    var req := NewRequest(st, GET, st.accountBaseURL + "/cards", None);
    Call(req.(query := CardQuery(filters)), Decoding([], true))
  }

  function GetCard(st: ClientState, cardNumber: int): (c: Call)
    ensures Plans(c, GET, Under(st.accountBaseURL, ["cards", Decimal(cardNumber)]), None, StatusOK, true)
  {
    Under2(st.accountBaseURL, "cards", Decimal(cardNumber));
    Call(NewRequest(st, GET, st.accountBaseURL + "/cards/" + Decimal(cardNumber), None), Decoding([], true))
  }

  function CreateCard(st: ClientState, payload: CreateCardPayload): (r: Result<Call, Error>)
    ensures r.Failure? <==> st.boardBaseURL == ""
    ensures r.Failure? ==> r.error == NoBoardSelected
    ensures r.Success? ==> Plans(r.value, POST, Under(st.boardBaseURL, ["cards"]),
                                 Some(Wrapped("card", CreateCardJson(payload))), StatusCreated, false)
  {
    if st.boardBaseURL == "" then Failure(NoBoardSelected)
    else
      Under1(st.boardBaseURL, "cards");
      var body := Wrapped("card", CreateCardJson(payload));
      Success(Call(NewRequest(st, POST, st.boardBaseURL + "/cards", Some(body)), Decoding([StatusCreated], false)))
  }

  function UpdateCard(st: ClientState, cardNumber: int, payload: UpdateCardPayload): (c: Call)
    ensures Plans(c, PUT, Under(st.accountBaseURL, ["cards", Decimal(cardNumber)]),
                  Some(Wrapped("card", UpdateCardJson(payload))), StatusOK, true)
  {
    Under2(st.accountBaseURL, "cards", Decimal(cardNumber));
    var body := Wrapped("card", UpdateCardJson(payload));
    Call(NewRequest(st, PUT, st.accountBaseURL + "/cards/" + Decimal(cardNumber), Some(body)), Decoding([StatusOK], true))
  }

  function DeleteCard(st: ClientState, cardNumber: int): (c: Call)
    ensures Plans(c, DELETE, Under(st.accountBaseURL, ["cards", Decimal(cardNumber)]), None, StatusNoContent, false)
  {
    Under2(st.accountBaseURL, "cards", Decimal(cardNumber));
    Call(NewRequest(st, DELETE, st.accountBaseURL + "/cards/" + Decimal(cardNumber), None),
         Decoding([StatusNoContent], false))
  }

  /**
   * A body-less or flat-bodied action on a card sub-resource `/cards/<n>/<action>`,
   * judged by 204 No Content: the shape every card action method shares.
   */
  function CardAction(st: ClientState, verb: Method, cardNumber: int, action: string, body: Option<Json>): (c: Call)
    ensures Plans(c, verb, Under(st.accountBaseURL, ["cards", Decimal(cardNumber), action]), body, StatusNoContent, false)
  {
    Under3(st.accountBaseURL, "cards", Decimal(cardNumber), action);
    Call(NewRequest(st, verb, st.accountBaseURL + "/cards/" + Decimal(cardNumber) + "/" + action, body),
         Decoding([StatusNoContent], false))
  }

  function DeleteCardImage(st: ClientState, cardNumber: int): (c: Call)
    ensures Plans(c, DELETE, Under(st.accountBaseURL, ["cards", Decimal(cardNumber), "image"]), None, StatusNoContent, false)
  {
    CardAction(st, DELETE, cardNumber, "image", None)
  }

  function CloseCard(st: ClientState, cardNumber: int): (c: Call)
    ensures Plans(c, POST, Under(st.accountBaseURL, ["cards", Decimal(cardNumber), "closure"]), None, StatusNoContent, false)
  {
    CardAction(st, POST, cardNumber, "closure", None)
  }

  function ReopenCard(st: ClientState, cardNumber: int): (c: Call)
    ensures Plans(c, DELETE, Under(st.accountBaseURL, ["cards", Decimal(cardNumber), "closure"]), None, StatusNoContent, false)
  {
    CardAction(st, DELETE, cardNumber, "closure", None)
  }

  function PostponeCard(st: ClientState, cardNumber: int): (c: Call)
    ensures Plans(c, POST, Under(st.accountBaseURL, ["cards", Decimal(cardNumber), "not_now"]), None, StatusNoContent, false)
  {
    CardAction(st, POST, cardNumber, "not_now", None)
  }

  function TriageCard(st: ClientState, cardNumber: int, columnID: string): (c: Call)
    ensures Plans(c, POST, Under(st.accountBaseURL, ["cards", Decimal(cardNumber), "triage"]),
                  Some(Wrapped("column_id", JString(columnID))), StatusNoContent, false)
  {
    CardAction(st, POST, cardNumber, "triage", Some(Wrapped("column_id", JString(columnID))))
  }

  function UnTriageCard(st: ClientState, cardNumber: int): (c: Call)
    ensures Plans(c, DELETE, Under(st.accountBaseURL, ["cards", Decimal(cardNumber), "triage"]), None, StatusNoContent, false)
  {
    CardAction(st, DELETE, cardNumber, "triage", None)
  }

  function WatchCard(st: ClientState, cardNumber: int): (c: Call)
    ensures Plans(c, POST, Under(st.accountBaseURL, ["cards", Decimal(cardNumber), "watch"]), None, StatusNoContent, false)
  {
    CardAction(st, POST, cardNumber, "watch", None)
  }

  function UnwatchCard(st: ClientState, cardNumber: int): (c: Call)
    ensures Plans(c, DELETE, Under(st.accountBaseURL, ["cards", Decimal(cardNumber), "watch"]), None, StatusNoContent, false)
  {
    CardAction(st, DELETE, cardNumber, "watch", None)
  }

  function MarkCardGolden(st: ClientState, cardNumber: int): (c: Call)
    ensures Plans(c, POST, Under(st.accountBaseURL, ["cards", Decimal(cardNumber), "goldness"]), None, StatusNoContent, false)
  {
    CardAction(st, POST, cardNumber, "goldness", None)
  }

  function UnmarkCardGolden(st: ClientState, cardNumber: int): (c: Call)
    ensures Plans(c, DELETE, Under(st.accountBaseURL, ["cards", Decimal(cardNumber), "goldness"]), None, StatusNoContent, false)
  {
    CardAction(st, DELETE, cardNumber, "goldness", None)
  }

  function AssignCard(st: ClientState, cardNumber: int, userID: string): (c: Call)
    ensures Plans(c, POST, Under(st.accountBaseURL, ["cards", Decimal(cardNumber), "assignments"]),
                  Some(Wrapped("assignee_id", JString(userID))), StatusNoContent, false)
  {
    CardAction(st, POST, cardNumber, "assignments", Some(Wrapped("assignee_id", JString(userID))))
  }

  function TagCard(st: ClientState, cardNumber: int, tagTitle: string): (c: Call)
    ensures Plans(c, POST, Under(st.accountBaseURL, ["cards", Decimal(cardNumber), "taggings"]),
                  Some(Wrapped("tag_title", JString(tagTitle))), StatusNoContent, false)
  {
    CardAction(st, POST, cardNumber, "taggings", Some(Wrapped("tag_title", JString(tagTitle))))
  }
}
