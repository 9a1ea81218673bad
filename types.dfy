/**
 * The payload structs of types.go with the wire form encoding/json gives them
 * (fields in declaration order, `omitempty` fields left out at their zero value,
 * pointer fields left out when nil), the column colours, the card filters, and the
 * records some methods build themselves instead of decoding.
 */
module Types {
  import opened Wrappers
  import opened Json
  import Paths

  // ---------------------------------------------------------------------------
  // Column colours

  type Color = string

  const ColorBlue: Color := "var(--color-card-default)"
  const ColorGray: Color := "var(--color-card-1)"
  const ColorTan: Color := "var(--color-card-2)"
  const ColorYellow: Color := "var(--color-card-3)"
  const ColorLime: Color := "var(--color-card-4)"
  const ColorAqua: Color := "var(--color-card-5)"
  const ColorViolet: Color := "var(--color-card-6)"
  const ColorPurple: Color := "var(--color-card-7)"
  const ColorPink: Color := "var(--color-card-8)"

  const ColorPrefix: string := "var(--color-card-"

  /**
   * The nine colours in declaration order: the default card colour, then card colours 1 to 8,
   * each a distinct card-colour CSS variable.
   */
  function AllColors(): (cs: seq<Color>)
    ensures |cs| == 9 && cs[0] == ColorBlue && cs[8] == ColorPink
    ensures cs[0] == ColorPrefix + "default)"
    ensures forall i :: 1 <= i < |cs| ==> cs[i] == ColorPrefix + Paths.Decimal(i) + ")"
    ensures forall i, j :: 0 <= i < j < |cs| ==> cs[i] != cs[j]
    ensures forall i :: 0 <= i < |cs| ==> |ColorPrefix| < |cs[i]| && cs[i][..|ColorPrefix|] == ColorPrefix
  {
    [ColorBlue, ColorGray, ColorTan, ColorYellow, ColorLime, ColorAqua, ColorViolet, ColorPurple, ColorPink]
  }

  // ---------------------------------------------------------------------------
  // Boards

  /** No field is `omitempty`: all four are always written. */
  datatype CreateBoardPayload = CreateBoardPayload(
    name: string, allAccess: bool, autoPostponePeriod: int, publicDescription: string)

  const CreateBoardKeys: seq<string> := ["name", "all_access", "auto_postpone_period", "public_description"]

  function CreateBoardValues(p: CreateBoardPayload): seq<Option<Json>> {
    [Some(JString(p.name)),
     Some(JBool(p.allAccess)),
     Some(JInt(p.autoPostponePeriod)),
     Some(JString(p.publicDescription))]
  }

  function CreateBoardJson(p: CreateBoardPayload): Json {
    JObject(Members(CreateBoardKeys, CreateBoardValues(p)))
  }

  /** Strings left out when empty; the two pointers left out only when nil. */
  datatype UpdateBoardPayload = UpdateBoardPayload(
    name: string, allAccess: Option<bool>, autoPostponePeriod: Option<int>, publicDescription: string)

  const UpdateBoardKeys: seq<string> := ["name", "all_access", "auto_postpone_period", "public_description"]

  function UpdateBoardValues(p: UpdateBoardPayload): seq<Option<Json>> {
    [OmitEmpty(p.name),
     if p.allAccess.Some? then Some(JBool(p.allAccess.value)) else None,
     if p.autoPostponePeriod.Some? then Some(JInt(p.autoPostponePeriod.value)) else None,
     OmitEmpty(p.publicDescription)]
  }

  function UpdateBoardJson(p: UpdateBoardPayload): Json {
    JObject(Members(UpdateBoardKeys, UpdateBoardValues(p)))
  }

  // ---------------------------------------------------------------------------
  // Columns

  datatype CreateColumnPayload = CreateColumnPayload(name: string, color: Option<Color>)

  const CreateColumnKeys: seq<string> := ["name", "color"]

  function CreateColumnValues(p: CreateColumnPayload): seq<Option<Json>> {
    [Some(JString(p.name)),
     if p.color.Some? then Some(JString(p.color.value)) else None]
  }

  function CreateColumnJson(p: CreateColumnPayload): Json {
    JObject(Members(CreateColumnKeys, CreateColumnValues(p)))
  }

  datatype UpdateColumnPayload = UpdateColumnPayload(name: string, color: Option<Color>)

  const UpdateColumnKeys: seq<string> := ["name", "color"]

  function UpdateColumnValues(p: UpdateColumnPayload): seq<Option<Json>> {
    [OmitEmpty(p.name),
     if p.color.Some? then Some(JString(p.color.value)) else None]
  }

  function UpdateColumnJson(p: UpdateColumnPayload): Json {
    JObject(Members(UpdateColumnKeys, UpdateColumnValues(p)))
  }

  // ---------------------------------------------------------------------------
  // Cards

  datatype CardFilters = CardFilters(
    boardIDs: seq<string>,
    tagIDs: seq<string>,
    assigneeIDs: seq<string>,
    creatorIDs: seq<string>,
    closerIDs: seq<string>,
    cardIDs: seq<string>,
    indexedBy: string,
    sortedBy: string,
    assignmentStatus: string,
    creationStatus: string,
    closureStatus: string,
    terms: seq<string>)

  const NoFilters: CardFilters := CardFilters([], [], [], [], [], [], "", "", "", "", "", [])

  datatype CreateCardPayload = CreateCardPayload(
    title: string,
    description: string,
    status: string,
    imageURL: string,
    tagIDs: seq<string>,
    createdAt: string,
    lastActiveAt: string)

  const CreateCardKeys: seq<string> := ["title", "description", "status", "image_url", "tag_ids", "created_at", "last_active_at"]

  function CreateCardValues(p: CreateCardPayload): seq<Option<Json>> {
    [Some(JString(p.title)),
     OmitEmpty(p.description),
     OmitEmpty(p.status),
     OmitEmpty(p.imageURL),
     OmitEmptyStrings(p.tagIDs),
     OmitEmpty(p.createdAt),
     OmitEmpty(p.lastActiveAt)]
  }

  function CreateCardJson(p: CreateCardPayload): Json {
    JObject(Members(CreateCardKeys, CreateCardValues(p)))
  }

  datatype UpdateCardPayload = UpdateCardPayload(
    title: string,
    description: string,
    status: string,
    tagIDs: seq<string>,
    lastActiveAt: string)

  const UpdateCardKeys: seq<string> := ["title", "description", "status", "tag_ids", "last_active_at"]

  function UpdateCardValues(p: UpdateCardPayload): seq<Option<Json>> {
    [OmitEmpty(p.title),
     OmitEmpty(p.description),
     OmitEmpty(p.status),
     OmitEmptyStrings(p.tagIDs),
     OmitEmpty(p.lastActiveAt)]
  }

  function UpdateCardJson(p: UpdateCardPayload): Json {
    JObject(Members(UpdateCardKeys, UpdateCardValues(p)))
  }

  // ---------------------------------------------------------------------------
  // Records the create methods build from their arguments

  datatype User = User(
    id: string, email: string, role: string, active: bool, name: string, createdAt: string, url: string)

  datatype CardReference = CardReference(id: string, title: string, status: string, url: string)

  datatype CommentBody = CommentBody(plainText: string, html: string)

  datatype Comment = Comment(
    id: string,
    createdAt: string,
    updatedAt: string,
    body: CommentBody,
    creator: User,
    card: CardReference,
    reactionsURL: string,
    url: string)

  datatype Reaction = Reaction(id: string, content: string, reacter: User, url: string)

  datatype Step = Step(id: string, content: string, completed: bool)

  const ZeroUser: User := User("", "", "", false, "", "", "")

  /** The Go zero value `Comment{}`. */
  const ZeroComment: Comment :=
    Comment("", "", "", CommentBody("", ""), ZeroUser, CardReference("", "", "", ""), "", "")

  // ---------------------------------------------------------------------------
  // Decoding a payload back: what a server reading the body into the same struct gets

  function DecodeCreateBoard(j: Json): Option<CreateBoardPayload> {
    if !j.JObject? then None
    else
      var name := StringField(j.fields, "name");
      var allAccess := BoolField(j.fields, "all_access");
      var period := IntField(j.fields, "auto_postpone_period");
      var description := StringField(j.fields, "public_description");
      if name.Some? && allAccess.Some? && period.Some? && description.Some?
      then Some(CreateBoardPayload(name.value, allAccess.value, period.value, description.value))
      else None
  }

  function DecodeUpdateBoard(j: Json): Option<UpdateBoardPayload> {
    if !j.JObject? then None
    else
      var name := StringField(j.fields, "name");
      var allAccess := OptBoolField(j.fields, "all_access");
      var period := OptIntField(j.fields, "auto_postpone_period");
      var description := StringField(j.fields, "public_description");
      if name.Some? && allAccess.Some? && period.Some? && description.Some?
      then Some(UpdateBoardPayload(name.value, allAccess.value, period.value, description.value))
      else None
  }

  function DecodeCreateColumn(j: Json): Option<CreateColumnPayload> {
    if !j.JObject? then None
    else
      var name := StringField(j.fields, "name");
      var color := OptStringField(j.fields, "color");
      if name.Some? && color.Some? then Some(CreateColumnPayload(name.value, color.value)) else None
  }

  function DecodeUpdateColumn(j: Json): Option<UpdateColumnPayload> {
    if !j.JObject? then None
    else
      var name := StringField(j.fields, "name");
      var color := OptStringField(j.fields, "color");
      if name.Some? && color.Some? then Some(UpdateColumnPayload(name.value, color.value)) else None
  }

  function DecodeCreateCard(j: Json): Option<CreateCardPayload> {
    if !j.JObject? then None
    else
      var title := StringField(j.fields, "title");
      var description := StringField(j.fields, "description");
      var status := StringField(j.fields, "status");
      var image := StringField(j.fields, "image_url");
      var tags := StringsField(j.fields, "tag_ids");
      var created := StringField(j.fields, "created_at");
      var active := StringField(j.fields, "last_active_at");
      if title.Some? && description.Some? && status.Some? && image.Some? && tags.Some? && created.Some? && active.Some?
      then Some(CreateCardPayload(title.value, description.value, status.value, image.value, tags.value,
                                  created.value, active.value))
      else None
  }

  function DecodeUpdateCard(j: Json): Option<UpdateCardPayload> {
    if !j.JObject? then None
    else
      var title := StringField(j.fields, "title");
      var description := StringField(j.fields, "description");
      var status := StringField(j.fields, "status");
      var tags := StringsField(j.fields, "tag_ids");
      var active := StringField(j.fields, "last_active_at");
      if title.Some? && description.Some? && status.Some? && tags.Some? && active.Some?
      then Some(UpdateCardPayload(title.value, description.value, status.value, tags.value, active.value))
      else None
  }

  // ---------------------------------------------------------------------------
  // Wire-presence rules and round trips

  /** All four board fields are always on the wire, with their values. */
  lemma CreateBoardWire(p: CreateBoardPayload)
    ensures var fs := CreateBoardJson(p).fields;
            && Lookup(fs, "name") == Some(JString(p.name))
            && Lookup(fs, "all_access") == Some(JBool(p.allAccess))
            && Lookup(fs, "auto_postpone_period") == Some(JInt(p.autoPostponePeriod))
            && Lookup(fs, "public_description") == Some(JString(p.publicDescription))
            && forall k :: k in Keys(fs) ==> k in CreateBoardKeys
  {
    var vs := CreateBoardValues(p);
    MembersLookup(CreateBoardKeys, vs, 0);
    MembersLookup(CreateBoardKeys, vs, 1);
    MembersLookup(CreateBoardKeys, vs, 2);
    MembersLookup(CreateBoardKeys, vs, 3);
    MembersNames(CreateBoardKeys, vs);
  }

  /**
   * Empty strings are left out; a pointer is left out only when nil, so a pointer to
   * false or to 0 is still written.
   */
  lemma UpdateBoardWire(p: UpdateBoardPayload)
    ensures var fs := UpdateBoardJson(p).fields;
            && Lookup(fs, "name") == (if p.name == "" then None else Some(JString(p.name)))
            && Lookup(fs, "all_access") == (if p.allAccess.None? then None else Some(JBool(p.allAccess.value)))
            && Lookup(fs, "auto_postpone_period") ==
               (if p.autoPostponePeriod.None? then None else Some(JInt(p.autoPostponePeriod.value)))
            && Lookup(fs, "public_description") ==
               (if p.publicDescription == "" then None else Some(JString(p.publicDescription)))
            && forall k :: k in Keys(fs) ==> k in UpdateBoardKeys
  {
    var vs := UpdateBoardValues(p);
    MembersLookup(UpdateBoardKeys, vs, 0);
    MembersLookup(UpdateBoardKeys, vs, 1);
    MembersLookup(UpdateBoardKeys, vs, 2);
    MembersLookup(UpdateBoardKeys, vs, 3);
    MembersNames(UpdateBoardKeys, vs);
  }

  /** `name` is always written; `color` only when set. */
  lemma CreateColumnWire(p: CreateColumnPayload)
    ensures var fs := CreateColumnJson(p).fields;
            && Lookup(fs, "name") == Some(JString(p.name))
            && Lookup(fs, "color") == (if p.color.None? then None else Some(JString(p.color.value)))
            && forall k :: k in Keys(fs) ==> k in CreateColumnKeys
  {
    var vs := CreateColumnValues(p);
    MembersLookup(CreateColumnKeys, vs, 0);
    MembersLookup(CreateColumnKeys, vs, 1);
    MembersNames(CreateColumnKeys, vs);
  }

  /** Both column fields are left out when unset. */
  lemma UpdateColumnWire(p: UpdateColumnPayload)
    ensures var fs := UpdateColumnJson(p).fields;
            && Lookup(fs, "name") == (if p.name == "" then None else Some(JString(p.name)))
            && Lookup(fs, "color") == (if p.color.None? then None else Some(JString(p.color.value)))
            && forall k :: k in Keys(fs) ==> k in UpdateColumnKeys
  {
    var vs := UpdateColumnValues(p);
    MembersLookup(UpdateColumnKeys, vs, 0);
    MembersLookup(UpdateColumnKeys, vs, 1);
    MembersNames(UpdateColumnKeys, vs);
  }

  /** `title` is always written; the other six fields only when not empty. */
  lemma CreateCardWire(p: CreateCardPayload)
    ensures var fs := CreateCardJson(p).fields;
            && Lookup(fs, "title") == Some(JString(p.title))
            && Lookup(fs, "description") == OmitEmpty(p.description)
            && Lookup(fs, "status") == OmitEmpty(p.status)
            && Lookup(fs, "image_url") == OmitEmpty(p.imageURL)
            && Lookup(fs, "tag_ids") == (if |p.tagIDs| == 0 then None else Some(JStrings(p.tagIDs)))
            && Lookup(fs, "created_at") == OmitEmpty(p.createdAt)
            && Lookup(fs, "last_active_at") == OmitEmpty(p.lastActiveAt)
            && forall k :: k in Keys(fs) ==> k in CreateCardKeys
  {
    var vs := CreateCardValues(p);
    MembersLookup(CreateCardKeys, vs, 0);
    MembersLookup(CreateCardKeys, vs, 1);
    MembersLookup(CreateCardKeys, vs, 2);
    MembersLookup(CreateCardKeys, vs, 3);
    MembersLookup(CreateCardKeys, vs, 4);
    MembersLookup(CreateCardKeys, vs, 5);
    MembersLookup(CreateCardKeys, vs, 6);
    MembersNames(CreateCardKeys, vs);
  }

  /** Every card update field is left out when empty. */
  lemma UpdateCardWire(p: UpdateCardPayload)
    ensures var fs := UpdateCardJson(p).fields;
            && Lookup(fs, "title") == OmitEmpty(p.title)
            && Lookup(fs, "description") == OmitEmpty(p.description)
            && Lookup(fs, "status") == OmitEmpty(p.status)
            && Lookup(fs, "tag_ids") == (if |p.tagIDs| == 0 then None else Some(JStrings(p.tagIDs)))
            && Lookup(fs, "last_active_at") == OmitEmpty(p.lastActiveAt)
            && forall k :: k in Keys(fs) ==> k in UpdateCardKeys
  {
    var vs := UpdateCardValues(p);
    MembersLookup(UpdateCardKeys, vs, 0);
    MembersLookup(UpdateCardKeys, vs, 1);
    MembersLookup(UpdateCardKeys, vs, 2);
    MembersLookup(UpdateCardKeys, vs, 3);
    MembersLookup(UpdateCardKeys, vs, 4);
    MembersNames(UpdateCardKeys, vs);
  }

  /** The zero card update serialises to the empty object. */
  lemma ZeroUpdateCardIsEmpty()
    ensures UpdateCardJson(UpdateCardPayload("", "", "", [], "")) == JObject([])
  {
  }

  lemma CreateBoardRoundTrip(p: CreateBoardPayload)
    ensures DecodeCreateBoard(CreateBoardJson(p)) == Some(p)
  {
    CreateBoardWire(p);
  }

  lemma UpdateBoardRoundTrip(p: UpdateBoardPayload)
    ensures DecodeUpdateBoard(UpdateBoardJson(p)) == Some(p)
  {
    UpdateBoardWire(p);
  }

  lemma CreateColumnRoundTrip(p: CreateColumnPayload)
    ensures DecodeCreateColumn(CreateColumnJson(p)) == Some(p)
  {
    CreateColumnWire(p);
  }

  lemma UpdateColumnRoundTrip(p: UpdateColumnPayload)
    ensures DecodeUpdateColumn(UpdateColumnJson(p)) == Some(p)
  {
    UpdateColumnWire(p);
  }

  /** Leaving out empty fields loses nothing: the card read back equals the card sent. */
  lemma CreateCardRoundTrip(p: CreateCardPayload)
    ensures DecodeCreateCard(CreateCardJson(p)) == Some(p)
  {
    CreateCardWire(p);
    StringsRoundTrip(p.tagIDs);
  }

  lemma UpdateCardRoundTrip(p: UpdateCardPayload)
    ensures DecodeUpdateCard(UpdateCardJson(p)) == Some(p)
  {
    UpdateCardWire(p);
    StringsRoundTrip(p.tagIDs);
  }
}
