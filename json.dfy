/** JSON values as they travel on the wire: the shape encoding/json produces and reads. */
module Json {
  import opened Wrappers

  /** An object keeps its members in the order the encoder writes them. */
  datatype Json =
    | JNull
    | JBool(b: bool)
    | JInt(i: int)
    | JString(s: string)
    | JArray(items: seq<Json>)
    | JObject(fields: seq<(string, Json)>)

  /** The member names of an object, in wire order. */
  function Keys(fields: seq<(string, Json)>): (ks: seq<string>)
    ensures |ks| == |fields|
    ensures forall i :: 0 <= i < |fields| ==> ks[i] == fields[i].0
  {
    if fields == [] then [] else [fields[0].0] + Keys(fields[1..])
  }

  /** The value of the first member named `key`. */
  function Lookup(fields: seq<(string, Json)>, key: string): Option<Json>
  {
    if fields == [] then None
    else if fields[0].0 == key then Some(fields[0].1)
    else Lookup(fields[1..], key)
  }

  /**
   * An object written from a struct's field names and values in declaration order: a
   * field whose value is None (an `omitempty` field at its zero value, a nil pointer) is
   * left out of the wire form.
   */
  function Members(names: seq<string>, values: seq<Option<Json>>): (fields: seq<(string, Json)>)
    requires |names| == |values|
    ensures |fields| <= |names|
  {
    if names == [] then []
    else match values[0]
      case None => Members(names[1..], values[1..])
      case Some(v) => [(names[0], v)] + Members(names[1..], values[1..])
  }

  /** With every field left out the object is empty. */
  lemma {:induction false} MembersNone(names: seq<string>, values: seq<Option<Json>>)
    requires |names| == |values|
    requires forall i :: 0 <= i < |values| ==> values[i].None?
    ensures Members(names, values) == []
    decreases |names|
  {
    if names != [] {
      assert forall i :: 0 <= i < |values[1..]| ==> values[1..][i] == values[i + 1];
      MembersNone(names[1..], values[1..]);
    }
  }

  predicate Distinct(names: seq<string>) {
    names == [] || (names[0] !in names[1..] && Distinct(names[1..]))
  }

  /** Each field reads back as written, and is absent exactly when it was left out. */
  lemma {:induction false} MembersLookup(names: seq<string>, values: seq<Option<Json>>, i: nat)
    requires |names| == |values| && i < |names| && Distinct(names)
    ensures Lookup(Members(names, values), names[i]) == values[i]
  {
    if i == 0 {
      MembersAvoid(names[1..], values[1..], names[0]);
    } else {
      MembersLookup(names[1..], values[1..], i - 1);
      assert names[i] in names[1..];
    }
  }

  /** A name not among the fields is not on the wire. */
  lemma {:induction false} MembersAvoid(names: seq<string>, values: seq<Option<Json>>, key: string)
    requires |names| == |values| && key !in names
    ensures Lookup(Members(names, values), key) == None
  {
    if names != [] {
      MembersAvoid(names[1..], values[1..], key);
    }
  }

  /** Only the struct's own field names ever appear on the wire. */
  lemma {:induction false} MembersNames(names: seq<string>, values: seq<Option<Json>>)
    requires |names| == |values|
    ensures forall k :: k in Keys(Members(names, values)) ==> k in names
  {
    if names != [] {
      MembersNames(names[1..], values[1..]);
      assert names == [names[0]] + names[1..];
      if values[0].Some? {
        assert Keys(Members(names, values)) == [names[0]] + Keys(Members(names[1..], values[1..]));
      }
    }
  }

  /** `omitempty` on a string: the empty string is left out. */
  function OmitEmpty(s: string): Option<Json> {
    if s == "" then None else Some(JString(s))
  }

  /** `omitempty` on a slice: the empty slice is left out. */
  function OmitEmptyStrings(ss: seq<string>): Option<Json> {
    if |ss| == 0 then None else Some(JStrings(ss))
  }

  /** `{"<key>": inner}`: a payload wrapped under a single top-level key. */
  function Wrapped(key: string, inner: Json): Json {
    JObject([(key, inner)])
  }

  /** A JSON array of strings, the encoding of a Go `[]string`. */
  function JStrings(ss: seq<string>): (j: Json)
    ensures j.JArray? && |j.items| == |ss|
    ensures forall i :: 0 <= i < |ss| ==> j.items[i] == JString(ss[i])
  {
    JArray(seq(|ss|, i requires 0 <= i < |ss| => JString(ss[i])))
  }

  /** Reads back an array of strings; any other element kind is a decode error. */
  function StringsOf(items: seq<Json>): (r: Option<seq<string>>)
    ensures r.Some? ==> |r.value| == |items|
  {
    if items == [] then Some([])
    else if !items[0].JString? then None
    else match StringsOf(items[1..])
      case None => None
      case Some(rest) => Some([items[0].s] + rest)
  }

  lemma {:induction false} StringsRoundTrip(ss: seq<string>)
    ensures StringsOf(JStrings(ss).items) == Some(ss)
  {
    if ss != [] {
      var items := JStrings(ss).items;
      StringsRoundTrip(ss[1..]);
      assert items[1..] == JStrings(ss[1..]).items;
      assert items[0] == JString(ss[0]);
      assert ss == [ss[0]] + ss[1..];
    }
  }

  // Field readers with encoding/json's rules for a struct destination: a missing member or
  // a JSON null leaves the Go zero value; a member of the wrong kind is a decode error.

  function StringField(fields: seq<(string, Json)>, key: string): Option<string> {
    match Lookup(fields, key)
    case None => Some("")
    case Some(JNull) => Some("")
    case Some(JString(s)) => Some(s)
    case Some(_) => None
  }

  function BoolField(fields: seq<(string, Json)>, key: string): Option<bool> {
    match Lookup(fields, key)
    case None => Some(false)
    case Some(JNull) => Some(false)
    case Some(JBool(b)) => Some(b)
    case Some(_) => None
  }

  function IntField(fields: seq<(string, Json)>, key: string): Option<int> {
    match Lookup(fields, key)
    case None => Some(0)
    case Some(JNull) => Some(0)
    case Some(JInt(i)) => Some(i)
    case Some(_) => None
  }

  /** A pointer field: absent or null decodes to nil. */
  function OptBoolField(fields: seq<(string, Json)>, key: string): Option<Option<bool>> {
    match Lookup(fields, key)
    case None => Some(None)
    case Some(JNull) => Some(None)
    case Some(JBool(b)) => Some(Some(b))
    case Some(_) => None
  }

  function OptIntField(fields: seq<(string, Json)>, key: string): Option<Option<int>> {
    match Lookup(fields, key)
    case None => Some(None)
    case Some(JNull) => Some(None)
    case Some(JInt(i)) => Some(Some(i))
    case Some(_) => None
  }

  function OptStringField(fields: seq<(string, Json)>, key: string): Option<Option<string>> {
    match Lookup(fields, key)
    case None => Some(None)
    case Some(JNull) => Some(None)
    case Some(JString(s)) => Some(Some(s))
    case Some(_) => None
  }

  /** A slice field: absent or null decodes to the empty (nil) slice. */
  function StringsField(fields: seq<(string, Json)>, key: string): Option<seq<string>> {
    match Lookup(fields, key)
    case None => Some([])
    case Some(JNull) => Some([])
    case Some(JArray(items)) => StringsOf(items)
    case Some(_) => None
  }
}
