/** JSON values as Python's `json` module holds them, which allows numbers that JSON itself does not have. */
module JsonValues {
  import opened Wrappers

  /** A number without a value is NaN or an infinity. */
  datatype Json =
    | Null
    | Bool(flag: bool)
    | Number(value: Option<real>)
    | Text(text: string)
    | List(items: seq<Json>)
    | Object(fields: map<string, Json>)

  /** The value can be written as JSON: every number in it is finite. */
  predicate Strict(j: Json) {
    match j
    case Number(value) => value.Some?
    case List(items) => forall i | 0 <= i < |items| :: Strict(items[i])
    case Object(fields) => forall k | k in fields :: Strict(fields[k])
    case _ => true
  }

  /** The fields of an object; anything else has none. */
  function Fields(j: Json): map<string, Json> {
    if j.Object? then j.fields else map[]
  }

  /** `{**value, ...}`: the fields of an object, some of them replaced. */
  function Merged(j: Json, over: map<string, Json>): Json {
    Object(Fields(j) + over)
  }

  /** The fields that a merge keeps are strict. */
  predicate StrictBut(j: Json, replaced: set<string>) {
    forall k | k in Fields(j) && k !in replaced :: Strict(Fields(j)[k])
  }

  /** A merge is strict exactly when what it keeps and what it adds is. */
  lemma MergedStrictIff(j: Json, over: map<string, Json>)
    ensures Strict(Merged(j, over)) <==> StrictBut(j, over.Keys) && forall k | k in over :: Strict(over[k])
  {
    var fields := Fields(j) + over;
    if Strict(Merged(j, over)) {
      assert forall k | k in over :: k in fields && fields[k] == over[k];
      assert forall k | k in Fields(j) && k !in over :: k in fields && fields[k] == Fields(j)[k];
    }
  }
}
