/**
 * JSON documents as `encoding/json` reads and writes them. A document is held
 * as its parse tree; the text rendering itself is not modelled. An object is
 * held as the map from member names to values that reading its text yields,
 * where the later of two members with the same name wins. Decoding into a Go
 * struct follows `json.Unmarshal`: a member that is absent or `null` leaves
 * the field at its zero value, a member of the wrong kind is an error, and
 * members the struct does not name are ignored.
 */
module Json {
  import opened Wrappers

  datatype Json =
    | JNull
    | JBool(b: bool)
    | JNum(n: real)
    | JStr(s: string)
    | JArr(items: seq<Json>)
    | JObj(members: map<string, Json>)

  /** Why a document does not fit the struct it is decoded into. */
  datatype DecodeError = WrongKind(name: string)

  /** The member called `key`, if the object has one. */
  function Find(members: map<string, Json>, key: string): (r: Option<Json>)
    ensures r.Some? <==> key in members
    ensures r.Some? ==> r.value == members[key]
  {
    if key in members then Some(members[key]) else None
  }

  function StringField(members: map<string, Json>, key: string): Result<string, DecodeError> {
    match Find(members, key)
    case None => Ok("")
    case Some(JNull) => Ok("")
    case Some(JStr(s)) => Ok(s)
    case Some(_) => Err(WrongKind(key))
  }

  function BoolField(members: map<string, Json>, key: string): Result<bool, DecodeError> {
    match Find(members, key)
    case None => Ok(false)
    case Some(JNull) => Ok(false)
    case Some(JBool(b)) => Ok(b)
    case Some(_) => Err(WrongKind(key))
  }

  function RealField(members: map<string, Json>, key: string): Result<real, DecodeError> {
    match Find(members, key)
    case None => Ok(0.0)
    case Some(JNull) => Ok(0.0)
    case Some(JNum(x)) => Ok(x)
    case Some(_) => Err(WrongKind(key))
  }

  /** A Go integer field: the number must be whole. */
  function IntField(members: map<string, Json>, key: string): Result<int, DecodeError> {
    match Find(members, key)
    case None => Ok(0)
    case Some(JNull) => Ok(0)
    case Some(JNum(x)) => if x.Floor as real == x then Ok(x.Floor) else Err(WrongKind(key))
    case Some(_) => Err(WrongKind(key))
  }

  /** Integers are written as JSON numbers and read back unchanged. */
  lemma IntFieldReadsBack(members: map<string, Json>, key: string, n: int)
    requires Find(members, key) == Some(JNum(n as real))
    ensures IntField(members, key) == Ok(n)
  {
  }

  /**
   * A `timestamppb.Timestamp` at whole second `t`, as `encoding/json` writes
   * the generated struct: an object whose `seconds` member is omitted when
   * it is zero.
   */
  function TimestampJson(t: int): Json {
    if t == 0 then JObj(map[]) else JObj(map["seconds" := JNum(t as real)])
  }

  /** A `*timestamppb.Timestamp` field, read as its whole seconds; absent or `null` reads as zero. */
  function TimestampField(members: map<string, Json>, key: string): Result<int, DecodeError> {
    match Find(members, key)
    case None => Ok(0)
    case Some(JNull) => Ok(0)
    case Some(JObj(fields)) => IntField(fields, "seconds")
    case Some(_) => Err(WrongKind(key))
  }

  /** A timestamp is read back as the second it was written from. */
  lemma TimestampReadsBack(members: map<string, Json>, key: string, t: int)
    requires Find(members, key) == Some(TimestampJson(t))
    ensures TimestampField(members, key) == Ok(t)
  {
    if t != 0 {
      IntFieldReadsBack(TimestampJson(t).members, "seconds", t);
    }
  }
}
