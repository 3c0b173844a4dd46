/**
 * The Redis key-value cache both services consult: string keys, values with
 * an optional expiry, and a client that may be unreachable. A `GET` answers
 * with the value, with `redis.Nil` when the key is absent or expired, or with
 * an error when Redis cannot be reached; a `SET` with expiration 0 keeps the
 * value until it is overwritten.
 */
module Cache {
  import opened Wrappers
  import opened Json

  /** What a Redis string holds: a JSON text, or text that is not JSON. */
  datatype Value = Doc(doc: Json) | Opaque(text: string)

  /** A stored value and the second at which it expires, if any. */
  datatype Entry = Entry(value: Value, expiresAt: Option<int>)

  /** The reply to `GET`: a value, `redis.Nil`, or a transport error. */
  datatype Reply = Hit(value: Value) | Miss | Down

  predicate Live(e: Entry, now: int) {
    e.expiresAt.None? || now < e.expiresAt.value
  }

  /** `GET key` at time `now`. */
  function Get(entries: map<string, Entry>, online: bool, key: string, now: int): (r: Reply)
    ensures r.Hit? <==> online && key in entries && Live(entries[key], now)
    ensures r.Hit? ==> r.value == entries[key].value
    ensures r == Down <==> !online
  {
    if !online then Down
    else if key in entries && Live(entries[key], now) then Hit(entries[key].value)
    else Miss
  }

  /** `SET key value ttl` at time `now` on a reachable Redis; a ttl of 0 means no expiry. */
  function Put(entries: map<string, Entry>, key: string, v: Value, ttl: nat, now: int): map<string, Entry> {
    entries[key := Entry(v, if ttl == 0 then None else Some(now + ttl))]
  }

  /** A value just written is read back until its time to live has run out. */
  lemma PutThenGet(entries: map<string, Entry>, key: string, v: Value, ttl: nat, now: int, later: int)
    requires now <= later && (ttl == 0 || later < now + ttl)
    ensures Get(Put(entries, key, v, ttl, now), true, key, later) == Hit(v)
  {
  }

  /** After its time to live the value is gone. */
  lemma PutExpires(entries: map<string, Entry>, key: string, v: Value, ttl: nat, now: int, later: int)
    requires ttl > 0 && later >= now + ttl
    ensures Get(Put(entries, key, v, ttl, now), true, key, later) == Miss
  {
  }

  /** Writing one key leaves every other key as it was. */
  lemma PutOtherKey(entries: map<string, Entry>, key: string, v: Value, ttl: nat, now: int, other: string, later: int)
    requires other != key
    ensures forall online :: Get(Put(entries, key, v, ttl, now), online, other, later) == Get(entries, online, other, later)
  {
  }

  /**
   * `Get(key).Float64()`: the value must spell a number. go-redis parses the
   * text with `strconv.ParseFloat`, which also accepts forms such as ".5",
   * "+1" and "Inf" that are not JSON numbers; only JSON numbers are modelled,
   * which covers every value `EstimateCost` writes, and the value read is
   * discarded there anyway.
   */
  function Float64(r: Reply): (x: Option<real>)
    ensures x.Some? <==> r.Hit? && r.value.Doc? && r.value.doc.JNum?
  {
    match r
    case Hit(Doc(JNum(n))) => Some(n)
    case _ => None
  }
}
