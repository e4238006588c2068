/**
 * The token store (satoken/store.go:9-23) as an in-memory map from key to
 * (value, TTL), with the observable behaviour of the Redis adapter
 * (satoken/store/redis.go): a missing key reads as "", `Update` keeps the key's
 * TTL, and `GetObj` reports a missing or empty value as ObjectNotExist.
 * Session records are stored as values, not as JSON text.
 */
module Stores {
  import opened Errors
  import opened Records

  type Positive = x: int | x > 0 witness 1

  /** A key's expiry: a remaining duration, or none. */
  datatype Ttl = Expires(remaining: Positive) | Persistent

  datatype Value = Text(text: string) | Object(record: SessionRecord)

  datatype Entry = Entry(value: Value, ttl: Ttl)

  type Data = map<string, Entry>

  /** The TTL readings Redis gives for a key without expiry and for a missing key. */
  const NoExpiry: int := -1
  const NoKey: int := -2
  /** go-redis' `KeepTTL` expiration argument. */
  const KeepTtl: int := -1

  /** `GetTimeout` (Redis TTL): -2 for a missing key, -1 without expiry. */
  function TtlReading(data: Data, key: string): (t: int)
    ensures key !in data ==> t == NoKey
    ensures key in data && data[key].ttl.Persistent? ==> t == NoExpiry
    ensures key in data && data[key].ttl.Expires? ==> t == data[key].ttl.remaining
  {
    if key !in data then NoKey
    else match data[key].ttl
      case Persistent => NoExpiry
      case Expires(d) => d
  }

  /** The TTL a SET with expiration `exp` leaves: positive sets it, KeepTTL keeps it, anything else clears it. */
  function TtlAfterSet(data: Data, key: string, exp: int): (t: Ttl)
    ensures exp > 0 ==> t == Expires(exp)
    ensures exp == KeepTtl && key in data ==> t == data[key].ttl
    ensures exp <= 0 && !(exp == KeepTtl && key in data) ==> t == Persistent
  {
    if exp > 0 then Expires(exp)
    else if exp == KeepTtl && key in data then data[key].ttl
    else Persistent
  }

  /** `Set`/`SetObj`. */
  function SetValue(data: Data, key: string, v: Value, exp: int): (r: Data)
    ensures r.Keys == data.Keys + {key} && r[key].value == v
    ensures r[key].ttl == TtlAfterSet(data, key, exp)
    ensures exp > 0 ==> r[key].ttl == Expires(exp)
    ensures exp <= 0 && exp != KeepTtl ==> r[key].ttl == Persistent
    ensures forall k :: k in data && k != key ==> r[k] == data[k]
  {
    data[key := Entry(v, TtlAfterSet(data, key, exp))]
  }

  /** `Update`/`UpdateObj`: read the TTL, then SET with it. */
  function UpdateValue(data: Data, key: string, v: Value): (r: Data)
    ensures r.Keys == data.Keys + {key} && r[key].value == v
    ensures key in data ==> r[key].ttl == data[key].ttl
    ensures key !in data ==> r[key].ttl == Persistent
    ensures forall k :: k in data && k != key ==> r[k] == data[k]
  {
    SetValue(data, key, v, TtlReading(data, key))
  }

  /** `UpdateTimeout` (Redis EXPIRE): no effect on a missing key, a non-positive duration deletes. */
  function ExpireValue(data: Data, key: string, exp: int): (r: Data)
    ensures key !in data ==> r == data
    ensures key in data && exp <= 0 ==> r == data - {key}
    ensures key in data && exp > 0 ==> r == data[key := data[key].(ttl := Expires(exp))]
  {
    if key !in data then data
    else if exp <= 0 then data - {key}
    else data[key := data[key].(ttl := Expires(exp))]
  }

  /** `Get`: a missing key is the empty string; a record is not text. */
  function ReadText(data: Data, key: string): (r: Result<string>)
    ensures key !in data ==> r == Ok("")
    ensures r.Err? ==> r.error == Malformed && data[key].value.Object?
    ensures key in data && data[key].value.Text? ==> r == Ok(data[key].value.text)
  {
    if key !in data then Ok("")
    else match data[key].value
      case Text(s) => Ok(s)
      case Object(_) => Err(Malformed)
  }

  /** `GetObj`: a missing key or an empty value is ObjectNotExist; other text does not decode. */
  function ReadObject(data: Data, key: string): (r: Result<SessionRecord>)
    ensures r.Ok? <==> key in data && data[key].value.Object?
    ensures r.Ok? ==> r.value == data[key].value.record
    ensures r == Err(ObjectNotExist) <==> key !in data || data[key].value == Text("")
    ensures r.Err? ==> r.error == ObjectNotExist || r.error == Malformed
  {
    if key !in data then Err(ObjectNotExist)
    else match data[key].value
      case Text(s) => if s == "" then Err(ObjectNotExist) else Err(Malformed)
      case Object(rec) => Ok(rec)
  }

  /** Writing a record and reading it back gives the record (the JSON round trip, taken as given). */
  lemma ObjectRoundTrip(data: Data, key: string, rec: SessionRecord, exp: int)
    ensures ReadObject(SetValue(data, key, Object(rec), exp), key) == Ok(rec)
    ensures ReadObject(UpdateValue(data, key, Object(rec)), key) == Ok(rec)
  {
  }

  class Store {
    var data: Data

    constructor ()
      ensures data == map[]
    {
      data := map[];
    }

    method Get(key: string) returns (r: Result<string>)
      ensures r == ReadText(data, key)
    {
      if key !in data {
        return Ok("");
      }
      match data[key].value
      case Text(s) => r := Ok(s);
      case Object(_) => r := Err(Malformed);
    }

    method Set(key: string, value: string, exp: int)
      modifies this
      ensures data == SetValue(old(data), key, Text(value), exp)
    {
      data := SetValue(data, key, Text(value), exp);
    }

    method Update(key: string, value: string)
      modifies this
      ensures data == UpdateValue(old(data), key, Text(value))
    {
      var ttl := GetTimeout(key);
      Set(key, value, ttl);
    }

    method Delete(key: string)
      modifies this
      ensures data == old(data) - {key}
    {
      data := data - {key};
    }

    method GetTimeout(key: string) returns (ttl: int)
      ensures ttl == TtlReading(data, key)
    {
      if key !in data {
        return NoKey;
      }
      match data[key].ttl
      case Persistent => ttl := NoExpiry;
      case Expires(d) => ttl := d;
    }

    method UpdateTimeout(key: string, exp: int)
      modifies this
      ensures data == ExpireValue(old(data), key, exp)
    {
      data := ExpireValue(data, key, exp);
    }

    method GetObj(key: string) returns (r: Result<SessionRecord>)
      ensures r == ReadObject(data, key)
    {
      var text := Get(key);
      if text == Ok("") {
        return Err(ObjectNotExist);
      }
      match data[key].value
      case Text(_) => r := Err(Malformed);
      case Object(rec) => r := Ok(rec);
    }

    method SetObj(key: string, rec: SessionRecord, exp: int)
      modifies this
      ensures data == SetValue(old(data), key, Object(rec), exp)
    {
      data := SetValue(data, key, Object(rec), exp);
    }

    method UpdateObj(key: string, rec: SessionRecord)
      modifies this
      ensures data == UpdateValue(old(data), key, Object(rec))
    {
      var ttl := GetObjTimeout(key);
      data := SetValue(data, key, Object(rec), ttl);
    }

    method DeleteObj(key: string)
      modifies this
      ensures data == old(data) - {key}
    {
      data := data - {key};
    }

    method GetObjTimeout(key: string) returns (ttl: int)
      ensures ttl == TtlReading(data, key)
    {
      ttl := GetTimeout(key);
    }

    method UpdateObjTimeout(key: string, exp: int)
      modifies this
      ensures data == ExpireValue(old(data), key, exp)
    {
      UpdateTimeout(key, exp);
    }
  }
}
