/**
 * A loaded Session (satoken/session.go:40-141): an in-memory copy of one stored
 * record that callers change in place and write back, whole, with `Save`.
 */
module Sessions {
  import opened Errors
  import opened Signs
  import opened Records
  import opened Stores

  class Session {
    const store: Store
    var id: string
    var kind: string
    var loginType: string
    var loginId: string
    var token: string
    var data: map<string, string>
    var signs: seq<TokenSign>

    /** The record `Save` writes. */
    function Record(): SessionRecord
      reads this
    {
      SessionRecord(id, kind, loginType, loginId, token, data, signs)
    }

    /** `newSession`: an empty session under the given id. */
    constructor (sessionId: string, store: Store)
      ensures this.store == store
      ensures Record() == NewRecord(sessionId)
    {
      this.store := store;
      id, kind, loginType, loginId, token := sessionId, "", "", "", "";
      data, signs := map[], [];
    }

    /** A session decoded from a stored record (`getSession`). */
    constructor Load(rec: SessionRecord, store: Store)
      ensures this.store == store
      ensures Record() == rec
    {
      this.store := store;
      id, kind, loginType, loginId, token := rec.id, rec.kind, rec.loginType, rec.loginId, rec.token;
      data, signs := rec.data, rec.signs;
    }

    /** `Get`: None stands for Go's nil. */
    method Get(key: string) returns (v: Option<string>)
      ensures v.Some? <==> key in data
      ensures v.Some? ==> v.value == data[key]
    {
      v := if key in data then Some(data[key]) else None;
    }

    /** `Set`: only `key` of the data map changes. */
    method Set(key: string, val: string)
      modifies this
      ensures Record() == old(Record()).(data := old(data)[key := val])
    {
      data := data[key := val];
    }

    /** `Delete`: only `key` of the data map changes. */
    method Delete(key: string)
      modifies this
      ensures Record() == old(Record()).(data := old(data) - {key})
    {
      data := data - {key};
    }

    method AddTokenSign(sign: TokenSign)
      modifies this
      ensures Record() == old(Record()).(signs := AddSign(old(signs), sign))
    {
      var index, _ := GetTokenSign(sign.value);
      if index < 0 {
        signs := signs + [sign];
      } else {
        signs := signs[index := sign];
      }
    }

    method RemoveTokenSign(value: string)
      modifies this
      ensures Record() == old(Record()).(signs := RemoveSign(old(signs), value))
    {
      var index, _ := GetTokenSign(value);
      if index >= 0 {
        signs := signs[..index] + signs[index + 1..];
      }
    }

    /** `getTokenSign`: the first sign with the value and its index, or (-1, nil). */
    method GetTokenSign(value: string) returns (index: int, sign: Option<TokenSign>)
      ensures index == IndexOf(signs, value)
      ensures -1 <= index < |signs|
      ensures index >= 0 ==> signs[index].value == value && sign == Some(signs[index])
      ensures index < 0 ==> sign == None && forall x :: x in signs ==> x.value != value
    {
      var i := 0;
      while i < |signs|
        invariant 0 <= i <= |signs|
        invariant forall k :: 0 <= k < i ==> signs[k].value != value
      {
        if signs[i].value == value {
          return i, Some(signs[i]);
        }
        i := i + 1;
      }
      return -1, None;
    }

    /** `getTokenSignListByDevice`: "" selects every sign. */
    method GetTokenSignListByDevice(device: string) returns (r: seq<TokenSign>)
      ensures r == SignsByDevice(signs, device)
      ensures device == "" ==> r == signs
      ensures forall x :: x in r <==> x in signs && (device == "" || x.device == device)
    {
      r := [];
      var i := 0;
      while i < |signs|
        invariant 0 <= i <= |signs|
        invariant r == SignsByDevice(signs[..i], device)
      {
        SignsByDeviceAppend(signs[..i], [signs[i]], device);
        assert signs[..i + 1] == signs[..i] + [signs[i]];
        if device == "" || signs[i].device == device {
          r := r + [signs[i]];
        }
        i := i + 1;
      }
      assert signs[..i] == signs;
    }

    /** `getTokenValueListByDevice`: devices compared by equality; the error is always nil. */
    method GetTokenValueListByDevice(device: string) returns (r: seq<string>, err: Option<Error>)
      ensures r == ValuesByDevice(signs, device)
      ensures forall v :: v in r ==> exists x :: x in signs && x.device == device && x.value == v
      ensures err == None
    {
      r := [];
      var i := 0;
      while i < |signs|
        invariant 0 <= i <= |signs|
        invariant r == ValuesByDevice(signs[..i], device)
      {
        ValuesByDeviceAppend(signs[..i], [signs[i]], device);
        assert signs[..i + 1] == signs[..i] + [signs[i]];
        if signs[i].device == device {
          r := r + [signs[i].value];
        }
        i := i + 1;
      }
      assert signs[..i] == signs;
      err := None;
    }

    /** `Save`: overwrite the stored record under this session's id, keeping its TTL. */
    method Save()
      modifies store
      ensures store.data == UpdateValue(old(store.data), id, Object(Record()))
    {
      store.UpdateObj(id, Record());
    }
  }
}
