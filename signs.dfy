/**
 * The sign list of an identity-session (satoken/session.go:34-38, 81-137) as
 * values: what `addTokenSign`, `removeTokenSign`, `getTokenSign` and the two
 * device filters compute, and the laws the manager relies on.
 */
module Signs {

  /** One active login of an identity on one device. */
  datatype TokenSign = TokenSign(value: string, device: string, tag: string)

  /** The token values of a sign list, in order. */
  function Values(signs: seq<TokenSign>): (vs: seq<string>)
    ensures |vs| == |signs|
    ensures forall k :: 0 <= k < |signs| ==> vs[k] == signs[k].value
  {
    if signs == [] then [] else [signs[0].value] + Values(signs[1..])
  }

  /** No token value occurs twice: the invariant `addTokenSign` keeps. */
  predicate UniqueValues(signs: seq<TokenSign>)
  {
    forall i, j :: 0 <= i < j < |signs| ==> signs[i].value != signs[j].value
  }

  /** `getTokenSign`: the index of the first sign with the value, or -1. */
  function IndexOf(signs: seq<TokenSign>, value: string): (i: int)
    ensures -1 <= i < |signs|
    ensures i == -1 <==> forall k :: 0 <= k < |signs| ==> signs[k].value != value
    ensures 0 <= i ==> signs[i].value == value && forall k :: 0 <= k < i ==> signs[k].value != value
    decreases |signs|
  {
    if signs == [] then -1
    else if signs[0].value == value then 0
    else
      var j := IndexOf(signs[1..], value);
      if j == -1 then -1 else j + 1
  }

  /** `addTokenSign`: overwrite the first sign with the same value, else append. */
  function AddSign(signs: seq<TokenSign>, sign: TokenSign): (r: seq<TokenSign>)
    ensures sign in r
    ensures |r| == if IndexOf(signs, sign.value) < 0 then |signs| + 1 else |signs|
    ensures forall x :: x in r ==> x == sign || x in signs
  {
    var i := IndexOf(signs, sign.value);
    if i < 0 then signs + [sign]
    else
      var r := signs[i := sign];
      assert r[i] == sign;
      r
  }

  /** `removeTokenSign`: splice out the first sign with the value, if there is one. */
  function RemoveSign(signs: seq<TokenSign>, value: string): (r: seq<TokenSign>)
    ensures IndexOf(signs, value) < 0 ==> r == signs
    ensures IndexOf(signs, value) >= 0 ==> |r| == |signs| - 1
    ensures forall x :: x in r ==> x in signs
  {
    var i := IndexOf(signs, value);
    if i < 0 then signs else signs[..i] + signs[i + 1..]
  }

  /** The device filter of `getTokenSignListByDevice`: the empty device matches every sign. */
  predicate OnDevice(sign: TokenSign, device: string)
  {
    device == "" || sign.device == device
  }

  /** `getTokenSignListByDevice`: the signs on the device, in list order. */
  function SignsByDevice(signs: seq<TokenSign>, device: string): (r: seq<TokenSign>)
    ensures |r| <= |signs|
    ensures forall x :: x in r <==> x in signs && OnDevice(x, device)
    ensures device == "" ==> r == signs
    decreases |signs|
  {
    if signs == [] then []
    else
      var rest := SignsByDevice(signs[1..], device);
      assert signs == [signs[0]] + signs[1..];
      if OnDevice(signs[0], device) then [signs[0]] + rest else rest
  }

  /** The signs the device filter leaves out, in list order. */
  function SignsOffDevice(signs: seq<TokenSign>, device: string): (r: seq<TokenSign>)
    ensures |r| <= |signs|
    ensures forall x :: x in r <==> x in signs && !OnDevice(x, device)
    decreases |signs|
  {
    if signs == [] then []
    else
      var rest := SignsOffDevice(signs[1..], device);
      assert signs == [signs[0]] + signs[1..];
      if OnDevice(signs[0], device) then rest else [signs[0]] + rest
  }

  /**
   * `getTokenValueListByDevice`: the values of the signs whose device EQUALS
   * the argument, in list order (here the empty device has no wildcard meaning).
   */
  function ValuesByDevice(signs: seq<TokenSign>, device: string): (r: seq<string>)
    ensures |r| <= |signs|
    ensures forall v :: v in r ==> exists k :: 0 <= k < |signs| && signs[k].device == device && signs[k].value == v
    ensures forall k :: 0 <= k < |signs| && signs[k].device == device ==> signs[k].value in r
    decreases |signs|
  {
    if signs == [] then []
    else
      var rest := ValuesByDevice(signs[1..], device);
      if signs[0].device == device then [signs[0].value] + rest else rest
  }

  /** Removing, one by one, the first sign with each value of `list`. */
  function RemoveSigns(signs: seq<TokenSign>, list: seq<TokenSign>): (r: seq<TokenSign>)
    ensures |r| <= |signs|
    ensures forall x :: x in r ==> x in signs
    decreases |list|
  {
    if list == [] then signs else RemoveSigns(RemoveSign(signs, list[0].value), list[1..])
  }

  // ---------------------------------------------------------------- addTokenSign

  /** A new value is appended at the end; a known one is overwritten in place. */
  lemma AddSignShape(signs: seq<TokenSign>, sign: TokenSign)
    ensures sign.value !in Values(signs) ==> AddSign(signs, sign) == signs + [sign]
    ensures sign.value in Values(signs) ==>
      var i := IndexOf(signs, sign.value);
      && 0 <= i < |signs|
      && |AddSign(signs, sign)| == |signs|
      && AddSign(signs, sign)[i] == sign
      && forall k :: 0 <= k < |signs| && k != i ==> AddSign(signs, sign)[k] == signs[k]
  {
    if sign.value !in Values(signs) {
      assert IndexOf(signs, sign.value) == -1;
    }
  }

  /** After `addTokenSign` the sign is in the list, and values stay unique. */
  lemma AddSignKeepsUnique(signs: seq<TokenSign>, sign: TokenSign)
    requires UniqueValues(signs)
    ensures UniqueValues(AddSign(signs, sign))
    ensures sign in AddSign(signs, sign)
  {
    var i := IndexOf(signs, sign.value);
    var r := AddSign(signs, sign);
    if i >= 0 {
      assert forall k :: 0 <= k < |r| ==> r[k].value == signs[k].value;
    } else {
      assert r[|signs|] == sign;
    }
  }

  /** Adding a sign again once it is in place changes nothing. */
  lemma AddSignIdempotent(signs: seq<TokenSign>, sign: TokenSign)
    ensures AddSign(AddSign(signs, sign), sign) == AddSign(signs, sign)
  {
    var i := IndexOf(signs, sign.value);
    var r := AddSign(signs, sign);
    if i >= 0 {
      assert forall k :: 0 <= k < i ==> r[k] == signs[k];
      assert r[i] == sign;
      assert IndexOf(r, sign.value) == i;
    } else {
      assert r[|signs|] == sign;
      assert IndexOf(r, sign.value) == |signs|;
    }
  }

  /** A sign with another value survives `addTokenSign`. */
  lemma AddSignKeepsOthers(signs: seq<TokenSign>, sign: TokenSign, x: TokenSign)
    requires x in signs && x.value != sign.value
    ensures x in AddSign(signs, sign)
  {
    var k :| 0 <= k < |signs| && signs[k] == x;
    assert AddSign(signs, sign)[k] == x;
  }

  /** A sign's value is among the list's values. */
  lemma ValueOf(signs: seq<TokenSign>, x: TokenSign)
    requires x in signs
    ensures x.value in Values(signs)
  {
    var k :| 0 <= k < |signs| && signs[k] == x;
    assert Values(signs)[k] == x.value;
  }

  /** A value of the list belongs to one of its signs. */
  lemma SignWithValue(signs: seq<TokenSign>, v: string) returns (x: TokenSign)
    requires v in Values(signs)
    ensures x in signs && x.value == v
  {
    var k :| 0 <= k < |Values(signs)| && Values(signs)[k] == v;
    x := signs[k];
  }

  // ------------------------------------------------------------- removeTokenSign

  /** `removeTokenSign` is a no-op without a match, and otherwise drops one sign keeping the order. */
  lemma RemoveSignShape(signs: seq<TokenSign>, value: string)
    ensures value !in Values(signs) ==> RemoveSign(signs, value) == signs
    ensures value in Values(signs) ==>
      var i := IndexOf(signs, value);
      && 0 <= i < |signs| && signs[i].value == value
      && RemoveSign(signs, value) == signs[..i] + signs[i + 1..]
      && |RemoveSign(signs, value)| == |signs| - 1
  {
    if value !in Values(signs) {
      assert IndexOf(signs, value) == -1;
    } else {
      var k :| 0 <= k < |signs| && Values(signs)[k] == value;
      assert signs[k].value == value;
    }
  }

  /** With unique values, removal leaves no sign with the value and keeps values unique. */
  lemma RemoveSignKeepsUnique(signs: seq<TokenSign>, value: string)
    requires UniqueValues(signs)
    ensures UniqueValues(RemoveSign(signs, value))
    ensures forall x :: x in RemoveSign(signs, value) ==> x.value != value
    ensures forall x :: x in RemoveSign(signs, value) ==> x in signs
  {
    var i := IndexOf(signs, value);
    if i >= 0 {
      var r := RemoveSign(signs, value);
      assert forall k :: 0 <= k < |r| ==> r[k] == (if k < i then signs[k] else signs[k + 1]);
    }
  }

  /** A sign with another value survives `removeTokenSign`. */
  lemma RemoveSignKeepsOthers(signs: seq<TokenSign>, value: string, x: TokenSign)
    requires x in signs && x.value != value
    ensures x in RemoveSign(signs, value)
  {
    var k :| 0 <= k < |signs| && signs[k] == x;
    var i := IndexOf(signs, value);
    if i >= 0 {
      var r := RemoveSign(signs, value);
      if k < i {
        assert r[k] == x;
      } else {
        assert r[k - 1] == x;
      }
    }
  }

  /** Removing a value other than the head's works on the tail. */
  lemma RemoveSignSkipsHead(x: TokenSign, s: seq<TokenSign>, value: string)
    requires x.value != value
    ensures RemoveSign([x] + s, value) == [x] + RemoveSign(s, value)
  {
    assert ([x] + s)[1..] == s;
    var i := IndexOf(s, value);
    if i >= 0 {
      assert IndexOf([x] + s, value) == i + 1;
      assert ([x] + s)[..i + 1] == [x] + s[..i];
      assert ([x] + s)[i + 2..] == s[i + 1..];
    }
  }

  /** Removing a list of values none of which is the head's leaves the head in place. */
  lemma {:induction false} RemoveSignsSkipsHead(x: TokenSign, s: seq<TokenSign>, list: seq<TokenSign>)
    requires forall y :: y in list ==> y.value != x.value
    ensures RemoveSigns([x] + s, list) == [x] + RemoveSigns(s, list)
    decreases |list|
  {
    if list != [] {
      RemoveSignSkipsHead(x, s, list[0].value);
      assert forall y :: y in list[1..] ==> y in list;
      RemoveSignsSkipsHead(x, RemoveSign(s, list[0].value), list[1..]);
    }
  }

  /**
   * The removal loops of `replaced` and `LogoutByLoginId`: removing by value every
   * sign the device filter selects leaves exactly the signs of the other devices,
   * in their order, when sign values are unique.
   */
  lemma {:induction false} RemoveSignsByDevice(signs: seq<TokenSign>, device: string)
    requires UniqueValues(signs)
    ensures RemoveSigns(signs, SignsByDevice(signs, device)) == SignsOffDevice(signs, device)
    decreases |signs|
  {
    if signs != [] {
      var x, rest := signs[0], signs[1..];
      assert signs == [x] + rest;
      assert UniqueValues(rest);
      var list := SignsByDevice(rest, device);
      RemoveSignsByDevice(rest, device);
      if OnDevice(x, device) {
        assert IndexOf(signs, x.value) == 0;
        assert RemoveSign(signs, x.value) == rest;
        assert SignsByDevice(signs, device) == [x] + list;
        assert ([x] + list)[1..] == list;
      } else {
        TailValuesDiffer(signs, list);
        RemoveSignsSkipsHead(x, rest, list);
      }
    }
  }

  /** With unique values, no sign taken from the tail shares the head's value. */
  lemma TailValuesDiffer(signs: seq<TokenSign>, list: seq<TokenSign>)
    requires signs != [] && UniqueValues(signs)
    requires forall y :: y in list ==> y in signs[1..]
    ensures forall y :: y in list ==> y.value != signs[0].value
  {
    forall y | y in list ensures y.value != signs[0].value {
      var k :| 0 <= k < |signs[1..]| && signs[1..][k] == y;
      assert signs[k + 1] == y;
    }
  }

  /** With unique values, the removal loops leave a list whose values are still unique. */
  lemma {:induction false} RemoveSignsKeepsUnique(signs: seq<TokenSign>, list: seq<TokenSign>)
    requires UniqueValues(signs)
    ensures UniqueValues(RemoveSigns(signs, list))
    decreases |list|
  {
    if list != [] {
      RemoveSignKeepsUnique(signs, list[0].value);
      RemoveSignsKeepsUnique(RemoveSign(signs, list[0].value), list[1..]);
    }
  }

  // ------------------------------------------------------------------ filters

  /** The device filter distributes over concatenation (used by the filtering loops). */
  lemma {:induction false} SignsByDeviceAppend(a: seq<TokenSign>, b: seq<TokenSign>, device: string)
    ensures SignsByDevice(a + b, device) == SignsByDevice(a, device) + SignsByDevice(b, device)
    decreases |a|
  {
    if a == [] {
      assert a + b == b;
    } else {
      assert (a + b)[0] == a[0];
      assert (a + b)[1..] == a[1..] + b;
      SignsByDeviceAppend(a[1..], b, device);
    }
  }

  /** The value filter distributes over concatenation. */
  lemma {:induction false} ValuesByDeviceAppend(a: seq<TokenSign>, b: seq<TokenSign>, device: string)
    ensures ValuesByDevice(a + b, device) == ValuesByDevice(a, device) + ValuesByDevice(b, device)
    decreases |a|
  {
    if a == [] {
      assert a + b == b;
    } else {
      assert (a + b)[0] == a[0];
      assert (a + b)[1..] == a[1..] + b;
      ValuesByDeviceAppend(a[1..], b, device);
    }
  }

  /** For a non-empty device, the two filters select the same signs. */
  lemma {:induction false} ValuesByNamedDevice(signs: seq<TokenSign>, device: string)
    requires device != ""
    ensures ValuesByDevice(signs, device) == Values(SignsByDevice(signs, device))
    decreases |signs|
  {
    if signs != [] {
      ValuesByNamedDevice(signs[1..], device);
    }
  }

  /** The empty device selects only the signs recorded with the empty device. */
  lemma {:induction false} ValuesByEmptyDevice(signs: seq<TokenSign>)
    requires forall x :: x in signs ==> x.device != ""
    ensures ValuesByDevice(signs, "") == []
    decreases |signs|
  {
    if signs != [] {
      assert forall x :: x in signs[1..] ==> x in signs;
      ValuesByEmptyDevice(signs[1..]);
    }
  }

  /**
   * Adding a sign for device `d` leaves a list whose first value on `d` is the
   * sign's own, provided no OTHER value was first on `d` before.
   */
  lemma {:induction false} AddSignFirstOnDevice(signs: seq<TokenSign>, sign: TokenSign)
    requires ValuesByDevice(signs, sign.device) == [] || ValuesByDevice(signs, sign.device)[0] == sign.value
    ensures ValuesByDevice(AddSign(signs, sign), sign.device) != []
    ensures ValuesByDevice(AddSign(signs, sign), sign.device)[0] == sign.value
    decreases |signs|
  {
    var d := sign.device;
    if signs == [] {
      assert AddSign(signs, sign) == [sign];
    } else if signs[0].value == sign.value {
      var r := AddSign(signs, sign);
      assert r == [sign] + signs[1..];
      assert r[1..] == signs[1..];
    } else {
      var rest := signs[1..];
      assert signs == [signs[0]] + rest;
      assert signs[0].device != d;
      assert ValuesByDevice(signs, d) == ValuesByDevice(rest, d);
      AddSignFirstOnDevice(rest, sign);
      AddSignSkipsHead(signs[0], rest, sign);
      var r := AddSign(signs, sign);
      assert r == [signs[0]] + AddSign(rest, sign);
      assert r[1..] == AddSign(rest, sign);
    }
  }

  /** Adding a sign whose value is not the head's works on the tail. */
  lemma AddSignSkipsHead(x: TokenSign, s: seq<TokenSign>, sign: TokenSign)
    requires x.value != sign.value
    ensures AddSign([x] + s, sign) == [x] + AddSign(s, sign)
  {
    assert ([x] + s)[1..] == s;
    var i := IndexOf(s, sign.value);
    if i >= 0 {
      assert IndexOf([x] + s, sign.value) == i + 1;
    } else {
      assert IndexOf([x] + s, sign.value) == -1;
    }
  }
}
