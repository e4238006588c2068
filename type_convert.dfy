/**
 * The nil/empty and comma-list helpers of common/type_convert.go. A Go pointer
 * is an `Option`: None is nil, `Some(v)` points to `v`.
 */
module TypeConvert {
  import opened Errors
  import Strings

  newtype Int32 = x: int | -0x8000_0000 <= x < 0x8000_0000

  /** `NewString`: the empty string becomes nil. */
  function NewString(v: string): (p: Option<string>)
    ensures p.None? <==> v == ""
    ensures p.Some? ==> p.value == v
  {
    if v == "" then None else Some(v)
  }

  /** `ToString`: nil reads as the empty string. */
  function ToString(p: Option<string>): (s: string)
    ensures p.None? ==> s == ""
    ensures p.Some? ==> s == p.value
  {
    match p
    case None => ""
    case Some(v) => v
  }

  /** `ToInt32`: nil reads as 0. */
  function ToInt32(p: Option<Int32>): (n: Int32)
    ensures p.None? ==> n == 0
    ensures p.Some? ==> n == p.value
  {
    match p
    case None => 0
    case Some(v) => v
  }

  /** Every string survives `NewString` then `ToString`. */
  lemma StringRoundTrip(s: string)
    ensures ToString(NewString(s)) == s
  {
  }

  /** The other way round, only a pointer to "" is lost: it comes back as nil. */
  lemma PointerRoundTrip(p: Option<string>)
    ensures NewString(ToString(p)) == (if p == Some("") then None else p)
  {
  }

  /** `Split`: the empty string is the empty list, not a list holding "". */
  function Split(str: string): (parts: seq<string>)
    ensures str == "" <==> parts == []
    ensures forall i :: 0 <= i < |parts| ==> ',' !in parts[i]
    ensures str != "" ==> Strings.Join(parts, ',') == str
  {
    if str == "" then [] else Strings.Split(str, ',')
  }

  /** Any list of comma-free pieces except [""] comes back from joining and splitting. */
  lemma {:induction false} SplitJoined(parts: seq<string>)
    requires |parts| >= 1 && parts != [""]
    requires forall i :: 0 <= i < |parts| ==> ',' !in parts[i]
    ensures Split(Strings.Join(parts, ',')) == parts
  {
    Strings.SplitJoin(parts, ',');
  }

  /** `ToList`: the map's keys, each once, in whatever order the iteration picks. */
  method ToList(m: map<string, int>) returns (v: seq<string>)
    ensures |v| == |m|
    ensures forall k :: k in v <==> k in m
    ensures forall i, j :: 0 <= i < j < |v| ==> v[i] != v[j]
  {
    v := [];
    var rest := m.Keys;
    while rest != {}
      invariant rest <= m.Keys
      invariant forall k :: k in v <==> k in m.Keys - rest
      invariant forall i, j :: 0 <= i < j < |v| ==> v[i] != v[j]
      invariant |v| + |rest| == |m.Keys|
      decreases |rest|
    {
      var key :| key in rest;
      assert key !in v;
      v := v + [key];
      rest := rest - {key};
    }
  }
}
