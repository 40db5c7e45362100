/** A parsed JSON value (RFC 8259), as Python's `json` module hands it to the
    client: an object is the member sequence of the resulting `dict`, in the
    order its keys were inserted. */
module Json {
  import opened Basics

  datatype Json =
    | Null
    | Boolean(b: bool)
    | Number(mantissa: int, exponent: int)  // the decimal number mantissa * 10^exponent
    | Str(s: string)
    | Array(items: seq<Json>)
    | Object(members: seq<Member>)

  datatype Member = Member(key: string, value: Json)

  /** `key in d` and `d[key]` for a dict: the value of the first member with
      that key. */
  function Get(ms: seq<Member>, key: string): (r: Option<Json>)
    ensures r.None? <==> forall i :: 0 <= i < |ms| ==> ms[i].key != key
    ensures r.Some? ==> exists i :: 0 <= i < |ms| && ms[i].key == key && ms[i].value == r.value
  {
    if |ms| == 0 then None
    else if ms[0].key == key then Some(ms[0].value)
    else
      var r := Get(ms[1..], key);
      assert forall i :: 1 <= i < |ms| ==> ms[i] == ms[1..][i - 1];
      r
  }

  /** The value of the first member, in `d.items()` order, that is a list. */
  function FirstArray(ms: seq<Member>): (r: Option<seq<Json>>)
    ensures r.None? <==> forall i :: 0 <= i < |ms| ==> !ms[i].value.Array?
    ensures r.Some? ==> exists i :: 0 <= i < |ms| && ms[i].value == Array(r.value)
                                    && forall j :: 0 <= j < i ==> !ms[j].value.Array?
  {
    if |ms| == 0 then None
    else if ms[0].value.Array? then Some(ms[0].value.items)
    else
      var r := FirstArray(ms[1..]);
      assert forall i :: 1 <= i < |ms| ==> ms[i] == ms[1..][i - 1];
      if r.Some? then
        var i :| 0 <= i < |ms[1..]| && ms[1..][i].value == Array(r.value)
                 && forall j :: 0 <= j < i ==> !ms[1..][j].value.Array?;
        assert ms[i + 1].value == Array(r.value);
        r
      else r
  }
}
