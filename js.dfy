/** JavaScript value semantics the gateway relies on: optional fields and the
    truthiness that drives its `||` fallback chains. */
module Js {

  /** An optional field of a parsed JSON body: `None` stands for a field that is
      absent, `undefined` or `null`. */
  datatype Option<+T> = None | Some(value: T)

  /** Truthiness of an optional string: present and not the empty string. */
  predicate Truthy(s: Option<string>) {
    s.Some? && s.value != ""
  }

  /** No candidate in `cands` is truthy. */
  predicate NoneTruthy(cands: seq<Option<string>>) {
    forall j :: 0 <= j < |cands| ==> !Truthy(cands[j])
  }

  /** `s || fallback` for an optional string. */
  function Or(s: Option<string>, fallback: string): (r: string)
    ensures Truthy(s) ==> r == s.value
    ensures !Truthy(s) ==> r == fallback
  {
    if Truthy(s) then s.value else fallback
  }

  /** The chain `cands[0] || cands[1] || ... || last`: the value of the first
      truthy candidate, or `last` when none of them is truthy. */
  function FirstTruthy(cands: seq<Option<string>>, last: string): (r: string)
    ensures forall i :: 0 <= i < |cands| && Truthy(cands[i]) && NoneTruthy(cands[..i]) ==> r == cands[i].value
    ensures NoneTruthy(cands) ==> r == last
    ensures r == last || exists i :: 0 <= i < |cands| && cands[i] == Some(r) && r != ""
  {
    if |cands| == 0 then last
    else if Truthy(cands[0]) then cands[0].value
    else
      var r := FirstTruthy(cands[1..], last);
      assert forall i :: 1 <= i < |cands| && NoneTruthy(cands[..i]) ==> NoneTruthy(cands[1..][..i - 1]) by {
        forall i | 1 <= i < |cands| && NoneTruthy(cands[..i]) ensures NoneTruthy(cands[1..][..i - 1]) {
          assert cands[1..][..i - 1] == cands[..i][1..];
        }
      }
      r
  }
}
