/** Helpers of util/util.go that the broker core calls. */
module Util {

  /** InArrayStr reports whether `data` equals some element of `slice`,
      scanning from the front and stopping at the first match. */
  function InArrayStr(data: string, slice: seq<string>): (r: bool)
    ensures r <==> exists i :: 0 <= i < |slice| && slice[i] == data
  {
    if |slice| == 0 then false
    else if slice[0] == data then true
    else
      assert forall i :: 1 <= i < |slice| ==> slice[i] == slice[1..][i - 1];
      InArrayStr(data, slice[1..])
  }

  /** The empty slice contains nothing. */
  lemma InArrayStrEmpty(data: string)
    ensures !InArrayStr(data, [])
  {
  }

  /** A slice whose first element is `data` reports a match whatever follows. */
  lemma InArrayStrFirst(data: string, rest: seq<string>)
    ensures InArrayStr(data, [data] + rest)
  {
  }

  /** A match survives appending more elements: the search never looks past
      the first hit. */
  lemma {:induction false} InArrayStrAppend(data: string, slice: seq<string>, more: seq<string>)
    requires InArrayStr(data, slice)
    ensures InArrayStr(data, slice + more)
  {
    if slice[0] != data {
      assert slice[1..] + more == (slice + more)[1..];
      InArrayStrAppend(data, slice[1..], more);
    }
  }

  /** Membership in a concatenation is membership in either part. */
  lemma {:induction false} InArrayStrConcat(data: string, left: seq<string>, right: seq<string>)
    ensures InArrayStr(data, left + right) <==> InArrayStr(data, left) || InArrayStr(data, right)
  {
    if |left| > 0 && left[0] != data {
      assert (left + right)[1..] == left[1..] + right;
      InArrayStrConcat(data, left[1..], right);
    } else if |left| == 0 {
      assert left + right == right;
    }
  }
}
