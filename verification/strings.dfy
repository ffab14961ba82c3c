// std::string searches.
module Strings {

  /** Position of the first occurrence of c, or |s| where the source gets npos. */
  function Find(s: string, c: char): (i: nat)
    ensures i <= |s| && (i < |s| ==> s[i] == c)
  {
    if s == "" then 0 else if s[0] == c then 0 else 1 + Find(s[1..], c)
  }

  lemma {:induction false} FindSkips(head: string, tail: string, c: char)
    requires c !in head && (tail == "" || tail[0] == c)
    ensures Find(head + tail, c) == |head|
  {
    if head == "" {
      assert head + tail == tail;
    } else {
      assert (head + tail)[1..] == head[1..] + tail;
      FindSkips(head[1..], tail, c);
    }
  }
}
