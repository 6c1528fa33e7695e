/** What several modules need: an optional value, and lists of numbered things. */
module Common {
  datatype Option<T> = None | Some(value: T)

  ghost predicate Distinct(s: seq<nat>) {
    forall i, j :: 0 <= i < j < |s| ==> s[i] != s[j]
  }

  /** The list without the first occurrence of p. */
  function Remove(s: seq<nat>, p: nat): (r: seq<nat>)
    ensures p !in s ==> r == s
    ensures |r| == if p in s then |s| - 1 else |s|
    ensures forall x :: x in r ==> x in s
  {
    if s == [] then [] else if s[0] == p then s[1..] else [s[0]] + Remove(s[1..], p)
  }

  lemma {:induction false} RemoveElements(s: seq<nat>, p: nat)
    requires Distinct(s)
    ensures Distinct(Remove(s, p)) && forall x :: x in Remove(s, p) <==> x in s && x != p
    decreases |s|
  {
    if s != [] {
      assert forall x :: x in s <==> x == s[0] || x in s[1..];
      assert s[0] !in s[1..];
      RemoveElements(s[1..], p);
    }
  }

  function IndexOf(s: seq<nat>, x: nat): (i: nat)
    requires x in s
    ensures i < |s| && s[i] == x
  {
    if s[0] == x then 0 else 1 + IndexOf(s[1..], x)
  }
}
