/** Small facts about sequences shared by the models: duplicates, removal of one
    element, and removal of consecutive repeats. */
module Sequences {
  datatype Option<+T> = None | Some(value: T)

  ghost predicate NoDup<T>(s: seq<T>) {
    forall i, j :: 0 <= i < j < |s| ==> s[i] != s[j]
  }

  /** What a linear scan that drops the first match leaves behind. */
  function RemoveFirst<T(==)>(s: seq<T>, x: T): seq<T> {
    if s == [] then [] else if s[0] == x then s[1..] else [s[0]] + RemoveFirst(s[1..], x)
  }

  lemma HeadTail<T>(s: seq<T>)
    requires s != []
    ensures forall y :: y in s <==> y == s[0] || y in s[1..]
    ensures NoDup(s) ==> NoDup(s[1..]) && s[0] !in s[1..]
  {
  }

  lemma {:induction false} RemoveFirstMembers<T>(s: seq<T>, x: T)
    requires NoDup(s)
    ensures NoDup(RemoveFirst(s, x))
    ensures forall y :: y in RemoveFirst(s, x) <==> y in s && y != x
  {
    if s != [] {
      HeadTail(s);
      RemoveFirstMembers(s[1..], x);
      var r := RemoveFirst(s, x);
      if s[0] != x {
        var t := RemoveFirst(s[1..], x);
        assert r == [s[0]] + t && s[0] !in t;
        forall i, j | 0 <= i < j < |r| ensures r[i] != r[j] {
          assert r[j] == t[j - 1] && r[j] in t;
          if i > 0 { assert r[i] == t[i - 1]; }
        }
      }
    }
  }

  lemma {:induction false} RemoveFirstAbsent<T>(s: seq<T>, x: T)
    requires x !in s
    ensures RemoveFirst(s, x) == s
  {
    if s != [] {
      HeadTail(s);
      RemoveFirstAbsent(s[1..], x);
    }
  }

  /** Removal at the first matching index, as an in-place shift produces it. */
  lemma {:induction false} RemoveFirstAt<T>(s: seq<T>, x: T, i: nat)
    requires i < |s| && s[i] == x && x !in s[..i]
    ensures RemoveFirst(s, x) == s[..i] + s[i + 1..]
  {
    if i > 0 {
      assert s[0] == s[..i][0];
      assert s[..i][1..] == s[1..][..i - 1];
      RemoveFirstAt(s[1..], x, i - 1);
      assert s[..i] == [s[0]] + s[1..][..i - 1];
      assert s[1..][i..] == s[i + 1..];
    }
  }

  /** The sequence with runs of equal consecutive elements collapsed to one. */
  function Collapse<T(==)>(s: seq<T>): (r: seq<T>)
    ensures s == [] <==> r == []
    ensures s != [] ==> r[|r| - 1] == s[|s| - 1]
  {
    if |s| <= 1 then s
    else
      var r := Collapse(s[..|s| - 1]);
      if s[|s| - 1] == s[|s| - 2] then r else r + [s[|s| - 1]]
  }

  /** No two neighbours are equal. */
  lemma {:induction false} CollapseDiffers<T>(s: seq<T>)
    ensures forall i :: 0 <= i < |Collapse(s)| - 1 ==> Collapse(s)[i] != Collapse(s)[i + 1]
  {
    if |s| > 1 { CollapseDiffers(s[..|s| - 1]); }
  }

  lemma CollapseStep<T>(s: seq<T>, x: T)
    requires s != []
    ensures Collapse(s + [x]) == if x == s[|s| - 1] then Collapse(s) else Collapse(s) + [x]
  {
    assert (s + [x])[..|s|] == s;
  }
}
