/** Sequence vocabulary shared by the whole model. Everything recurses on the last
    element, so that an appending loop unfolds one definition per iteration. */
module Sequences {

  datatype Option<+T> = None | Some(value: T)

  datatype Result<+T, +E> = Ok(value: T) | Err(error: E)

  function Last<T>(s: seq<T>): T
    requires s != []
  {
    s[|s| - 1]
  }

  function Init<T>(s: seq<T>): seq<T>
    requires s != []
  {
    s[..|s| - 1]
  }

  lemma SplitLast<T>(s: seq<T>)
    requires s != []
    ensures s == Init(s) + [Last(s)]
  {
  }

  lemma SplitAt<T>(s: seq<T>, n: nat)
    requires n <= |s|
    ensures s == s[..n] + s[n..]
  {
  }

  function Take<T>(s: seq<T>, n: nat): seq<T> {
    if n <= |s| then s[..n] else s
  }

  /** The distinct elements of `s`, each at its first occurrence. */
  function FirstSeen<T(==)>(s: seq<T>): seq<T> {
    if s == [] then []
    else if Last(s) in Init(s) then FirstSeen(Init(s))
    else FirstSeen(Init(s)) + [Last(s)]
  }

  ghost predicate NoRepeats<T>(s: seq<T>) {
    forall i, j :: 0 <= i < j < |s| ==> s[i] != s[j]
  }

  lemma {:induction false} FirstSeenMembers<T>(s: seq<T>)
    ensures forall x :: x in FirstSeen(s) <==> x in s
    ensures NoRepeats(FirstSeen(s))
  {
    if s != [] {
      FirstSeenMembers(Init(s));
      assert s == Init(s) + [Last(s)];
    }
  }

  lemma FirstSeenSnoc<T>(s: seq<T>, x: T)
    ensures FirstSeen(s + [x]) == if x in FirstSeen(s) then FirstSeen(s) else FirstSeen(s) + [x]
    ensures x in FirstSeen(s) <==> x in s
  {
    assert Init(s + [x]) == s;
    FirstSeenMembers(s);
  }

  function IndexOf<T(==)>(s: seq<T>, x: T): (i: nat)
    requires x in s
    ensures i < |s| && s[i] == x && x !in s[..i]
  {
    if x in Init(s) then
      var i := IndexOf(Init(s), x);
      assert s[..i] == Init(s)[..i];
      i
    else
      assert s == Init(s) + [Last(s)];
      |s| - 1
  }

  /** `part` lists what `whole` lists, ordered by first occurrence there. */
  ghost predicate InFirstSeenOrder<T(!new)>(part: seq<T>, whole: seq<T>) {
    && (forall x :: x in part <==> x in whole)
    && (forall i, j :: 0 <= i < j < |part| ==>
          part[i] in whole && part[j] in whole && IndexOf(whole, part[i]) < IndexOf(whole, part[j]))
  }

  lemma {:induction false} FirstSeenOrder<T(!new)>(s: seq<T>)
    ensures InFirstSeenOrder(FirstSeen(s), s)
  {
    FirstSeenMembers(s);
    if s != [] {
      FirstSeenOrder(Init(s));
      FirstSeenMembers(Init(s));
      forall i, j | 0 <= i < j < |FirstSeen(s)|
        ensures FirstSeen(s)[i] in s && FirstSeen(s)[j] in s
        ensures IndexOf(s, FirstSeen(s)[i]) < IndexOf(s, FirstSeen(s)[j])
      {
        assert FirstSeen(s)[i] in FirstSeen(s) && FirstSeen(s)[j] in FirstSeen(s);
        assert FirstSeen(s)[i] in FirstSeen(Init(s));
        if j < |FirstSeen(Init(s))| {
          assert FirstSeen(s)[j] in FirstSeen(Init(s));
        }
      }
    }
  }

  function MapSeq<T, U>(f: T -> U, s: seq<T>): (r: seq<U>)
    ensures |r| == |s|
  {
    if s == [] then [] else MapSeq(f, Init(s)) + [f(Last(s))]
  }

  lemma {:induction false} MapAt<T, U>(f: T -> U, s: seq<T>, i: nat)
    requires i < |s|
    ensures MapSeq(f, s)[i] == f(s[i])
  {
    if i < |s| - 1 {
      MapAt(f, Init(s), i);
    }
  }

  lemma MapStep<T, U>(f: T -> U, s: seq<T>, i: nat)
    requires i < |s|
    ensures MapSeq(f, s[..i + 1]) == MapSeq(f, s[..i]) + [f(s[i])]
  {
    assert Init(s[..i + 1]) == s[..i];
  }

  lemma MapMembers<T, U>(f: T -> U, part: seq<T>, all: seq<T>)
    requires forall x :: x in part ==> x in all
    ensures forall v :: v in MapSeq(f, part) ==> v in MapSeq(f, all)
  {
    forall v | v in MapSeq(f, part) ensures v in MapSeq(f, all) {
      var i :| 0 <= i < |part| && MapSeq(f, part)[i] == v;
      assert part[i] in all;
      var j :| 0 <= j < |all| && all[j] == part[i];
      MapAt(f, part, i);
      MapAt(f, all, j);
    }
  }

  predicate OccursAt<T(==)>(s: seq<T>, sub: seq<T>, i: int) {
    0 <= i <= |s| - |sub| && s[i..i + |sub|] == sub
  }

  predicate Contains<T(==)>(s: seq<T>, sub: seq<T>) {
    exists i :: 0 <= i <= |s| - |sub| && OccursAt(s, sub, i)
  }
}
