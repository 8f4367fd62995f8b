/** Finite-sequence vocabulary shared by the rosters, the relay logs and the pumps. */
module Lists {
  datatype Option<+T> = None | Some(value: T)

  ghost predicate NoDup<T>(s: seq<T>) {
    forall i, j :: 0 <= i < j < |s| ==> s[i] != s[j]
  }

  ghost function Elems<T>(s: seq<T>): set<T> {
    set x | x in s
  }

  /** `s` without the members of `gone`, order kept. */
  function Drop<T(==, !new)>(s: seq<T>, gone: set<T>): (r: seq<T>)
    ensures forall x :: x in r <==> x in s && x !in gone
  {
    if s == [] then []
    else
      var front := Drop(s[..|s| - 1], gone);
      if s[|s| - 1] in gone then front else front + [s[|s| - 1]]
  }

  /** `s` without the first occurrence of `x`: what a find-then-erase loop leaves. */
  function RemoveFirst<T(==)>(s: seq<T>, x: T): seq<T> {
    if s == [] then []
    else if s[0] == x then s[1..]
    else [s[0]] + RemoveFirst(s[1..], x)
  }

  lemma TakeOneMore<T>(s: seq<T>, n: nat)
    requires n < |s|
    ensures s[..n + 1] == s[..n] + [s[n]]
  {
  }

  lemma TakeOfAppend<T>(s: seq<T>, t: seq<T>, n: nat)
    requires n <= |s|
    ensures (s + t)[..n] == s[..n]
  {
  }

  lemma {:induction false} DropAppend<T(!new)>(s: seq<T>, t: seq<T>, gone: set<T>)
    ensures Drop(s + t, gone) == Drop(s, gone) + Drop(t, gone)
  {
    if t == [] {
      assert s + t == s;
    } else {
      assert (s + t)[..|s + t| - 1] == s + t[..|t| - 1];
      DropAppend(s, t[..|t| - 1], gone);
    }
  }

  lemma {:induction false} DropTwice<T(!new)>(s: seq<T>, a: set<T>, b: set<T>)
    ensures Drop(Drop(s, a), b) == Drop(s, a + b)
  {
    if s != [] {
      var front, last := s[..|s| - 1], s[|s| - 1];
      DropTwice(front, a, b);
      if last !in a {
        DropAppend(Drop(front, a), [last], b);
        assert [last][..0] == [];
      }
    }
  }

  lemma {:induction false} DropNothing<T(!new)>(s: seq<T>, gone: set<T>)
    requires forall x :: x in gone ==> x !in s
    ensures Drop(s, gone) == s
  {
    if s != [] {
      DropNothing(s[..|s| - 1], gone);
    }
  }

  lemma {:induction false} DropNoDup<T(!new)>(s: seq<T>, gone: set<T>)
    requires NoDup(s)
    ensures NoDup(Drop(s, gone))
  {
    if s != [] {
      DropNoDup(s[..|s| - 1], gone);
    }
  }

  lemma NoDupConcat<T>(s: seq<T>, t: seq<T>)
    requires NoDup(s) && NoDup(t) && forall x | x in s :: x !in t
    ensures NoDup(s + t)
  {
    forall i, j | 0 <= i < j < |s + t|
      ensures (s + t)[i] != (s + t)[j]
    {
      if i < |s| <= j {
        assert s[i] in s && t[j - |s|] in t;
      }
    }
  }

  lemma {:induction false} RemoveFirstAbsent<T>(s: seq<T>, x: T)
    requires x !in s
    ensures RemoveFirst(s, x) == s
  {
    if s != [] {
      RemoveFirstAbsent(s[1..], x);
    }
  }

  /** Where the first occurrence sits determines the whole result. */
  lemma {:induction false} RemoveFirstAt<T>(s: seq<T>, x: T, k: nat)
    requires k < |s| && s[k] == x && x !in s[..k]
    ensures RemoveFirst(s, x) == s[..k] + s[k + 1..]
  {
    if k > 0 {
      assert s[0] == s[..k][0];
      assert s[1..][..k - 1] == s[..k][1..];
      RemoveFirstAt(s[1..], x, k - 1);
    }
  }

  lemma {:induction false} RemoveFirstIsDrop<T(!new)>(s: seq<T>, x: T)
    requires NoDup(s)
    ensures RemoveFirst(s, x) == Drop(s, {x})
  {
    if x !in s {
      RemoveFirstAbsent(s, x);
      DropNothing(s, {x});
    } else {
      var k :| 0 <= k < |s| && s[k] == x;
      RemoveFirstAt(s, x, k);
      DropAt(s, x, k);
    }
  }

  lemma {:induction false} DropAt<T(!new)>(s: seq<T>, x: T, k: nat)
    requires NoDup(s) && k < |s| && s[k] == x
    ensures Drop(s, {x}) == s[..k] + s[k + 1..]
  {
    var n := |s| - 1;
    if k == n {
      DropNothing(s[..n], {x});
    } else {
      DropAt(s[..n], x, k);
    }
  }
}
