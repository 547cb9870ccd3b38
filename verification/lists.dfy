/** Facts about the driver's linked lists, as sequences from the head. */
module Lists {
  ghost predicate NoDuplicates<T(!new)>(list: seq<T>) {
    forall i, j :: 0 <= i < j < |list| ==> list[i] != list[j]
  }

  /** The list without one entry (`hlist_del_init`). */
  function Without<T(==)>(list: seq<T>, x: T): seq<T> {
    if list == [] then []
    else (if list[0] == x then [] else [list[0]]) + Without(list[1..], x)
  }

  lemma {:induction false} WithoutMembers<T>(list: seq<T>, x: T, k: T)
    ensures k in Without(list, x) <==> k in list && k != x
  {
    if list != [] {
      WithoutMembers(list[1..], x, k);
      assert k in list <==> k == list[0] || k in list[1..];
    }
  }

  lemma {:induction false} WithoutNoDuplicates<T(!new)>(list: seq<T>, x: T)
    requires NoDuplicates(list)
    ensures NoDuplicates(Without(list, x))
  {
    if list != [] {
      var tail := Without(list[1..], x);
      WithoutNoDuplicates(list[1..], x);
      WithoutMembers(list[1..], x, list[0]);
      assert list[0] !in list[1..];
      assert list[0] !in tail;
    }
  }

  lemma {:induction false} WithoutAbsent<T>(list: seq<T>, x: T)
    requires x !in list
    ensures Without(list, x) == list
  {
    if list != [] {
      assert list[0] in list && forall k :: k in list[1..] ==> k in list;
      WithoutAbsent(list[1..], x);
    }
  }

  lemma WithoutFirst<T(!new)>(list: seq<T>)
    requires list != [] && NoDuplicates(list)
    ensures Without(list, list[0]) == list[1..] && list[0] !in list[1..]
  {
    WithoutAbsent(list[1..], list[0]);
  }

  lemma {:induction false} WithoutMultiset<T(!new)>(list: seq<T>, x: T)
    requires NoDuplicates(list) && x in list
    ensures multiset([x] + Without(list, x)) == multiset(list)
  {
    assert list == [list[0]] + list[1..];
    if list[0] == x {
      assert x !in list[1..];
      WithoutAbsent(list[1..], x);
    } else {
      WithoutMultiset(list[1..], x);
      assert multiset([x] + ([list[0]] + Without(list[1..], x)))
          == multiset{list[0]} + multiset([x] + Without(list[1..], x));
    }
  }

  lemma ConcatNoDuplicates<T(!new)>(a: seq<T>, b: seq<T>)
    requires NoDuplicates(a) && NoDuplicates(b) && forall x :: x in a ==> x !in b
    ensures NoDuplicates(a + b)
  {
    forall i, j | 0 <= i < j < |a + b| ensures (a + b)[i] != (a + b)[j] {
      if i < |a| <= j { assert a[i] in a && b[j - |a|] in b; }
    }
  }

  lemma TailNoDuplicates<T(!new)>(list: seq<T>, x: T)
    requires list != [] && NoDuplicates(list)
    ensures NoDuplicates(list[1..]) && list[0] !in list[1..]
    ensures x in list <==> x == list[0] || x in list[1..]
  {
  }
}
