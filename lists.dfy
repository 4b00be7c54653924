/** The Python `list` operations the bot applies to its queue and to the
    tokens of a message: `x in s`, `s.remove(x)` and the no-duplicates invariant. */
module Lists {

  predicate NoDuplicates<T(==)>(s: seq<T>) {
    forall i, j :: 0 <= i < j < |s| ==> s[i] != s[j]
  }

  /** The position `list.index(x)` reports: the first occurrence of `x`. */
  function IndexOf<T(==)>(s: seq<T>, x: T): (k: nat)
    requires x in s
    ensures k < |s| && s[k] == x
    ensures x !in s[..k]
  {
    if s[0] == x then 0
    else
      assert s[1..][..IndexOf(s[1..], x)] == s[1..1 + IndexOf(s[1..], x)];
      1 + IndexOf(s[1..], x)
  }

  /** `s.remove(x)`: deletes the first element equal to `x` and keeps the
      order of the others. Python raises when `x` is absent; every call in
      the bot is guarded, so that case is excluded here. */
  function RemoveFirst<T(==)>(s: seq<T>, x: T): (r: seq<T>)
    requires x in s
    ensures r == s[..IndexOf(s, x)] + s[IndexOf(s, x) + 1..]
  {
    if s[0] == x then s[1..]
    else
      var k := IndexOf(s[1..], x);
      assert s[1..][..k] == s[1..k + 1] && s[1..][k + 1..] == s[k + 2..];
      assert [s[0]] + s[1..k + 1] == s[..k + 1];
      [s[0]] + RemoveFirst(s[1..], x)
  }

  /** Removing an element from a list without duplicates leaves a list
      without duplicates that no longer holds that element. */
  lemma RemoveFirstKeepsNoDuplicates<T>(s: seq<T>, x: T)
    requires x in s
    requires NoDuplicates(s)
    ensures NoDuplicates(RemoveFirst(s, x))
    ensures x !in RemoveFirst(s, x)
  {
  }

  /** `remove` takes away exactly one copy of `x`. */
  lemma RemoveFirstMultiset<T>(s: seq<T>, x: T)
    requires x in s
    ensures multiset(RemoveFirst(s, x)) == multiset(s) - multiset{x}
    ensures multiset(s) == multiset(RemoveFirst(s, x)) + multiset{x}
    ensures forall t :: t in RemoveFirst(s, x) ==> t in s
  {
    var k := IndexOf(s, x);
    assert s == s[..k] + [x] + s[k + 1..];
  }

  /** Elements before the first occurrence of `x` stay where they are. */
  lemma RemoveFirstKeepsPrefix<T>(s: seq<T>, x: T, n: nat)
    requires x in s
    requires n <= |s|
    requires x !in s[..n]
    ensures n <= |RemoveFirst(s, x)| && RemoveFirst(s, x)[..n] == s[..n]
  {
  }

  lemma AppendAbsentKeepsNoDuplicates<T>(s: seq<T>, x: T)
    requires NoDuplicates(s)
    requires x !in s
    ensures NoDuplicates(s + [x])
  {
  }
}
