/** slices.SortFunc over a string key, for slices whose keys are distinct. */
module Sorting {
  import opened Names

  ghost predicate KeysDistinct<T>(s: seq<T>, key: T -> string) {
    forall i, j | 0 <= i < j < |s| :: key(s[i]) != key(s[j])
  }

  ghost predicate KeysOrdered<T>(s: seq<T>, key: T -> string) {
    forall i, j | 0 <= i < j < |s| :: Before(key(s[i]), key(s[j]))
  }

  function Insert<T>(x: T, s: seq<T>, key: T -> string): seq<T> {
    if s == [] || Before(key(x), key(s[0])) then [x] + s else [s[0]] + Insert(x, s[1..], key)
  }

  function SortBy<T>(s: seq<T>, key: T -> string): seq<T> {
    if s == [] then [] else Insert(s[0], SortBy(s[1..], key), key)
  }

  lemma {:induction false} InsertMembers<T>(x: T, s: seq<T>, key: T -> string, y: T)
    ensures y in Insert(x, s, key) <==> y == x || y in s
  {
    if s != [] && !Before(key(x), key(s[0])) {
      InsertMembers(x, s[1..], key, y);
      assert y in s <==> y == s[0] || y in s[1..];
    }
  }

  lemma {:induction false} InsertOrders<T>(x: T, s: seq<T>, key: T -> string)
    requires KeysOrdered(s, key) && forall y | y in s :: key(y) != key(x)
    ensures KeysOrdered(Insert(x, s, key), key)
  {
    if s != [] && !Before(key(x), key(s[0])) {
      var rest := Insert(x, s[1..], key);
      InsertOrders(x, s[1..], key);
      BeforeIsStrict(key(x), key(s[0]));
      forall j | 0 <= j < |rest|
        ensures Before(key(s[0]), key(rest[j]))
      {
        InsertMembers(x, s[1..], key, rest[j]);
      }
    } else if s != [] {
      forall j | 0 < j < |s|
        ensures Before(key(x), key(s[j]))
      {
        BeforeIsTransitive(key(x), key(s[0]), key(s[j]));
      }
    }
  }

  lemma {:induction false} SortMembers<T>(s: seq<T>, key: T -> string, y: T)
    ensures y in SortBy(s, key) <==> y in s
  {
    if s != [] {
      SortMembers(s[1..], key, y);
      InsertMembers(s[0], SortBy(s[1..], key), key, y);
      assert y in s <==> y == s[0] || y in s[1..];
    }
  }

  lemma {:induction false} SortOrders<T>(s: seq<T>, key: T -> string)
    requires KeysDistinct(s, key)
    ensures KeysOrdered(SortBy(s, key), key)
  {
    if s != [] {
      SortOrders(s[1..], key);
      forall y | y in SortBy(s[1..], key)
        ensures key(y) != key(s[0])
      {
        SortMembers(s[1..], key, y);
        var i :| 0 <= i < |s[1..]| && s[1..][i] == y;
        assert s[i + 1] == y;
      }
      InsertOrders(s[0], SortBy(s[1..], key), key);
    }
  }

  lemma SortKeeps<T>(s: seq<T>, key: T -> string)
    ensures forall y :: y in SortBy(s, key) <==> y in s
    ensures KeysDistinct(s, key) ==> KeysOrdered(SortBy(s, key), key)
  {
    forall y
      ensures y in SortBy(s, key) <==> y in s
    {
      SortMembers(s, key, y);
    }
    if KeysDistinct(s, key) {
      SortOrders(s, key);
    }
  }
}
