/** Small value types shared by the caption pipeline model. */
module Common {

  datatype Option<T> = None | Some(value: T)

  datatype Result<T, E> = Ok(value: T) | Err(error: E)

  datatype Outcome<E> = Pass | Fail(error: E)

  /** A JSON value as sent by `send_json`. `JTime` stands for the ISO-8601
      text of a timestamp (microseconds since 0001-01-01 00:00); the text
      itself is not spelled out. */
  datatype Json =
    | JBool(b: bool)
    | JInt(i: int)
    | JReal(r: real)
    | JString(s: string)
    | JTime(t: int)
    | JObject(fields: seq<(string, Json)>)

  /** The value of the first field named `key`, as a Python dict lookup. */
  function Lookup(fields: seq<(string, Json)>, key: string): Option<Json> {
    if fields == [] then None
    else if fields[0].0 == key then Some(fields[0].1)
    else Lookup(fields[1..], key)
  }

  /** Fields named otherwise before position `n` do not affect a lookup. */
  lemma {:induction false} LookupSkips(fields: seq<(string, Json)>, n: nat, key: string)
    requires n <= |fields|
    requires forall i | 0 <= i < n :: fields[i].0 != key
    ensures Lookup(fields, key) == Lookup(fields[n..], key)
  {
    if n > 0 {
      LookupSkips(fields[1..], n - 1, key);
      assert fields[1..][n - 1..] == fields[n..];
    }
  }

  predicate NoDuplicates<T(==)>(s: seq<T>) {
    forall i, j | 0 <= i < j < |s| :: s[i] != s[j]
  }

  /** Position of the first occurrence of `x`. */
  function IndexOf<T(==)>(s: seq<T>, x: T): (i: nat)
    requires x in s
    ensures i < |s| && s[i] == x
    ensures forall j | 0 <= j < i :: s[j] != x
  {
    if s[0] == x then 0 else 1 + IndexOf(s[1..], x)
  }

  /** Python's `if x in s: s.remove(x)`: drops the first occurrence only. */
  function RemoveFirst<T(==)>(s: seq<T>, x: T): (r: seq<T>)
    ensures multiset(r) == multiset(s) - multiset{x}
    ensures x !in s ==> r == s
    ensures x in s ==> |r| == |s| - 1
    ensures x in s ==> var i := IndexOf(s, x); r[..i] == s[..i] && r[i..] == s[i + 1..]
    ensures IsSubsequence(r, s)
  {
    if x in s then
      var i := IndexOf(s, x);
      RemoveAt(s, i);
      s[..i] + s[i + 1..]
    else
      assert multiset(s)[x] == 0;
      SubsequenceOfItself(s);
      s
  }

  /** Leaving out position `i` keeps both sides in order and removes one copy of `s[i]`. */
  lemma RemoveAt<T>(s: seq<T>, i: nat)
    requires i < |s|
    ensures var r := s[..i] + s[i + 1..];
            && |r| == |s| - 1
            && multiset(r) == multiset(s) - multiset{s[i]}
            && r[..i] == s[..i] && r[i..] == s[i + 1..]
            && IsSubsequence(r, s)
  {
    var r := s[..i] + s[i + 1..];
    assert s == s[..i] + [s[i]] + s[i + 1..];
    DropOneIsSubsequence(s[..i], s[i], s[i + 1..]);
    assert r[..i] == s[..i];
    assert r[i..] == s[i + 1..];
  }

  lemma {:induction false} SubsequenceOfItself<T>(s: seq<T>)
    ensures IsSubsequence(s, s)
  {
    if s != [] {
      SubsequenceOfItself(s[1..]);
    }
  }

  /** Leaving out one element keeps the rest in order. */
  lemma {:induction false} DropOneIsSubsequence<T>(a: seq<T>, x: T, c: seq<T>)
    ensures IsSubsequence(a + c, a + [x] + c)
  {
    if a == [] {
      assert a + c == c && (a + [x] + c)[1..] == c;
      SubsequenceOfItself(c);
    } else {
      DropOneIsSubsequence(a[1..], x, c);
      assert (a + c)[1..] == a[1..] + c;
      assert (a + [x] + c)[1..] == a[1..] + [x] + c;
    }
  }

  /** Subscribing an absent element and removing it again restores the list. */
  lemma RemoveFirstOfAppended<T>(s: seq<T>, x: T)
    requires x !in s
    ensures RemoveFirst(s + [x], x) == s
  {
    var t := s + [x];
    assert forall j | 0 <= j < |s| :: t[j] == s[j] && t[j] != x;
    var i := IndexOf(t, x);
    assert i == |s|;
    assert t[..i] == s;
  }

  /** On a list without repeats, removing `x` leaves exactly the other elements, still without repeats. */
  lemma {:induction false} RemoveFirstOfDistinct<T>(s: seq<T>, x: T)
    requires NoDuplicates(s)
    ensures NoDuplicates(RemoveFirst(s, x))
    ensures forall y :: y in RemoveFirst(s, x) <==> y in s && y != x
  {
    if x in s {
      var i := IndexOf(s, x);
      var r := s[..i] + s[i + 1..];
      assert forall k | 0 <= k < |r| :: r[k] == if k < i then s[k] else s[k + 1];
      forall y
        ensures y in r <==> y in s && y != x
      {
        if y in r {
          var k :| 0 <= k < |r| && r[k] == y;
          if k < i { assert s[k] == y && k != i; } else { assert s[k + 1] == y && k + 1 != i; }
        }
        if y in s && y != x {
          var k :| 0 <= k < |s| && s[k] == y;
          if k < i { assert r[k] == y; } else { assert k != i; assert r[k - 1] == y; }
        }
      }
    }
  }

  /** `a` appears in `b` in the same order, possibly with gaps. */
  predicate IsSubsequence<T(==)>(a: seq<T>, b: seq<T>)
    decreases |b|
  {
    if a == [] then true
    else if b == [] then false
    else (a[0] == b[0] && IsSubsequence(a[1..], b[1..])) || IsSubsequence(a, b[1..])
  }
}
