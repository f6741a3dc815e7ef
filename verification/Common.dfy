/** Small vocabulary shared by the models of the gateway. */
module Common {

  type Byte = b: int | 0 <= b < 256

  datatype Option<+T> = None | Some(value: T)

  /** White space in the sense of the Unicode White_Space property. */
  predicate IsWhiteSpace(c: char) {
    var n := c as int;
    9 <= n <= 13 || n == 32 || n == 0x85 || n == 0xA0 || n == 0x1680 || 0x2000 <= n <= 0x200A ||
    n == 0x2028 || n == 0x2029 || n == 0x202F || n == 0x205F || n == 0x3000
  }

  function TrimLeft(s: string): (r: string) {
    if s != "" && IsWhiteSpace(s[0]) then TrimLeft(s[1..]) else s
  }

  function TrimRight(s: string): (r: string) {
    if s != "" && IsWhiteSpace(s[|s| - 1]) then TrimRight(s[..|s| - 1]) else s
  }

  /** The text without the white space around it. */
  function TrimSpace(s: string): (r: string) {
    TrimRight(TrimLeft(s))
  }

  /** No element occurs twice. */
  ghost predicate Distinct<T(!new)>(s: seq<T>) {
    forall i, j :: 0 <= i < j < |s| ==> s[i] != s[j]
  }

  /** The elements of a sequence, as a set. */
  function Elems<T(==)>(s: seq<T>): (r: set<T>) {
    set x | x in s
  }

  lemma ElemsSize<T(!new)>(s: seq<T>)
    requires Distinct(s)
    ensures |Elems(s)| == |s|
  {
    if s != [] {
      var t, x := s[..|s| - 1], s[|s| - 1];
      assert Distinct(t);
      ElemsSize(t);
      assert x !in t;
      assert s == t + [x];
      assert Elems(s) == Elems(t) + {x};
    }
  }

  /** Concatenation of a list of sequences. */
  function Flatten<T>(parts: seq<seq<T>>): (r: seq<T>) {
    if parts == [] then [] else parts[0] + Flatten(parts[1..])
  }

  lemma FlattenAppend<T>(a: seq<seq<T>>, b: seq<seq<T>>)
    ensures Flatten(a + b) == Flatten(a) + Flatten(b)
  {
    if a == [] {
      assert a + b == b;
    } else {
      assert (a + b)[1..] == a[1..] + b;
      FlattenAppend(a[1..], b);
    }
  }

  lemma FlattenSnoc<T>(a: seq<seq<T>>, x: seq<T>)
    ensures Flatten(a + [x]) == Flatten(a) + x
  {
    FlattenAppend(a, [x]);
    assert Flatten([x]) == x;
  }

  lemma Pick<T>(s: set<T>) returns (x: T)
    requires s != {}
    ensures x in s
  {
    x :| x in s;
  }

  ghost predicate IsLeast(least: int, keys: set<int>) {
    least in keys && forall k :: k in keys ==> least <= k
  }

  lemma {:induction false} LeastExists(keys: set<int>)
    requires keys != {}
    ensures exists least :: IsLeast(least, keys)
    decreases |keys|
  {
    var x := Pick(keys);
    var others := keys - {x};
    if others == {} {
      assert keys == {x};
      assert IsLeast(x, keys);
    } else {
      LeastExists(others);
      var y :| IsLeast(y, others);
      var least := if x < y then x else y;
      forall k | k in keys ensures least <= k {
        if k != x { assert k in others; }
      }
      assert IsLeast(least, keys);
    }
  }

  ghost predicate Ascending(s: seq<int>) {
    forall i, j :: 0 <= i < j < |s| ==> s[i] < s[j]
  }

  /** The elements of a set of integers in ascending order. */
  ghost function Sorted(keys: set<int>): (r: seq<int>)
    ensures Elems(r) == keys && Ascending(r)
    decreases |keys|
  {
    if keys == {} then []
    else
      LeastExists(keys);
      var least :| IsLeast(least, keys);
      SortedStep(keys, least, Sorted(keys - {least}));
      [least] + Sorted(keys - {least})
  }

  lemma SortedStep(keys: set<int>, least: int, rest: seq<int>)
    requires IsLeast(least, keys) && Elems(rest) == keys - {least} && Ascending(rest)
    ensures Elems([least] + rest) == keys && Ascending([least] + rest)
  {
    forall i | 0 <= i < |rest| ensures least < rest[i] {
      assert rest[i] in Elems(rest);
    }
    assert Elems([least] + rest) == {least} + Elems(rest);
  }

  /** Only one order is ascending. */
  lemma SortedIsUnique(a: seq<int>, b: seq<int>)
    requires Ascending(a) && Ascending(b) && Elems(a) == Elems(b)
    ensures a == b
  {
    if a == [] {
      assert forall i :: 0 <= i < |b| ==> b[i] in Elems(b);
    } else {
      assert a[0] in Elems(a) && a[0] in Elems(b);
      assert b != [];
      assert b[0] in Elems(b) && b[0] in Elems(a);
      assert a[0] == b[0];
      TailElems(a);
      TailElems(b);
      SortedIsUnique(a[1..], b[1..]);
      assert a == [a[0]] + a[1..] && b == [b[0]] + b[1..];
    }
  }

  lemma TailElems(a: seq<int>)
    requires Ascending(a) && a != []
    ensures Ascending(a[1..]) && Elems(a[1..]) == Elems(a) - {a[0]}
  {
    assert a == [a[0]] + a[1..];
  }

  lemma SortedSnoc(r: seq<int>, x: int)
    requires Ascending(r) && forall i :: 0 <= i < |r| ==> r[i] < x
    ensures Ascending(r + [x]) && Elems(r + [x]) == Elems(r) + {x}
  {
  }

  /** Ascending order, as the standard sort puts it. */
  method SortInts(keys: set<int>) returns (r: seq<int>)
    ensures r == Sorted(keys)
  {
    hide Sorted;
    r := [];
    var rest := keys;
    while rest != {}
      invariant rest <= keys && Ascending(r) && Elems(r) == keys - rest
      invariant forall i, k :: 0 <= i < |r| && k in rest ==> r[i] < k
      decreases |rest|
    {
      var least := Least(rest);
      SortedSnoc(r, least);
      r := r + [least];
      rest := rest - {least};
    }
    SortedIsUnique(r, Sorted(keys));
  }

  method Least(keys: set<int>) returns (least: int)
    requires keys != {}
    ensures IsLeast(least, keys)
  {
    ghost var some := Pick(keys);
    least :| least in keys;
    var rest := keys - {least};
    while rest != {}
      invariant least in keys && rest <= keys
      invariant forall k :: k in keys && k !in rest ==> least <= k
      decreases |rest|
    {
      ghost var some := Pick(rest);
      var k :| k in rest;
      if k < least {
        least := k;
      }
      rest := rest - {k};
    }
  }

  /** The bytes of a code point in UTF-8. */
  function Utf8Bytes(n: nat): (r: seq<Byte>)
    requires n < 0x110000
    ensures 1 <= |r| <= 4 && (n < 0x80 ==> r == [n])
    ensures n >= 0x80 ==> forall b :: b in r ==> b >= 0x80
  {
    if n < 0x80 then [n]
    else if n < 0x800 then [0xC0 + n / 64, 0x80 + n % 64]
    else if n < 0x10000 then [0xE0 + n / 4096, 0x80 + n / 64 % 64, 0x80 + n % 64]
    else [0xF0 + n / 262144, 0x80 + n / 4096 % 64, 0x80 + n / 64 % 64, 0x80 + n % 64]
  }

  function Min(a: int, b: int): int {
    if a <= b then a else b
  }

  function Max(a: int, b: int): int {
    if a >= b then a else b
  }
}
