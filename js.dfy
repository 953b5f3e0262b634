/** JavaScript values and the few built-in operations the stores rely on:
    truthiness and `||`, `Array.prototype.filter`, `Map.get(...)` over an index
    followed by `.filter(Boolean)`, insertion-ordered `Set`s, ASCII
    `toLowerCase` and `String.prototype.includes`. */
module Js {

  datatype Option<+T> = None | Some(value: T) {
    /** `o || d` for an optional field whose every present value is kept. */
    function GetOr(default: T): T {
      match this
      case Some(v) => v
      case None => default
    }
  }

  /** A JavaScript primitive as used for ids and cursor values. Strict
      equality `===` on these is Dafny's `==`, so `Num(1) != Str("1")`. */
  datatype Prim = Undefined | Null | Bool(b: bool) | Num(n: int) | Str(s: string)

  predicate Truthy(v: Prim) {
    match v
    case Undefined => false
    case Null => false
    case Bool(b) => b
    case Num(n) => n != 0
    case Str(s) => s != ""
  }

  /** The decimal digits of `n`, most significant first. */
  function Digits(n: nat): (r: string)
    ensures |r| >= 1 && '0' <= r[0] <= '9'
  {
    if n < 10 then ['0' + n as char] else Digits(n / 10) + ['0' + (n % 10) as char]
  }

  /** The key a value becomes when it indexes a plain object (`obj[v]`):
      `String(v)`. */
  function PropertyKey(v: Prim): string {
    match v
    case Undefined => "undefined"
    case Null => "null"
    case Bool(b) => if b then "true" else "false"
    case Num(n) => if n < 0 then "-" + Digits(-n) else Digits(n)
    case Str(s) => s
  }

  /** Different numbers render differently. */
  lemma {:induction false} DigitsInjective(a: nat, b: nat)
    requires Digits(a) == Digits(b)
    ensures a == b
  {
    if a >= 10 && b >= 10 {
      var da := Digits(a);
      assert da[..|da| - 1] == Digits(a / 10);
      assert Digits(b)[..|da| - 1] == Digits(b / 10);
      assert da[|da| - 1] == '0' + (a % 10) as char;
      assert Digits(b)[|da| - 1] == '0' + (b % 10) as char;
      DigitsInjective(a / 10, b / 10);
    }
  }

  /** Two numbers index the same object slot only when they are equal. */
  lemma NumKeyInjective(a: int, b: int)
    requires PropertyKey(Num(a)) == PropertyKey(Num(b))
    ensures a == b
  {
    if a < 0 && b < 0 {
      assert PropertyKey(Num(a))[1..] == Digits(-a);
      assert PropertyKey(Num(b))[1..] == Digits(-b);
      DigitsInjective(-a, -b);
    } else if a >= 0 && b >= 0 {
      DigitsInjective(a, b);
    }
  }

  /** `a || b` */
  function Or(a: Prim, b: Prim): Prim {
    if Truthy(a) then a else b
  }

  /** `s || d` for an optional string: the empty string is falsy. */
  function StrOr(s: Option<string>, d: string): string {
    if s.Some? && s.value != "" then s.value else d
  }

  /** The value stored under `k`, or `d` when the key is missing
      (`m.get(k) || d` for values that are never falsy, or are `d` when falsy). */
  function Lookup<K, V>(m: map<K, V>, k: K, d: V): V {
    if k in m then m[k] else d
  }

  // ---------------------------------------------------------------------
  // Array.prototype.filter

  function Filter<T(!new)>(s: seq<T>, keep: T -> bool): (r: seq<T>)
    ensures |r| <= |s|
    ensures forall x :: x in r <==> x in s && keep(x)
  {
    if s == [] then []
    else (if keep(s[0]) then [s[0]] else []) + Filter(s[1..], keep)
  }

  /** Filtering distributes over concatenation, so it keeps the relative
      order of the elements it keeps. */
  lemma {:induction false} FilterConcat<T(!new)>(a: seq<T>, b: seq<T>, keep: T -> bool)
    ensures Filter(a + b, keep) == Filter(a, keep) + Filter(b, keep)
  {
    if a == [] {
      assert a + b == b;
    } else {
      assert (a + b)[0] == a[0];
      assert (a + b)[1..] == a[1..] + b;
      FilterConcat(a[1..], b, keep);
    }
  }

  /** A filter that keeps every element returns the input unchanged. */
  lemma {:induction false} FilterKeepsAll<T(!new)>(s: seq<T>, keep: T -> bool)
    requires forall i :: 0 <= i < |s| ==> keep(s[i])
    ensures Filter(s, keep) == s
  {
    if s != [] {
      FilterKeepsAll(s[1..], keep);
    }
  }

  /** Filtering a list split around one element: the element keeps its place
      among the kept elements exactly when it is kept itself. */
  lemma FilterSplit<T(!new)>(a: seq<T>, x: T, b: seq<T>, keep: T -> bool)
    ensures Filter(a + [x] + b, keep) == Filter(a, keep) + (if keep(x) then [x] else []) + Filter(b, keep)
  {
    FilterConcat(a + [x], b, keep);
    FilterConcat(a, [x], keep);
    assert [x][1..] == [];
  }

  /** An element the filter drops leaves the kept elements on either side of
      it, in order. */
  lemma FilterDropsSplit<T(!new)>(a: seq<T>, x: T, b: seq<T>, keep: T -> bool)
    requires !keep(x)
    ensures Filter(a + [x] + b, keep) == Filter(a, keep) + Filter(b, keep)
  {
    FilterSplit(a, x, b, keep);
  }

  /** A filter that keeps no element returns the empty list. */
  lemma {:induction false} FilterKeepsNone<T(!new)>(s: seq<T>, keep: T -> bool)
    requires forall i :: 0 <= i < |s| ==> !keep(s[i])
    ensures Filter(s, keep) == []
  {
    if s != [] {
      FilterKeepsNone(s[1..], keep);
    }
  }

  /** An element other than the last one is in the prefix without it. */
  lemma PrefixMember<T>(xs: seq<T>, x: T)
    requires x in xs && x != xs[|xs| - 1]
    ensures x in xs[..|xs| - 1]
  {
    var i :| 0 <= i < |xs| && xs[i] == x;
    assert xs[..|xs| - 1][i] == x;
  }

  // ---------------------------------------------------------------------
  // ids.map(id => m.get(id)).filter(Boolean)

  /** Looks every id up in `m` and drops the ids that have no entry. */
  function Resolve<K, V>(ids: seq<K>, m: map<K, V>): (r: seq<V>)
    ensures |r| <= |ids|
    ensures forall v :: v in r ==> exists k :: k in ids && k in m && m[k] == v
  {
    if ids == [] then []
    else (if ids[0] in m then [m[ids[0]]] else []) + Resolve(ids[1..], m)
  }

  lemma {:induction false} ResolveAppend<K, V>(ids: seq<K>, k: K, m: map<K, V>)
    ensures Resolve(ids + [k], m) == Resolve(ids, m) + (if k in m then [m[k]] else [])
  {
    if ids == [] {
      assert ids + [k] == [k];
    } else {
      assert (ids + [k])[0] == ids[0];
      assert (ids + [k])[1..] == ids[1..] + [k];
      ResolveAppend(ids[1..], k, m);
    }
  }

  /** Every id that has an entry contributes it to the resolved list; with
      `Resolve`'s own postcondition, the list holds exactly the entries of the
      ids that have one. */
  lemma {:induction false} ResolveContains<K, V>(ids: seq<K>, m: map<K, V>, k: K)
    requires k in ids && k in m
    ensures m[k] in Resolve(ids, m)
  {
    if ids[0] != k {
      ResolveContains(ids[1..], m, k);
    }
  }

  /** Changing the entry of a key the ids do not list leaves the resolved
      list as it was. */
  lemma {:induction false} ResolveUnlisted<K, V>(ids: seq<K>, m: map<K, V>, k: K, v: V)
    requires k !in ids
    ensures Resolve(ids, m[k := v]) == Resolve(ids, m)
  {
    if ids != [] {
      ResolveUnlisted(ids[1..], m, k, v);
    }
  }

  /** When every id has an entry, nothing is dropped: the i-th result is the
      entry of the i-th id. */
  lemma {:induction false} ResolveTotal<K, V>(ids: seq<K>, m: map<K, V>)
    requires forall i :: 0 <= i < |ids| ==> ids[i] in m
    ensures |Resolve(ids, m)| == |ids|
    ensures forall i :: 0 <= i < |ids| ==> Resolve(ids, m)[i] == m[ids[i]]
  {
    if ids != [] {
      ResolveTotal(ids[1..], m);
    }
  }

  /** Number of occurrences of `x` in `s`. */
  function Count<T(==)>(s: seq<T>, x: T): nat {
    if s == [] then 0 else (if s[0] == x then 1 else 0) + Count(s[1..], x)
  }

  /** Removing the entry of `x` drops exactly the occurrences of `x` from the
      resolved list. */
  lemma {:induction false} ResolveWithout<K, V>(ids: seq<K>, m: map<K, V>, x: K)
    requires x in m
    ensures |Resolve(ids, m - {x})| == |Resolve(ids, m)| - Count(ids, x)
  {
    if ids != [] {
      ResolveWithout(ids[1..], m, x);
    }
  }

  // ---------------------------------------------------------------------
  // Insertion-ordered Set: a sequence without duplicates

  predicate NoDup<T(==)>(s: seq<T>) {
    forall i, j :: 0 <= i < j < |s| ==> s[i] != s[j]
  }

  /** `set.add(x)`: a new element goes to the end, a present one stays put. */
  function SetAdd<T(==,!new)>(s: seq<T>, x: T): (r: seq<T>)
    ensures forall y :: y in r <==> y in s || y == x
    ensures NoDup(s) ==> NoDup(r)
  {
    if x in s then s else s + [x]
  }

  /** `set.delete(x)` */
  function SetDelete<T(==,!new)>(s: seq<T>, x: T): (r: seq<T>)
    ensures forall y :: y in r <==> y in s && y != x
    ensures NoDup(s) ==> NoDup(r)
    ensures x !in s ==> r == s
  {
    if s == [] then []
    else if s[0] == x then SetDelete(s[1..], x)
    else
      assert NoDup(s) ==> NoDup(s[1..]) && s[0] !in s[1..];
      ConsNoDup(s[0], SetDelete(s[1..], x));
      [s[0]] + SetDelete(s[1..], x)
  }

  lemma ConsNoDup<T>(a: T, r: seq<T>)
    ensures NoDup(r) && a !in r ==> NoDup([a] + r)
  {
    if NoDup(r) && a !in r {
      forall i, j | 0 <= i < j < |[a] + r| ensures ([a] + r)[i] != ([a] + r)[j] {
        if i > 0 {
          assert ([a] + r)[i] == r[i - 1] && ([a] + r)[j] == r[j - 1];
        } else {
          assert ([a] + r)[j] == r[j - 1];
        }
      }
    }
  }

  /** In a set of distinct elements, deleting a member shrinks it by one. */
  lemma {:induction false} SetDeleteSize<T(!new)>(s: seq<T>, x: T)
    requires NoDup(s)
    ensures |SetDelete(s, x)| == if x in s then |s| - 1 else |s|
  {
    if s != [] {
      assert NoDup(s[1..]);
      SetDeleteSize(s[1..], x);
    }
  }

  // ---------------------------------------------------------------------
  // Strings (ASCII case folding only)

  function LowerChar(c: char): char {
    if 'A' <= c <= 'Z' then (c as int + 32) as char else c
  }

  /** `s.toLowerCase()` on ASCII text. */
  function Lower(s: string): (r: string)
    ensures |r| == |s|
  {
    seq(|s|, i requires 0 <= i < |s| => LowerChar(s[i]))
  }

  /** `q` occurs in `s` starting at index `i`. */
  predicate OccursAt(s: string, q: string, i: nat) {
    i + |q| <= |s| && s[i..i + |q|] == q
  }

  /** `s.includes(q)` */
  predicate Includes(s: string, q: string) {
    exists i: nat | i <= |s| :: OccursAt(s, q, i)
  }
}
