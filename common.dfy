/** Small shared vocabulary: optional values and results, string prefixes,
    decimal rendering of integers, a stable sort by an integer key and the
    `find` of arrays. */
module Common {

  datatype Option<T> = None | Some(value: T) {
    function GetOr(default: T): T {
      match this
      case Some(v) => v
      case None => default
    }
  }

  /** The outcome of an operation that the source either completes or
      abandons with a user-facing message. */
  datatype Result<T> = Ok(value: T) | Err(message: string)

  // ---------------------------------------------------------------------
  // Prefixes: the key-value store separates its tables by key prefix.

  predicate HasPrefix(s: string, p: string) {
    |p| <= |s| && s[..|p|] == p
  }

  lemma PrefixOfConcat(p: string, x: string)
    ensures HasPrefix(p + x, p)
  {
    assert (p + x)[..|p|] == p;
  }

  /** Two prefixes that disagree at some position can never both start one key. */
  lemma DistinctPrefixes(p: string, q: string, x: string, i: nat)
    requires i < |p| && i < |q| && p[i] != q[i]
    ensures !HasPrefix(p + x, q)
  {
    if |q| <= |p + x| {
      assert (p + x)[..|q|][i] == p[i];
    }
  }

  lemma {:induction false} ConcatInjective(p: string, x: string, y: string)
    requires p + x == p + y
    ensures x == y
  {
    assert x == (p + x)[|p|..];
    assert y == (p + y)[|p|..];
  }

  // ---------------------------------------------------------------------
  // Decimal rendering, as JavaScript's template literals print integers.

  function DigitChar(d: nat): (c: char)
    requires d < 10
    ensures '0' <= c <= '9'
  {
    "0123456789"[d]
  }

  function DigitValue(c: char): nat {
    if '0' <= c <= '9' then (c as int - '0' as int) as nat else 0
  }

  function NatToString(n: nat): (s: string)
    ensures |s| >= 1
    ensures forall i :: 0 <= i < |s| ==> '0' <= s[i] <= '9'
  {
    if n < 10 then [DigitChar(n)] else NatToString(n / 10) + [DigitChar(n % 10)]
  }

  function IntToString(i: int): string {
    if i < 0 then "-" + NatToString(-i) else NatToString(i)
  }

  /** Reads a string of decimal digits back; the inverse of NatToString. */
  function ParseDigits(s: string): nat {
    if s == [] then 0 else ParseDigits(s[..|s| - 1]) * 10 + DigitValue(s[|s| - 1])
  }

  lemma {:induction false} ParseNatToString(n: nat)
    ensures ParseDigits(NatToString(n)) == n
  {
    var s := NatToString(n);
    if n < 10 {
      assert s[..|s| - 1] == [];
    } else {
      var d := DigitChar(n % 10);
      assert s == NatToString(n / 10) + [d];
      assert s[..|s| - 1] == NatToString(n / 10);
      assert DigitValue(d) == n % 10 by {
        assert "0123456789"[n % 10] as int - '0' as int == n % 10;
      }
      ParseNatToString(n / 10);
    }
  }

  // ---------------------------------------------------------------------
  // Sorting by an integer key. Array.prototype.sort is stable; insertion
  // that places a new element after every element with a key not above its
  // own is the stable sort.

  ghost predicate SortedBy<T>(s: seq<T>, key: T -> int) {
    forall i, j :: 0 <= i < j < |s| ==> key(s[i]) <= key(s[j])
  }

  function Insert<T>(x: T, t: seq<T>, key: T -> int): (r: seq<T>)
    ensures multiset(r) == multiset(t) + multiset{x}
    ensures |r| == |t| + 1
    ensures forall k :: 0 <= k < |r| ==> r[k] == x || r[k] in t
  {
    if t == [] then [x]
    else if key(x) < key(t[0]) then [x] + t
    else
      assert t == [t[0]] + t[1..];
      [t[0]] + Insert(x, t[1..], key)
  }

  lemma {:induction false} InsertSorted<T>(x: T, t: seq<T>, key: T -> int)
    requires SortedBy(t, key)
    ensures SortedBy(Insert(x, t, key), key)
  {
    if t != [] && key(x) >= key(t[0]) {
      var rest := Insert(x, t[1..], key);
      InsertSorted(x, t[1..], key);
      forall k | 0 <= k < |rest|
        ensures key(t[0]) <= key(rest[k])
      {
        if rest[k] != x {
          var m :| 0 <= m < |t[1..]| && t[1..][m] == rest[k];
          assert t[m + 1] == rest[k];
        }
      }
      var r := [t[0]] + rest;
      assert Insert(x, t, key) == r;
      forall i, j | 0 <= i < j < |r|
        ensures key(r[i]) <= key(r[j])
      {
        assert r[j] == rest[j - 1];
        if i > 0 {
          assert r[i] == rest[i - 1];
        }
      }
    }
  }

  /** Ascending by key, equal keys in their original order. A descending
      sort by `k` is SortAsc with the key negated. */
  function SortAsc<T>(s: seq<T>, key: T -> int): (r: seq<T>)
    ensures SortedBy(r, key)
    ensures multiset(r) == multiset(s)
    ensures |r| == |s|
  {
    if s == [] then []
    else
      assert s == s[..|s| - 1] + [s[|s| - 1]];
      InsertSorted(s[|s| - 1], SortAsc(s[..|s| - 1], key), key);
      Insert(s[|s| - 1], SortAsc(s[..|s| - 1], key), key)
  }

  lemma SortAscMembers<T>(s: seq<T>, key: T -> int, x: T)
    ensures x in SortAsc(s, key) <==> x in s
  {
    var r := SortAsc(s, key);
    assert x in r <==> x in multiset(r);
    assert x in s <==> x in multiset(s);
  }

  /** The elements of `s` whose key is `v`, in their order in `s`. */
  function WithKey<T>(s: seq<T>, key: T -> int, v: int): seq<T> {
    if s == [] then []
    else (if key(s[0]) == v then [s[0]] else []) + WithKey(s[1..], key, v)
  }

  lemma {:induction false} WithKeyAppend<T>(a: seq<T>, b: seq<T>, key: T -> int, v: int)
    ensures WithKey(a + b, key, v) == WithKey(a, key, v) + WithKey(b, key, v)
  {
    if a != [] {
      assert (a + b)[0] == a[0];
      assert (a + b)[1..] == a[1..] + b;
      WithKeyAppend(a[1..], b, key, v);
    } else {
      assert a + b == b;
    }
  }

  lemma {:induction false} WithKeyNone<T>(s: seq<T>, key: T -> int, v: int)
    requires forall i :: 0 <= i < |s| ==> key(s[i]) != v
    ensures WithKey(s, key, v) == []
  {
    if s != [] {
      assert forall i :: 0 <= i < |s[1..]| ==> s[1..][i] == s[i + 1];
      WithKeyNone(s[1..], key, v);
    }
  }

  lemma WithKeySingle<T>(x: T, key: T -> int, v: int)
    ensures WithKey([x], key, v) == if key(x) == v then [x] else []
  {
    assert [x][1..] == [];
  }

  /** Inserting into a sorted list puts the new element after every element
      of equal key. */
  lemma {:induction false} InsertWithKey<T>(x: T, t: seq<T>, key: T -> int, v: int)
    requires SortedBy(t, key)
    ensures WithKey(Insert(x, t, key), key, v) == WithKey(t, key, v) + (if key(x) == v then [x] else [])
  {
    if t == [] {
      WithKeySingle(x, key, v);
    } else if key(x) < key(t[0]) {
      WithKeyAppend([x], t, key, v);
      WithKeySingle(x, key, v);
      if key(x) == v {
        WithKeyNone(t, key, v);
      }
    } else {
      var tail := t[1..];
      assert t == [t[0]] + tail;
      assert SortedBy(tail, key) by {
        assert forall i :: 0 <= i < |tail| ==> tail[i] == t[i + 1];
      }
      InsertWithKey(x, tail, key, v);
      WithKeyAppend([t[0]], Insert(x, tail, key), key, v);
      WithKeyAppend([t[0]], tail, key, v);
    }
  }

  /** The sort is stable: the elements of any one key keep their relative
      order. */
  lemma {:induction false} SortAscStable<T>(s: seq<T>, key: T -> int, v: int)
    ensures WithKey(SortAsc(s, key), key, v) == WithKey(s, key, v)
  {
    if s != [] {
      var init, last := s[..|s| - 1], s[|s| - 1];
      var sorted := SortAsc(init, key);
      assert SortAsc(s, key) == Insert(last, sorted, key);
      SortAscStable(init, key, v);
      InsertWithKey(last, sorted, key, v);
      WithKeySingle(last, key, v);
      WithKeyAppend(init, [last], key, v);
      assert s == init + [last];
    }
  }

  // ---------------------------------------------------------------------
  // Array.prototype.find: the first element satisfying the predicate.

  function Find<T(==)>(s: seq<T>, p: T -> bool): (r: Option<T>)
    ensures r.Some? ==> r.value in s && p(r.value)
    ensures r.None? <==> forall x :: x in s ==> !p(x)
    ensures r.Some? ==> exists i :: 0 <= i < |s| && s[i] == r.value && forall j :: 0 <= j < i ==> !p(s[j])
  {
    if s == [] then None
    else if p(s[0]) then
      Some(s[0])
    else
      var r := Find(s[1..], p);
      assert forall x :: x in s ==> x == s[0] || x in s[1..];
      if r.Some? then
        var i :| 0 <= i < |s[1..]| && s[1..][i] == r.value && forall j :: 0 <= j < i ==> !p(s[1..][j]);
        assert s[i + 1] == r.value && forall j :: 0 <= j < i + 1 ==> !p(s[j]);
        r
      else r
  }

  /** The field `f` of every element, in order. */
  function Project<T>(s: seq<T>, f: T -> string): (r: seq<string>)
    ensures |r| == |s| && forall i :: 0 <= i < |s| ==> r[i] == f(s[i])
  {
    seq(|s|, i requires 0 <= i < |s| => f(s[i]))
  }

  /** `s.find(x => x.f === k)`: the first element whose field is `k`,
      present exactly when some element has that field value. */
  function FindBy<T(==)>(s: seq<T>, f: T -> string, k: string): (r: Option<T>)
    ensures r.Some? ==> r.value in s && f(r.value) == k
    ensures r.None? <==> k !in Project(s, f)
  {
    var r := Find(s, (x: T) => f(x) == k);
    if r.Some? then
      var i :| 0 <= i < |s| && s[i] == r.value;
      assert Project(s, f)[i] == k;
      r
    else
      assert forall i :: 0 <= i < |s| ==> s[i] in s && Project(s, f)[i] == f(s[i]);
      r
  }

  // ---------------------------------------------------------------------
  // The dashboards' time-of-day greeting: before 12, before 17, otherwise.

  function Salutation(hour: int): (s: string)
    ensures s == "Good morning" <==> hour < 12
    ensures s == "Good afternoon" <==> 12 <= hour < 17
    ensures s == "Good evening" <==> hour >= 17
  {
    if hour < 12 then "Good morning" else if hour < 17 then "Good afternoon" else "Good evening"
  }

  /** A dashboard's welcome line, `${salutation}, ${title}${name || fallback}!`:
      the user's name when it is present and non-empty, the fallback otherwise. */
  function Greeting(hour: int, title: string, name: Option<string>, fallback: string): (g: string)
    ensures name.Some? && name.value != "" ==> g == Salutation(hour) + ", " + title + name.value + "!"
    ensures name.None? || name.value == "" ==> g == Salutation(hour) + ", " + title + fallback + "!"
  {
    var shown := if name.Some? && name.value != "" then name.value else fallback;
    Salutation(hour) + ", " + title + shown + "!"
  }
}
