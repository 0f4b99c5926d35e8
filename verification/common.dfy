/**
 * Helpers shared by every service of the model: optional values, the
 * first-match and filter searches that stand for the repositories'
 * FirstOrDefault / FindList queries, and whole-second time units.
 */
module Common {

  datatype Option<T> = None | Some(value: T)

  /** Timestamps are whole seconds; a date is the timestamp of its midnight. */
  const Hour: int := 3600
  const Day: int := 86400

  /** DateTime.Date: the midnight at or before `t`. */
  function DateOf(t: int): (d: int)
    ensures d <= t < d + Day
    ensures d % Day == 0
  {
    t - t % Day
  }

  lemma DateOfIsMidnight(d: int)
    requires d % Day == 0
    ensures DateOf(d) == d
  {
  }

  /**
   * Index of the first row satisfying `p`: FirstOrDefault over a table whose
   * rows are kept in primary-key order.
   */
  function FirstIndex<T>(rows: seq<T>, p: T -> bool): (r: Option<nat>)
    ensures r.Some? ==> r.value < |rows| && p(rows[r.value])
    ensures r.Some? ==> forall j :: 0 <= j < r.value ==> !p(rows[j])
    ensures r.None? ==> forall j :: 0 <= j < |rows| ==> !p(rows[j])
  {
    if rows == [] then None
    else if p(rows[0]) then Some(0)
    else match FirstIndex(rows[1..], p) {
      case None => None
      case Some(k) => Some(k + 1)
    }
  }

  /** The rows satisfying `p`, in table order (FindList with a predicate). */
  function Filter<T>(rows: seq<T>, p: T -> bool): (r: seq<T>)
    ensures |r| <= |rows|
    ensures forall i :: 0 <= i < |r| ==> r[i] in rows && p(r[i])
    ensures forall i :: 0 <= i < |rows| && p(rows[i]) ==> rows[i] in r
  {
    if rows == [] then []
    else if p(rows[0]) then [rows[0]] + Filter(rows[1..], p)
    else Filter(rows[1..], p)
  }

  /** Filtering keeps table order: the rows of a prefix come before those of the rest. */
  lemma {:induction false} FilterAppend<T>(a: seq<T>, b: seq<T>, p: T -> bool)
    ensures Filter(a + b, p) == Filter(a, p) + Filter(b, p)
  {
    if a == [] {
      assert a + b == b;
    } else {
      assert (a + b)[1..] == a[1..] + b;
      FilterAppend(a[1..], b, p);
    }
  }

  /** Every row satisfying `p` is kept as often as it occurs, every other row dropped. */
  lemma {:induction false} FilterCounts<T>(rows: seq<T>, p: T -> bool)
    ensures forall x :: multiset(Filter(rows, p))[x] == if p(x) then multiset(rows)[x] else 0
  {
    if rows != [] {
      FilterCounts(rows[1..], p);
      assert rows == [rows[0]] + rows[1..];
    }
  }

  /** The identity value the store gives the next inserted row: above every key in use. */
  function NextId<T>(rows: seq<T>, key: T -> int): (n: int)
    ensures n >= 1
    ensures forall i :: 0 <= i < |rows| ==> key(rows[i]) < n
  {
    if rows == [] then 1
    else
      var m := NextId(rows[..|rows| - 1], key);
      var last := key(rows[|rows| - 1]);
      if last >= m then last + 1 else m
  }

  /** Keys never increase along `rows`. */
  predicate Descending<T>(rows: seq<T>, key: T -> int)
  {
    forall i, j :: 0 <= i < j < |rows| ==> key(rows[i]) >= key(rows[j])
  }

  /**
   * OrderByDescending(key): the same rows, none lost or added, sorted so
   * that keys never increase (the newest row first when the key is Id).
   */
  function NewestFirst<T>(rows: seq<T>, key: T -> int): (r: seq<T>)
    ensures multiset(r) == multiset(rows)
    ensures |r| == |rows|
    ensures forall k :: 0 <= k < |r| ==> r[k] in rows
    ensures Descending(r, key)
    decreases |rows|
  {
    if rows == [] then []
    else
      var rest := NewestFirst(rows[1..], key);
      var r := InsertByKey(rows[0], rest, key);
      InsertKeepsOrder(rows[0], rest, key);
      assert rows == [rows[0]] + rows[1..];
      SameMembers(r, rows);
      r
  }

  /** `s` with `x` placed before the first row whose key is not above x's. */
  function InsertByKey<T>(x: T, s: seq<T>, key: T -> int): (r: seq<T>)
    ensures multiset(r) == multiset(s) + multiset{x}
    decreases |s|
  {
    if s == [] || key(s[0]) <= key(x) then [x] + s
    else
      assert s == [s[0]] + s[1..];
      [s[0]] + InsertByKey(x, s[1..], key)
  }

  /** Inserting into a list whose keys never increase keeps them so. */
  lemma {:induction false} InsertKeepsOrder<T>(x: T, s: seq<T>, key: T -> int)
    requires Descending(s, key)
    ensures Descending(InsertByKey(x, s, key), key)
    decreases |s|
  {
    if s != [] && key(s[0]) > key(x) {
      var rest := InsertByKey(x, s[1..], key);
      InsertKeepsOrder(x, s[1..], key);
      forall j | 0 <= j < |rest|
        ensures key(rest[j]) <= key(s[0])
      {
        assert rest[j] in multiset(rest);
        if rest[j] != x {
          assert rest[j] in multiset(s[1..]);
          var m :| 0 <= m < |s[1..]| && s[1..][m] == rest[j];
          assert s[m + 1] == rest[j];
        }
      }
      assert InsertByKey(x, s, key) == [s[0]] + rest;
    }
  }

  /** Two sequences holding the same multiset hold the same rows. */
  lemma SameMembers<T>(a: seq<T>, b: seq<T>)
    requires multiset(a) == multiset(b)
    ensures |a| == |b|
    ensures forall k :: 0 <= k < |a| ==> a[k] in b
  {
    assert |a| == |multiset(a)|;
    forall k | 0 <= k < |a|
      ensures a[k] in b
    {
      assert a[k] in multiset(b);
    }
  }

  /** Number of rows satisfying `p` (a LINQ Count with a predicate). */
  function CountWhere<T>(rows: seq<T>, p: T -> bool): nat
  {
    |Filter(rows, p)|
  }

  /** A filter that keeps fewer rows counts no more of them. */
  lemma {:induction false} CountWhereMonotone<T>(rows: seq<T>, p: T -> bool, q: T -> bool)
    requires forall i :: 0 <= i < |rows| && p(rows[i]) ==> q(rows[i])
    ensures CountWhere(rows, p) <= CountWhere(rows, q)
  {
    if rows != [] {
      assert forall i :: 0 <= i < |rows[1..]| ==> rows[1..][i] == rows[i + 1];
      CountWhereMonotone(rows[1..], p, q);
    }
  }

  lemma {:induction false} CountWhereSplit<T>(a: seq<T>, b: seq<T>, p: T -> bool)
    ensures CountWhere(a + b, p) == CountWhere(a, p) + CountWhere(b, p)
  {
    FilterAppend(a, b, p);
  }
}

/**
 * The string comparisons the services use. OrdinalIgnoreCase and
 * ToLower are modelled by folding the ASCII letters A-Z.
 */
module Text {

  function Lower(c: char): char
  {
    if 'A' <= c <= 'Z' then (c as int + 32) as char else c
  }

  function ToLower(s: string): (r: string)
    ensures |r| == |s|
  {
    seq(|s|, i requires 0 <= i < |s| => Lower(s[i]))
  }

  predicate EqualsIgnoreCase(a: string, b: string)
  {
    ToLower(a) == ToLower(b)
  }

  predicate StartsWith(s: string, prefix: string)
  {
    |prefix| <= |s| && s[..|prefix|] == prefix
  }

  predicate EndsWith(s: string, suffix: string)
  {
    |suffix| <= |s| && s[|s| - |suffix|..] == suffix
  }

  /** String.Contains: `part` occurs somewhere in `s`. */
  predicate Contains(s: string, part: string)
    decreases |s|
  {
    StartsWith(s, part) || (|s| > 0 && Contains(s[1..], part))
  }

  predicate ContainsIgnoreCase(s: string, part: string)
  {
    Contains(ToLower(s), ToLower(part))
  }

  /** Decimal rendering of an integer, as string interpolation prints it. */
  function IntToString(i: int): (s: string)
    ensures |s| >= 1
  {
    if i < 0 then "-" + NatToString(-i) else NatToString(i)
  }

  /** The value a string of decimal digits denotes, most significant digit first. */
  function DigitsValue(s: string): nat
    requires forall k :: 0 <= k < |s| ==> IsDigit(s[k])
  {
    if s == [] then 0
    else
      assert IsDigit(s[|s| - 1]);
      10 * DigitsValue(s[..|s| - 1]) + (s[|s| - 1] as int - '0' as int)
  }

  /** The rendering of `n` reads back as `n`, with no leading zero. */
  lemma {:induction false} NatToStringRoundTrip(n: nat)
    ensures var s := NatToString(n);
      DigitsValue(s) == n && (|s| > 1 ==> s[0] != '0')
    decreases n
  {
    if n >= 10 {
      NatToStringRoundTrip(n / 10);
      var s := NatToString(n);
      assert s[..|s| - 1] == NatToString(n / 10);
    }
  }

  /** A negative number is a minus sign before the digits of its magnitude; others are digits only. */
  lemma IntToStringRoundTrip(i: int)
    ensures var s := IntToString(i);
      (s[0] == '-' <==> i < 0)
      && var digits := if i < 0 then s[1..] else s;
      |digits| >= 1 && (forall k :: 0 <= k < |digits| ==> IsDigit(digits[k]))
      && DigitsValue(digits) == (if i < 0 then -i else i)
  {
    var s := IntToString(i);
    if i < 0 {
      NatToStringRoundTrip(-i);
      assert s[1..] == NatToString(-i);
    } else {
      NatToStringRoundTrip(i);
    }
  }

  function NatToString(n: nat): (s: string)
    ensures |s| >= 1 && forall k :: 0 <= k < |s| ==> IsDigit(s[k])
    decreases n
  {
    if n < 10 then [DigitChar(n)] else NatToString(n / 10) + [DigitChar(n % 10)]
  }

  function DigitChar(d: nat): (c: char)
    requires d < 10
    ensures IsDigit(c) && c as int - '0' as int == d
  {
    ('0' as int + d) as char
  }

  predicate IsDigit(c: char) { '0' <= c <= '9' }

  predicate IsLetter(c: char) { 'a' <= c <= 'z' || 'A' <= c <= 'Z' }

  /**
   * Char.IsWhiteSpace: the space separators (U+0020, U+00A0, U+1680,
   * U+2000-U+200A, U+202F, U+205F, U+3000), the line and paragraph
   * separators U+2028 and U+2029, U+0009-U+000D and U+0085.
   */
  predicate IsWhiteSpace(c: char)
  {
    '\U{0009}' <= c <= '\U{000D}' || c == ' ' || c == '\U{0085}' || c == '\U{00A0}' || c == '\U{1680}'
    || '\U{2000}' <= c <= '\U{200A}' || c == '\U{2028}' || c == '\U{2029}' || c == '\U{202F}'
    || c == '\U{205F}' || c == '\U{3000}'
  }

  /** String.IsNullOrWhiteSpace on a present string. */
  predicate IsBlank(s: string)
  {
    forall i :: 0 <= i < |s| ==> IsWhiteSpace(s[i])
  }

  /** Two strings that agree character by character are equal. */
  lemma SameText(x: string, y: string)
    requires |x| == |y| && forall i :: 0 <= i < |x| ==> x[i] == y[i]
    ensures x == y
  {
  }

  lemma ToLowerIdempotent(s: string)
    ensures ToLower(ToLower(s)) == ToLower(s)
  {
  }

  /** Text without upper-case ASCII letters is its own lower-case form. */
  lemma ToLowerOfLower(s: string)
    requires forall i :: 0 <= i < |s| ==> !('A' <= s[i] <= 'Z')
    ensures ToLower(s) == s
  {
  }

  lemma {:induction false} ContainsItself(s: string)
    ensures Contains(s, s)
  {
    assert s[..|s|] == s;
  }
}

/** The caller's JWT claims and the role gates the services apply to them. */
module Access {
  import opened Common
  import opened Text

  /** GetUserDetails: id, email and role claims, each possibly absent. */
  datatype Caller = Caller(id: Option<int>, email: Option<string>, role: Option<string>)

  /** Every service answers "unauthorised" unless all three claims are present. */
  predicate Identified(c: Caller)
  {
    c.id.Some? && c.email.Some? && c.role.Some?
  }

  /** Role.Contains("admin", OrdinalIgnoreCase). */
  predicate IsAdmin(c: Caller)
  {
    Identified(c) && ContainsIgnoreCase(c.role.value, "admin")
  }

  /** Role.Equals("super-admin", OrdinalIgnoreCase). */
  predicate IsSuperAdmin(c: Caller)
  {
    Identified(c) && EqualsIgnoreCase(c.role.value, "super-admin")
  }

  /** Every caller who passes the super-admin gate also passes the admin gate. */
  lemma SuperAdminIsAdmin(c: Caller)
    requires IsSuperAdmin(c)
    ensures IsAdmin(c)
  {
    var r := ToLower(c.role.value);
    assert r == "super-admin";
    assert ToLower("admin") == "admin";
    assert r[6..] == "admin";
    assert Contains(r[6..], "admin") by { ContainsItself(r[6..]); }
    assert r[6..] == r[1..][1..][1..][1..][1..][1..];
  }
}

/**
 * Page arithmetic shared by every listing endpoint:
 * page = Math.Max(page, 1); limit = Math.Clamp(limit, 1, 100);
 * skip = (page - 1) * limit, followed by Skip(skip).Take(limit).
 */
module Paging {
  import opened Common

  const MaxLimit: int := 100

  datatype Window = Window(page: int, limit: int, skip: int)

  function Normalize(page: int, limit: int): (w: Window)
    ensures w.page >= 1 && 1 <= w.limit <= MaxLimit
    ensures w.page == (if page < 1 then 1 else page)
    ensures w.limit == (if limit < 1 then 1 else if limit > MaxLimit then MaxLimit else limit)
    ensures w.skip == (w.page - 1) * w.limit && w.skip >= 0
  {
    var p := if page < 1 then 1 else page;
    var l := if limit < 1 then 1 else if limit > MaxLimit then MaxLimit else limit;
    Window(p, l, (p - 1) * l)
  }

  /** Skip(w.skip).Take(w.limit) over rows already in listing order. */
  function Take<T>(rows: seq<T>, w: Window): (r: seq<T>)
    requires w.skip >= 0 && w.limit >= 1
    ensures |r| <= w.limit
    ensures |r| == if w.skip >= |rows| then 0 else if |rows| - w.skip < w.limit then |rows| - w.skip else w.limit
    ensures forall k :: 0 <= k < |r| ==> w.skip + k < |rows| && r[k] == rows[w.skip + k]
  {
    if w.skip >= |rows| then []
    else if w.skip + w.limit >= |rows| then rows[w.skip..]
    else rows[w.skip..w.skip + w.limit]
  }

  /**
   * One page of OrderByDescending(key) then Skip/Take: at most `limit` rows,
   * each a row of the table, keys never increasing down the page.
   */
  lemma NewestPage<T>(rows: seq<T>, key: T -> int, w: Window)
    requires w.skip >= 0 && w.limit >= 1
    ensures var items := Take(NewestFirst(rows, key), w);
      |items| <= w.limit
      && (forall k :: 0 <= k < |items| ==> items[k] in rows)
      && Descending(items, key)
  {
    var sorted := NewestFirst(rows, key);
    TakeKeepsOrder(sorted, key, w);
    var items := Take(sorted, w);
    forall k | 0 <= k < |items|
      ensures items[k] in rows
    {
      assert items[k] == sorted[w.skip + k];
    }
  }

  /** Skip then Take keeps the order of what it cuts. */
  lemma TakeKeepsOrder<T>(rows: seq<T>, key: T -> int, w: Window)
    requires w.skip >= 0 && w.limit >= 1 && Descending(rows, key)
    ensures Descending(Take(rows, w), key)
  {
    var items := Take(rows, w);
    forall i, j | 0 <= i < j < |items|
      ensures key(items[i]) >= key(items[j])
    {
      assert items[i] == rows[w.skip + i] && items[j] == rows[w.skip + j];
    }
  }

  /**
   * Every row of a listing is reached by exactly one page: row `i` is item
   * `i % limit` of page `i / limit + 1`.
   */
  lemma RowOnItsPage<T>(rows: seq<T>, limit: int, i: nat)
    requires 1 <= limit <= MaxLimit && i < |rows|
    ensures var w := Normalize(i / limit + 1, limit);
      var r := Take(rows, w);
      i % limit < |r| && r[i % limit] == rows[i]
  {
    var w := Normalize(i / limit + 1, limit);
    assert w.skip == (i / limit) * limit;
    assert w.skip + i % limit == i;
  }

  /** Pages of the same size never share a row position. */
  lemma PagesDisjoint(p1: int, p2: int, limit: int, k1: nat, k2: nat)
    requires 1 <= p1 < p2 && 1 <= limit <= MaxLimit
    requires k1 < Normalize(p1, limit).limit && k2 < Normalize(p2, limit).limit
    ensures Normalize(p1, limit).skip + k1 < Normalize(p2, limit).skip + k2
  {
    var w1, w2 := Normalize(p1, limit), Normalize(p2, limit);
    assert w1.limit == limit && w2.limit == limit;
    assert w1.skip + limit == p1 * limit;
    MulMonotone(p1, p2 - 1, limit);
  }

  lemma MulMonotone(a: int, b: int, c: nat)
    requires a <= b
    ensures a * c <= b * c
  {
    assert b * c - a * c == (b - a) * c;
  }

  /**
   * The skip computed in 32-bit arithmetic, as the source's `int` does:
   * (page - 1) * limit wraps modulo 2^32 into the signed range.
   */
  function Skip32(page: int, limit: int): (s: int)
    requires -0x8000_0000 <= page < 0x8000_0000
    ensures -0x8000_0000 <= s < 0x8000_0000
    ensures (s - Normalize(page, limit).skip) % 0x1_0000_0000 == 0
    ensures Normalize(page, limit).skip < 0x8000_0000 ==> s == Normalize(page, limit).skip
  {
    var w := Normalize(page, limit);
    var u := w.skip % 0x1_0000_0000;
    if u >= 0x8000_0000 then u - 0x1_0000_0000 else u
  }

  /**
   * A page number a client can send makes the 32-bit skip negative, while the
   * intended skip (Normalize) is never negative.
   */
  lemma Skip32GoesNegative()
    ensures Skip32(21474838, 100) < 0
    ensures Normalize(21474838, 100).skip == 2147483700
  {
  }
}
