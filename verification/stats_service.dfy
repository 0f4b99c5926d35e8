/**
 * The admin dashboards of G2.Service/Stats/StatsService.cs: jobs, payments
 * and sign-ups counted per creation date over a window. Only CreatedAt is
 * consulted, so each endpoint is the same computation over its table's
 * CreatedAt column. `utcToday` is DateTime.UtcNow.Date, as a midnight.
 */
module StatsService {
  import opened Common
  import opened Entities
  import opened Access

  /** One element of the summary: a date and how many selected rows were created on it. */
  datatype Bucket = Bucket(date: int, amount: nat)

  // ---------------------------------------------------------------------------
  // Grouping by date

  /** Rows created on date `d`. */
  function CountOn(s: seq<int>, d: int): nat
  {
    if s == [] then 0 else (if DateOf(s[0]) == d then 1 else 0) + CountOn(s[1..], d)
  }

  /** The rows not created on date `d`, in order. */
  function Without(s: seq<int>, d: int): (r: seq<int>)
    ensures |r| <= |s|
    ensures forall x :: x in r <==> x in s && DateOf(x) != d
  {
    if s == [] then []
    else if DateOf(s[0]) == d then Without(s[1..], d)
    else [s[0]] + Without(s[1..], d)
  }

  lemma {:induction false} WithoutSize(s: seq<int>, d: int)
    ensures |Without(s, d)| + CountOn(s, d) == |s|
  {
    if s != [] {
      WithoutSize(s[1..], d);
    }
  }

  lemma {:induction false} CountOnWithout(s: seq<int>, d: int, e: int)
    requires d != e
    ensures CountOn(Without(s, d), e) == CountOn(s, e)
  {
    if s != [] {
      CountOnWithout(s[1..], d, e);
      if DateOf(s[0]) != d {
        var w := [s[0]] + Without(s[1..], d);
        assert w[0] == s[0] && w[1..] == Without(s[1..], d);
      }
    }
  }

  /**
   * GroupBy(x => x.CreatedAt.Date).Select(g => (g.Key, g.Count())): one
   * bucket per distinct date, in order of first appearance.
   */
  function GroupByDate(s: seq<int>): seq<Bucket>
    decreases |s|
  {
    if s == [] then []
    else
      var d := DateOf(s[0]);
      [Bucket(d, CountOn(s, d))] + GroupByDate(Without(s[1..], d))
  }

  function Total(bs: seq<Bucket>): nat
  {
    if bs == [] then 0 else bs[0].amount + Total(bs[1..])
  }

  /** Every bucket's date is the date of some row. */
  lemma {:induction false} BucketDatesOccur(s: seq<int>, k: nat)
    requires k < |GroupByDate(s)|
    ensures exists x :: x in s && DateOf(x) == GroupByDate(s)[k].date
    decreases |s|
  {
    var d := DateOf(s[0]);
    if k > 0 {
      var rest := Without(s[1..], d);
      assert GroupByDate(s)[k] == GroupByDate(rest)[k - 1];
      BucketDatesOccur(rest, k - 1);
    }
  }

  /**
   * The summary's laws: the amounts add up to the number of rows, each
   * bucket counts exactly the rows of its date (so none is empty), no date
   * appears twice, and every row's date has a bucket.
   */
  lemma GroupByDateLaws(s: seq<int>)
    ensures Total(GroupByDate(s)) == |s|
    ensures forall k :: 0 <= k < |GroupByDate(s)| ==>
      GroupByDate(s)[k].amount == CountOn(s, GroupByDate(s)[k].date) >= 1
    ensures forall j, k :: 0 <= j < k < |GroupByDate(s)| ==> GroupByDate(s)[j].date != GroupByDate(s)[k].date
    ensures forall x :: x in s ==> exists k :: 0 <= k < |GroupByDate(s)| && GroupByDate(s)[k].date == DateOf(x)
  {
    GroupByDateTotal(s);
    GroupByDateBuckets(s);
    GroupByDateCovers(s);
  }

  lemma {:induction false} GroupByDateTotal(s: seq<int>)
    ensures Total(GroupByDate(s)) == |s|
    decreases |s|
  {
    if s != [] {
      var d := DateOf(s[0]);
      var rest := Without(s[1..], d);
      var g := GroupByDate(s);
      assert g == [Bucket(d, CountOn(s, d))] + GroupByDate(rest);
      assert g[1..] == GroupByDate(rest);
      GroupByDateTotal(rest);
      WithoutSize(s[1..], d);
    }
  }

  lemma {:induction false} GroupByDateBuckets(s: seq<int>)
    ensures forall k :: 0 <= k < |GroupByDate(s)| ==>
      GroupByDate(s)[k].amount == CountOn(s, GroupByDate(s)[k].date) >= 1
    ensures forall j, k :: 0 <= j < k < |GroupByDate(s)| ==> GroupByDate(s)[j].date != GroupByDate(s)[k].date
    decreases |s|
  {
    if s != [] {
      var d := DateOf(s[0]);
      var rest := Without(s[1..], d);
      var g := GroupByDate(s);
      var h := GroupByDate(rest);
      assert g == [Bucket(d, CountOn(s, d))] + h;
      GroupByDateBuckets(rest);
      forall k | 0 <= k < |h|
        ensures h[k].date != d && h[k].amount == CountOn(s, h[k].date)
      {
        BucketDatesOccur(rest, k);
        CountOnWithout(s[1..], d, h[k].date);
      }
      forall k | 0 <= k < |g|
        ensures g[k].amount == CountOn(s, g[k].date) >= 1
      {
        if k > 0 {
          assert g[k] == h[k - 1];
        }
      }
    }
  }

  /** Some bucket carries date `d`. */
  predicate HasBucket(bs: seq<Bucket>, d: int)
  {
    exists k :: 0 <= k < |bs| && bs[k].date == d
  }

  lemma {:induction false} GroupByDateCovers(s: seq<int>)
    ensures forall x :: x in s ==> HasBucket(GroupByDate(s), DateOf(x))
    decreases |s|
  {
    if s != [] {
      var d := DateOf(s[0]);
      var rest := Without(s[1..], d);
      var h := GroupByDate(rest);
      assert GroupByDate(s) == [Bucket(d, CountOn(s, d))] + h;
      GroupByDateCovers(rest);
      forall x | x in s
        ensures HasBucket(GroupByDate(s), DateOf(x))
      {
        if DateOf(x) != d {
          assert x in s[1..] by {
            var i :| 0 <= i < |s| && s[i] == x;
            assert i != 0;
            assert s[1..][i - 1] == x;
          }
          assert x in rest;
          var k :| 0 <= k < |h| && h[k].date == DateOf(x);
          assert GroupByDate(s)[k + 1].date == DateOf(x);
        } else {
          assert GroupByDate(s)[0].date == DateOf(x);
        }
      }
    }
  }

  // ---------------------------------------------------------------------------
  // The window

  datatype Span = Span(lo: int, hi: int)

  /** The default window as written: UtcNow.Date minus seven days up to UtcNow.Date itself, midnight. */
  function DefaultSpanAsWritten(utcToday: int): Span
  {
    Span(utcToday - 7 * Day, utcToday)
  }

  /**
   * As written, CreatedAt <= midnight leaves out every row created later
   * that same day: today's activity never shows on the default dashboard.
   */
  lemma DefaultSpanMissesToday(utcToday: int)
    requires utcToday % Day == 0
    ensures var w := DefaultSpanAsWritten(utcToday);
      DateOf(utcToday + Hour) == DateOf(utcToday) && !(w.lo <= utcToday + Hour <= w.hi)
  {
  }

  /** The default window covering whole dates, from seven days back to the end of today. */
  function DefaultSpan(utcToday: int): (w: Span)
    requires utcToday % Day == 0
    ensures forall t :: w.lo <= t <= w.hi <==> utcToday - 7 * Day <= DateOf(t) <= utcToday
  {
    Span(utcToday - 7 * Day, utcToday + Day - 1)
  }

  /** Both bounds given: they are used as they are, inclusive; otherwise the default window. */
  function SpanOf(from: Option<int>, to: Option<int>, utcToday: int): Span
    requires utcToday % Day == 0
  {
    if from.Some? && to.Some? then Span(from.value, to.value) else DefaultSpan(utcToday)
  }

  function InSpan(s: seq<int>, w: Span): (r: seq<int>)
    ensures forall x :: x in r <==> x in s && w.lo <= x <= w.hi
  {
    Filter(s, (t: int) => w.lo <= t <= w.hi)
  }

  /** One dashboard over a table's CreatedAt column (admins only). */
  function Summary(caller: Caller, createdAt: seq<int>, from: Option<int>, to: Option<int>, utcToday: int): Reply<seq<Bucket>>
    requires utcToday % Day == 0
  {
    if !IsAdmin(caller) then Reply(Unauthorised, None)
    else Reply(Response(success, ""), Some(GroupByDate(InSpan(createdAt, SpanOf(from, to, utcToday)))))
  }

  /**
   * Only admins see a summary; its amounts add up to the rows created inside
   * the window, and every such row's date has its bucket.
   */
  lemma SummaryLaws(caller: Caller, createdAt: seq<int>, from: Option<int>, to: Option<int>, utcToday: int)
    requires utcToday % Day == 0
    ensures var r := Summary(caller, createdAt, from, to, utcToday).body;
      var w := SpanOf(from, to, utcToday);
      (r.Some? <==> IsAdmin(caller))
      && (from.Some? && to.Some? ==> w == Span(from.value, to.value))
      && (r.Some? ==> (Total(r.value) == |InSpan(createdAt, w)|
          && forall t :: t in createdAt && w.lo <= t <= w.hi ==>
               exists k :: 0 <= k < |r.value| && r.value[k].date == DateOf(t)))
  {
    GroupByDateLaws(InSpan(createdAt, SpanOf(from, to, utcToday)));
  }

  /** A table's CreatedAt column, row by row. */
  function CreatedAt<T>(rows: seq<T>, created: T -> int): seq<int>
  {
    seq(|rows|, i requires 0 <= i < |rows| => created(rows[i]))
  }

  /** Jobs: deleted jobs included. */
  function Jobs(caller: Caller, jobs: seq<Job>, from: Option<int>, to: Option<int>, utcToday: int): Reply<seq<Bucket>>
    requires utcToday % Day == 0
  {
    Summary(caller, CreatedAt(jobs, (j: Job) => j.createdAt), from, to, utcToday)
  }

  /** Payment: every transaction, whatever its status. */
  function Payment(caller: Caller, ts: seq<Transaction>, from: Option<int>, to: Option<int>, utcToday: int): Reply<seq<Bucket>>
    requires utcToday % Day == 0
  {
    Summary(caller, CreatedAt(ts, (t: Transaction) => t.createdAt), from, to, utcToday)
  }

  /** Users: sign-ups, deleted accounts included. */
  function Users(caller: Caller, users: seq<User>, from: Option<int>, to: Option<int>, utcToday: int): Reply<seq<Bucket>>
    requires utcToday % Day == 0
  {
    Summary(caller, CreatedAt(users, (u: User) => u.createdAt), from, to, utcToday)
  }

  /** The times of a column inside a window are as many as the rows created inside it. */
  lemma {:induction false} InSpanCount<T>(rows: seq<T>, created: T -> int, w: Span, inside: T -> bool)
    requires forall x :: inside(x) <==> w.lo <= created(x) <= w.hi
    ensures |InSpan(CreatedAt(rows, created), w)| == CountWhere(rows, inside)
  {
    if rows != [] {
      var c := CreatedAt(rows, created);
      assert c == [created(rows[0])] + CreatedAt(rows[1..], created);
      FilterAppend([created(rows[0])], CreatedAt(rows[1..], created), (t: int) => w.lo <= t <= w.hi);
      InSpanCount(rows[1..], created, w, inside);
    }
  }

  /**
   * With both bounds, the amounts of a summary add up to the rows created
   * inside them, and every such row's date has its bucket.
   */
  lemma ColumnWindow<T>(caller: Caller, rows: seq<T>, created: T -> int, from: int, to: int, utcToday: int, inside: T -> bool)
    requires utcToday % Day == 0 && IsAdmin(caller)
    requires forall x :: inside(x) <==> from <= created(x) <= to
    ensures var r := Summary(caller, CreatedAt(rows, created), Some(from), Some(to), utcToday).body.value;
      Total(r) == CountWhere(rows, inside)
      && forall i :: 0 <= i < |rows| && inside(rows[i]) ==> HasBucket(r, DateOf(created(rows[i])))
  {
    var c := CreatedAt(rows, created);
    SummaryLaws(caller, c, Some(from), Some(to), utcToday);
    InSpanCount(rows, created, Span(from, to), inside);
    forall i | 0 <= i < |rows| && inside(rows[i])
      ensures HasBucket(Summary(caller, c, Some(from), Some(to), utcToday).body.value, DateOf(created(rows[i])))
    {
      assert c[i] == created(rows[i]);
    }
  }

  /** With both bounds, the job summary counts exactly the jobs created inside them, each on its date. */
  lemma JobsWindow(caller: Caller, jobs: seq<Job>, from: int, to: int, utcToday: int)
    requires utcToday % Day == 0 && IsAdmin(caller)
    ensures var r := Jobs(caller, jobs, Some(from), Some(to), utcToday).body.value;
      Total(r) == CountWhere(jobs, (j: Job) => from <= j.createdAt <= to)
      && forall i :: 0 <= i < |jobs| && from <= jobs[i].createdAt <= to ==> HasBucket(r, DateOf(jobs[i].createdAt))
  {
    ColumnWindow(caller, jobs, (j: Job) => j.createdAt, from, to, utcToday, (j: Job) => from <= j.createdAt <= to);
  }

  /** With both bounds, the payment summary counts exactly the transactions created inside them, each on its date. */
  lemma PaymentWindow(caller: Caller, ts: seq<Transaction>, from: int, to: int, utcToday: int)
    requires utcToday % Day == 0 && IsAdmin(caller)
    ensures var r := Payment(caller, ts, Some(from), Some(to), utcToday).body.value;
      Total(r) == CountWhere(ts, (t: Transaction) => from <= t.createdAt <= to)
      && forall i :: 0 <= i < |ts| && from <= ts[i].createdAt <= to ==> HasBucket(r, DateOf(ts[i].createdAt))
  {
    ColumnWindow(caller, ts, (t: Transaction) => t.createdAt, from, to, utcToday, (t: Transaction) => from <= t.createdAt <= to);
  }

  /** With both bounds, the sign-up summary counts exactly the users created inside them, each on its date. */
  lemma UsersWindow(caller: Caller, users: seq<User>, from: int, to: int, utcToday: int)
    requires utcToday % Day == 0 && IsAdmin(caller)
    ensures var r := Users(caller, users, Some(from), Some(to), utcToday).body.value;
      Total(r) == CountWhere(users, (u: User) => from <= u.createdAt <= to)
      && forall i :: 0 <= i < |users| && from <= users[i].createdAt <= to ==> HasBucket(r, DateOf(users[i].createdAt))
  {
    ColumnWindow(caller, users, (u: User) => u.createdAt, from, to, utcToday, (u: User) => from <= u.createdAt <= to);
  }
}
