/** Helpers shared by the monitoring, dashboard and database models: optional values,
    Python's truthiness of optional strings, ASCII case mapping (str.lower, str.upper,
    str.title), substring search, Python slices and SQL LIMIT, first-occurrence tallies
    (a dict built by counting) and the days/hours/minutes split of a timedelta. */
module Common {

  datatype Option<T> = None | Some(value: T)

  /** Python truthiness of a value that may be None or an empty string. */
  predicate Truthy(s: Option<string>)
  {
    s.Some? && s.value != ""
  }

  // ---------------------------------------------------------------------------
  // Webhook posts

  /** What a `requests.post` to the webhook gives back: a status code, or a raised
      `RequestException`. */
  datatype Post = Answered(code: int) | PostRaised

  /** The outcome of a notifier call: whether it posted at all and what it returned. */
  datatype SendResult = SendResult(posted: bool, ok: bool)

  /** The shared shape of the Discord senders: nothing is posted without a configured
      (truthy) webhook URL, and the call returns True exactly on a 204 answer. */
  function WebhookSend(webhook: Option<string>, post: Post): (r: SendResult)
    ensures !Truthy(webhook) ==> !r.posted && !r.ok
    ensures Truthy(webhook) ==> r.posted
    ensures r.ok <==> r.posted && post == Answered(204)
  {
    if !Truthy(webhook) then SendResult(false, false)
    else SendResult(true, post.Answered? && post.code == 204)
  }

  // ---------------------------------------------------------------------------
  // ASCII case mapping

  predicate IsUpperAscii(c: char) { 'A' <= c <= 'Z' }
  predicate IsLowerAscii(c: char) { 'a' <= c <= 'z' }
  predicate IsLetterAscii(c: char) { IsUpperAscii(c) || IsLowerAscii(c) }

  function LowerChar(c: char): (r: char)
    ensures !IsUpperAscii(r)
    ensures IsLetterAscii(c) <==> IsLetterAscii(r)
    ensures !IsUpperAscii(c) ==> r == c
  {
    if IsUpperAscii(c) then (c as int + 32) as char else c
  }

  function UpperChar(c: char): (r: char)
    ensures !IsLowerAscii(r)
    ensures IsLetterAscii(c) <==> IsLetterAscii(r)
    ensures !IsLowerAscii(c) ==> r == c
  {
    if IsLowerAscii(c) then (c as int - 32) as char else c
  }

  /** str.lower() restricted to ASCII letters. */
  function Lower(s: string): (r: string)
    ensures |r| == |s|
    ensures forall i :: 0 <= i < |s| ==> r[i] == LowerChar(s[i])
  {
    seq(|s|, i requires 0 <= i < |s| => LowerChar(s[i]))
  }

  /** str.upper() restricted to ASCII letters. */
  function Upper(s: string): (r: string)
    ensures |r| == |s|
    ensures forall i :: 0 <= i < |s| ==> r[i] == UpperChar(s[i])
  {
    seq(|s|, i requires 0 <= i < |s| => UpperChar(s[i]))
  }

  /** Lower-casing absorbs an earlier upper- or lower-casing: `s.upper().lower()` and
      `s.lower().lower()` are both `s.lower()`. */
  lemma LowerAbsorbs(s: string)
    ensures Lower(Upper(s)) == Lower(s)
    ensures Lower(Lower(s)) == Lower(s)
  {
    forall i | 0 <= i < |s| ensures Lower(Upper(s))[i] == Lower(s)[i] {
      if IsLowerAscii(s[i]) {
        assert UpperChar(s[i]) as int == s[i] as int - 32;
      }
    }
  }

  /** str.title(): a letter that follows a letter is lower-cased, any other letter is
      upper-cased; `prevCased` says whether the character before `s` was a letter. */
  function TitleFrom(s: string, prevCased: bool): (r: string)
    decreases |s|
  {
    if s == [] then []
    else [if prevCased then LowerChar(s[0]) else UpperChar(s[0])] + TitleFrom(s[1..], IsLetterAscii(s[0]))
  }

  function Title(s: string): string
  {
    TitleFrom(s, false)
  }

  /** Title-casing keeps the length and keeps letters letters and non-letters unchanged. */
  lemma {:induction false} TitleFromShape(s: string, prevCased: bool)
    ensures |TitleFrom(s, prevCased)| == |s|
    ensures forall i :: 0 <= i < |s| ==> (IsLetterAscii(TitleFrom(s, prevCased)[i]) <==> IsLetterAscii(s[i]))
    ensures forall i :: 0 <= i < |s| && !IsLetterAscii(s[i]) ==> TitleFrom(s, prevCased)[i] == s[i]
    decreases |s|
  {
    if s != [] {
      TitleFromShape(s[1..], IsLetterAscii(s[0]));
      var r := TitleFrom(s, prevCased);
      assert r == [r[0]] + TitleFrom(s[1..], IsLetterAscii(s[0]));
      forall i | 1 <= i < |s|
        ensures (IsLetterAscii(r[i]) <==> IsLetterAscii(s[i]))
        ensures !IsLetterAscii(s[i]) ==> r[i] == s[i]
      {
        assert r[i] == TitleFrom(s[1..], IsLetterAscii(s[0]))[i - 1];
        assert s[i] == s[1..][i - 1];
      }
    }
  }

  /** Title-casing is idempotent: `x.title().title() == x.title()`. */
  lemma {:induction false} TitleFromIdempotent(s: string, prevCased: bool)
    ensures TitleFrom(TitleFrom(s, prevCased), prevCased) == TitleFrom(s, prevCased)
    decreases |s|
  {
    if s != [] {
      var c := if prevCased then LowerChar(s[0]) else UpperChar(s[0]);
      assert IsLetterAscii(c) == IsLetterAscii(s[0]);
      TitleFromIdempotent(s[1..], IsLetterAscii(s[0]));
      var t := TitleFrom(s, prevCased);
      assert t == [c] + TitleFrom(s[1..], IsLetterAscii(s[0]));
      assert t[0] == c && t[1..] == TitleFrom(s[1..], IsLetterAscii(s[0]));
    }
  }

  // ---------------------------------------------------------------------------
  // Substring search

  predicate StartsWith(s: string, prefix: string)
  {
    |prefix| <= |s| && s[..|prefix|] == prefix
  }

  lemma StartsWithAppend(p: string, q: string)
    ensures StartsWith(p + q, p)
  {
    assert (p + q)[..|p|] == p;
  }

  lemma DropPrefix<T>(p: seq<T>, q: seq<T>)
    ensures (p + q)[|p|..] == q
  {
  }

  lemma AppendAssoc<T>(a: seq<T>, b: seq<T>, c: seq<T>)
    ensures (a + b) + c == a + (b + c)
  {
  }

  lemma Regroup(a: string, b: string, c: string, d: string)
    ensures ((a + b) + c) + d == a + (b + (c + d))
  {
  }

  lemma NotStartsWith(s: string, p: string)
    requires s != [] && p != [] && s[0] != p[0]
    ensures !StartsWith(s, p)
  {
    if |p| <= |s| { assert s[..|p|][0] == s[0]; }
  }

  /** `sub` occurs in `s` starting at index `i`. */
  predicate OccursAt(s: string, sub: string, i: int)
  {
    0 <= i <= |s| - |sub| && s[i..i + |sub|] == sub
  }

  /** `sub in s`, computed by scanning `s` from the left. */
  function Contains(s: string, sub: string): (r: bool)
    ensures r <==> exists i :: OccursAt(s, sub, i)
    decreases |s|
  {
    if StartsWith(s, sub) then
      assert OccursAt(s, sub, 0);
      true
    else if s == [] then
      assert forall i :: OccursAt(s, sub, i) ==> i == 0;
      false
    else
      var rest := Contains(s[1..], sub);
      assert rest ==> exists i :: OccursAt(s, sub, i) by {
        if rest {
          var k :| OccursAt(s[1..], sub, k);
          assert s[k + 1..k + 1 + |sub|] == s[1..][k..k + |sub|];
          assert OccursAt(s, sub, k + 1);
        }
      }
      assert (exists i :: OccursAt(s, sub, i)) ==> rest by {
        if exists i :: OccursAt(s, sub, i) {
          var k :| OccursAt(s, sub, k);
          assert k != 0;
          assert s[1..][k - 1..k - 1 + |sub|] == s[k..k + |sub|];
          assert OccursAt(s[1..], sub, k - 1);
        }
      }
      rest
  }

  // ---------------------------------------------------------------------------
  // Slices, reversal and SQL LIMIT

  function Min(a: int, b: int): int { if a <= b then a else b }
  function Max(a: int, b: int): int { if a >= b then a else b }

  /** Python `s[-n:]` for n > 0: the last n elements, or all of them when fewer. */
  function Last<T>(s: seq<T>, n: nat): (r: seq<T>)
    ensures |r| == Min(n, |s|)
    ensures forall k :: 0 <= k < |r| ==> r[k] == s[|s| - |r| + k]
  {
    s[Max(0, |s| - n)..]
  }

  /** Trimming a history to its newest n entries before appending does not change its
      newest n entries after the append: a capped list holds the newest n ever added. */
  lemma LastAppend<T>(s: seq<T>, x: T, n: nat)
    requires n > 0
    ensures Last(Last(s, n) + [x], n) == Last(s + [x], n)
  {
    var l := Last(s, n);
    var a := Last(l + [x], n);
    var b := Last(s + [x], n);
    assert |a| == |b|;
    forall k | 0 <= k < |a| ensures a[k] == b[k] {
      var i := |l| + 1 - |a| + k;
      if i < |l| {
        assert a[k] == l[i] == s[|s| - |l| + i];
      }
    }
  }

  function Reverse<T>(s: seq<T>): (r: seq<T>)
    decreases |s|
  {
    if s == [] then [] else Reverse(s[1..]) + [s[0]]
  }

  lemma {:induction false} ReverseAt<T>(s: seq<T>)
    ensures |Reverse(s)| == |s|
    ensures forall k :: 0 <= k < |s| ==> Reverse(s)[k] == s[|s| - 1 - k]
    decreases |s|
  {
    if s != [] {
      ReverseAt(s[1..]);
      var r := Reverse(s);
      assert r == Reverse(s[1..]) + [s[0]];
      forall k | 0 <= k < |s| ensures r[k] == s[|s| - 1 - k] {
        if k < |s| - 1 {
          assert r[k] == Reverse(s[1..])[k] == s[1..][|s| - 2 - k];
        }
      }
    }
  }

  /** SQLite's `LIMIT n`: at most n rows; a negative n means no limit. */
  function Limit<T>(s: seq<T>, n: int): (r: seq<T>)
    ensures n < 0 ==> r == s
    ensures n >= 0 ==> |r| == Min(n, |s|)
    ensures r == s[..|r|]
  {
    if n < 0 || n >= |s| then s else s[..n]
  }

  /** The rows of `s` that satisfy `p`, in their original order (SQL WHERE). */
  function Filter<T>(s: seq<T>, p: T -> bool): (r: seq<T>)
    ensures |r| <= |s|
    ensures forall i :: 0 <= i < |r| ==> r[i] in s && p(r[i])
    ensures forall i :: 0 <= i < |s| && p(s[i]) ==> s[i] in r
    decreases |s|
  {
    if s == [] then []
    else
      var rest := Filter(s[..|s| - 1], p);
      assert forall i :: 0 <= i < |s| - 1 ==> s[i] == s[..|s| - 1][i];
      if p(s[|s| - 1]) then rest + [s[|s| - 1]] else rest
  }

  /** `ORDER BY created_at DESC LIMIT n` over a whole table: the newest rows first, at
      most n of them (all of them when n is negative). */
  function Newest<T>(rows: seq<T>, limit: int): (r: seq<T>)
    ensures limit < 0 ==> |r| == |rows|
    ensures limit >= 0 ==> |r| == Min(limit, |rows|)
    ensures forall k :: 0 <= k < |r| ==> r[k] == rows[|rows| - 1 - k]
  {
    ReverseAt(rows);
    Limit(Reverse(rows), limit)
  }

  /** The rows of a table that satisfy `p`, newest first, at most `limit` of them. */
  function NewestFirst<T>(rows: seq<T>, p: T -> bool, limit: int): (r: seq<T>)
    ensures limit >= 0 ==> |r| <= limit
    ensures forall i :: 0 <= i < |r| ==> r[i] in rows && p(r[i])
  {
    Newest(Filter(rows, p), limit)
  }

  /** Filtering distributes over concatenation, so it keeps the rows' relative order. */
  lemma {:induction false} FilterAppend<T>(s: seq<T>, t: seq<T>, p: T -> bool)
    ensures Filter(s + t, p) == Filter(s, p) + Filter(t, p)
    decreases |t|
  {
    if t == [] {
      assert s + t == s;
    } else {
      var init := t[..|t| - 1];
      FilterAppend(s, init, p);
      assert (s + t)[..|s + t| - 1] == s + init;
    }
  }

  /** Filters that agree on every row select the same rows. */
  lemma {:induction false} FilterSame<T>(s: seq<T>, p: T -> bool, q: T -> bool)
    requires forall i :: 0 <= i < |s| ==> p(s[i]) == q(s[i])
    ensures Filter(s, p) == Filter(s, q)
    decreases |s|
  {
    if s != [] {
      var init := s[..|s| - 1];
      assert forall i :: 0 <= i < |init| ==> init[i] == s[i];
      FilterSame(init, p, q);
    }
  }

  /** Without a limit, a newly inserted row heads the newest-first view of the table. */
  lemma NewestAppend<T>(rows: seq<T>, x: T)
    ensures Newest(rows + [x], -1) == [x] + Newest(rows, -1)
  {
    var a := Newest(rows + [x], -1);
    var b := [x] + Newest(rows, -1);
    assert |a| == |b|;
    forall k | 0 <= k < |a| ensures a[k] == b[k] {
      if k > 0 {
        assert a[k] == (rows + [x])[|rows| - k] == rows[|rows| - 1 - (k - 1)];
      }
    }
  }

  /** The newest-first view begins with the most recently inserted matching row. */
  lemma NewestFirstStartsWithLatest<T>(rows: seq<T>, p: T -> bool, limit: int, x: T)
    requires limit != 0 && p(x)
    ensures NewestFirst(rows + [x], p, limit) != [] && NewestFirst(rows + [x], p, limit)[0] == x
  {
    var s := rows + [x];
    assert s[..|s| - 1] == rows;
    var f := Filter(s, p);
    assert f == Filter(rows, p) + [x];
    ReverseAt(f);
  }

  // ---------------------------------------------------------------------------
  // Sums and means of reals

  function SumReals(s: seq<real>): real
    decreases |s|
  {
    if s == [] then 0.0 else SumReals(s[..|s| - 1]) + s[|s| - 1]
  }

  /** `np.mean(s) if s else dflt`. */
  function MeanOr(s: seq<real>, dflt: real): real
  {
    if s == [] then dflt else SumReals(s) / (|s| as real)
  }

  /** The mean lies between the smallest and the largest element. */
  lemma {:induction false} SumRealsBounds(s: seq<real>, lo: real, hi: real)
    requires forall i :: 0 <= i < |s| ==> lo <= s[i] <= hi
    ensures (|s| as real) * lo <= SumReals(s) <= (|s| as real) * hi
    decreases |s|
  {
    if s != [] {
      SumRealsBounds(s[..|s| - 1], lo, hi);
    }
  }

  /** The mean of a non-empty list bracketed by `lo` and `hi` is bracketed by them too. */
  lemma MeanBounds(s: seq<real>, lo: real, hi: real)
    requires s != [] && forall i :: 0 <= i < |s| ==> lo <= s[i] <= hi
    ensures lo <= SumReals(s) / (|s| as real) <= hi
  {
    SumRealsBounds(s, lo, hi);
    MeanBetween(SumReals(s), |s|, lo, hi);
  }

  /** A mean of values bracketed by `lo` and `hi` is bracketed by them too. */
  lemma MeanBetween(sum: real, n: nat, lo: real, hi: real)
    requires n > 0 && (n as real) * lo <= sum <= (n as real) * hi
    ensures lo <= sum / (n as real) <= hi
  {
    var k := n as real;
    assert sum / k * k == sum;
  }

  // ---------------------------------------------------------------------------
  // Tallies: a dict that counts occurrences, keys in first-occurrence order

  function Count<T(==)>(xs: seq<T>, x: T): (n: nat)
    ensures n <= |xs|
    ensures n > 0 <==> x in xs
    decreases |xs|
  {
    if xs == [] then 0
    else
      var rest := Count(xs[..|xs| - 1], x);
      assert x in xs <==> x in xs[..|xs| - 1] || xs[|xs| - 1] == x by {
        assert xs == xs[..|xs| - 1] + [xs[|xs| - 1]];
      }
      rest + (if xs[|xs| - 1] == x then 1 else 0)
  }

  function KeyIndex<T(==)>(t: seq<(T, nat)>, x: T): (i: int)
    ensures -1 <= i < |t|
    ensures i >= 0 ==> t[i].0 == x
    ensures i < 0 ==> forall j :: 0 <= j < |t| ==> t[j].0 != x
    decreases |t|
  {
    if t == [] then -1
    else if t[|t| - 1].0 == x then |t| - 1
    else KeyIndex(t[..|t| - 1], x)
  }

  /** `d[x] = d.get(x, 0) + 1` on an insertion-ordered dict. */
  function Bump<T(==)>(t: seq<(T, nat)>, x: T): seq<(T, nat)>
  {
    var i := KeyIndex(t, x);
    if i >= 0 then t[i := (x, t[i].1 + 1)] else t + [(x, 1)]
  }

  /** The dict obtained by bumping each element of `xs` in turn. */
  function Tally<T(==)>(xs: seq<T>): seq<(T, nat)>
    decreases |xs|
  {
    if xs == [] then [] else Bump(Tally(xs[..|xs| - 1]), xs[|xs| - 1])
  }

  function SumCounts<T>(t: seq<(T, nat)>): nat
    decreases |t|
  {
    if t == [] then 0 else SumCounts(t[..|t| - 1]) + t[|t| - 1].1
  }

  lemma {:induction false} SumCountsUpdate<T>(t: seq<(T, nat)>, i: nat, v: (T, nat))
    requires i < |t|
    ensures SumCounts(t[i := v]) + t[i].1 == SumCounts(t) + v.1
    decreases |t|
  {
    var u := t[i := v];
    if i == |t| - 1 {
      assert u[..|u| - 1] == t[..|t| - 1];
    } else {
      assert u[..|u| - 1] == t[..|t| - 1][i := v];
      SumCountsUpdate(t[..|t| - 1], i, v);
    }
  }

  lemma SumCountsBump<T>(t: seq<(T, nat)>, x: T)
    ensures SumCounts(Bump(t, x)) == SumCounts(t) + 1
  {
    var i := KeyIndex(t, x);
    if i >= 0 {
      SumCountsUpdate(t, i, (x, t[i].1 + 1));
    } else {
      var u := t + [(x, 1)];
      assert u[..|u| - 1] == t;
    }
  }

  predicate DistinctKeys<T(==)>(t: seq<(T, nat)>)
  {
    forall i, j :: 0 <= i < j < |t| ==> t[i].0 != t[j].0
  }

  /** Tallied counts add up to the number of elements tallied. */
  lemma {:induction false} TallySum<T>(xs: seq<T>)
    ensures SumCounts(Tally(xs)) == |xs|
    decreases |xs|
  {
    if xs != [] {
      TallySum(xs[..|xs| - 1]);
      SumCountsBump(Tally(xs[..|xs| - 1]), xs[|xs| - 1]);
    }
  }

  /** Bumping adds `x` to the keys and no other. */
  lemma BumpKeys<T>(t: seq<(T, nat)>, x: T)
    ensures forall y :: KeyIndex(Bump(t, x), y) >= 0 <==> KeyIndex(t, y) >= 0 || y == x
  {
    var u := Bump(t, x);
    var i := KeyIndex(t, x);
    forall y ensures KeyIndex(u, y) >= 0 <==> KeyIndex(t, y) >= 0 || y == x {
      if KeyIndex(t, y) >= 0 { var k := KeyIndex(t, y); assert u[k].0 == y; }
      if KeyIndex(u, y) >= 0 { var k := KeyIndex(u, y); if k < |t| { assert t[k].0 == y; } }
      if y == x && i < 0 { assert u[|t|].0 == y; }
    }
  }

  /** Bumping keeps the keys distinct. */
  lemma BumpDistinct<T>(t: seq<(T, nat)>, x: T)
    requires DistinctKeys(t)
    ensures DistinctKeys(Bump(t, x))
  {
  }

  /** Bumping `x` into a correct tally of `init` gives a correct tally of `init + [x]`. */
  lemma BumpCounts<T>(init: seq<T>, t: seq<(T, nat)>, x: T)
    requires DistinctKeys(t)
    requires forall y :: y in init <==> KeyIndex(t, y) >= 0
    requires forall i :: 0 <= i < |t| ==> t[i].1 == Count(init, t[i].0)
    ensures forall i :: 0 <= i < |Bump(t, x)| ==> Bump(t, x)[i].1 == Count(init + [x], Bump(t, x)[i].0)
  {
    var xs := init + [x];
    assert xs[..|xs| - 1] == init;
    var u := Bump(t, x);
    if KeyIndex(t, x) < 0 {
      assert Count(init, x) == 0;
    }
    forall i | 0 <= i < |u| ensures u[i].1 == Count(xs, u[i].0) {
    }
  }

  /** A tally lists each distinct element once, exactly the elements of `xs`,
      each with its number of occurrences. */
  lemma {:induction false} TallyCounts<T>(xs: seq<T>)
    ensures DistinctKeys(Tally(xs))
    ensures forall x :: x in xs <==> KeyIndex(Tally(xs), x) >= 0
    ensures forall i :: 0 <= i < |Tally(xs)| ==> Tally(xs)[i].1 == Count(xs, Tally(xs)[i].0)
    decreases |xs|
  {
    if xs != [] {
      var init, x := xs[..|xs| - 1], xs[|xs| - 1];
      TallyCounts(init);
      assert xs == init + [x];
      assert forall y :: y in xs <==> y in init || y == x;
      BumpKeys(Tally(init), x);
      BumpDistinct(Tally(init), x);
      BumpCounts(init, Tally(init), x);
    }
  }

  // ---------------------------------------------------------------------------
  // Uptime rendering: `f"{d.days}d {d.seconds // 3600}h {(d.seconds // 60) % 60}m"`

  datatype UptimeParts = UptimeParts(days: int, hours: nat, minutes: nat)

  /** The parts shown for an elapsed time of `elapsed` whole seconds: a timedelta keeps
      whole days, rounded down (negative for a negative time), and the remaining seconds
      below one day. */
  function Uptime(elapsed: int): (u: UptimeParts)
    ensures u.hours < 24 && u.minutes < 60
    ensures u.days * 86400 + u.hours * 3600 + u.minutes * 60 <= elapsed
    ensures elapsed < u.days * 86400 + u.hours * 3600 + u.minutes * 60 + 60
  {
    var seconds := elapsed % 86400;
    UptimeParts(elapsed / 86400, seconds / 3600, (seconds / 60) % 60)
  }

  predicate IsDigit(c: char) { '0' <= c <= '9' }

  function DigitChar(d: nat): (c: char)
    requires d < 10
    ensures IsDigit(c) && c as int - '0' as int == d
  {
    ('0' as int + d) as char
  }

  /** Python's `str(n)` for a non-negative integer. */
  function NatToString(n: nat): (r: string)
    ensures r != []
    ensures forall i :: 0 <= i < |r| ==> IsDigit(r[i])
    decreases n
  {
    if n < 10 then [DigitChar(n)] else NatToString(n / 10) + [DigitChar(n % 10)]
  }

  /** `str(i)` for an integer: a minus sign, then the digits of its magnitude. */
  function IntToString(i: int): string
  {
    if i < 0 then "-" + NatToString(-i) else NatToString(i)
  }

  function UptimeString(elapsed: int): string
  {
    var u := Uptime(elapsed);
    IntToString(u.days) + "d " + NatToString(u.hours) + "h " + NatToString(u.minutes) + "m"
  }
}
