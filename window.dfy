/** The append-and-evict rule shared by `_PlotTable.appendx` and
    `_PlotTable.appendy`, on plain sequences, and what repeated appends leave
    behind. */
module Window {
  import opened Py

  /** One append to a list `s` of a table whose capacity is `cap`: below
      capacity the value is appended; otherwise `pop(0)` runs first, which on
      an empty list (possible only when `cap <= 0`) raises `IndexError`. */
  function Append<T>(s: seq<T>, a: T, cap: int): (r: Result<seq<T>>)
    ensures r.Err? <==> |s| == 0 && cap <= 0
    ensures r.Err? ==> r.error.IndexError?
    ensures r.Ok? ==> |r.value| > 0 && r.value[|r.value| - 1] == a
    ensures r.Ok? ==> r.value[..|r.value| - 1] == (if |s| < cap then s else s[1..])
  {
    if |s| < cap then Ok(s + [a])
    else if |s| == 0 then Err(IndexError("pop from empty list"))
    else Ok(s[1..] + [a])
  }

  /** The last `n` elements of `v` (all of `v` when it is shorter). */
  function LastN<T>(v: seq<T>, n: nat): (r: seq<T>)
    ensures |r| == if |v| < n then |v| else n
    ensures r == v[|v| - |r|..]
  {
    if |v| <= n then v else v[|v| - n..]
  }

  /** The list after appending each of `vals` in turn, or the first exception. */
  function Fill<T>(s: seq<T>, vals: seq<T>, cap: int): Result<seq<T>>
    decreases |vals|
  {
    if vals == [] then Ok(s)
    else
      match Append(s, vals[0], cap)
      case Err(e) => Err(e)
      case Ok(s') => Fill(s', vals[1..], cap)
  }

  /** Below or at capacity, an append keeps the list within capacity: it grows
      by one while there is room and otherwise drops its oldest element. */
  lemma AppendKeepsBound<T>(s: seq<T>, a: T, cap: int)
    requires 1 <= cap && |s| <= cap
    ensures Append(s, a, cap).Ok?
    ensures |s| < cap ==> Append(s, a, cap).value == s + [a]
    ensures |s| == cap ==> Append(s, a, cap).value == s[1..] + [a]
    ensures |Append(s, a, cap).value| <= cap
  {
  }

  /** An over-full list (one longer than the capacity, after the capacity was
      lowered) keeps its length: every append pops one and appends one. */
  lemma AppendOverfull<T>(s: seq<T>, a: T, cap: int)
    requires |s| > cap && |s| > 0
    ensures Append(s, a, cap) == Ok(s[1..] + [a])
    ensures |Append(s, a, cap).value| == |s| > cap
  {
  }

  /** FIFO eviction: from a list that is not empty or has room, a run of appends
      leaves exactly the last `w` values of everything inserted, in insertion
      order, where `w` is the capacity, or the list's own length when it was
      already over-full. */
  lemma {:induction false} FillKeepsLast<T>(s: seq<T>, vals: seq<T>, cap: int)
    requires |s| > 0 || cap >= 1
    ensures Fill(s, vals, cap) == Ok(LastN(s + vals, if |s| > cap then |s| else cap))
    decreases |vals|
  {
    var w: nat := if |s| > cap then |s| else cap;
    if vals == [] {
      assert s + vals == s;
    } else {
      var a, rest := vals[0], vals[1..];
      SplitHead(s, vals);
      AppendIsLastN(s, a, cap);
      var s' := Append(s, a, cap).value;
      FillUnfold(s, vals, cap);
      assert Fill(s, vals, cap) == Fill(s', rest, cap);
      FillKeepsLast(s', rest, cap);
      assert Fill(s', rest, cap) == Ok(LastN(LastN(s + [a], w) + rest, w));
      LastNConcat(s + [a], rest, w);
    }
  }

  lemma SplitHead<T>(s: seq<T>, vals: seq<T>)
    requires vals != []
    ensures s + [vals[0]] + vals[1..] == s + vals
  {
    assert [vals[0]] + vals[1..] == vals;
  }

  /** One append, then the rest. */
  lemma FillUnfold<T>(s: seq<T>, vals: seq<T>, cap: int)
    requires vals != [] && Append(s, vals[0], cap).Ok?
    ensures Fill(s, vals, cap) == Fill(Append(s, vals[0], cap).value, vals[1..], cap)
  {
  }

  /** One append is "keep the last `w`", and leaves the window width `w` as it was. */
  lemma AppendIsLastN<T>(s: seq<T>, a: T, cap: int)
    requires |s| > 0 || cap >= 1
    ensures Append(s, a, cap).Ok?
    ensures Append(s, a, cap).value == LastN(s + [a], if |s| > cap then |s| else cap)
    ensures var s' := Append(s, a, cap).value;
      |s'| > 0 && (if |s'| > cap then |s'| else cap) == (if |s| > cap then |s| else cap)
  {
    var w: nat := if |s| > cap then |s| else cap;
    if |s| >= cap {
      assert (s + [a])[|s + [a]| - w..] == s[1..] + [a];
    }
  }

  /** Taking the last `n` twice is taking the last `n` once. */
  lemma LastNConcat<T>(u: seq<T>, v: seq<T>, n: nat)
    ensures LastN(LastN(u, n) + v, n) == LastN(u + v, n)
  {
    var l := LastN(u, n);
    if |u| > n {
      assert l + v == (u + v)[|u| - n..];
      assert (u + v)[|u| - n..][|l + v| - n..] == (u + v)[|u + v| - n..];
    } else {
      assert l == u;
    }
  }

  /** The property as the window is used: appending `vals` to an empty list of
      capacity `cap >= 1` keeps the last `min(|vals|, cap)` values in order. */
  lemma FifoFromEmpty<T>(vals: seq<T>, cap: int)
    requires cap >= 1
    ensures Fill([], vals, cap).Ok?
    ensures Fill([], vals, cap).value == LastN(vals, cap)
    ensures |Fill([], vals, cap).value| == if |vals| < cap then |vals| else cap
  {
    FillKeepsLast([], vals, cap);
    assert [] + vals == vals;
  }

  /** A capacity lowered below the list's length never shrinks the list:
      later appends keep its length, so `|x| <= length` stays false. */
  lemma LoweredCapacityNeverShrinks<T>(s: seq<T>, vals: seq<T>, cap: int)
    requires |s| > cap && |s| > 0
    ensures Fill(s, vals, cap).Ok?
    ensures |Fill(s, vals, cap).value| == |s| > cap
  {
    FillKeepsLast(s, vals, cap);
  }

  /** With a capacity of zero or less and an empty list, the first append raises
      `IndexError` from `pop(0)`. */
  lemma NonPositiveCapacityFails<T>(vals: seq<T>, cap: int)
    requires cap <= 0 && vals != []
    ensures Fill([], vals, cap).Err? && Fill([], vals, cap).error.IndexError?
  {
  }
}
