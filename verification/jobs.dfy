/**
  What `main` of each collector plans before starting any thread: one job
  per enabled data kind, each naming an `info_type` (a key of the file's
  `FN_MAPPING`) and the keyword arguments its thread forwards to the helper.
 */
module Jobs {
  import opened Py
  import opened Json
  import opened Calls

  datatype Job = Job(infoType: string, kwargs: Kwargs)

  /**
    The outcome of `main` up to the point where threads start: the directory
    created, the symbol the helpers receive, the collection time every
    thread is given, and the jobs in the order their threads are created.
   */
  datatype Plan = Plan(saveDir: string, symbol: string, duration: int, jobs: seq<Job>)

  /**
    One pass of a `store_info` loop: the file the thread opened (it is
    created before the first request) and the line written, or the
    exception that ends the thread.
   */
  datatype Write = Write(file: string, line: Result<Json>)

  /**
    The keyword arguments a thread's call receives: the symbol under `key`
    first, then the job's own keyword arguments, in order.
   */
  function CallKwargs(key: string, symbol: string, job: Job): (kw: Kwargs)
    ensures |kw| == 1 + |job.kwargs| && kw[0] == (key, VStr(symbol)) && kw[1..] == job.kwargs
  {
    [(key, VStr(symbol))] + job.kwargs
  }

  function InfoTypes(jobs: seq<Job>): (kinds: seq<string>)
    ensures |kinds| == |jobs|
    ensures forall i :: 0 <= i < |jobs| ==> kinds[i] == jobs[i].infoType
    decreases |jobs|
  {
    if |jobs| == 0 then [] else [jobs[0].infoType] + InfoTypes(jobs[1..])
  }

  /** Position of `k` in `order`; `|order|` when absent. */
  function Rank(order: seq<string>, k: string): (r: nat)
    ensures r <= |order|
    ensures r < |order| <==> k in order
    ensures r < |order| ==> order[r] == k
    decreases |order|
  {
    if |order| == 0 then 0
    else if order[0] == k then 0
    else 1 + Rank(order[1..], k)
  }

  /** Every kind comes from `order`, in strictly increasing position, so none is repeated. */
  predicate FollowsOrder(kinds: seq<string>, order: seq<string>) {
    && (forall i :: 0 <= i < |kinds| ==> kinds[i] in order)
    && (forall i, j :: 0 <= i < j < |kinds| ==> Rank(order, kinds[i]) < Rank(order, kinds[j]))
  }

  /** Kinds that follow an order contain no repetition. */
  lemma FollowsOrderDistinct(kinds: seq<string>, order: seq<string>)
    requires FollowsOrder(kinds, order)
    ensures forall i, j :: 0 <= i < j < |kinds| ==> kinds[i] != kinds[j]
  {
  }

  lemma TailFollowsOrder(xs: seq<string>, order: seq<string>)
    requires FollowsOrder(xs, order) && |xs| > 0
    ensures FollowsOrder(xs[1..], order)
    ensures xs[0] !in xs[1..]
  {
    var xt := xs[1..];
    assert forall i :: 0 <= i < |xt| ==> xt[i] == xs[i + 1];
  }

  /** The first kind is the one of least rank. */
  lemma HeadHasLeastRank(xs: seq<string>, order: seq<string>, k: string)
    requires FollowsOrder(xs, order) && k in xs
    ensures Rank(order, xs[0]) <= Rank(order, k)
  {
    var i :| 0 <= i < |xs| && xs[i] == k;
    if i > 0 {
      assert Rank(order, xs[0]) < Rank(order, xs[i]);
    }
  }

  lemma HeadsAgree(xs: seq<string>, ys: seq<string>, order: seq<string>)
    requires FollowsOrder(xs, order) && FollowsOrder(ys, order)
    requires forall k :: k in xs <==> k in ys
    requires |xs| > 0
    ensures |ys| > 0 && xs[0] == ys[0]
  {
    assert xs[0] in xs;
    assert ys[0] in ys;
    HeadHasLeastRank(xs, order, ys[0]);
    HeadHasLeastRank(ys, order, xs[0]);
    assert order[Rank(order, xs[0])] == xs[0];
    assert order[Rank(order, ys[0])] == ys[0];
  }

  /**
    An order and a set of enabled kinds fix the sequence: two sequences that
    both follow the order and hold the same kinds are equal.
   */
  lemma {:induction false} FollowsOrderUnique(xs: seq<string>, ys: seq<string>, order: seq<string>)
    requires FollowsOrder(xs, order) && FollowsOrder(ys, order)
    requires forall k :: k in xs <==> k in ys
    ensures xs == ys
    decreases |xs|
  {
    if |xs| > 0 {
      HeadsAgree(xs, ys, order);
      TailFollowsOrder(xs, order);
      TailFollowsOrder(ys, order);
      var xt, yt := xs[1..], ys[1..];
      assert xs == [xs[0]] + xt && ys == [ys[0]] + yt;
      assert forall k :: k in xt <==> k in yt by {
        forall k
          ensures k in xt <==> k in yt
        {
          assert k in xs <==> k == xs[0] || k in xt;
          assert k in ys <==> k == ys[0] || k in yt;
        }
      }
      FollowsOrderUnique(xt, yt, order);
    } else {
      NonEmptyHasHead(ys);
    }
  }

  /** Membership of the head, stated apart so that it is not checked where `ys` is known to be empty. */
  lemma NonEmptyHasHead(ys: seq<string>)
    ensures |ys| > 0 ==> ys[0] in ys
  {
  }

  predicate DistinctKinds(order: seq<string>) {
    forall i, j :: 0 <= i < j < |order| ==> order[i] != order[j]
  }

  lemma {:induction false} RankOfDistinct(order: seq<string>, i: int)
    requires DistinctKinds(order) && 0 <= i < |order|
    ensures Rank(order, order[i]) == i
    decreases |order|
  {
    if i > 0 {
      assert order[1..][i - 1] == order[i];
      RankOfDistinct(order[1..], i - 1);
    }
  }

  /**
    The jobs whose flag is on, in candidate order: what a sequence of
    `if use_x: threads.append(...)` blocks builds.
   */
  function Select(on: seq<bool>, candidates: seq<Job>): (jobs: seq<Job>)
    requires |on| == |candidates|
    ensures forall j :: j in jobs ==> j in candidates
    ensures forall i :: 0 <= i < |candidates| && on[i] ==> candidates[i] in jobs
    decreases |on|
  {
    if |on| == 0 then []
    else
      var rest := Select(on[1..], candidates[1..]);
      assert forall i :: 0 < i < |candidates| ==> candidates[1..][i - 1] == candidates[i] && on[1..][i - 1] == on[i];
      (if on[0] then [candidates[0]] else []) + rest
  }

  /** Ranks in an order's tail are one less than in the whole order. */
  lemma RankInTail(order: seq<string>, k: string)
    requires DistinctKinds(order) && |order| > 0 && k in order[1..]
    ensures Rank(order, k) == 1 + Rank(order[1..], k)
  {
    var i :| 0 <= i < |order[1..]| && order[1..][i] == k;
    RankOfDistinct(order, i + 1);
    RankOfDistinct(order[1..], i);
  }

  /** Following an order's tail means following the order, after its head. */
  lemma FollowsTail(rest: seq<string>, order: seq<string>)
    requires DistinctKinds(order) && |order| > 0
    requires FollowsOrder(rest, order[1..])
    ensures FollowsOrder(rest, order)
    ensures forall i :: 0 <= i < |rest| ==> Rank(order, rest[i]) >= 1
  {
    forall i | 0 <= i < |rest|
      ensures rest[i] in order && Rank(order, rest[i]) == 1 + Rank(order[1..], rest[i])
    {
      RankInTail(order, rest[i]);
    }
  }

  /** The order's head may go in front of anything that follows the order after it. */
  lemma FollowsWithHead(rest: seq<string>, order: seq<string>)
    requires |order| > 0
    requires FollowsOrder(rest, order)
    requires forall i :: 0 <= i < |rest| ==> Rank(order, rest[i]) >= 1
    ensures FollowsOrder([order[0]] + rest, order)
  {
    var all := [order[0]] + rest;
    assert Rank(order, all[0]) == 0;
    assert forall i :: 0 < i < |all| ==> all[i] == rest[i - 1];
    forall i, j | 0 <= i < j < |all|
      ensures Rank(order, all[i]) < Rank(order, all[j])
    {
      if i == 0 {
        assert Rank(order, rest[j - 1]) >= 1;
      } else {
        assert Rank(order, rest[i - 1]) < Rank(order, rest[j - 1]);
      }
    }
  }

  function SelectedKinds(on: seq<bool>, order: seq<string>): seq<string>
    requires |on| == |order|
    decreases |on|
  {
    if |on| == 0 then [] else (if on[0] then [order[0]] else []) + SelectedKinds(on[1..], order[1..])
  }

  lemma {:induction false} InfoTypesOfSelect(on: seq<bool>, candidates: seq<Job>, order: seq<string>)
    requires |on| == |candidates| == |order|
    requires forall i :: 0 <= i < |order| ==> candidates[i].infoType == order[i]
    ensures InfoTypes(Select(on, candidates)) == SelectedKinds(on, order)
    decreases |on|
  {
    if |on| > 0 {
      assert forall i :: 0 < i < |order| ==> candidates[1..][i - 1] == candidates[i] && order[1..][i - 1] == order[i];
      InfoTypesOfSelect(on[1..], candidates[1..], order[1..]);
      var h := if on[0] then [candidates[0]] else [];
      var t := Select(on[1..], candidates[1..]);
      assert Select(on, candidates) == h + t;
      InfoTypesAppend(h, t);
    }
  }

  lemma InfoTypesAppend(a: seq<Job>, b: seq<Job>)
    ensures InfoTypes(a + b) == InfoTypes(a) + InfoTypes(b)
  {
  }

  lemma {:induction false} SelectedKindsFollowOrder(on: seq<bool>, order: seq<string>)
    requires |on| == |order| && DistinctKinds(order)
    ensures FollowsOrder(SelectedKinds(on, order), order)
    ensures forall i :: 0 <= i < |order| ==> (order[i] in SelectedKinds(on, order) <==> on[i])
    decreases |on|
  {
    if |on| > 0 {
      var o' := order[1..];
      assert forall i :: 0 < i < |order| ==> o'[i - 1] == order[i] && on[1..][i - 1] == on[i];
      assert DistinctKinds(o');
      SelectedKindsFollowOrder(on[1..], o');
      var head := if on[0] then [order[0]] else [];
      var rest := SelectedKinds(on[1..], o');
      FollowsTail(rest, order);
      if on[0] {
        FollowsWithHead(rest, order);
      } else {
        assert head + rest == rest;
      }
      assert order[0] !in rest;
      forall i | 0 <= i < |order|
        ensures order[i] in head + rest <==> on[i]
      {
        if i > 0 {
          assert order[i] != order[0];
        }
      }
    }
  }

  /**
    Selecting from candidates listed in `order` keeps the order, and a kind is
    selected exactly when its flag is on.
   */
  lemma SelectFollowsOrder(on: seq<bool>, candidates: seq<Job>, order: seq<string>)
    requires |on| == |candidates| == |order|
    requires DistinctKinds(order)
    requires forall i :: 0 <= i < |order| ==> candidates[i].infoType == order[i]
    ensures FollowsOrder(InfoTypes(Select(on, candidates)), order)
    ensures forall i :: 0 <= i < |order| ==> (order[i] in InfoTypes(Select(on, candidates)) <==> on[i])
  {
    InfoTypesOfSelect(on, candidates, order);
    SelectedKindsFollowOrder(on, order);
  }
}
