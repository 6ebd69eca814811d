/**
  The thread plan every collector's `main` builds from its flags: five
  `if use_x:` blocks, in the order ticker, order book, a third kind
  (`spread` in kraken.py and bybit.py, `stats` in coinbase.py), trades,
  candles. The order book thread gets the order-book level under the file's
  keyword (`depth` or `level`), the candles thread gets `granularity`, and
  the others get no keyword arguments.
 */
module Schedule {
  import opened Calls
  import opened Jobs
  import opened Paths

  /** What differs between the collectors' plans. */
  datatype Layout = Layout(thirdKind: string, levelKeyword: string)

  /** The integer flags `main` reads; a flag enables its thread when it is nonzero. */
  datatype Flags = Flags(
    ticker: int, orderBook: int, level: int, third: int,
    trades: int, candles: int, granularity: int)

  /** The third kind is none of the other four. */
  predicate WellFormed(l: Layout) {
    l.thirdKind != "ticker" && l.thirdKind != "order_book" && l.thirdKind != "trades" && l.thirdKind != "candles"
  }

  /** The order in which `main` creates its threads. */
  function Order(l: Layout): seq<string> {
    ["ticker", "order_book", l.thirdKind, "trades", "candles"]
  }

  /** The flag that enables each info type; unknown kinds are never enabled. */
  function Flag(l: Layout, f: Flags, infoType: string): int {
    if infoType == "ticker" then f.ticker
    else if infoType == "order_book" then f.orderBook
    else if infoType == "trades" then f.trades
    else if infoType == "candles" then f.candles
    else if infoType == l.thirdKind then f.third
    else 0
  }

  /** The keyword arguments `main` gives the thread of each info type. */
  function KwargsFor(l: Layout, f: Flags, infoType: string): Kwargs {
    if infoType == "order_book" then [(l.levelKeyword, VInt(f.level))]
    else if infoType == "candles" then [("granularity", VInt(f.granularity))]
    else []
  }

  /** The five blocks' jobs, before their flags are consulted. */
  function Candidates(l: Layout, f: Flags): seq<Job> {
    [
      Job("ticker", []),
      Job("order_book", [(l.levelKeyword, VInt(f.level))]),
      Job(l.thirdKind, []),
      Job("trades", []),
      Job("candles", [("granularity", VInt(f.granularity))])
    ]
  }

  function Switches(f: Flags): seq<bool> {
    [f.ticker != 0, f.orderBook != 0, f.third != 0, f.trades != 0, f.candles != 0]
  }

  lemma CandidatesFollowOrder(l: Layout, f: Flags)
    requires WellFormed(l)
    ensures |Candidates(l, f)| == |Switches(f)| == |Order(l)| == 5
    ensures DistinctKinds(Order(l))
    ensures forall i :: 0 <= i < 5 ==> Candidates(l, f)[i].infoType == Order(l)[i]
    ensures forall i :: 0 <= i < 5 ==> Switches(f)[i] == (Flag(l, f, Order(l)[i]) != 0)
    ensures forall i :: 0 <= i < 5 ==> Candidates(l, f)[i].kwargs == KwargsFor(l, f, Order(l)[i])
  {
  }

  lemma SelectedJobsFit(l: Layout, f: Flags, jobs: seq<Job>)
    requires WellFormed(l)
    requires |Switches(f)| == |Candidates(l, f)|
    requires jobs == Select(Switches(f), Candidates(l, f))
    ensures forall i :: 0 <= i < |jobs| ==> jobs[i].kwargs == KwargsFor(l, f, jobs[i].infoType)
  {
    CandidatesFollowOrder(l, f);
    var cs := Candidates(l, f);
    forall i | 0 <= i < |jobs|
      ensures jobs[i].kwargs == KwargsFor(l, f, jobs[i].infoType)
    {
      assert jobs[i] in cs;
      var m :| 0 <= m < 5 && cs[m] == jobs[i];
    }
  }

  lemma SelectedKindsAreFlagged(l: Layout, f: Flags, kinds: seq<string>)
    requires WellFormed(l)
    requires FollowsOrder(kinds, Order(l))
    requires forall i :: 0 <= i < |Order(l)| ==> (Order(l)[i] in kinds <==> Switches(f)[i])
    ensures forall k :: k in kinds <==> k in Order(l) && Flag(l, f, k) != 0
  {
    CandidatesFollowOrder(l, f);
    forall k
      ensures k in kinds <==> k in Order(l) && Flag(l, f, k) != 0
    {
      if k in Order(l) {
        var m :| 0 <= m < 5 && Order(l)[m] == k;
      }
    }
  }

  /**
    The jobs `main` starts: one per nonzero flag, each with the keyword
    arguments of its kind, in the layout's order.
   */
  function PlannedJobs(l: Layout, f: Flags): (jobs: seq<Job>)
    requires WellFormed(l)
    ensures forall i :: 0 <= i < |jobs| ==> jobs[i].kwargs == KwargsFor(l, f, jobs[i].infoType)
    ensures forall k :: k in InfoTypes(jobs) <==> k in Order(l) && Flag(l, f, k) != 0
    ensures FollowsOrder(InfoTypes(jobs), Order(l))
  {
    var jobs := Select(Switches(f), Candidates(l, f));
    CandidatesFollowOrder(l, f);
    SelectFollowsOrder(Switches(f), Candidates(l, f), Order(l));
    SelectedJobsFit(l, f, jobs);
    SelectedKindsAreFlagged(l, f, InfoTypes(jobs));
    jobs
  }

  /** The plan is fixed by which flags are on: any kind sequence that follows the order and holds exactly the enabled kinds is the plan's. */
  lemma PlanIsDetermined(l: Layout, f: Flags, kinds: seq<string>)
    requires WellFormed(l)
    requires FollowsOrder(kinds, Order(l))
    requires forall k :: k in kinds <==> Flag(l, f, k) != 0 && k in Order(l)
    ensures InfoTypes(PlannedJobs(l, f)) == kinds
  {
    FollowsOrderUnique(InfoTypes(PlannedJobs(l, f)), kinds, Order(l));
  }

  /** No kind is planned twice, so no two threads open the same file. */
  lemma PlannedKindsDistinct(l: Layout, f: Flags, i: int, j: int)
    requires WellFormed(l)
    requires 0 <= i < j < |PlannedJobs(l, f)|
    ensures PlannedJobs(l, f)[i].infoType != PlannedJobs(l, f)[j].infoType
  {
    var kinds := InfoTypes(PlannedJobs(l, f));
    FollowsOrderDistinct(kinds, Order(l));
    assert kinds[i] != kinds[j];
  }

  /** Every kind in the order is a relative name when the third kind is. */
  lemma OrderIsRelative(l: Layout, k: string)
    requires !IsAbsolute(l.thirdKind) && k in Order(l)
    ensures !IsAbsolute(k)
  {
    var m :| 0 <= m < 5 && Order(l)[m] == k;
  }

  /** Two threads of one plan never open the same file under its directory. */
  lemma PlannedFilesDistinct(l: Layout, f: Flags, saveDir: string, i: int, j: int)
    requires WellFormed(l) && !IsAbsolute(l.thirdKind)
    requires 0 <= i < j < |PlannedJobs(l, f)|
    ensures OutputFile(saveDir, PlannedJobs(l, f)[i].infoType) != OutputFile(saveDir, PlannedJobs(l, f)[j].infoType)
  {
    var jobs := PlannedJobs(l, f);
    var kinds := InfoTypes(jobs);
    PlannedKindsDistinct(l, f, i, j);
    assert kinds[i] in Order(l) && kinds[j] in Order(l);
    OrderIsRelative(l, kinds[i]);
    OrderIsRelative(l, kinds[j]);
    OutputFileInjective(saveDir, jobs[i].infoType, jobs[j].infoType);
  }
}
