/**
  coinbase.py: the same collector layout driven through the Coinbase Pro
  public client. `FN_MAPPING` names client methods; the client itself is a
  parameter `client(method, kwargs)` returning the decoded response.
 */
module Coinbase {
  import opened Py
  import opened Json
  import opened Calls
  import opened Paths
  import opened Jobs
  import opened Schedule
  import Kraken

  const BaseSaveDir := "../../datasets/"

  /** `FN_MAPPING`: each info type and the client method it calls. */
  const FnMapping: map<string, string> := map[
    "order_book" := "get_product_order_book",
    "candles" := "get_product_historic_rates",
    "trades" := "get_product_trades",
    "ticker" := "get_product_ticker",
    "stats" := "get_product_24hr_stats"
  ]

  /** A client method called with keyword arguments, as the decoded response it returns. */
  type Client = (string, Kwargs) -> Json

  /** Parsed command-line flags; coinbase.py has no `--savedir`. */
  datatype Args = Args(time: int, pair: Option<string>, flags: Flags)

  /** coinbase.py plans a `stats` thread and passes the order-book level as `level`. */
  const ThreadLayout: Layout := Layout("stats", "level")

  /** The kinds `main` can plan are exactly the keys of `FN_MAPPING`. */
  lemma PlannedKindsKnown()
    ensures WellFormed(ThreadLayout)
    ensures forall k :: k in Order(ThreadLayout) <==> k in FnMapping
  {
  }

  /** `join(*[BASE_SAVE_DIR, pair, 'cb_pro'])`. */
  function SaveDir(pair: string): string {
    Join([BaseSaveDir, pair, "cb_pro"])
  }

  /**
    `main` up to starting the threads: a missing pair makes `join` raise
    TypeError; otherwise the pair is used as given.
   */
  function Main(a: Args): (r: Result<Plan>)
    ensures r.Err? <==> a.pair.None?
    ensures r.Err? ==> r.error == NotAPath
    ensures r.Ok? ==> r.value.symbol == a.pair.value && r.value.duration == a.time
    ensures r.Ok? ==> r.value.saveDir == SaveDir(a.pair.value)
    ensures r.Ok? ==> r.value.jobs == PlannedJobs(ThreadLayout, a.flags)
    ensures r.Ok? ==> forall i :: 0 <= i < |r.value.jobs| ==> r.value.jobs[i].infoType in FnMapping
  {
    PlannedKindsKnown();
    match a.pair
    case None => Err(NotAPath)
    case Some(pair) =>
      var jobs := PlannedJobs(ThreadLayout, a.flags);
      assert forall i :: 0 <= i < |jobs| ==> jobs[i].infoType == InfoTypes(jobs)[i];
      Ok(Plan(SaveDir(pair), pair, a.time, jobs))
  }

  /** `store_info` calls the client with `product_id=<pair>` followed by the job's keyword arguments. */
  function ClientKwargs(pair: string, job: Job): Kwargs {
    CallKwargs("product_id", pair, job)
  }

  /**
    One pass of `store_info`: the thread writes the client's response itself
    to `<save_dir>/<info_type>.txt`; an unknown info type raises KeyError.
   */
  function Poll(saveDir: string, pair: string, job: Job, client: Client): (w: Write)
    ensures w.file == OutputFile(saveDir, job.infoType)
    ensures w.line.Err? <==> job.infoType !in FnMapping
    ensures w.line.Err? ==> w.line.error == KeyError(job.infoType)
    ensures w.line.Ok? ==> w.line.value == client(FnMapping[job.infoType], ClientKwargs(pair, job))
  {
    var file := OutputFile(saveDir, job.infoType);
    if job.infoType !in FnMapping then Write(file, Err(KeyError(job.infoType)))
    else Write(file, Ok(client(FnMapping[job.infoType], ClientKwargs(pair, job))))
  }

  /**
    Every planned thread writes the response of its kind's client method,
    called with the product id first and then the level for the order book
    or the granularity for candles.
   */
  lemma PlannedPollsWrite(a: Args, i: int, client: Client)
    requires Main(a).Ok? && 0 <= i < |Main(a).value.jobs|
    ensures var p := Main(a).value;
            var job := p.jobs[i];
            var w := Poll(p.saveDir, p.symbol, job, client);
            && w.file == OutputFile(SaveDir(a.pair.value), job.infoType)
            && w.line == Ok(client(FnMapping[job.infoType], [("product_id", VStr(a.pair.value))] + KwargsFor(ThreadLayout, a.flags, job.infoType)))
            && (job.infoType == "order_book" ==> job.kwargs == [("level", VInt(a.flags.level))])
            && (job.infoType == "candles" ==> job.kwargs == [("granularity", VInt(a.flags.granularity))])
  {
  }

  /** Unlike bybit.py, coinbase.py never writes into kraken.py's directory for a plain pair. */
  lemma KeepsOwnDirectory(pair: string, savedir: string)
    requires IsComponent(pair)
    ensures SaveDir(pair) != Kraken.SaveDir(savedir, pair)
    ensures Basename(SaveDir(pair)) == "cb_pro"
  {
    JoinComponents(BaseSaveDir, pair, "cb_pro");
    Kraken.SaveDirOfPair(savedir, pair);
  }

  /** No two jobs of a plan write to the same file. */
  lemma PlannedFilesDistinct(a: Args, i: int, j: int)
    requires Main(a).Ok? && 0 <= i < j < |Main(a).value.jobs|
    ensures var p := Main(a).value;
            OutputFile(p.saveDir, p.jobs[i].infoType) != OutputFile(p.saveDir, p.jobs[j].infoType)
  {
    var p := Main(a).value;
    assert p.jobs == PlannedJobs(ThreadLayout, a.flags);
    Schedule.PlannedFilesDistinct(ThreadLayout, a.flags, p.saveDir, i, j);
  }
}
