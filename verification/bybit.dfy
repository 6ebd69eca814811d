/**
  bybit.py: the same collector layout as kraken.py, with its own base link
  and an order-book helper that takes the pair only. The pair is passed to
  the helpers unmapped, the directory is fixed to `BASE_SAVE_DIR`, and each
  line written is the helper's whole return value.
 */
module Bybit {
  import opened Py
  import opened Json
  import opened Calls
  import opened Query
  import opened Envelope
  import opened Endpoints
  import opened Paths
  import opened Jobs
  import opened Schedule
  import Kraken

  const ApiLink := "https://api-testnet.bybit.com/v2/public/"
  const BaseSaveDir := "../../datasets/"

  /** `FN_MAPPING`: each info type and the parameters of the helper it names. */
  const FnMapping: map<string, Signature> := map[
    "order_book" := [Param("pair", None)],
    "candles" := [Param("pair", None), Param("granularity", None), Param("since", Some(VNone))],
    "trades" := [Param("pair", None), Param("since", None)],
    "ticker" := [Param("pair", None)],
    "spread" := [Param("pair", None), Param("since", None)]
  ]

  /**
    The helpers have the same names and parameters as kraken.py's, except
    that the order book has lost its `depth` parameter.
   */
  lemma SignaturesMatchKraken()
    ensures FnMapping.Keys == Kraken.FnMapping.Keys
    ensures forall k :: k in FnMapping && k != "order_book" ==> FnMapping[k] == Kraken.FnMapping[k]
    ensures FnMapping["order_book"] == Kraken.FnMapping["order_book"][..1]
    ensures "depth" !in Names(FnMapping["order_book"]) && "depth" in Names(Kraken.FnMapping["order_book"])
  {
    assert Kraken.FnMapping["order_book"][1].name == "depth";
  }

  lemma FnMappingWellFormed()
    ensures forall k :: k in FnMapping ==> DistinctNames(FnMapping[k]) && "pair" in Names(FnMapping[k])
  {
    Kraken.FnMappingWellFormed();
    SignaturesMatchKraken();
    assert FnMapping["order_book"][0].name == "pair";
  }

  /** The URL the named helper requests, from its bound parameters. */
  function RequestUrl(infoType: string, args: map<string, Value>): string
    requires infoType in FnMapping && args.Keys == Names(FnMapping[infoType])
  {
    assert FnMapping[infoType][0].name == "pair";
    match infoType
    case "order_book" =>
      OrderBookL2Url(ApiLink, args["pair"])
    case "candles" =>
      assert FnMapping[infoType][1].name == "granularity" && FnMapping[infoType][2].name == "since";
      CandlesUrl(ApiLink, args["pair"], args["granularity"], args["since"])
    case "trades" =>
      assert FnMapping[infoType][1].name == "since";
      TradesUrl(ApiLink, args["pair"], args["since"])
    case "ticker" =>
      TickerUrl(ApiLink, args["pair"])
    case _ =>
      assert FnMapping[infoType][1].name == "since";
      SpreadsUrl(ApiLink, args["pair"], args["since"])
  }

  /**
    The request each helper means to send: as in kraken.py, except that the
    order book asks for `orderBook/L2` with the pair as `symbol` and no depth.
   */
  function Intended(infoType: string, args: map<string, Value>): Request
    requires infoType in FnMapping && args.Keys == Names(FnMapping[infoType])
  {
    SignaturesMatchKraken();
    assert FnMapping[infoType][0].name == "pair";
    if infoType == "order_book" then Request("orderBook/L2", [("symbol", Format(args["pair"]))])
    else Kraken.Intended(infoType, args)
  }

  /** Each helper's hand-built URL decodes to the request it means to send. */
  lemma RequestUrlDecodes(infoType: string, args: map<string, Value>)
    requires infoType in FnMapping && args.Keys == Names(FnMapping[infoType])
    requires Kraken.AllClean(args)
    ensures ParseUrl(ApiLink, RequestUrl(infoType, args)) == Some(Intended(infoType, args))
  {
    if infoType == "order_book" {
      DecodesOrderBook(infoType, args);
    } else if infoType == "candles" {
      DecodesCandles(infoType, args);
    } else if infoType == "trades" {
      DecodesTrades(infoType, args);
    } else if infoType == "ticker" {
      DecodesTicker(infoType, args);
    } else {
      DecodesSpread(infoType, args);
    }
  }

  lemma DecodesOrderBook(k: string, args: map<string, Value>)
    requires k == "order_book" && args.Keys == Names(FnMapping[k])
    requires Kraken.AllClean(args)
    ensures ParseUrl(ApiLink, RequestUrl(k, args)) == Some(Intended(k, args))
  {
    SignaturesMatchKraken();
    assert FnMapping[k][0].name == "pair";
    OrderBookL2UrlDecodes(ApiLink, args["pair"]);
  }

  lemma DecodesCandles(k: string, args: map<string, Value>)
    requires k == "candles" && args.Keys == Names(FnMapping[k])
    requires Kraken.AllClean(args)
    ensures ParseUrl(ApiLink, RequestUrl(k, args)) == Some(Intended(k, args))
  {
    CandlesIntended(k, args);
    assert RequestUrl(k, args) == CandlesUrl(ApiLink, args["pair"], args["granularity"], args["since"]);
    CandlesUrlDecodesTo(ApiLink, args["pair"], args["granularity"], args["since"]);
  }

  lemma CandlesIntended(k: string, args: map<string, Value>)
    requires k == "candles" && args.Keys == Names(FnMapping[k])
    ensures FnMapping[k][0].name == "pair" && FnMapping[k][1].name == "granularity" && FnMapping[k][2].name == "since"
    ensures Intended(k, args) == Request("OHLC", CandlesParams(args["pair"], args["granularity"], args["since"]))
  {
    SignaturesMatchKraken();
    assert FnMapping[k][0].name == "pair";
    assert FnMapping[k][1].name == "granularity" && FnMapping[k][2].name == "since";
  }

  lemma DecodesTrades(k: string, args: map<string, Value>)
    requires k == "trades" && args.Keys == Names(FnMapping[k])
    requires Kraken.AllClean(args)
    ensures ParseUrl(ApiLink, RequestUrl(k, args)) == Some(Intended(k, args))
  {
    SignaturesMatchKraken();
    assert FnMapping[k][0].name == "pair";
    assert FnMapping[k][1].name == "since";
    TradesUrlDecodes(ApiLink, args["pair"], args["since"]);
  }

  lemma DecodesTicker(k: string, args: map<string, Value>)
    requires k == "ticker" && args.Keys == Names(FnMapping[k])
    requires Kraken.AllClean(args)
    ensures ParseUrl(ApiLink, RequestUrl(k, args)) == Some(Intended(k, args))
  {
    SignaturesMatchKraken();
    assert FnMapping[k][0].name == "pair";
    TickerUrlDecodes(ApiLink, args["pair"]);
  }

  lemma DecodesSpread(k: string, args: map<string, Value>)
    requires k == "spread" && args.Keys == Names(FnMapping[k])
    requires Kraken.AllClean(args)
    ensures ParseUrl(ApiLink, RequestUrl(k, args)) == Some(Intended(k, args))
  {
    SignaturesMatchKraken();
    assert FnMapping[k][0].name == "pair";
    assert FnMapping[k][1].name == "since";
    assert k != "order_book" && k != "candles" && k != "trades" && k != "ticker";
    assert RequestUrl(k, args) == SpreadsUrl(ApiLink, args["pair"], args["since"]);
    SpreadsUrlDecodes(ApiLink, args["pair"], args["since"]);
  }

  /**
    `FN_MAPPING[info_type](**kwargs)` with the decoded HTTP response supplied
    by `server`: an unknown info type raises KeyError, arguments that do not
    fit the helper raise TypeError before any request, and the returned value
    is the whole response exactly when its `error` value is falsy.
   */
  function Call(infoType: string, kwargs: Kwargs, server: string -> Json): (r: Result<Kraken.Reply>)
    ensures infoType !in FnMapping ==> r == Err(KeyError(infoType))
    ensures infoType in FnMapping && !Accepts(FnMapping[infoType], kwargs) ==>
              r.Err? && (r.error.UnexpectedKeyword? || r.error.RepeatedKeyword? || r.error.MissingArguments?)
    ensures r.Ok? ==> infoType in FnMapping && Accepts(FnMapping[infoType], kwargs)
    ensures r.Ok? ==> ErrorField(server(r.value.url)).Ok?
    ensures r.Ok? ==> (r.value.returned == server(r.value.url) <==> !Truthy(ErrorField(server(r.value.url)).value))
    ensures infoType in FnMapping && Accepts(FnMapping[infoType], kwargs) ==>
              var url := RequestUrl(infoType, Bind(FnMapping[infoType], kwargs).value);
              && (r.Ok? <==> ErrorField(server(url)).Ok?)
              && (r.Ok? ==> && r.value.url == url
                            && r.value.returned == (if Truthy(ErrorField(server(url)).value)
                                                    then ErrorField(server(url)).value
                                                    else server(url)))
  {
    if infoType !in FnMapping then Err(KeyError(infoType))
    else
      FnMappingWellFormed();
      var args :- Bind(FnMapping[infoType], kwargs);
      var url := RequestUrl(infoType, args);
      var returned :- Unwrap(server(url));
      Ok(Kraken.Reply(url, returned))
  }

  /** Parsed command-line flags; bybit.py has no `--savedir`. */
  datatype Args = Args(time: int, pair: Option<string>, flags: Flags)

  /** bybit.py plans the same threads as kraken.py. */
  const ThreadLayout: Layout := Layout("spread", "depth")

  lemma PlannedKindsKnown()
    ensures WellFormed(ThreadLayout)
    ensures ThreadLayout == Kraken.ThreadLayout
    ensures forall k :: k in Order(ThreadLayout) <==> k in FnMapping
  {
  }

  /** `join(*[BASE_SAVE_DIR, pair, 'kraken'])`: the directory is named `kraken` here too. */
  function SaveDir(pair: string): string {
    Join([BaseSaveDir, pair, "kraken"])
  }

  /**
    `main` up to starting the threads: a missing pair makes `join` raise
    TypeError; otherwise the pair is used as given, both for the directory
    and for the helpers.
   */
  function Main(a: Args): (r: Result<Plan>)
    ensures r.Err? <==> a.pair.None?
    ensures r.Err? ==> r.error == NotAPath
    ensures r.Ok? ==> r.value.symbol == a.pair.value && r.value.duration == a.time
    ensures r.Ok? ==> r.value.saveDir == SaveDir(a.pair.value)
    ensures r.Ok? ==> r.value.jobs == PlannedJobs(ThreadLayout, a.flags)
    ensures r.Ok? ==> forall i :: 0 <= i < |r.value.jobs| ==> r.value.jobs[i].infoType in FnMapping
  {
    PlannedKindsKnown();
    match a.pair
    case None => Err(NotAPath)
    case Some(pair) =>
      var jobs := PlannedJobs(ThreadLayout, a.flags);
      assert forall i :: 0 <= i < |jobs| ==> jobs[i].infoType == InfoTypes(jobs)[i];
      Ok(Plan(SaveDir(pair), pair, a.time, jobs))
  }

  /**
    bybit.py writes into the directory kraken.py uses with its default
    `--savedir`, so for the same pair and info type both collectors open
    the same file.
   */
  lemma SharesKrakenDirectory(pair: string, infoType: string)
    ensures SaveDir(pair) == Kraken.SaveDir(Kraken.BaseSaveDir, pair)
    ensures OutputFile(SaveDir(pair), infoType) == OutputFile(Kraken.SaveDir(Kraken.BaseSaveDir, pair), infoType)
  {
  }

  /** bybit.py's order-book helper refuses the `depth` keyword `main` passes it. */
  lemma OrderBookRejectsDepth(symbol: string, level: int)
    ensures Bind(FnMapping["order_book"], Kraken.HelperKwargs(symbol, Job("order_book", [("depth", VInt(level))])))
         == Err(UnexpectedKeyword("depth"))
  {
    var sig := FnMapping["order_book"];
    var kw := Kraken.HelperKwargs(symbol, Job("order_book", [("depth", VInt(level))]));
    assert kw == [("pair", VStr(symbol)), ("depth", VInt(level))];
    assert DistinctKeywords(kw);
    FirstRepeatFound(kw, 0);
    assert sig[0].name in Names(sig);
    SignaturesMatchKraken();
    assert kw[1..] == [("depth", VInt(level))];
    assert BindKeywords(sig, kw[1..], map["pair" := VStr(symbol)]) == Err(UnexpectedKeyword("depth"));
    assert BindKeywords(sig, kw, map[]) == Err(UnexpectedKeyword("depth"));
  }

  /**
    Which planned jobs fit their helper: ticker and candles do; order_book
    raises TypeError for the unexpected `depth`, and trades and spread for
    the missing `since`.
   */
  lemma PlannedJobsBind(a: Args, i: int)
    requires Main(a).Ok? && 0 <= i < |Main(a).value.jobs|
    ensures var p := Main(a).value;
            var job := p.jobs[i];
            var kw := Kraken.HelperKwargs(p.symbol, job);
            && job.infoType in FnMapping
            && DistinctNames(FnMapping[job.infoType])
            && (Accepts(FnMapping[job.infoType], kw) <==> job.infoType == "ticker" || job.infoType == "candles")
            && (job.infoType == "order_book" ==> Bind(FnMapping[job.infoType], kw) == Err(UnexpectedKeyword("depth")))
            && (job.infoType in {"trades", "spread"} ==> Bind(FnMapping[job.infoType], kw) == Err(MissingArguments(["since"])))
  {
    var p := Main(a).value;
    var job := p.jobs[i];
    assert job == Job(job.infoType, KwargsFor(ThreadLayout, a.flags, job.infoType));
    FnMappingWellFormed();
    SignaturesMatchKraken();
    PlannedKindsKnown();
    if job.infoType == "trades" || job.infoType == "spread" {
      assert Kraken.HelperKwargs(p.symbol, job) == [("pair", VStr(p.symbol))];
      Kraken.SinceMissing(job.infoType, p.symbol);
    } else if job.infoType == "order_book" {
      OrderBookRejectsDepth(p.symbol, a.flags.level);
    } else {
      Kraken.OthersAccepted(a.flags, p.symbol, job.infoType);
    }
  }

  /**
    One pass of `store_info`: the thread writes the helper's return value
    itself to `<save_dir>/<info_type>.txt`; an exception ends the thread.
   */
  function Poll(saveDir: string, pair: string, job: Job, server: string -> Json): (w: Write)
    ensures w.file == OutputFile(saveDir, job.infoType)
    ensures w.line.Ok? <==> Call(job.infoType, Kraken.HelperKwargs(pair, job), server).Ok?
    ensures w.line.Ok? ==> w.line.value == Call(job.infoType, Kraken.HelperKwargs(pair, job), server).value.returned
    ensures w.line.Err? ==> w.line.error == Call(job.infoType, Kraken.HelperKwargs(pair, job), server).error
  {
    var file := OutputFile(saveDir, job.infoType);
    match Call(job.infoType, Kraken.HelperKwargs(pair, job), server)
    case Err(e) => Write(file, Err(e))
    case Ok(reply) => Write(file, Ok(reply.returned))
  }

  /**
    Against an exchange that always reports errors as a list, every accepted
    call writes a line: the whole response when the list is empty, and the
    list itself otherwise.
   */
  lemma PollListEnvelope(saveDir: string, pair: string, job: Job, server: string -> Json)
    requires forall url :: ErrorIsList(server(url))
    ensures var c := Call(job.infoType, Kraken.HelperKwargs(pair, job), server);
            c.Ok? ==>
              var resp := server(c.value.url);
              var w := Poll(saveDir, pair, job, server);
              && w.line.Ok?
              && (w.line.value == resp <==> !Truthy(ErrorField(resp).value))
              && (w.line.value.JArr? <==> Truthy(ErrorField(resp).value))
  {
    var c := Call(job.infoType, Kraken.HelperKwargs(pair, job), server);
    if c.Ok? {
      UnwrapDistinguishesListErrors(server(c.value.url));
    }
  }
}
