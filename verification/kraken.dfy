/**
  kraken.py: currency/pair symbol mapping, the `get_*` helpers as a URL plus
  the envelope check, `FN_MAPPING`, the planning part of `main`, and the
  record one iteration of `store_info` writes.
 */
module Kraken {
  import opened Py
  import opened Strings
  import opened Json
  import opened Calls
  import opened Query
  import opened Envelope
  import opened Endpoints
  import opened Paths
  import opened Jobs
  import opened Schedule

  const ApiLink := "https://api.kraken.com/0/public/"
  const BaseSaveDir := "../../datasets/"

  /** Kraken's names for currencies that differ from the common ticker. */
  const NameConvention: map<string, string> := map["BTC" := "XBT"]
  const InverseNameConvention: map<string, string> := map["XBT" := "BTC"]

  /** `map_currency`: the exchange's name for a currency; unknown currencies pass through. */
  function MapCurrency(currency: string, currencyMap: map<string, string>): (r: string)
    ensures currency !in currencyMap ==> r == currency
    ensures currency in currencyMap ==> r == currencyMap[currency]
  {
    if currency !in currencyMap.Keys then currency else currencyMap[currency]
  }

  /**
    `map_pair`: the first two `-`-separated fields of `pair`, each mapped and
    then concatenated. Indexing field 1 raises IndexError when there is no `-`.
   */
  function MapPair(pair: string, currencyMap: map<string, string>): (r: Result<string>)
    ensures r.Ok? <==> '-' in pair
    ensures r.Err? ==> r.error == IndexError
  {
    var fields := Split(pair, '-');
    if |fields| < 2 then Err(IndexError)
    else Ok(MapCurrency(fields[0], currencyMap) + MapCurrency(fields[1], currencyMap))
  }

  /** A pair `BASE-QUOTE`, optionally followed by more fields, maps its first two fields. */
  lemma MapPairFields(base: string, quote: string, tail: string, currencyMap: map<string, string>)
    requires '-' !in base && '-' !in quote
    requires tail == [] || tail[0] == '-'
    ensures MapPair(base + "-" + quote + tail, currencyMap)
         == Ok(MapCurrency(base, currencyMap) + MapCurrency(quote, currencyMap))
  {
    if tail == [] {
      assert base + "-" + quote + tail == JoinWith([base, quote], '-');
      SplitJoin([base, quote], '-');
    } else {
      var rest := tail[1..];
      assert tail == "-" + rest;
      assert base + "-" + quote + tail == base + ['-'] + (quote + ['-'] + rest);
      SplitAfterField(base, '-', quote + ['-'] + rest);
      SplitAfterField(quote, '-', rest);
    }
  }

  /** Under Kraken's convention `BTC-USD` becomes `XBTUSD`. */
  lemma BtcUsdSymbol(pair: string)
    requires pair == "BTC-USD"
    ensures MapPair(pair, NameConvention) == Ok("XBTUSD")
  {
    assert JoinWith(["BTC", "USD"], '-') == pair;
    assert '-' !in "BTC" && '-' !in "USD";
    SplitJoin(["BTC", "USD"], '-');
    OnlyBtcRenamed("BTC");
    OnlyBtcRenamed("USD");
    assert "XBT" + "USD" == "XBTUSD";
  }

  /** Only BTC is renamed; every other currency keeps its name. */
  lemma OnlyBtcRenamed(c: string)
    ensures MapCurrency(c, NameConvention) != c <==> c == "BTC"
    ensures c == "BTC" ==> MapCurrency(c, NameConvention) == "XBT"
  {
  }

  /** The two conventions are inverse maps of each other. */
  lemma ConventionsInverse()
    ensures forall k :: k in NameConvention ==> NameConvention[k] in InverseNameConvention && InverseNameConvention[NameConvention[k]] == k
    ensures forall k :: k in InverseNameConvention ==> InverseNameConvention[k] in NameConvention && NameConvention[InverseNameConvention[k]] == k
  {
  }

  /**
    Mapping forward then back restores every currency except `XBT`, which
    is not a key of the forward map and is turned into `BTC` on the way back.
   */
  lemma ConventionRoundTrip(c: string)
    ensures MapCurrency(MapCurrency(c, NameConvention), InverseNameConvention) == c <==> c != "XBT"
  {
  }

  /** `FN_MAPPING`: each info type and the parameters of the helper it names. */
  const FnMapping: map<string, Signature> := map[
    "order_book" := [Param("pair", None), Param("depth", None)],
    "candles" := [Param("pair", None), Param("granularity", None), Param("since", Some(VNone))],
    "trades" := [Param("pair", None), Param("since", None)],
    "ticker" := [Param("pair", None)],
    "spread" := [Param("pair", None), Param("since", None)]
  ]

  lemma FnMappingWellFormed()
    ensures forall k :: k in FnMapping ==> DistinctNames(FnMapping[k]) && "pair" in Names(FnMapping[k])
  {
    assert FnMapping["order_book"][0].name == "pair";
    assert FnMapping["candles"][0].name == "pair";
    assert FnMapping["trades"][0].name == "pair";
    assert FnMapping["ticker"][0].name == "pair";
    assert FnMapping["spread"][0].name == "pair";
  }

  /** The URL the named helper requests, from its bound parameters. */
  function RequestUrl(infoType: string, args: map<string, Value>): string
    requires infoType in FnMapping && args.Keys == Names(FnMapping[infoType])
  {
    assert FnMapping[infoType][0].name == "pair";
    match infoType
    case "order_book" =>
      assert FnMapping[infoType][1].name == "depth";
      DepthUrl(ApiLink, args["pair"], args["depth"])
    case "candles" =>
      assert FnMapping[infoType][1].name == "granularity" && FnMapping[infoType][2].name == "since";
      CandlesUrl(ApiLink, args["pair"], args["granularity"], args["since"])
    case "trades" =>
      assert FnMapping[infoType][1].name == "since";
      TradesUrl(ApiLink, args["pair"], args["since"])
    case "ticker" =>
      TickerUrl(ApiLink, args["pair"])
    case _ =>
      assert FnMapping[infoType][1].name == "since";
      SpreadsUrl(ApiLink, args["pair"], args["since"])
  }

  /** Arguments whose renderings need no escaping inside a query string. */
  predicate AllClean(args: map<string, Value>) {
    forall k :: k in args ==> Clean(args[k])
  }

  /**
    The request each helper means to send, in Kraken's own parameter names:
    `depth` is sent as `count`, `granularity` as `interval`, and the
    candles `since` only when it is not None.
   */
  function Intended(infoType: string, args: map<string, Value>): Request
    requires infoType in FnMapping && args.Keys == Names(FnMapping[infoType])
  {
    assert FnMapping[infoType][0].name == "pair";
    var pair := ("pair", Format(args["pair"]));
    match infoType
    case "order_book" =>
      assert FnMapping[infoType][1].name == "depth";
      Request("Depth", [pair, ("count", Format(args["depth"]))])
    case "candles" =>
      assert FnMapping[infoType][1].name == "granularity" && FnMapping[infoType][2].name == "since";
      Request("OHLC", [pair, ("interval", Format(args["granularity"]))]
                      + (if args["since"] == VNone then [] else [("since", Format(args["since"]))]))
    case "trades" =>
      assert FnMapping[infoType][1].name == "since";
      Request("Trades", [pair, ("since", Format(args["since"]))])
    case "ticker" =>
      Request("Ticker", [pair])
    case _ =>
      assert FnMapping[infoType][1].name == "since";
      Request("Spreads", [pair, ("since", Format(args["since"]))])
  }

  /** Each helper's hand-built URL decodes to the request it means to send. */
  lemma RequestUrlDecodes(infoType: string, args: map<string, Value>)
    requires infoType in FnMapping && args.Keys == Names(FnMapping[infoType])
    requires AllClean(args)
    ensures ParseUrl(ApiLink, RequestUrl(infoType, args)) == Some(Intended(infoType, args))
  {
    if infoType == "order_book" {
      DecodesOrderBook(infoType, args);
    } else if infoType == "candles" {
      DecodesCandles(infoType, args);
    } else if infoType == "trades" {
      DecodesTrades(infoType, args);
    } else if infoType == "ticker" {
      DecodesTicker(infoType, args);
    } else {
      DecodesSpread(infoType, args);
    }
  }

  lemma DecodesOrderBook(k: string, args: map<string, Value>)
    requires k == "order_book" && args.Keys == Names(FnMapping[k])
    requires AllClean(args)
    ensures ParseUrl(ApiLink, RequestUrl(k, args)) == Some(Intended(k, args))
  {
    assert FnMapping[k][0].name == "pair";
    assert FnMapping[k][1].name == "depth";
    DepthUrlDecodes(ApiLink, args["pair"], args["depth"]);
  }

  lemma DecodesCandles(k: string, args: map<string, Value>)
    requires k == "candles" && args.Keys == Names(FnMapping[k])
    requires AllClean(args)
    ensures ParseUrl(ApiLink, RequestUrl(k, args)) == Some(Intended(k, args))
  {
    assert FnMapping[k][0].name == "pair";
    assert FnMapping[k][1].name == "granularity" && FnMapping[k][2].name == "since";
    CandlesUrlDecodesTo(ApiLink, args["pair"], args["granularity"], args["since"]);
  }

  lemma DecodesTrades(k: string, args: map<string, Value>)
    requires k == "trades" && args.Keys == Names(FnMapping[k])
    requires AllClean(args)
    ensures ParseUrl(ApiLink, RequestUrl(k, args)) == Some(Intended(k, args))
  {
    assert FnMapping[k][0].name == "pair";
    assert FnMapping[k][1].name == "since";
    TradesUrlDecodes(ApiLink, args["pair"], args["since"]);
  }

  lemma DecodesTicker(k: string, args: map<string, Value>)
    requires k == "ticker" && args.Keys == Names(FnMapping[k])
    requires AllClean(args)
    ensures ParseUrl(ApiLink, RequestUrl(k, args)) == Some(Intended(k, args))
  {
    assert FnMapping[k][0].name == "pair";
    TickerUrlDecodes(ApiLink, args["pair"]);
  }

  lemma DecodesSpread(k: string, args: map<string, Value>)
    requires k == "spread" && args.Keys == Names(FnMapping[k])
    requires AllClean(args)
    ensures ParseUrl(ApiLink, RequestUrl(k, args)) == Some(Intended(k, args))
  {
    assert FnMapping[k][0].name == "pair";
    assert FnMapping[k][1].name == "since";
    assert k != "order_book" && k != "candles" && k != "trades" && k != "ticker";
    assert RequestUrl(k, args) == SpreadsUrl(ApiLink, args["pair"], args["since"]);
    assert Intended(k, args) == Request("Spreads", [("pair", Format(args["pair"])), ("since", Format(args["since"]))]);
    SpreadsUrlDecodes(ApiLink, args["pair"], args["since"]);
  }

  /** What a helper call yields: the URL requested and the value returned. */
  datatype Reply = Reply(url: string, returned: Json)

  /**
    `FN_MAPPING[info_type](**kwargs)` with the decoded HTTP response supplied
    by `server`: an unknown info type raises KeyError, arguments that do not
    fit the helper raise TypeError before any request, and the returned value
    is the whole response exactly when its `error` value is falsy.
   */
  function Call(infoType: string, kwargs: Kwargs, server: string -> Json): (r: Result<Reply>)
    ensures infoType !in FnMapping ==> r == Err(KeyError(infoType))
    ensures infoType in FnMapping && !Accepts(FnMapping[infoType], kwargs) ==>
              r.Err? && (r.error.UnexpectedKeyword? || r.error.RepeatedKeyword? || r.error.MissingArguments?)
    ensures r.Ok? ==> infoType in FnMapping && Accepts(FnMapping[infoType], kwargs)
    ensures r.Ok? ==> ErrorField(server(r.value.url)).Ok?
    ensures r.Ok? ==> (r.value.returned == server(r.value.url) <==> !Truthy(ErrorField(server(r.value.url)).value))
    ensures infoType in FnMapping && Accepts(FnMapping[infoType], kwargs) ==>
              var url := RequestUrl(infoType, Bind(FnMapping[infoType], kwargs).value);
              && (r.Ok? <==> ErrorField(server(url)).Ok?)
              && (r.Ok? ==> && r.value.url == url
                            && r.value.returned == (if Truthy(ErrorField(server(url)).value)
                                                    then ErrorField(server(url)).value
                                                    else server(url)))
  {
    if infoType !in FnMapping then Err(KeyError(infoType))
    else
      FnMappingWellFormed();
      var args :- Bind(FnMapping[infoType], kwargs);
      var url := RequestUrl(infoType, args);
      var returned :- Unwrap(server(url));
      Ok(Reply(url, returned))
  }

  /** Parsed command-line flags; `pair` is None when `--pair` is not given. */
  datatype Args = Args(time: int, pair: Option<string>, savedir: string, flags: Flags)

  /** kraken.py plans a `spread` thread and passes the order-book level as `depth`. */
  const ThreadLayout: Layout := Layout("spread", "depth")

  /** The kinds `main` can plan are exactly the keys of `FN_MAPPING`. */
  lemma PlannedKindsKnown()
    ensures WellFormed(ThreadLayout)
    ensures forall k :: k in Order(ThreadLayout) <==> k in FnMapping
  {
  }

  /** `os.path.join(args.savedir, args.pair, 'kraken')`. */
  function SaveDir(savedir: string, pair: string): string {
    Join([savedir, pair, "kraken"])
  }

  /**
    `main` up to starting the threads: the pair is mapped first (raising on a
    missing pair or one without `-`), the directory is joined from the
    unmapped pair, and the jobs are planned from the flags.
   */
  function Main(a: Args): (r: Result<Plan>)
    ensures r.Err? <==> a.pair.None? || '-' !in a.pair.value
    ensures r.Err? ==> r.error == (if a.pair.None? then AttributeError else IndexError)
    ensures r.Ok? ==> r.value.symbol == MapPair(a.pair.value, NameConvention).value && r.value.duration == a.time
    ensures r.Ok? ==> r.value.saveDir == SaveDir(a.savedir, a.pair.value)
    ensures r.Ok? ==> r.value.jobs == PlannedJobs(ThreadLayout, a.flags)
    ensures r.Ok? ==> forall i :: 0 <= i < |r.value.jobs| ==> r.value.jobs[i].infoType in FnMapping
  {
    PlannedKindsKnown();
    match a.pair
    case None => Err(AttributeError)
    case Some(pair) =>
      var symbol :- MapPair(pair, NameConvention);
      var jobs := PlannedJobs(ThreadLayout, a.flags);
      assert forall i :: 0 <= i < |jobs| ==> jobs[i].infoType == InfoTypes(jobs)[i];
      Ok(Plan(SaveDir(a.savedir, pair), symbol, a.time, jobs))
  }

  /**
    With a plain pair the directory is `<savedir>/<pair>/kraken`: it is named
    by the pair as given, not by the exchange's symbol.
   */
  lemma SaveDirOfPair(savedir: string, pair: string)
    requires IsComponent(pair)
    ensures SaveDir(savedir, pair) == savedir + SepAfter(savedir) + pair + "/" + "kraken"
    ensures Basename(SaveDir(savedir, pair)) == "kraken"
  {
    JoinComponents(savedir, pair, "kraken");
  }

  lemma BtcUsdIsPlain(p: string)
    requires p == "BTC-USD"
    ensures '-' in p && IsComponent(p)
  {
    assert p[3] == '-';
  }

  /**
    `--pair BTC-USD` with the default directory: files go under
    `../../datasets/BTC-USD/kraken` while requests use `XBTUSD`.
   */
  lemma BtcUsdLayout(p: string)
    requires p == "BTC-USD"
    ensures SaveDir(BaseSaveDir, p) == "../../datasets/BTC-USD/kraken"
    ensures MapPair(p, NameConvention) == Ok("XBTUSD")
  {
    BtcUsdSymbol(p);
    BtcUsdIsPlain(p);
    SaveDirOfPair(BaseSaveDir, p);
    DefaultDirSpelledOut(p);
  }

  lemma DefaultDirSpelledOut(p: string)
    requires p == "BTC-USD"
    ensures BaseSaveDir + SepAfter(BaseSaveDir) + p + "/" + "kraken" == "../../datasets/BTC-USD/kraken"
  {
    assert SepAfter(BaseSaveDir) == "";
  }

  /** `store_info` calls the helper with `pair=<symbol>` followed by the job's keyword arguments. */
  function HelperKwargs(symbol: string, job: Job): Kwargs {
    CallKwargs("pair", symbol, job)
  }

  /** The trades and spread helpers require `since`, which `main` never passes. */
  lemma SinceMissing(infoType: string, symbol: string)
    requires infoType == "trades" || infoType == "spread"
    ensures Bind(FnMapping[infoType], [("pair", VStr(symbol))]) == Err(MissingArguments(["since"]))
  {
    var sig := FnMapping[infoType];
    var kw := [("pair", VStr(symbol))];
    assert sig == [Param("pair", None), Param("since", None)];
    assert sig[0].name in Names(sig);
    assert !Supplied(kw, "since");
    FirstRepeatFound(kw, 0);
    var b := BindKeywords(sig, kw, map[]);
    assert b.Ok?;
    BoundKeywords(sig, kw, map[]);
    assert Missing(sig, b.value) == ["since"] by {
      assert sig[1..][1..] == [];
    }
  }

  /**
    A job whose own keywords also name `pair` makes the call raise for the
    repeated `pair` while the keywords are merged, whatever else they hold.
   */
  lemma PairPassedTwice(infoType: string, symbol: string, job: Job, server: string -> Json)
    requires infoType in FnMapping
    requires DistinctKeywords(job.kwargs) && Supplied(job.kwargs, "pair")
    ensures Call(infoType, HelperKwargs(symbol, job), server) == Err(RepeatedKeyword("pair"))
  {
    var kw := HelperKwargs(symbol, job);
    var i :| 0 <= i < |job.kwargs| && job.kwargs[i].0 == "pair";
    assert kw[i + 1] == job.kwargs[i];
    assert !DistinctKeywords(kw);
    FnMappingWellFormed();
    var r := Bind(FnMapping[infoType], kw);
    var k :| FirstRepeatAt(kw, k) && r.error.name == kw[k].0;
    var j :| 0 <= j < k && kw[j].0 == kw[k].0;
    assert j == 0;
  }

  /** The ticker, order_book and candles helpers accept what `main` passes them. */
  lemma OthersAccepted(f: Flags, symbol: string, infoType: string)
    requires infoType == "ticker" || infoType == "order_book" || infoType == "candles"
    ensures Accepts(FnMapping[infoType], HelperKwargs(symbol, Job(infoType, KwargsFor(ThreadLayout, f, infoType))))
  {
    var sig := FnMapping[infoType];
    var kw := HelperKwargs(symbol, Job(infoType, KwargsFor(ThreadLayout, f, infoType)));
    assert sig[0].name in Names(sig);
    if infoType == "ticker" {
      assert kw == [("pair", VStr(symbol))];
      assert Supplied(kw, "pair");
    } else if infoType == "order_book" {
      assert kw == [("pair", VStr(symbol)), ("depth", VInt(f.level))];
      assert Supplied(kw, sig[0].name) && Supplied(kw, sig[1].name) by {
        assert kw[0].0 == sig[0].name && kw[1].0 == sig[1].name;
      }
      assert sig[1].name in Names(sig);
    } else {
      assert kw == [("pair", VStr(symbol)), ("granularity", VInt(f.granularity))];
      assert Supplied(kw, sig[0].name) && Supplied(kw, sig[1].name) by {
        assert kw[0].0 == sig[0].name && kw[1].0 == sig[1].name;
      }
      assert sig[1].name in Names(sig);
    }
  }

  /**
    Which planned jobs fit their helper's signature: ticker, order_book and
    candles do; trades and spread raise TypeError for the missing `since`.
   */
  lemma PlannedJobsBind(a: Args, i: int)
    requires Main(a).Ok? && 0 <= i < |Main(a).value.jobs|
    ensures var p := Main(a).value;
            var job := p.jobs[i];
            && job.infoType in FnMapping
            && DistinctNames(FnMapping[job.infoType])
            && (Accepts(FnMapping[job.infoType], HelperKwargs(p.symbol, job)) <==> job.infoType in {"ticker", "order_book", "candles"})
            && (job.infoType in {"trades", "spread"} ==>
                  Bind(FnMapping[job.infoType], HelperKwargs(p.symbol, job)) == Err(MissingArguments(["since"])))
  {
    var p := Main(a).value;
    var job := p.jobs[i];
    assert job == Job(job.infoType, KwargsFor(ThreadLayout, a.flags, job.infoType));
    FnMappingWellFormed();
    if job.infoType == "trades" || job.infoType == "spread" {
      assert HelperKwargs(p.symbol, job) == [("pair", VStr(p.symbol))];
      SinceMissing(job.infoType, p.symbol);
    } else {
      OthersAccepted(a.flags, p.symbol, job.infoType);
    }
  }

  /** `next(iter(value['result'].values()))`: the first value of the `result` dict. */
  function FirstResult(value: Json): (r: Result<Json>)
    ensures !value.JObj? ==> r == Err(NotADict)
    ensures value.JObj? && !HasKey(value.fields, "result") ==> r == Err(KeyError("result"))
    ensures r.Ok? <==> value.JObj? && HasKey(value.fields, "result")
                       && Lookup(value.fields, "result").value.JObj?
                       && |Lookup(value.fields, "result").value.fields| > 0
    ensures r.Ok? ==> r.value == Lookup(value.fields, "result").value.fields[0].1
  {
    if !value.JObj? then Err(NotADict)
    else
      match Lookup(value.fields, "result")
      case None => Err(KeyError("result"))
      case Some(result) =>
        if !result.JObj? then Err(AttributeError)
        else if |result.fields| == 0 then Err(StopIteration)
        else Ok(result.fields[0].1)
  }

  /** The line `store_info` writes for what the helper returned: `{"ts": ts, "response": <first result>}`. */
  function Record(file: string, returned: Json, ts: real): (w: Write)
    ensures w.file == file
    ensures w.line.Ok? <==> FirstResult(returned).Ok?
    ensures w.line.Err? ==> w.line == Err(FirstResult(returned).error)
    ensures w.line.Ok? ==> w.line.value == JObj([("ts", JNum(ts)), ("response", FirstResult(returned).value)])
  {
    match FirstResult(returned)
    case Err(e) => Write(file, Err(e))
    case Ok(response) => Write(file, Ok(JObj([("ts", JNum(ts)), ("response", response)])))
  }

  /**
    One pass of `store_info`: the thread writes to `<save_dir>/<info_type>.txt`
    a record holding the capture time `ts` and the first value of what the
    helper returned; an exception from the helper ends the thread instead.
   */
  function Poll(saveDir: string, symbol: string, job: Job, server: string -> Json, ts: real): (w: Write)
    ensures w.file == OutputFile(saveDir, job.infoType)
    ensures Call(job.infoType, HelperKwargs(symbol, job), server).Err? ==>
              w.line == Err(Call(job.infoType, HelperKwargs(symbol, job), server).error)
    ensures Call(job.infoType, HelperKwargs(symbol, job), server).Ok? ==>
              w == Record(w.file, Call(job.infoType, HelperKwargs(symbol, job), server).value.returned, ts)
  {
    var file := OutputFile(saveDir, job.infoType);
    match Call(job.infoType, HelperKwargs(symbol, job), server)
    case Err(e) => Write(file, Err(e))
    case Ok(reply) => Record(file, reply.returned, ts)
  }

  /**
    Against an exchange that always reports errors as a list, as Kraken does,
    an accepted call writes a record exactly when the response's error list
    is empty and its `result` has a first value, and the record holds that
    response's own first result.
   */
  lemma PollListEnvelope(saveDir: string, symbol: string, job: Job, server: string -> Json, ts: real)
    requires forall url :: ErrorIsList(server(url))
    ensures var c := Call(job.infoType, HelperKwargs(symbol, job), server);
            c.Ok? ==>
              var resp := server(c.value.url);
              var w := Poll(saveDir, symbol, job, server, ts);
              && (w.line.Ok? <==> !Truthy(ErrorField(resp).value) && FirstResult(resp).Ok?)
              && (w.line.Ok? ==> w.line.value == JObj([("ts", JNum(ts)), ("response", FirstResult(resp).value)]))
  {
    var c := Call(job.infoType, HelperKwargs(symbol, job), server);
    if c.Ok? {
      UnwrapDistinguishesListErrors(server(c.value.url));
    }
  }

  /**
    A failed request breaks the record: when Kraken answers with a non-empty
    error list, the helper returns that list and indexing it by 'result' raises.
   */
  lemma ErrorEnvelopeRaises(saveDir: string, symbol: string, job: Job, server: string -> Json, ts: real)
    requires forall url :: ErrorIsList(server(url))
    ensures var c := Call(job.infoType, HelperKwargs(symbol, job), server);
            c.Ok? && Truthy(ErrorField(server(c.value.url)).value) ==>
              Poll(saveDir, symbol, job, server, ts).line == Err(NotADict)
  {
    var c := Call(job.infoType, HelperKwargs(symbol, job), server);
    if c.Ok? {
      UnwrapDistinguishesListErrors(server(c.value.url));
    }
  }

  /** No two jobs of a plan write to the same file. */
  lemma PlannedFilesDistinct(a: Args, i: int, j: int)
    requires Main(a).Ok? && 0 <= i < j < |Main(a).value.jobs|
    ensures var p := Main(a).value;
            OutputFile(p.saveDir, p.jobs[i].infoType) != OutputFile(p.saveDir, p.jobs[j].infoType)
  {
    var p := Main(a).value;
    assert p.jobs == PlannedJobs(ThreadLayout, a.flags);
    Schedule.PlannedFilesDistinct(ThreadLayout, a.flags, p.saveDir, i, j);
  }
}
