# Multi-exchange data collectors: the pure core

Three polling scripts — `kraken.py`, `bybit.py` and `coinbase.py` — collect
market data for one currency pair. Each script reads integer flags, plans one
collection thread per enabled data kind, and writes one line per request to
`<save_dir>/<info_type>.txt`. This project models the pure layer in front of
the network, file and thread plumbing:

- Kraken's currency and pair renaming (`map_currency`, `map_pair`, the two
  name-convention maps).
- The `get_*` helpers of kraken.py and bybit.py:
  - the URL each one builds with an f-string;
  - the `if not resp['error']` envelope check that decides what is returned.
- `FN_MAPPING` in each script:
  - in kraken.py and bybit.py, the helpers' parameter lists;
  - in coinbase.py, the names of the client methods.
- Python's keyword-argument binding. It decides which planned calls fail before
  any request is made, and with which `TypeError`.
- The planning part of each `main`:
  - the save directory, built with `os.path.join`;
  - the symbol the helpers receive;
  - the ordered list of jobs with their keyword arguments.
- One pass of each `store_info` loop: the output file, and the record or line
  it writes.

The behaviour modelled is that of the scripts as written:
- an error envelope is handed back as ordinary data;
- a missing `--pair` raises;
- nothing is retried.

Modules, one per file:

| module | file | role |
|---|---|---|
| `Py` | py.dfy | `Option`, `Result`, and the Python exceptions that can be raised |
| `Decimal` | decimal.dfy | `str(int)` and its inverse |
| `Strings` | strings.dfy | `str.split` and its inverse join, and a split at the first separator |
| `Json` | json.dfy | decoded JSON values, their truthiness, and dict lookup |
| `Envelope` | envelope.dfy | `resp['error']` and the unwrap shared by all helpers |
| `Calls` | calls.dfy | argument values, f-string rendering, and binding keywords to a signature |
| `Query` | query.dfy | a reference renderer and decoder for `path?k=v&...` request URLs |
| `Endpoints` | endpoints.dfy | the helper URL templates shared by kraken.py and bybit.py |
| `Paths` | paths.dfy | `posixpath.join`, `basename`, and the output file of a thread |
| `Jobs` | jobs.dfy | jobs, plans, written lines, and the "follows an order" predicate |
| `Schedule` | schedule.dfy | the five `if use_x:` blocks, parameterised by what differs per script |
| `Kraken`, `Bybit`, `Coinbase` | kraken.dfy, bybit.dfy, coinbase.dfy | one module per script |

Inputs the scripts take from the outside world are parameters:
- The decoded HTTP response is `server: string -> Json`, a function of the
  requested URL.
- The Coinbase Pro client is `client(method, kwargs)`.
- The parsed command line is an `Args` record. `pair` is an `Option` because
  `--pair` has no default.
- The capture time `ts` is a `real`.

## Model

| member | source | states |
|---|---|---|
| Kraken.MapCurrency | kraken.py:23-25 | a currency that is not a key of the map is returned unchanged; a key is replaced by its mapped value |
| Kraken.MapPair | kraken.py:34-35 | the pair maps successfully exactly when it contains '-'; without one, indexing the second field raises IndexError |
| Kraken.MapPairFields | kraken.py:34-35 | `BASE-QUOTE`, with anything after a further '-', maps to the mapped base followed by the mapped quote; fields after the second are ignored |
| Kraken.BtcUsdSymbol | kraken.py:49-51 | under Kraken's convention, `BTC-USD` becomes `XBTUSD` |
| Kraken.OnlyBtcRenamed | kraken.py:49-51 | BTC is the only currency whose name changes, and it becomes XBT |
| Kraken.ConventionsInverse | kraken.py:49-55 | each convention map undoes the other on its keys |
| Kraken.ConventionRoundTrip | kraken.py:49-55 | renaming forward then back restores every currency except XBT, which comes back as BTC |
| Strings.Split | kraken.py:34 | `str.split`: at least one field, no field contains the separator, joining the fields gives back the input, and there are two or more fields exactly when the separator occurs |
| Strings.SplitAfterField | kraken.py:34 | a separator-free prefix followed by the separator is exactly the first field, and the remaining fields are those of the rest |
| Strings.SplitJoin | kraken.py:34 | splitting undoes joining whenever no field contains the separator |
| Decimal.IntStrRoundTrip | kraken.py:62 | the decimal text an f-string gives an int decodes back to that int |
| Decimal.IntStrInjective | kraken.py:62 | different ints render differently, so a `count` or `interval` in a URL identifies its value |
| Decimal.IntStr | kraken.py:62 | `str(n)` as an f-string renders an int: at least one character, a leading '-' exactly for a negative number, digits otherwise; its inverse is stated by Decimal.IntStrRoundTrip |
| Calls.Format | kraken.py:62 | `f'{v}'` for the argument values a helper receives: `None`, the decimal text of an int, or the string itself; Endpoints.IntsAreClean and the URL lemmas state what the rendering keeps |
| Endpoints.IntsAreClean | kraken.py:62 | a rendered int never contains '&', so it cannot break a query string |
| Endpoints.DepthUrl | kraken.py:62 | the order-book f-string; Endpoints.DepthUrlDecodes states what it requests |
| Endpoints.TradesUrl | kraken.py:71 | the trades f-string; Endpoints.TradesUrlDecodes states what it requests |
| Endpoints.SpreadsUrl | kraken.py:80 | the spreads f-string; Endpoints.SpreadsUrlDecodes states what it requests |
| Endpoints.CandlesUrl | kraken.py:93-96 | the two candles f-strings, chosen by whether `since` is None; Endpoints.CandlesUrlDecodes states what each requests |
| Endpoints.TickerUrl | kraken.py:108 | the ticker f-string; Endpoints.TickerUrlDecodes states what it requests |
| Query.RenderParse | kraken.py:62 | decoding a rendered request with plain keys and values gives the request back |
| Query.UrlParse | kraken.py:62 | the same holds behind the API base link |
| Endpoints.DepthUrlDecodes | kraken.py:60-62 | the order-book URL asks for `Depth` with `pair` and the depth as `count` |
| Endpoints.TradesUrlDecodes | kraken.py:69-71 | the trades URL asks for `Trades` with `pair` and `since` |
| Endpoints.SpreadsUrlDecodes | kraken.py:78-80 | the spreads URL asks for `Spreads` with `pair` and `since` |
| Endpoints.CandlesUrlDecodes | kraken.py:87-96 | the candles URL asks for `OHLC` with `pair` and `interval` first, and has a third parameter `since` exactly when `since` is not None |
| Endpoints.CandlesUrlSinceExtends | kraken.py:93-96 | both candles URLs share the `OHLC?pair=...&interval=...` prefix; `since` only appends `&since=<since>` |
| Endpoints.TickerUrlDecodes | kraken.py:103-108 | the ticker URL asks for `Ticker` with the pair only |
| Kraken.RequestUrlDecodes | kraken.py:60-108 | for every `FN_MAPPING` entry and arguments whose formatted values contain no '&' (`Endpoints.Clean`), the URL its helper builds decodes to the request it means to send, in Kraken's parameter names |
| Kraken.RequestUrl | kraken.py:60-108 | the URL the helper named by an info type builds from its bound arguments; its meaning is stated by Kraken.RequestUrlDecodes |
| Kraken.Intended | kraken.py:60-108 | the request each helper means to send, independently of the f-strings: `depth` as `count`, `granularity` as `interval`, and `since` only when it is not None for candles |
| Envelope.ErrorField | kraken.py:64 | `resp['error']` succeeds exactly on a dict that has the key; otherwise it raises KeyError on a dict and TypeError on anything else |
| Json.Lookup | kraken.py:64 | `resp['error']` on a decoded object: nothing exactly when the key is absent, otherwise a value stored under that key |
| Json.Truthy | kraken.py:64 | Python truthiness of a decoded JSON value: null, false, zero and empty strings, lists and objects are falsy; Envelope.Unwrap states how it decides the return value |
| Envelope.Unwrap | kraken.py:64-66 | the whole response is returned exactly when its `error` value is falsy; otherwise the `error` value itself is returned |
| Envelope.UnwrapDistinguishesListErrors | kraken.py:64-66 | with `error` a list, the return value is a dict exactly after success and a list exactly after failure |
| Envelope.UnwrapConflatesDictErrors | kraken.py:64-66 | with an `error` that is a dict, a failed response can return the same value as a successful one |
| Calls.BindKeywords | kraken.py:127 | keyword processing goes through exactly when every keyword is a parameter, none repeats, and none was bound already; an UnexpectedKeyword error names a keyword that was passed and is not a parameter |
| Calls.BindKeywordsFirstOffence | kraken.py:127 | the callee's own keyword processing, once the keywords are merged, stops at the first offending keyword, left to right, and names it: UnexpectedKeyword when it is no parameter, RepeatedKeyword when its name is already bound; a name passed twice never reaches it from Calls.Bind, which raises for it first |
| Calls.BoundKeywords | kraken.py:127 | after successful keyword processing, the bound names are the earlier ones plus the keywords; earlier bindings are kept and each keyword holds the value passed for it |
| Calls.Missing | kraken.py:127 | lists exactly the required parameters that are still unbound |
| Calls.Bind | kraken.py:127 | a call binds exactly when Python accepts it; every parameter then gets its keyword, or else its default; a name passed twice raises RepeatedKeyword for the first repeat, before any other check, as the merge of `**kwargs` does; a missing-arguments error lists exactly the unsupplied required parameters, and the list is never empty |
| Calls.FirstRepeatFound | kraken.py:127 | merging the keywords finds a repeat exactly when they are not distinct, and the name it reports is that of the first keyword that reuses an earlier name |
| Calls.BindReportsFirstUnexpected | kraken.py:127 | with no name passed twice, a call with unknown keywords raises UnexpectedKeyword for the first of them |
| Calls.ArgumentForSupplied | kraken.py:127 | with distinct keywords, a parameter gets the value passed for it |
| Calls.ArgumentForDefault | kraken.py:127 | a parameter that is not passed gets its default |
| Kraken.FnMappingWellFormed | kraken.py:134-140 | every helper has distinct parameter names and a `pair` parameter |
| Kraken.Call | kraken.py:60-127 | an unknown info type raises KeyError; arguments that do not fit the helper raise TypeError before any request; an accepted call requests the helper's URL for the bound arguments, fails exactly when `resp['error']` fails, and returns the whole response when `error` is falsy and the `error` value itself otherwise |
| Jobs.FollowsOrderUnique | kraken.py:200-231 | two kind sequences that follow the same order and hold the same kinds are equal |
| Jobs.SelectFollowsOrder | kraken.py:200-231 | selecting candidates listed in an order keeps that order, and a kind is selected exactly when its flag is on |
| Jobs.Select | kraken.py:200-231 | only candidates are selected, and every candidate whose flag is on is selected |
| Schedule.PlannedJobs | kraken.py:200-231 | one job per nonzero flag, in the order ticker, order_book, third kind, trades, candles; order_book carries the level keyword and candles `granularity`; no other job has keyword arguments |
| Schedule.PlanIsDetermined | kraken.py:200-231 | any kind sequence that follows the order and holds exactly the enabled kinds is the plan's |
| Schedule.PlannedKindsDistinct | kraken.py:200-231 | no kind is planned twice |
| Kraken.PlannedKindsKnown | kraken.py:134-140 | the kinds `main` can plan are exactly the keys of `FN_MAPPING` |
| Kraken.Main | kraken.py:181-231 | a missing pair raises AttributeError, and a pair without '-' raises IndexError; otherwise the helpers get the mapped symbol, and the jobs are the planned ones, all of them keys of `FN_MAPPING` |
| Paths.Join2 | kraken.py:198 | an absolute right part replaces the left; otherwise the right part follows the left, directly when the left is empty or ends in '/', and after one added '/' otherwise |
| Paths.JoinComponents | kraken.py:198 | joining two plain components onto a base gives the base, the separator `join` adds after it (none when the base is empty or ends in '/'), the first component, '/', and the second; the second component is the basename |
| Paths.JoinAbsoluteResets | kraken.py:198 | an absolute component discards everything joined before it |
| Kraken.SaveDirOfPair | kraken.py:198 | with a plain pair, the directory is `<savedir>/<pair>/kraken`, named by the unmapped pair |
| Kraken.SaveDir | kraken.py:198 | `join(*[savedir, pair, 'kraken'])`; Kraken.SaveDirOfPair states its shape |
| Paths.Join | kraken.py:198 | `join(*parts)` as a left fold of the two-part join; Paths.JoinComponents and Paths.JoinAbsoluteResets state its results |
| Kraken.BtcUsdLayout | kraken.py:184-198 | for `BTC-USD` with the default directory, files go under `../../datasets/BTC-USD/kraken` while requests use `XBTUSD` |
| Paths.OutputFileInjective | kraken.py:122 | different relative info types never share an output file |
| Paths.OutputFile | kraken.py:122 | `join(save_dir, info_type) + '.txt'`; Paths.OutputFileInjective states that it tells info types apart |
| Paths.JoinBasename | kraken.py:122 | joining a plain component onto any path makes that component the basename, so a thread's file is named after its info type |
| Schedule.PlannedFilesDistinct | kraken.py:122 | for any layout whose third kind is a relative name, no two threads of a plan open the same file under one directory |
| Kraken.PlannedFilesDistinct | kraken.py:122 | no two threads of a plan open the same file |
| Kraken.SinceMissing | kraken.py:69 | the trades and spread helpers, called with the pair only, raise TypeError naming exactly `since` |
| Kraken.PairPassedTwice | kraken.py:127 | a job whose own keywords also name `pair` makes the call raise TypeError for the repeated `pair`, whatever other keywords it passes |
| Kraken.OthersAccepted | kraken.py:207-231 | the ticker, order_book and candles helpers accept the arguments `main` passes them |
| Kraken.PlannedJobsBind | kraken.py:201-231 | a planned job's call binds exactly for ticker, order_book and candles; trades and spread fail for the missing `since` |
| Jobs.CallKwargs | kraken.py:127 | the call receives the symbol under its keyword first (`pair` in kraken.py and bybit.py, `product_id` in coinbase.py), followed by the job's own keyword arguments in order |
| Kraken.HelperKwargs | kraken.py:127 | `pair=api_pair_symbol, **kwargs`: Jobs.CallKwargs under the keyword `pair` |
| Kraken.FirstResult | kraken.py:127 | extraction succeeds exactly on a dict whose `result` is a non-empty dict, and yields that dict's first value; a non-dict raises TypeError, and a dict without `result` raises KeyError |
| Kraken.Record | kraken.py:125-128 | the line is `{"ts": ts, "response": <first result>}` exactly when extraction succeeds; otherwise its exception |
| Kraken.Poll | kraken.py:122-128 | the thread writes to `join(save_dir, info_type) + '.txt'`; a failed call ends it with the call's exception; otherwise it writes the record of the returned value |
| Kraken.PollListEnvelope | kraken.py:125-128 | against a server whose replies always carry `error` as a list, an accepted call's record is written exactly when the list is empty and the response's `result` has a first value, and the record holds that value |
| Kraken.ErrorEnvelopeRaises | kraken.py:127 | against such a server, a non-empty error list is returned in place of the response, and indexing it by 'result' raises TypeError |
| Bybit.SignaturesMatchKraken | bybit.py:18-78 | the helpers have kraken.py's names and parameters, except that the order book takes `pair` only |
| Bybit.FnMappingWellFormed | bybit.py:72-78 | every helper has distinct parameter names and a `pair` parameter |
| Endpoints.OrderBookL2UrlDecodes | bybit.py:18-21 | the order-book URL asks for `orderBook/L2` with the pair as `symbol` and nothing else |
| Endpoints.OrderBookL2Url | bybit.py:21 | bybit.py's order-book f-string; Endpoints.OrderBookL2UrlDecodes states what it requests |
| Bybit.RequestUrlDecodes | bybit.py:18-64 | for every `FN_MAPPING` entry and arguments whose formatted values contain no '&' (`Endpoints.Clean`), the URL its helper builds decodes to the request it means to send |
| Bybit.RequestUrl | bybit.py:18-64 | the URL the helper named by an info type builds from its bound arguments; its meaning is stated by Bybit.RequestUrlDecodes |
| Bybit.Intended | bybit.py:18-64 | the request each helper means to send: `orderBook/L2` with the pair as `symbol` for the order book, otherwise what kraken.py's helper means |
| Bybit.Call | bybit.py:18-86 | an unknown info type raises KeyError; arguments that do not fit raise TypeError; an accepted call requests the helper's URL for the bound arguments, fails exactly when `resp['error']` fails, and returns the whole response when `error` is falsy and the `error` value itself otherwise |
| Bybit.PlannedKindsKnown | bybit.py:72-78 | bybit.py plans the same threads as kraken.py, and the kinds it can plan are exactly the keys of `FN_MAPPING` |
| Bybit.Main | bybit.py:129-178 | a missing pair makes `join` raise TypeError; otherwise the pair is passed on unmapped, the directory is `join(BASE_SAVE_DIR, pair, 'kraken')`, and the jobs are the planned ones |
| Bybit.SharesKrakenDirectory | bybit.py:145 | bybit.py's directory is the one kraken.py uses with its default `--savedir`, so the same pair and info type open the same file |
| Bybit.SaveDir | bybit.py:145 | `join(*[BASE_SAVE_DIR, pair, 'kraken'])`; Bybit.SharesKrakenDirectory states where it points |
| Bybit.OrderBookRejectsDepth | bybit.py:154-159 | the order-book call raises TypeError for the unexpected keyword `depth` |
| Bybit.PlannedJobsBind | bybit.py:148-178 | a planned job's call binds exactly for ticker and candles; order_book fails on `depth`, and trades and spread fail for the missing `since` |
| Bybit.Poll | bybit.py:83-86 | the thread writes the helper's return value itself, with no timestamp, to `join(save_dir, info_type) + '.txt'`; a failed call ends it with the call's exception |
| Bybit.PollListEnvelope | bybit.py:86 | against a server whose replies always carry `error` as a list, every accepted call writes a line: the whole response when the list is empty, the list otherwise |
| Coinbase.PlannedKindsKnown | coinbase.py:16-22 | the kinds `main` can plan (ticker, order_book, stats, trades, candles) are exactly the keys of `FN_MAPPING` |
| Coinbase.Main | coinbase.py:73-122 | a missing pair makes `join` raise TypeError; otherwise the pair is passed on unchanged, the directory is `join(BASE_SAVE_DIR, pair, 'cb_pro')`, and the jobs are the planned ones, all of them keys of `FN_MAPPING` |
| Coinbase.SaveDir | coinbase.py:89 | `join(*[BASE_SAVE_DIR, pair, 'cb_pro'])`; Coinbase.KeepsOwnDirectory states where it points |
| Coinbase.ClientKwargs | coinbase.py:30 | `product_id=pair, **kwargs`: Jobs.CallKwargs under the keyword `product_id` |
| Coinbase.Poll | coinbase.py:27-30 | the thread writes the client's response itself to `join(save_dir, info_type) + '.txt'`; an unknown info type raises KeyError |
| Coinbase.PlannedPollsWrite | coinbase.py:92-122 | every planned thread writes the response of its kind's client method; `product_id` comes first, followed by `level` for the order book or `granularity` for candles |
| Coinbase.KeepsOwnDirectory | coinbase.py:89 | for a plain pair, coinbase.py's directory ends in `cb_pro` and differs from kraken.py's |
| Coinbase.PlannedFilesDistinct | coinbase.py:27 | no two threads of a plan open the same file |

## Left out

- HTTP requests (`requests.get(...).json()`) and the Coinbase Pro client methods are function parameters. Network errors and malformed bodies are not modelled.
- The signatures of the Coinbase Pro client methods are not visible in the repository. Whether a coinbase.py call binds is therefore not modelled: the client receives the keyword arguments as they are.
- `json.dumps` and the encoding of a written line: a line is the JSON value written.
- JSON numbers are `real`; the distinction between Python int and float in a response is not kept.
- The `while time.time() - start < collection_time` loop: one pass is modelled, with the clock reading as a parameter. The number of passes depends on wall-clock time.
- Threads, `start()`, and the missing `join`: the model stops at the planned job list.
- `argparse`: `Args` holds the parsed values. Defaults such as `--time 5` and `--depth 10` are not modelled.
- `os.makedirs`, opening files and `loguru` logging are I/O.
- `KRAKEN_BASE_ARGS` (kraken.py:37-46) and the `pybit` import (bybit.py:14) are never used.
- `map_pair`'s `debug` flag only logs.
- Json.Lookup, Envelope.ErrorField, Kraken.FirstResult: a response object with a repeated key is read at its first occurrence, and `FirstResult` takes the value stored with the first key. Python's decoder keeps the last value under a repeated key, at the position where the key first appeared, so these members assume responses without repeated keys.
