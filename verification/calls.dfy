/**
  Calling a Python function with keyword arguments only, as
  `FN_MAPPING[info_type](pair=..., **kwargs)` does: the values that can be
  passed, how an f-string renders them, and how the call binds them to the
  callee's parameters or raises TypeError.
 */
module Calls {
  import opened Py
  import Decimal

  /** Argument values: None, an int from argparse, or a string such as the pair. */
  datatype Value = VNone | VInt(i: int) | VStr(s: string)

  /** `f'{v}'`. */
  function Format(v: Value): string {
    match v
    case VNone => "None"
    case VInt(i) => Decimal.IntStr(i)
    case VStr(s) => s
  }

  /** A parameter with its default, if it has one. */
  datatype Param = Param(name: string, default: Option<Value>)

  type Signature = seq<Param>

  /** Keyword arguments in the order they are passed. */
  type Kwargs = seq<(string, Value)>

  function Names(sig: Signature): set<string> {
    set i | 0 <= i < |sig| :: sig[i].name
  }

  /** Python refuses a `def` with two parameters of the same name. */
  predicate DistinctNames(sig: Signature) {
    forall i, j :: 0 <= i < j < |sig| ==> sig[i].name != sig[j].name
  }

  predicate Supplied(kw: Kwargs, name: string) {
    exists i :: 0 <= i < |kw| && kw[i].0 == name
  }

  predicate DistinctKeywords(kw: Kwargs) {
    forall i, j :: 0 <= i < j < |kw| ==> kw[i].0 != kw[j].0
  }

  /** The calls Python accepts: every keyword is a parameter, none is repeated, every required parameter is given. */
  predicate Accepts(sig: Signature, kw: Kwargs) {
    && (forall i :: 0 <= i < |kw| ==> kw[i].0 in Names(sig))
    && DistinctKeywords(kw)
    && (forall i :: 0 <= i < |sig| && sig[i].default.None? ==> Supplied(kw, sig[i].name))
  }

  /** Keyword processing, left to right, on top of the bindings made so far. */
  function BindKeywords(sig: Signature, kw: Kwargs, bound: map<string, Value>): (r: Result<map<string, Value>>)
    ensures r.Ok? <==>
              && (forall i :: 0 <= i < |kw| ==> kw[i].0 in Names(sig) && kw[i].0 !in bound)
              && DistinctKeywords(kw)
    ensures r.Err? ==> r.error.UnexpectedKeyword? || r.error.RepeatedKeyword?
    ensures r.Err? && r.error.UnexpectedKeyword? ==> r.error.name !in Names(sig) && Supplied(kw, r.error.name)
    decreases |kw|
  {
    if |kw| == 0 then Ok(bound)
    else if kw[0].0 !in Names(sig) then Err(UnexpectedKeyword(kw[0].0))
    else if kw[0].0 in bound then Err(RepeatedKeyword(kw[0].0))
    else
      var r := BindKeywords(sig, kw[1..], bound[kw[0].0 := kw[0].1]);
      assert forall i :: 0 < i < |kw| ==> kw[1..][i - 1] == kw[i];
      r
  }

  /** Keyword `k` cannot be bound: it is no parameter, or its name is already taken by `bound` or an earlier keyword. */
  predicate Offends(sig: Signature, kw: Kwargs, bound: map<string, Value>, k: int)
    requires 0 <= k < |kw|
  {
    kw[k].0 !in Names(sig) || kw[k].0 in bound || exists j :: 0 <= j < k && kw[j].0 == kw[k].0
  }

  /** The error Python raises for an offending keyword: unknown names first, then repeats. */
  function OffenceError(sig: Signature, name: string): PyError {
    if name !in Names(sig) then UnexpectedKeyword(name) else RepeatedKeyword(name)
  }

  /** `k` is the first offending keyword. */
  predicate FirstOffenceAt(sig: Signature, kw: Kwargs, bound: map<string, Value>, k: int) {
    && 0 <= k < |kw|
    && Offends(sig, kw, bound, k)
    && forall j :: 0 <= j < k ==> !Offends(sig, kw, bound, j)
  }

  /**
    Keyword processing stops at the first offending keyword, left to right,
    and reports it by name and kind.
   */
  lemma {:induction false} BindKeywordsFirstOffence(sig: Signature, kw: Kwargs, bound: map<string, Value>)
    requires BindKeywords(sig, kw, bound).Err?
    ensures exists k :: FirstOffenceAt(sig, kw, bound, k) && BindKeywords(sig, kw, bound).error == OffenceError(sig, kw[k].0)
    decreases |kw|
  {
    if kw[0].0 !in Names(sig) || kw[0].0 in bound {
      assert FirstOffenceAt(sig, kw, bound, 0);
      assert BindKeywords(sig, kw, bound).error == OffenceError(sig, kw[0].0);
    } else {
      var bound' := bound[kw[0].0 := kw[0].1];
      assert BindKeywords(sig, kw, bound) == BindKeywords(sig, kw[1..], bound');
      BindKeywordsFirstOffence(sig, kw[1..], bound');
      var k :| FirstOffenceAt(sig, kw[1..], bound', k) && BindKeywords(sig, kw[1..], bound').error == OffenceError(sig, kw[1..][k].0);
      FirstOffenceShift(sig, kw, bound, k);
      assert kw[1..][k] == kw[k + 1];
      assert FirstOffenceAt(sig, kw, bound, k + 1);
    }
  }

  /** Once the first keyword is bound, the first offence in the rest is the first offence overall. */
  lemma FirstOffenceShift(sig: Signature, kw: Kwargs, bound: map<string, Value>, k: int)
    requires |kw| > 0 && kw[0].0 in Names(sig) && kw[0].0 !in bound
    requires FirstOffenceAt(sig, kw[1..], bound[kw[0].0 := kw[0].1], k)
    ensures FirstOffenceAt(sig, kw, bound, k + 1)
  {
    OffendsInTail(sig, kw, bound, k);
    forall j | 0 <= j < k + 1
      ensures !Offends(sig, kw, bound, j)
    {
      if j > 0 {
        OffendsInTail(sig, kw, bound, j - 1);
      }
    }
  }

  /** After the first keyword is bound, offences in the rest are offences one position later. */
  lemma OffendsInTail(sig: Signature, kw: Kwargs, bound: map<string, Value>, k: int)
    requires 0 <= k < |kw| - 1
    ensures Offends(sig, kw[1..], bound[kw[0].0 := kw[0].1], k) <==> Offends(sig, kw, bound, k + 1)
  {
    var t := kw[1..];
    assert t[k] == kw[k + 1];
    if exists j :: 0 <= j < k && t[j].0 == t[k].0 {
      var j :| 0 <= j < k && t[j].0 == t[k].0;
      assert kw[j + 1].0 == kw[k + 1].0;
    }
    if exists j :: 0 <= j < k + 1 && kw[j].0 == kw[k + 1].0 {
      var j :| 0 <= j < k + 1 && kw[j].0 == kw[k + 1].0;
      if j > 0 {
        assert t[j - 1].0 == t[k].0;
      }
    }
  }

  /** Successful keyword processing adds each keyword with its value and keeps earlier bindings. */
  lemma {:induction false} BoundKeywords(sig: Signature, kw: Kwargs, bound: map<string, Value>)
    requires BindKeywords(sig, kw, bound).Ok?
    ensures var r := BindKeywords(sig, kw, bound).value;
            && r.Keys == bound.Keys + (set i | 0 <= i < |kw| :: kw[i].0)
            && (forall k :: k in bound ==> r[k] == bound[k])
            && (forall i :: 0 <= i < |kw| ==> r[kw[i].0] == kw[i].1)
    decreases |kw|
  {
    if |kw| > 0 {
      BoundKeywords(sig, kw[1..], bound[kw[0].0 := kw[0].1]);
      assert forall i :: 0 < i < |kw| ==> kw[1..][i - 1] == kw[i];
      KeywordNamesCons(kw);
    }
  }

  lemma KeywordNamesCons(kw: Kwargs)
    requires |kw| > 0
    ensures (set i | 0 <= i < |kw| :: kw[i].0) == {kw[0].0} + (set i | 0 <= i < |kw[1..]| :: kw[1..][i].0)
  {
    assert forall i :: 0 < i < |kw| ==> kw[1..][i - 1] == kw[i];
  }

  /** Required parameters left unbound, in declaration order. */
  function Missing(sig: Signature, bound: map<string, Value>): (names: seq<string>)
    ensures forall x :: x in names <==> exists i :: 0 <= i < |sig| && sig[i].default.None? && sig[i].name == x && x !in bound
    decreases |sig|
  {
    if |sig| == 0 then []
    else
      var rest := Missing(sig[1..], bound);
      assert forall i :: 0 < i < |sig| ==> sig[1..][i - 1] == sig[i];
      if sig[0].default.None? && sig[0].name !in bound then [sig[0].name] + rest else rest
  }

  /** Defaults of the optional parameters left unbound. */
  function Defaults(sig: Signature, bound: map<string, Value>): (d: map<string, Value>)
    requires DistinctNames(sig)
    ensures d.Keys == set i | 0 <= i < |sig| && sig[i].default.Some? && sig[i].name !in bound :: sig[i].name
    ensures forall i :: 0 <= i < |sig| && sig[i].default.Some? && sig[i].name !in bound ==> d[sig[i].name] == sig[i].default.value
    decreases |sig|
  {
    if |sig| == 0 then map[]
    else
      var rest := Defaults(sig[1..], bound);
      assert forall i :: 0 < i < |sig| ==> sig[1..][i - 1] == sig[i];
      if sig[0].default.Some? && sig[0].name !in bound then rest[sig[0].name := sig[0].default.value] else rest
  }

  /** The value a call gives a parameter: the keyword passed for it, else its default. */
  function ArgumentFor(p: Param, kw: Kwargs): Value
    decreases |kw|
  {
    if |kw| == 0 then (if p.default.Some? then p.default.value else VNone)
    else if kw[0].0 == p.name then kw[0].1
    else ArgumentFor(p, kw[1..])
  }

  /** Keyword `k` reuses the name of an earlier keyword. */
  predicate RepeatsEarlier(kw: Kwargs, k: int)
    requires 0 <= k < |kw|
  {
    exists j :: 0 <= j < k && kw[j].0 == kw[k].0
  }

  /** `k` is the first keyword that reuses an earlier name. */
  predicate FirstRepeatAt(kw: Kwargs, k: int) {
    && 0 <= k < |kw|
    && RepeatsEarlier(kw, k)
    && forall j :: 0 <= j < k ==> !RepeatsEarlier(kw, j)
  }

  /**
    Merging the keywords into the call's keyword dict, from position `k` on:
    the name of the first keyword already present, on which the merge raises.
   */
  function FirstRepeatFrom(kw: Kwargs, k: nat): Option<string>
    requires k <= |kw|
    decreases |kw| - k
  {
    if k == |kw| then None
    else if RepeatsEarlier(kw, k) then Some(kw[k].0)
    else FirstRepeatFrom(kw, k + 1)
  }

  /** The merge finds a repeat exactly when the keywords are not distinct, and it finds the first one. */
  lemma {:induction false} FirstRepeatFound(kw: Kwargs, k: nat)
    requires k <= |kw|
    requires forall i :: 0 <= i < k ==> !RepeatsEarlier(kw, i)
    ensures FirstRepeatFrom(kw, k).None? <==> DistinctKeywords(kw)
    ensures FirstRepeatFrom(kw, k).Some? ==> exists m :: FirstRepeatAt(kw, m) && FirstRepeatFrom(kw, k).value == kw[m].0
    decreases |kw| - k
  {
    if k == |kw| {
      forall i, j | 0 <= i < j < |kw|
        ensures kw[i].0 != kw[j].0
      {
        assert !RepeatsEarlier(kw, j);
      }
    } else if RepeatsEarlier(kw, k) {
      assert FirstRepeatAt(kw, k);
      var j :| 0 <= j < k && kw[j].0 == kw[k].0;
      assert !DistinctKeywords(kw);
    } else {
      FirstRepeatFound(kw, k + 1);
    }
  }

  /**
    Calling with keyword arguments only. Merging the keywords into one dict
    raises on the first name passed twice, before the callee sees any of
    them; the callee then raises on an unknown keyword as soon as it is met,
    then reports every still-missing required parameter together; otherwise
    each parameter gets its keyword or default.
   */
  function Bind(sig: Signature, kw: Kwargs): (r: Result<map<string, Value>>)
    requires DistinctNames(sig)
    ensures r.Ok? <==> Accepts(sig, kw)
    ensures r.Ok? ==> r.value.Keys == Names(sig)
    ensures r.Ok? ==> forall i :: 0 <= i < |sig| ==> r.value[sig[i].name] == ArgumentFor(sig[i], kw)
    ensures !DistinctKeywords(kw) ==>
              r.Err? && r.error.RepeatedKeyword? && exists k :: FirstRepeatAt(kw, k) && r.error.name == kw[k].0
    ensures r.Err? && r.error.MissingArguments? ==>
              && |r.error.names| > 0
              && forall x :: x in r.error.names <==> exists i :: 0 <= i < |sig| && sig[i].default.None? && sig[i].name == x && !Supplied(kw, x)
  {
    FirstRepeatFound(kw, 0);
    match FirstRepeatFrom(kw, 0)
    case Some(name) => Err(RepeatedKeyword(name))
    case None =>
      var given :- BindKeywords(sig, kw, map[]);
      var missing := Missing(sig, given);
      if |missing| > 0 then
        ReportsMissing(sig, kw, given);
        Err(MissingArguments(missing))
      else
        FillsEveryParameter(sig, kw, given);
        Ok(given + Defaults(sig, given))
  }

  /** `k` is the first keyword that names no parameter. */
  predicate FirstUnexpectedAt(sig: Signature, kw: Kwargs, k: int) {
    && 0 <= k < |kw|
    && kw[k].0 !in Names(sig)
    && forall j :: 0 <= j < k ==> kw[j].0 in Names(sig)
  }

  /** With no name passed twice, a call with an unknown keyword raises on the first one. */
  lemma BindReportsFirstUnexpected(sig: Signature, kw: Kwargs)
    requires DistinctNames(sig) && DistinctKeywords(kw)
    requires exists i :: 0 <= i < |kw| && kw[i].0 !in Names(sig)
    ensures exists k :: FirstUnexpectedAt(sig, kw, k) && Bind(sig, kw) == Err(UnexpectedKeyword(kw[k].0))
  {
    FirstRepeatFound(kw, 0);
    var b := BindKeywords(sig, kw, map[]);
    assert b.Err?;
    assert Bind(sig, kw) == Err(b.error);
    BindKeywordsFirstOffence(sig, kw, map[]);
    var k :| FirstOffenceAt(sig, kw, map[], k) && b.error == OffenceError(sig, kw[k].0);
    assert !RepeatsEarlier(kw, k);
    forall j | 0 <= j < k
      ensures kw[j].0 in Names(sig)
    {
      assert !Offends(sig, kw, map[], j);
    }
    assert FirstUnexpectedAt(sig, kw, k);
  }

  /** Required parameters left unbound after keyword processing are exactly those not passed. */
  lemma ReportsMissing(sig: Signature, kw: Kwargs, given: map<string, Value>)
    requires BindKeywords(sig, kw, map[]) == Ok(given) && |Missing(sig, given)| > 0
    ensures !Accepts(sig, kw)
    ensures forall x :: x in Missing(sig, given) <==> exists i :: 0 <= i < |sig| && sig[i].default.None? && sig[i].name == x && !Supplied(kw, x)
  {
    GivenAreSupplied(sig, kw, given);
    var missing := Missing(sig, given);
    assert missing[0] in missing;
  }

  /** With nothing missing, every parameter is bound, to its keyword or its default. */
  lemma FillsEveryParameter(sig: Signature, kw: Kwargs, given: map<string, Value>)
    requires DistinctNames(sig)
    requires BindKeywords(sig, kw, map[]) == Ok(given) && |Missing(sig, given)| == 0
    ensures Accepts(sig, kw)
    ensures (given + Defaults(sig, given)).Keys == Names(sig)
    ensures forall i :: 0 <= i < |sig| ==> (given + Defaults(sig, given))[sig[i].name] == ArgumentFor(sig[i], kw)
  {
    GivenAreSupplied(sig, kw, given);
    var missing := Missing(sig, given);
    assert forall i :: 0 <= i < |sig| && sig[i].default.None? ==> Supplied(kw, sig[i].name) by {
      forall i | 0 <= i < |sig| && sig[i].default.None?
        ensures Supplied(kw, sig[i].name)
      {
        assert sig[i].name !in missing;
      }
    }
    FilledFromKeywordsOrDefaults(sig, kw, given);
  }

  /** After keyword processing, a name is bound exactly when it was passed. */
  lemma GivenAreSupplied(sig: Signature, kw: Kwargs, given: map<string, Value>)
    requires BindKeywords(sig, kw, map[]) == Ok(given)
    ensures forall x :: x in given <==> Supplied(kw, x)
    ensures DistinctKeywords(kw)
    ensures forall i :: 0 <= i < |kw| ==> kw[i].0 in given && given[kw[i].0] == kw[i].1
  {
    BoundKeywords(sig, kw, map[]);
    forall x | x in given
      ensures Supplied(kw, x)
    {
      assert x in (set i | 0 <= i < |kw| :: kw[i].0);
    }
  }

  lemma FilledFromKeywordsOrDefaults(sig: Signature, kw: Kwargs, given: map<string, Value>)
    requires DistinctNames(sig) && DistinctKeywords(kw)
    requires forall x :: x in given <==> Supplied(kw, x)
    requires forall i :: 0 <= i < |kw| ==> kw[i].0 in given && given[kw[i].0] == kw[i].1
    requires forall i :: 0 <= i < |sig| && sig[i].default.None? ==> Supplied(kw, sig[i].name)
    ensures forall i :: 0 <= i < |sig| ==> (given + Defaults(sig, given))[sig[i].name] == ArgumentFor(sig[i], kw)
  {
    forall i | 0 <= i < |sig|
      ensures (given + Defaults(sig, given))[sig[i].name] == ArgumentFor(sig[i], kw)
    {
      FilledAt(sig, kw, given, i);
    }
  }

  /** One parameter gets the keyword passed for it, or else its default. */
  lemma FilledAt(sig: Signature, kw: Kwargs, given: map<string, Value>, i: int)
    requires DistinctNames(sig) && DistinctKeywords(kw)
    requires forall x :: x in given <==> Supplied(kw, x)
    requires forall j :: 0 <= j < |kw| ==> kw[j].0 in given && given[kw[j].0] == kw[j].1
    requires 0 <= i < |sig| && (sig[i].default.None? ==> Supplied(kw, sig[i].name))
    ensures sig[i].name in given + Defaults(sig, given)
    ensures (given + Defaults(sig, given))[sig[i].name] == ArgumentFor(sig[i], kw)
  {
    var p := sig[i];
    if Supplied(kw, p.name) {
      var j :| 0 <= j < |kw| && kw[j].0 == p.name;
      ArgumentForSupplied(p, kw, j);
    } else {
      ArgumentForDefault(p, kw);
    }
  }

  lemma {:induction false} ArgumentForSupplied(p: Param, kw: Kwargs, j: int)
    requires DistinctKeywords(kw)
    requires 0 <= j < |kw| && kw[j].0 == p.name
    ensures ArgumentFor(p, kw) == kw[j].1
    decreases |kw|
  {
    if j > 0 {
      assert kw[0].0 != kw[j].0;
      assert kw[1..][j - 1] == kw[j];
      ArgumentForSupplied(p, kw[1..], j - 1);
    }
  }

  lemma {:induction false} ArgumentForDefault(p: Param, kw: Kwargs)
    requires !Supplied(kw, p.name)
    ensures ArgumentFor(p, kw) == (if p.default.Some? then p.default.value else VNone)
    decreases |kw|
  {
    if |kw| > 0 {
      assert kw[0].0 != p.name;
      ArgumentForDefault(p, kw[1..]);
    }
  }
}
