/**
  The response envelope check every `get_*` helper of kraken.py and bybit.py
  performs after decoding: `if not resp['error']: return resp`, otherwise
  `return resp['error']`.
 */
module Envelope {
  import opened Py
  import opened Json

  /** `resp['error']` as Python evaluates it. */
  function ErrorField(resp: Json): (r: Result<Json>)
    ensures r.Ok? <==> resp.JObj? && HasKey(resp.fields, "error")
    ensures r.Err? ==> r.error == (if resp.JObj? then KeyError("error") else NotADict)
    ensures r.Ok? ==> exists i :: 0 <= i < |resp.fields| && resp.fields[i] == ("error", r.value)
  {
    if resp.JObj? then
      match Lookup(resp.fields, "error")
      case Some(e) => Ok(e)
      case None => Err(KeyError("error"))
    else Err(NotADict)
  }

  /**
    What a helper returns for a decoded response: the whole response exactly
    when its `error` value is falsy (empty list, empty string, ...), and the
    `error` value itself otherwise. A response without an `error` key raises.
   */
  function Unwrap(resp: Json): (r: Result<Json>)
    ensures r.Ok? <==> ErrorField(resp).Ok?
    ensures r.Err? ==> r == ErrorField(resp)
    ensures r.Ok? ==> (r.value == resp <==> !Truthy(ErrorField(resp).value))
    ensures r.Ok? && Truthy(ErrorField(resp).value) ==> r.value == ErrorField(resp).value
  {
    var err :- ErrorField(resp);
    if !Truthy(err) then Ok(resp) else Ok(err)
  }

  /** Kraken's envelope always carries `error` as a list of messages. */
  predicate ErrorIsList(resp: Json) {
    ErrorField(resp).Ok? && ErrorField(resp).value.JArr?
  }

  /**
    When the `error` value is a list, the returned value tells the two branches
    apart: a dict came from a successful response, a list from a failed one.
   */
  lemma UnwrapDistinguishesListErrors(resp: Json)
    requires ErrorIsList(resp)
    ensures Unwrap(resp).Ok?
    ensures Unwrap(resp).value.JObj? <==> !Truthy(ErrorField(resp).value)
    ensures Unwrap(resp).value.JArr? <==> Truthy(ErrorField(resp).value)
  {
  }

  /**
    Without that shape the returned value is ambiguous: a failed response whose
    `error` value is a dict returns the same value as a successful response.
   */
  lemma UnwrapConflatesDictErrors()
    ensures var payload := JObj([("error", JArr([]))]);
            var failed := JObj([("error", payload)]);
            && !Truthy(ErrorField(payload).value)
            && Truthy(ErrorField(failed).value)
            && Unwrap(payload) == Unwrap(failed) == Ok(payload)
  {
    var payload := JObj([("error", JArr([]))]);
    var failed := JObj([("error", payload)]);
    assert Lookup(payload.fields, "error") == Some(JArr([]));
    assert Lookup(failed.fields, "error") == Some(payload);
  }
}
