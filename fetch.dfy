/** The ticket fetcher (`get_open_tickets`): the query parameters it sends, and the
    normalisation of each returned record onto nine lowerCamelCase fields, taking the
    camelCase value when it is truthy and the PascalCase value otherwise. */
module Fetch {
  import opened Base
  import opened JsonValues
  import opened Seqs

  /** What the HTTP GET of `/api/tickets` gives back: `raise_for_status` or a transport
      error raised, or the decoded JSON body. */
  datatype FetchOutcome = FetchFailed | Body(json: Json)

  /** The query the ticket request sends for `dcId`. */
  function OpenParams(dcId: Option<string>): seq<(string, string)> {
    if Given(dcId) then [("status", "Open"), ("dc", dcId.value)] else [("status", "Open")]
  }

  /** `params = {"status": "Open"}`, plus `params["dc"] = dc_id` when `dc_id` is truthy. */
  method QueryParams(dcId: Option<string>) returns (params: seq<(string, string)>)
    ensures |params| == if Given(dcId) then 2 else 1
    ensures params[0] == ("status", "Open")
    ensures Given(dcId) ==> params[1] == ("dc", dcId.value)
    ensures params == OpenParams(dcId)
  {
    params := [("status", "Open")];
    if Given(dcId) {
      params := params + [("dc", dcId.value)];
    }
  }

  /** The fixed field table: each output key with the PascalCase key it falls back to. */
  const Fields: seq<(string, string)> := [
    ("ticketId", "TicketId"), ("dcId", "DcId"), ("docCategory", "DocCategory"),
    ("owner", "Owner"), ("status", "Status"), ("priority", "Priority"),
    ("createdAt", "CreatedAt"), ("dueDate", "DueDate"), ("daysToDue", "DaysToDue")]

  function FieldValue(t: seq<(string, Json)>, k: nat): Json
    requires k < |Fields|
  {
    Or(Get(t, Fields[k].0), Get(t, Fields[k].1))
  }

  /** The normalised record built from the members `t` of one returned item. */
  function NormaliseRecord(t: seq<(string, Json)>): (r: seq<(string, Json)>)
    ensures |r| == |Fields|
    ensures forall k | 0 <= k < |Fields| :: r[k] == (Fields[k].0, FieldValue(t, k))
  {
    seq(|Fields|, k requires 0 <= k < |Fields| => (Fields[k].0, FieldValue(t, k)))
  }

  /** Looking a field up in a normalised record: exactly the nine camelCase keys are
      present, every other key is gone, and a key holds the camelCase value when that is
      truthy and otherwise the PascalCase value (None when both are missing). */
  lemma NormalisedLookup(t: seq<(string, Json)>, key: string)
    ensures Lookup(NormaliseRecord(t), key).Some? <==> exists k :: 0 <= k < |Fields| && Fields[k].0 == key
    ensures forall k | 0 <= k < |Fields| && Fields[k].0 == key ::
      Get(NormaliseRecord(t), key) == (if Truthy(Get(t, key)) then Get(t, key) else Get(t, Fields[k].1))
  {
    var r := NormaliseRecord(t);
    forall k | 0 <= k < |Fields| && Fields[k].0 == key
      ensures Get(r, key) == (if Truthy(Get(t, key)) then Get(t, key) else Get(t, Fields[k].1))
    {
      LookupFirst(r, k);
    }
  }

  /** The camelCase names are distinct, so a lookup finds the field at its own position. */
  lemma LookupFirst(r: seq<(string, Json)>, k: nat)
    requires |r| == |Fields| && k < |Fields|
    requires forall i | 0 <= i < |Fields| :: r[i].0 == Fields[i].0
    ensures Lookup(r, Fields[k].0) == Some(r[k].1)
  {
    FieldNamesDistinct();
    LookupDistinct(r, k);
  }

  /** In a record whose names are pairwise distinct, each name finds its own value. */
  lemma {:induction false} LookupDistinct(r: seq<(string, Json)>, k: nat)
    requires k < |r|
    requires forall a, b | 0 <= a < b < |r| :: r[a].0 != r[b].0
    ensures Lookup(r, r[k].0) == Some(r[k].1)
  {
    if k > 0 {
      assert r[0].0 != r[k].0;
      assert r[1..][k - 1] == r[k];
      LookupDistinct(r[1..], k - 1);
    }
  }

  /** No two camelCase names agree in both length and first letter. */
  lemma FieldNamesDistinct()
    ensures forall a, b | 0 <= a < b < |Fields| :: Fields[a].0 != Fields[b].0
  {
    var lens := [8, 4, 11, 5, 6, 8, 9, 7, 9];
    var firsts := "tddospcdd";
    assert |Fields[0].0| == lens[0] && Fields[0].0[0] == firsts[0];
    assert |Fields[1].0| == lens[1] && Fields[1].0[0] == firsts[1];
    assert |Fields[2].0| == lens[2] && Fields[2].0[0] == firsts[2];
    assert |Fields[3].0| == lens[3] && Fields[3].0[0] == firsts[3];
    assert |Fields[4].0| == lens[4] && Fields[4].0[0] == firsts[4];
    assert |Fields[5].0| == lens[5] && Fields[5].0[0] == firsts[5];
    assert |Fields[6].0| == lens[6] && Fields[6].0[0] == firsts[6];
    assert |Fields[7].0| == lens[7] && Fields[7].0[0] == firsts[7];
    assert |Fields[8].0| == lens[8] && Fields[8].0[0] == firsts[8];
    forall a, b | 0 <= a < b < |Fields|
      ensures Fields[a].0 != Fields[b].0
    {
      assert lens[a] != lens[b] || firsts[a] != firsts[b];
    }
  }

  /** A record that already uses only the camelCase keys, with values that are truthy or
      None, is left unchanged by normalisation; normalising twice is normalising once for
      such values. A falsy value other than None (0, "", [], {}) would become None. */
  lemma {:induction false} NormaliseCanonical(t: seq<(string, Json)>)
    requires |t| == |Fields|
    requires forall k | 0 <= k < |Fields| :: t[k].0 == Fields[k].0 && (Truthy(t[k].1) || t[k].1 == JNull)
    ensures NormaliseRecord(t) == t
  {
    forall k | 0 <= k < |Fields|
      ensures NormaliseRecord(t)[k] == t[k]
    {
      LookupFirst(t, k);
      PascalAbsent(t, k);
    }
  }

  /** A PascalCase name starts with a capital letter, a camelCase one does not. */
  lemma PascalAbsent(t: seq<(string, Json)>, k: nat)
    requires |t| == |Fields| && k < |Fields|
    requires forall i | 0 <= i < |Fields| :: t[i].0 == Fields[i].0
    ensures Lookup(t, Fields[k].1) == None
  {
    FieldCase();
    assert forall i | 0 <= i < |t| :: t[i].0 != Fields[k].1;
  }

  lemma FieldCase()
    ensures forall i | 0 <= i < |Fields| :: LowerStart(Fields[i].0) && !LowerStart(Fields[i].1)
  {
    assert LowerStart(Fields[0].0) && LowerStart(Fields[1].0) && LowerStart(Fields[2].0);
    assert LowerStart(Fields[3].0) && LowerStart(Fields[4].0) && LowerStart(Fields[5].0);
    assert LowerStart(Fields[6].0) && LowerStart(Fields[7].0) && LowerStart(Fields[8].0);
    assert !LowerStart(Fields[0].1) && !LowerStart(Fields[1].1) && !LowerStart(Fields[2].1);
    assert !LowerStart(Fields[3].1) && !LowerStart(Fields[4].1) && !LowerStart(Fields[5].1);
    assert !LowerStart(Fields[6].1) && !LowerStart(Fields[7].1) && !LowerStart(Fields[8].1);
  }

  predicate LowerStart(s: string) {
    s != [] && 'a' <= s[0] <= 'z'
  }

  /** One loop iteration: `t.get` on a non-dict item raises. */
  function NormaliseItem(t: Json): Result<Json> {
    if t.JObject? then Ok(JObject(NormaliseRecord(t.members))) else Err(AttributeError)
  }

  /** What the normalisation loop over the decoded body returns, or the exception it
      raises. Only a list (or an empty body) normalises: a non-empty string or dict is
      iterated as strings, which have no `.get`, and a number, bool or None is not
      iterable. */
  function Normalised(items: Json): (r: Result<seq<Json>>)
    ensures r.Ok? ==> items.JArray? || !Truthy(items)
    ensures !(items.JArray? || items.JStr? || items.JObject?) ==> r == Err(TypeError)
  {
    match Iterate(items)
    case Err(e) => Err(e)
    case Ok(xs) => MapAll(xs, NormaliseItem)
  }

  /** The normalisation loop: one record per item, in the same order. */
  method NormaliseTickets(items: Json) returns (r: Result<seq<Json>>)
    ensures r == Normalised(items)
    ensures r.Ok? && items.JArray? ==>
      (|r.value| == |items.items| &&
       forall i | 0 <= i < |items.items| :: r.value[i] == JObject(NormaliseRecord(items.items[i].members)))
  {
    var it := Iterate(items);
    if it.Err? {
      return Err(it.error);
    }
    var xs := it.value;
    var norm: seq<Json> := [];
    for i := 0 to |xs|
      invariant MapAll(xs[..i], NormaliseItem) == Ok(norm)
    {
      MapAllStep(xs, NormaliseItem, i);
      if !xs[i].JObject? {
        MapAllErrSticky(xs, NormaliseItem, i + 1);
        return Err(AttributeError);
      }
      norm := norm + [JObject(NormaliseRecord(xs[i].members))];
    }
    assert xs[..|xs|] == xs;
    r := Ok(norm);
  }

  /** What `get_open_tickets(dc_id)` returns, or raises, when the HTTP exchange is
      `fetch`: a failed request raises, otherwise the body is normalised. */
  function OpenTickets(dcId: Option<string>, fetch: seq<(string, string)> -> FetchOutcome): (r: Result<seq<Json>>)
    ensures fetch(OpenParams(dcId)).FetchFailed? ==> r == Err(ServiceError)
    ensures fetch(OpenParams(dcId)).Body? ==> r == Normalised(fetch(OpenParams(dcId)).json)
  {
    var params := OpenParams(dcId);
    match fetch(params)
    case FetchFailed => Err(ServiceError)
    case Body(j) => Normalised(j)
  }

  /** `get_open_tickets(dc_id)`, given the HTTP exchange as `fetch`. */
  method GetOpenTickets(dcId: Option<string>, fetch: seq<(string, string)> -> FetchOutcome)
    returns (r: Result<seq<Json>>)
    ensures r == OpenTickets(dcId, fetch)
  {
    var params := QueryParams(dcId);
    var response := fetch(params);
    if response.FetchFailed? {
      return Err(ServiceError);
    }
    r := NormaliseTickets(response.json);
  }
}
