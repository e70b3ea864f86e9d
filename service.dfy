/** The `/summarize` endpoint (`main.py`): fetch the open tickets, score them, render the
    top four as the summary, advise on the first eight, and add the fixed actions and the
    three cross-ticket moves. */
module Service {
  import opened Base
  import opened Text
  import opened JsonValues
  import opened Risk
  import opened Fetch
  import opened Knowledge
  import opened Advice
  import opened Comms

  /** One entry of `globalTop3`. */
  datatype Move = Move(title: string, why: string, steps: seq<string>)

  /** The JSON object `summarize` returns; `suggestedFilter` is always `{}`. */
  datatype SummaryResponse = SummaryResponse(
    summary: string, actions: seq<string>, suggestedFilter: seq<(string, Json)>,
    kbSources: seq<string>, perTicket: seq<Suggestion>, globalTop3: seq<Move>)

  const FixedActions: seq<string> := [
    "Escalate Critical within 24h",
    "Reassign High risk to available owners",
    "Add weekly check for categories trending to overdue"]

  /** The `buckets` dict of `_bubble_up`, in insertion order: each title with its label. */
  const Buckets: seq<(string, string)> := [
    ("Escalate overdues", "Overdue"),
    ("Staff high-priority items", "High"),
    ("Order parts & confirm windows", "Medium")]

  const MoveSteps: seq<string> := [
    "Confirm owner coverage and backups",
    "Notify DC manager",
    "Set checkpoint in 48h"]

  function MoveFor(title: string): Move {
    Move(title, "Aggregated from ticket advice", MoveSteps)
  }

  /** `_bubble_up(per_ticket)`: one move per bucket title, in order, stopping once three
      are taken; the suggestions themselves are not consulted. */
  method BubbleUp(perTicket: seq<Suggestion>) returns (out: seq<Move>)
    ensures |out| == 3
    ensures forall i | 0 <= i < 3 :: out[i] == MoveFor(Buckets[i].0)
  {
    out := [];
    var seen := 0;
    var i := 0;
    while i < |Buckets|
      invariant 0 <= i <= |Buckets| && seen == i == |out| && seen < 3
      invariant forall k | 0 <= k < i :: out[k] == MoveFor(Buckets[k].0)
    {
      out := out + [MoveFor(Buckets[i].0)];
      seen := seen + 1;
      if seen >= 3 {
        break;
      }
      i := i + 1;
    }
  }

  /** `" (DC {dcId})"` when `dcId` is truthy, else `" (Global)"`. */
  function Scope(dcId: Option<string>): string {
    if Given(dcId) then " (DC " + dcId.value + ")" else " (Global)"
  }

  /** The summary text: the header for the scope and the bullet lines of `top`. */
  function SummaryText(dcId: Option<string>, top: seq<Scored>): (r: string)
    ensures var head := "Executive Summary" + Scope(dcId) + ":\nTop risky tickets:\n";
      |r| >= |head| && r[..|head|] == head && r[|head|..] == Join("\n", TicketLines(top))
    ensures forall i | 0 <= i < |top| :: Infix(TicketLine(top[i]), r)
  {
    var head := "Executive Summary" + Scope(dcId) + ":\nTop risky tickets:\n";
    var r := head + Join("\n", TicketLines(top));
    assert r[..|head|] == head && r[|head|..] == Join("\n", TicketLines(top));
    assert forall i | 0 <= i < |top| :: Infix(TicketLine(top[i]), r) by {
      forall i | 0 <= i < |top|
        ensures Infix(TicketLine(top[i]), r)
      {
        LinesListed(top, i);
        InfixWithin(TicketLine(top[i]), head, Join("\n", TicketLines(top)), "");
        assert head + Join("\n", TicketLines(top)) + "" == r;
      }
    }
    r
  }

  /** The moves `_bubble_up` produces. */
  function Moves(): (r: seq<Move>)
    ensures |r| == 3 && forall i | 0 <= i < 3 :: r[i] == MoveFor(Buckets[i].0)
  {
    [MoveFor(Buckets[0].0), MoveFor(Buckets[1].0), MoveFor(Buckets[2].0)]
  }

  /** What `summarize(dcId)` returns, or the first exception raised, given the ticket
      API as `fetch`, the knowledge base as `store` and the chat model as `llm`. */
  function Summarized(dcId: Option<string>, fetch: seq<(string, string)> -> FetchOutcome,
                      store: (string, nat) -> Backend, llm: string -> Completion): Result<SummaryResponse>
  {
    match OpenTickets(dcId, fetch)
    case Err(e) => Err(e)
    case Ok(rows) =>
      match ScoreAll(rows)
      case Err(e) => Err(e)
      case Ok(scored) =>
        match Advised(Take(scored, 8), store, llm)
        case Err(e) => Err(e)
        case Ok(acc) =>
          Ok(SummaryResponse(SummaryText(dcId, Take(SortByRisk(scored), 4)), FixedActions, [],
                             SortedSet(acc.1), acc.0, Moves()))
  }

  /** `summarize(dcId)`. */
  method Summarize(dcId: Option<string>, fetch: seq<(string, string)> -> FetchOutcome,
                   store: (string, nat) -> Backend, llm: string -> Completion)
    returns (r: Result<SummaryResponse>)
    ensures r == Summarized(dcId, fetch, store, llm)
  {
    var rows := GetOpenTickets(dcId, fetch);
    if rows.Err? {
      return Err(rows.error);
    }
    var scored := ScoreTickets(rows.value);
    if scored.Err? {
      return Err(scored.error);
    }
    var top := Take(SortByRisk(scored.value), 4);
    var summary := SummaryText(dcId, top);
    var advice := Advise(Take(scored.value, 8), store, llm);
    if advice.Err? {
      return Err(advice.error);
    }
    var moves := BubbleUp(advice.value.0);
    assert moves == Moves();
    r := Ok(SummaryResponse(summary, FixedActions, [], advice.value.1, advice.value.0, moves));
  }

  /** The second sort in `summarize` leaves the already sorted list as it is, so the
      summary lists the first four scored tickets. */
  lemma SummaryListsScoredTop(dcId: Option<string>, scored: seq<Scored>)
    requires SortedByRisk(scored)
    ensures Take(SortByRisk(scored), 4) == Take(scored, 4)
    ensures forall i | 0 <= i < |scored| && i < 4 :: Infix(TicketLine(scored[i]), SummaryText(dcId, Take(SortByRisk(scored), 4)))
  {
    SortByRiskOfSorted(scored);
    var top := Take(scored, 4);
    var r := SummaryText(dcId, top);
    forall i | 0 <= i < |scored| && i < 4
      ensures Infix(TicketLine(scored[i]), r)
    {
      assert top[i] == scored[i];
    }
  }

  /** The response's shape, for the list `scored` that scoring the fetched tickets gives:
      the lines of its first four tickets in the summary; sorted distinct sources; the
      fixed actions, an empty filter and the three moves. */
  lemma SummarizedShape(dcId: Option<string>, fetch: seq<(string, string)> -> FetchOutcome,
                        store: (string, nat) -> Backend, llm: string -> Completion, scored: seq<Scored>)
    requires OpenTickets(dcId, fetch).Ok? && ScoreAll(OpenTickets(dcId, fetch).value) == Ok(scored)
    requires Summarized(dcId, fetch, store, llm).Ok?
    ensures Summarized(dcId, fetch, store, llm).value.summary == SummaryText(dcId, Take(scored, 4))
    ensures forall i | 0 <= i < |scored| && i < 4 :: Infix(TicketLine(scored[i]), Summarized(dcId, fetch, store, llm).value.summary)
    ensures StrictlySorted(Summarized(dcId, fetch, store, llm).value.kbSources)
    ensures Summarized(dcId, fetch, store, llm).value.actions == FixedActions
    ensures Summarized(dcId, fetch, store, llm).value.suggestedFilter == []
    ensures Summarized(dcId, fetch, store, llm).value.globalTop3 == Moves()
  {
    SummaryListsScoredTop(dcId, scored);
  }

  /** `advise` gets `scored[:8]`: one suggestion for each of the first eight scored
      tickets, in order, each carrying that ticket's id. */
  lemma SummarizedPerTicket(dcId: Option<string>, fetch: seq<(string, string)> -> FetchOutcome,
                            store: (string, nat) -> Backend, llm: string -> Completion, scored: seq<Scored>)
    requires OpenTickets(dcId, fetch).Ok? && ScoreAll(OpenTickets(dcId, fetch).value) == Ok(scored)
    requires Summarized(dcId, fetch, store, llm).Ok?
    ensures |Summarized(dcId, fetch, store, llm).value.perTicket| == if |scored| < 8 then |scored| else 8
    ensures forall i | 0 <= i < |Summarized(dcId, fetch, store, llm).value.perTicket| ::
      JStr(Summarized(dcId, fetch, store, llm).value.perTicket[i].ticketId) == scored[i].ticketId
  {
    var first := Take(scored, 8);
    var acc := Advised(first, store, llm);
    assert Summarized(dcId, fetch, store, llm).value.perTicket == acc.value.0;
    assert |acc.value.0| == |first|;
    forall i | 0 <= i < |acc.value.0|
      ensures JStr(acc.value.0[i].ticketId) == scored[i].ticketId
    {
      assert first[i] == scored[i];
    }
  }

  /** A failed ticket request fails the endpoint. */
  lemma FetchFailureFails(dcId: Option<string>, fetch: seq<(string, string)> -> FetchOutcome,
                          store: (string, nat) -> Backend, llm: string -> Completion)
    requires fetch(OpenParams(dcId)).FetchFailed?
    ensures Summarized(dcId, fetch, store, llm) == Err(ServiceError)
  {
  }
}
