/** The executive summary (`comms_agent.py`): one bullet line per scored ticket, a
    template summary of the top five when there is no API key, and otherwise the text
    the chat model returns, with the template and a note when the call raises. */
module Comms {
  import opened Base
  import opened Text
  import opened JsonValues
  import opened Risk

  /** `f"- {t['ticketId']} | {t['dcId']} | {t['docCategory']} | due in {t['daysToDue']} days
      | risk {t['RiskBucket']} ({t['RiskScore']})"`, each field formatted as `str()` does. */
  function TicketLine(t: Scored): string {
    "- " + PyStr(t.ticketId) + " | " + PyStr(t.dcId) + " | " + PyStr(t.docCategory) +
    " | due in " + PyStr(t.daysToDue) + " days | risk " + BucketName(t.riskBucket) +
    " (" + IntToString(t.riskScore) + ")"
  }

  /** The bullet lines of `ts`, in order. */
  function TicketLines(ts: seq<Scored>): (r: seq<string>)
    ensures |r| == |ts|
    ensures forall i | 0 <= i < |ts| :: r[i] == TicketLine(ts[i])
  {
    seq(|ts|, i requires 0 <= i < |ts| => TicketLine(ts[i]))
  }

  /** `"\n".join(lines)` contains every line. */
  lemma LinesListed(ts: seq<Scored>, i: nat)
    requires i < |ts|
    ensures Infix(TicketLine(ts[i]), Join("\n", TicketLines(ts)))
  {
    JoinHasEach("\n", TicketLines(ts), i);
  }

  const FallbackHeader := "Executive Summary (fallback: no OPENAI_API_KEY):\n"
  const FallbackActions := "\n\nActions:\n- Escalate Critical within 24h\n- Reassign High risk to available owners\n- Add weekly check for categories trending to overdue"

  /** `_fallback_summary(scored)`: the header, `Top {k} risky tickets:`, the bullet lines of
      the first `k = min(5, len(scored))` tickets, and the three fixed actions. */
  function FallbackSummary(scored: seq<Scored>): (r: string)
    ensures |r| >= |FallbackHeader| + |FallbackActions|
    ensures r[..|FallbackHeader|] == FallbackHeader
    ensures r[|r| - |FallbackActions|..] == FallbackActions
    ensures forall i | 0 <= i < |scored| && i < 5 :: Infix(TicketLine(scored[i]), r)
    ensures r[|FallbackHeader|..|r| - |FallbackActions|] ==
      "Top " + Dec(if |scored| < 5 then |scored| else 5) + " risky tickets:\n" + Join("\n", TicketLines(scored[..if |scored| < 5 then |scored| else 5]))
  {
    var top := Take(scored, 5);
    var middle := "Top " + Dec(|top|) + " risky tickets:\n" + Join("\n", TicketLines(top));
    var r := FallbackHeader + middle + FallbackActions;
    assert r[..|FallbackHeader|] == FallbackHeader;
    assert r[|r| - |FallbackActions|..] == FallbackActions;
    assert r[|FallbackHeader|..|r| - |FallbackActions|] == middle;
    assert forall i | 0 <= i < |scored| && i < 5 :: Infix(TicketLine(scored[i]), r) by {
      forall i | 0 <= i < |scored| && i < 5
        ensures Infix(TicketLine(scored[i]), r)
      {
        assert top[i] == scored[i];
        LinesListed(top, i);
        InfixWithin(TicketLine(top[i]), "Top " + Dec(|top|) + " risky tickets:\n", Join("\n", TicketLines(top)), "");
        assert "Top " + Dec(|top|) + " risky tickets:\n" + Join("\n", TicketLines(top)) + "" == middle;
        InfixWithin(TicketLine(top[i]), FallbackHeader, middle, FallbackActions);
      }
    }
    r
  }

  /** The fallback only looks at the first five tickets. */
  lemma FallbackUsesTopFive(a: seq<Scored>, b: seq<Scored>)
    requires Take(a, 5) == Take(b, 5)
    ensures FallbackSummary(a) == FallbackSummary(b)
  {
  }

  /** The instruction text of the summary prompt, ending where the bullet lines start. */
  const PromptIntro := "You are an SRE/operations assistant. Produce a concise, executive summary of SLA risk for data centers. " +
    "Include a 1-paragraph overview, a short prioritized list of the top risks, and 3 concrete next actions. " +
    "Use neutral, professional language. Input tickets:\n"

  /** The prompt sent to the chat model: the instructions, then the bullet lines of the
      first eight tickets. */
  function SummaryPrompt(scored: seq<Scored>): (r: string)
    ensures |r| >= |PromptIntro| && r[..|PromptIntro|] == PromptIntro
    ensures forall i | 0 <= i < |scored| && i < 8 :: Infix(TicketLine(scored[i]), r)
  {
    var top := Take(scored, 8);
    var r := PromptIntro + Join("\n", TicketLines(top));
    assert r[..|PromptIntro|] == PromptIntro;
    assert forall i | 0 <= i < |scored| && i < 8 :: Infix(TicketLine(scored[i]), r) by {
      forall i | 0 <= i < |scored| && i < 8
        ensures Infix(TicketLine(scored[i]), r)
      {
        assert top[i] == scored[i];
        LinesListed(top, i);
        InfixWithin(TicketLine(top[i]), PromptIntro, Join("\n", TicketLines(top)), "");
        assert PromptIntro + Join("\n", TicketLines(top)) + "" == r;
      }
    }
    r
  }

  /** One chat model call: the model name, the API key and the prompt. */
  datatype ChatCall = ChatCall(model: string, apiKey: string, prompt: string)

  /** What the call gives: the reply's `content`, or the message of the exception raised
      while importing, constructing or invoking the client. */
  datatype Reply = Content(text: string) | Raised(message: string)

  const DefaultModel := "gpt-4o-mini"

  /** The model name: `os.getenv("AI_MODEL", "gpt-4o-mini")`, so a set but empty
      variable is used as it is. */
  function ModelName(aiModel: Option<string>): string {
    aiModel.GetOr(DefaultModel)
  }

  /** `exec_summary(scored)`, with the two environment variables as `apiKey` and
      `aiModel` and the chat model as `chat`. */
  function ExecSummary(scored: seq<Scored>, apiKey: Option<string>, aiModel: Option<string>,
                       chat: ChatCall -> Reply): (r: string)
    ensures !Given(apiKey) ==> r == FallbackSummary(scored)
    ensures Given(apiKey) ==>
      (match chat(ChatCall(ModelName(aiModel), apiKey.value, SummaryPrompt(scored)))
       case Content(text) => r == text
       case Raised(msg) =>
         |r| >= |FallbackSummary(scored)| && r[..|FallbackSummary(scored)|] == FallbackSummary(scored) &&
         r[|FallbackSummary(scored)|..] == "\n\n(Note: LLM call failed: " + msg + ")")
  {
    if !Given(apiKey) then FallbackSummary(scored)
    else
      match chat(ChatCall(ModelName(aiModel), apiKey.value, SummaryPrompt(scored)))
      case Content(text) => text
      case Raised(msg) =>
        var r := FallbackSummary(scored) + ("\n\n(Note: LLM call failed: " + msg + ")");
        assert r[..|FallbackSummary(scored)|] == FallbackSummary(scored);
        r
  }

  /** The summary depends on nothing past the eighth ticket: the prompt lists eight, the
      fallback five. */
  lemma ExecSummaryUsesTopEight(a: seq<Scored>, b: seq<Scored>, apiKey: Option<string>,
                                aiModel: Option<string>, chat: ChatCall -> Reply)
    requires Take(a, 8) == Take(b, 8)
    ensures ExecSummary(a, apiKey, aiModel, chat) == ExecSummary(b, apiKey, aiModel, chat)
  {
    TakeTake(a, 8, 5);
    TakeTake(b, 8, 5);
    FallbackUsesTopFive(a, b);
  }
}
