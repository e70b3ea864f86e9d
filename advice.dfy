/** The advice agent: `Ticket(**td)` validation, the local rules hints, the prompt, the
    normalisation of the model's JSON reply into a `Suggestion`, and `advise`, which builds
    one suggestion per ticket and the sorted list of knowledge-base sources consulted. */
module Advice {
  import opened Base
  import opened Text
  import opened JsonValues
  import opened Seqs
  import opened Risk
  import opened Knowledge

  /** The pydantic `Ticket` model. */
  datatype PTicket = PTicket(
    ticketId: string, dcId: string, docCategory: string,
    owner: Option<string>, status: Option<string>, priority: Option<string>, dueDate: Option<string>,
    daysToDue: Option<int>, riskScore: Option<int>, riskBucket: Option<string>)

  /** The pydantic `Suggestion` model. */
  datatype Suggestion = Suggestion(
    ticketId: string, rationale: string, nextActions: seq<string>,
    suggestedOwner: Option<string>, urgency: string)

  // ---- Ticket(**td) ----

  /** A `str` field: only a string validates. */
  function StrField(v: Json): Result<string> {
    if v.JStr? then Ok(v.s) else Err(ValidationError)
  }

  /** An `Optional[str]` field. */
  function OptStrField(v: Json): Result<Option<string>> {
    match v
    case JNull => Ok(None)
    case JStr(s) => Ok(Some(s))
    case _ => Err(ValidationError)
  }

  /** An `Optional[int]` field; a bool validates as 0 or 1. */
  function OptIntField(v: Json): Result<Option<int>> {
    match v
    case JNull => Ok(None)
    case JInt(n) => Ok(Some(n))
    case JBool(b) => Ok(Some(if b then 1 else 0))
    case _ => Err(ValidationError)
  }

  /** `Ticket(**td)` for a scored record; `createdAt` is not a field of the model and is
      ignored, `RiskScore` and `RiskBucket` are. */
  function ValidateTicket(td: Scored): (r: Result<PTicket>)
    ensures r.Ok? <==>
      (td.ticketId.JStr? && td.dcId.JStr? && td.docCategory.JStr? &&
       OptStrField(td.owner).Ok? && OptStrField(td.status).Ok? && OptStrField(td.priority).Ok? &&
       OptStrField(td.dueDate).Ok? && OptIntField(td.daysToDue).Ok?)
    ensures r.Err? ==> r.error == ValidationError
    ensures r.Ok? ==> JStr(r.value.ticketId) == td.ticketId && JStr(r.value.docCategory) == td.docCategory
    ensures r.Ok? ==> JStr(r.value.dcId) == td.dcId
    ensures r.Ok? ==> OptStrField(td.owner) == Ok(r.value.owner) && OptStrField(td.status) == Ok(r.value.status) &&
                      OptStrField(td.priority) == Ok(r.value.priority) && OptStrField(td.dueDate) == Ok(r.value.dueDate)
    ensures r.Ok? ==> OptIntField(td.daysToDue) == Ok(r.value.daysToDue)
    ensures r.Ok? ==> r.value.riskScore == Some(td.riskScore) && r.value.riskBucket == Some(BucketName(td.riskBucket))
  {
    var id := StrField(td.ticketId);
    var dc := StrField(td.dcId);
    var cat := StrField(td.docCategory);
    var owner := OptStrField(td.owner);
    var status := OptStrField(td.status);
    var priority := OptStrField(td.priority);
    var due := OptStrField(td.dueDate);
    var days := OptIntField(td.daysToDue);
    if id.Ok? && dc.Ok? && cat.Ok? && owner.Ok? && status.Ok? && priority.Ok? && due.Ok? && days.Ok? then
      Ok(PTicket(id.value, dc.value, cat.value, owner.value, status.value, priority.value, due.value,
                 days.value, Some(td.riskScore), Some(BucketName(td.riskBucket))))
    else Err(ValidationError)
  }

  /** A scored record whose identifying fields are strings and whose optional fields are
      strings or missing always validates: the days value the scorer produces is a number. */
  lemma ScoredRecordValidates(t: Json)
    requires ScoreOne(t).Ok?
    requires var ms := t.members;
      Get(ms, "ticketId").JStr? && Get(ms, "dcId").JStr? && Get(ms, "docCategory").JStr? &&
      OptStrField(Get(ms, "owner")).Ok? && OptStrField(Get(ms, "status")).Ok? &&
      OptStrField(Get(ms, "priority")).Ok? && OptStrField(Get(ms, "dueDate")).Ok?
    ensures ValidateTicket(ScoreOne(t).value).Ok?
  {
    assert DaysNumber(DaysValue(t.members)).Ok?;
  }

  // ---- _rules_hint ----

  /** The four hints `_rules_hint` can give. */
  datatype Hint = Overdue | DueInAWeek | DueInThreeWeeks | HighPriority

  function HintText(h: Hint): string {
    match h
    case Overdue => "Overdue: escalate to DC manager and schedule daily check-ins."
    case DueInAWeek => "Due \U{2264}7d: assign backup owner and block a repair window."
    case DueInThreeWeeks => "Due \U{2264}21d: confirm dependencies and order parts now."
    case HighPriority => "High priority: page on-call and notify stakeholders."
  }

  /** `t.daysToDue if t.daysToDue is not None else 999` */
  function DaysOf(t: PTicket): int {
    t.daysToDue.GetOr(999)
  }

  /** `(t.priority or "Medium").lower()` */
  function PriorityOf(t: PTicket): string {
    Lower(if t.priority.Some? && t.priority.value != "" then t.priority.value else "Medium")
  }

  /** The hints `_rules_hint(t)` gives: at most one due-date hint, chosen by the days left
      (overdue, within a week, within three weeks, none beyond), followed by the paging
      hint exactly when the priority reads "high" in any letter case. */
  function Hints(t: PTicket): (r: seq<Hint>)
    ensures |r| <= 2
    ensures Overdue in r <==> DaysOf(t) < 0
    ensures DueInAWeek in r <==> 0 <= DaysOf(t) <= 7
    ensures DueInThreeWeeks in r <==> 8 <= DaysOf(t) <= 21
    ensures HighPriority in r <==> PriorityOf(t) == "high"
    ensures HighPriority in r ==> r[|r| - 1] == HighPriority
    ensures r == [] <==> DaysOf(t) > 21 && PriorityOf(t) != "high"
  {
    var d := DaysOf(t);
    var due := if d < 0 then [Overdue] else if d <= 7 then [DueInAWeek] else if d <= 21 then [DueInThreeWeeks] else [];
    due + (if PriorityOf(t) == "high" then [HighPriority] else [])
  }

  /** `_rules_hint(t)` */
  function RulesHint(t: PTicket): (r: seq<string>)
    ensures |r| == |Hints(t)| && forall i | 0 <= i < |r| :: r[i] == HintText(Hints(t)[i])
  {
    var hs := Hints(t);
    seq(|hs|, i requires 0 <= i < |hs| => HintText(hs[i]))
  }

  /** Priority "HIGH" pages on-call like "High"; a missing priority counts as Medium and a
      missing days value as 999, which gives no hint at all. */
  lemma RulesHintDefaults(t: PTicket)
    requires t.priority.None? && t.daysToDue.None?
    ensures Hints(t) == []
  {
    assert Lower("Medium") == "medium";
  }

  lemma RulesHintUpperCaseHigh(t: PTicket)
    requires t.priority == Some("HIGH") && t.daysToDue == Some(-3)
    ensures Hints(t) == [Overdue, HighPriority]
  {
    assert Lower("HIGH") == "high";
  }

  // ---- the prompt ----

  /** `f"{x}"` of an optional value. */
  function OptStr(v: Option<string>): string {
    if v.Some? then v.value else "None"
  }

  function OptInt(v: Option<int>): string {
    if v.Some? then IntToString(v.value) else "None"
  }

  /** `"[source]\nchunk"` */
  function SnippetText(s: Snippet): string {
    "[" + s.source + "]\n" + s.chunk
  }

  /** The knowledge-base block of the prompt: the first three snippets, or a fixed note
      when there are none. */
  function KbText(kb: seq<Snippet>): (r: string)
    ensures kb == [] <==> r == "No KB found."
    ensures kb != [] ==> r != [] && r[0] == '['
    ensures forall i | 0 <= i < |kb| && i < 3 :: Infix(SnippetText(kb[i]), r)
  {
    var top := Take(kb, 3);
    var texts := seq(|top|, i requires 0 <= i < |top| => SnippetText(top[i]));
    var joined := Join("\n\n", texts);
    assert kb != [] ==> joined != [] && joined[0] == '[' by {
      if kb != [] {
        JoinNonEmptyStartsWith("\n\n", texts);
      }
    }
    forall i | 0 <= i < |kb| && i < 3
      ensures Infix(SnippetText(kb[i]), joined)
    {
      assert texts[i] == SnippetText(kb[i]);
      JoinHasEach("\n\n", texts, i);
    }
    if joined == "" then "No KB found." else joined
  }

  /** The prompt's knowledge-base block depends on nothing past the third snippet. */
  lemma KbTextUsesTopThree(a: seq<Snippet>, b: seq<Snippet>)
    requires Take(a, 3) == Take(b, 3)
    ensures KbText(a) == KbText(b)
  {
  }

  /** The user message of the chat completion request. */
  function UserPrompt(t: PTicket, kbText: string): string {
    var hints := RulesHint(t);
    "\nTicket:\n- id: " + t.ticketId + "\n- dataCenter: " + t.dcId + "\n- category: " + t.docCategory +
    "\n- priority: " + OptStr(t.priority) + "\n- daysToDue: " + OptInt(t.daysToDue) +
    "\n- risk: " + OptStr(t.riskBucket) + " (" + OptInt(t.riskScore) + ")\n\nLocal rules/hints:\n" +
    Join("\n", seq(|hints|, i requires 0 <= i < |hints| => "- " + hints[i])) +
    "\n\nKnowledge Base (top matches):\n" + kbText +
    "\n\nOutput JSON with keys: rationale, nextActions (array of 3-6 steps), suggestedOwner, urgency.\n"
  }

  // ---- nextActions ----

  /** `(first or second or "").strip()` on a dict action; `.strip` on a non-string raises. */
  function StrippedField(ms: seq<(string, Json)>, first: string, second: string): (r: Result<string>)
    ensures r.Err? ==> r.error == AttributeError
    ensures r.Ok? ==> EndsClean(r.value)
    ensures Truthy(Get(ms, first)) ==>
      r == if Get(ms, first).JStr? then Ok(Strip(Get(ms, first).s)) else Err(AttributeError)
    ensures !Truthy(Get(ms, first)) && Truthy(Get(ms, second)) ==>
      r == if Get(ms, second).JStr? then Ok(Strip(Get(ms, second).s)) else Err(AttributeError)
    ensures !Truthy(Get(ms, first)) && !Truthy(Get(ms, second)) ==> r == Ok("")
  {
    var v := Or(Or(Get(ms, first), Get(ms, second)), JStr(""));
    if v.JStr? then Ok(Strip(v.s)) else Err(AttributeError)
  }

  /** Empty, or not ending in whitespace. */
  predicate EndsClean(s: string) {
    s == [] || !IsPySpace(s[|s| - 1])
  }

  /** `step + (f" — {tb}" if tb else "")` */
  function ActionText(step: string, tb: string): (r: string)
    requires EndsClean(step) && EndsClean(tb)
    ensures EndsClean(r)
  {
    if tb != "" then
      var r := step + " \U{2014} " + tb;
      assert r[|r| - 1] == tb[|tb| - 1];
      r
    else step
  }

  /** One raw action as text: a dict gives its step, followed by ` — ` and its timebox when
      it has one; anything else gives its `str()`, stripped. The text never ends in
      whitespace; it may be empty, and is then dropped. */
  function NormaliseAction(a: Json): (r: Result<string>)
    ensures r.Err? <==> a.JObject? && (StrippedField(a.members, "step", "action").Err? ||
                                       StrippedField(a.members, "timebox", "eta").Err?)
    ensures r.Err? ==> r.error == AttributeError
    ensures r.Ok? ==> EndsClean(r.value)
    ensures !a.JObject? ==> r == Ok(Strip(PyStr(a)))
  {
    if a.JObject? then
      match StrippedField(a.members, "step", "action")
      case Err(e) => Err(e)
      case Ok(step) =>
        match StrippedField(a.members, "timebox", "eta")
        case Err(e) => Err(e)
        case Ok(tb) => Ok(ActionText(step, tb))
    else Ok(Strip(PyStr(a)))
  }

  predicate NonEmpty(s: string) {
    s != ""
  }

  /** The normalised actions, in reply order, or the exception the loop raises. */
  function NormalisedActions(raw: Json): (r: Result<seq<string>>)
    ensures Iterate(raw).Err? ==> r == Err(TypeError)
    ensures r.Ok? <==>
      Iterate(raw).Ok? && forall i | 0 <= i < |Iterate(raw).value| :: NormaliseAction(Iterate(raw).value[i]).Ok?
    ensures r.Ok? ==> forall i | 0 <= i < |r.value| :: r.value[i] != "" && EndsClean(r.value[i])
    ensures r.Ok? ==> IsSubsequence(r.value, MapAll(Iterate(raw).value, NormaliseAction).value)
    ensures r.Ok? ==> forall i | 0 <= i < |Iterate(raw).value| ::
      NormaliseAction(Iterate(raw).value[i]).value != "" ==> NormaliseAction(Iterate(raw).value[i]).value in r.value
    ensures r.Ok? ==> |r.value| == Count(MapAll(Iterate(raw).value, NormaliseAction).value, NonEmpty)
  {
    match Iterate(raw)
    case Err(e) => Err(e)
    case Ok(xs) =>
      match MapAll(xs, NormaliseAction)
      case Err(e) => Err(e)
      case Ok(texts) =>
        FilterIsSubsequence(texts, NonEmpty);
        FilterCount(texts, NonEmpty);
        Ok(Filter(texts, NonEmpty))
  }

  /** When every action normalises to a non-blank text, the list is those texts in order. */
  lemma NormalisedAllKept(xs: seq<Json>, texts: seq<string>)
    requires |xs| == |texts|
    requires forall i | 0 <= i < |xs| :: NormaliseAction(xs[i]) == Ok(texts[i]) && texts[i] != ""
    ensures NormalisedActions(JArray(xs)) == Ok(texts)
  {
    var m := MapAll(xs, NormaliseAction);
    assert m.Ok?;
    assert m.value == texts;
    FilterAll(texts, NonEmpty);
  }

  /** A dict with a step and a timebox, then a plain string, give two actions. */
  lemma NormalisedActionsExample()
    ensures NormalisedActions(JArray([JObject([("step", JStr("Call vendor")), ("timebox", JStr("2h"))]), JStr("Escalate")])) ==
      Ok(["Call vendor" + " \U{2014} " + "2h", "Escalate"])
  {
    StepThenPlain("Call vendor", "2h", "Escalate");
  }

  /** `[{"step": step, "timebox": tb}, plain]` for clean, non-blank strings gives
      `step — tb` and then `plain`. */
  lemma StepThenPlain(step: string, tb: string, plain: string)
    requires step != [] && !IsPySpace(step[0]) && !IsPySpace(step[|step| - 1])
    requires tb != [] && !IsPySpace(tb[0]) && !IsPySpace(tb[|tb| - 1])
    requires plain != [] && !IsPySpace(plain[0]) && !IsPySpace(plain[|plain| - 1])
    ensures NormalisedActions(JArray([JObject([("step", JStr(step)), ("timebox", JStr(tb))]), JStr(plain)])) ==
      Ok([step + " \U{2014} " + tb, plain])
  {
    StripClean(step);
    StripClean(tb);
    StepWithTimebox(step, tb);
    PlainAction(plain);
    NormalisedPair(JObject([("step", JStr(step)), ("timebox", JStr(tb))]), JStr(plain), step + " \U{2014} " + tb, plain);
  }

  lemma NormalisedPair(x0: Json, x1: Json, t0: string, t1: string)
    requires NormaliseAction(x0) == Ok(t0) && t0 != ""
    requires NormaliseAction(x1) == Ok(t1) && t1 != ""
    ensures NormalisedActions(JArray([x0, x1])) == Ok([t0, t1])
  {
    var xs, ts := [x0, x1], [t0, t1];
    forall i | 0 <= i < 2
      ensures NormaliseAction(xs[i]) == Ok(ts[i]) && ts[i] != ""
    {
      if i == 0 {
        assert xs[i] == x0 && ts[i] == t0;
      } else {
        assert xs[i] == x1 && ts[i] == t1;
      }
    }
    NormalisedAllKept(xs, ts);
  }

  /** A plain string without whitespace at either end is its own action text. */
  lemma PlainAction(s: string)
    requires s == [] || (!IsPySpace(s[0]) && !IsPySpace(s[|s| - 1]))
    ensures NormaliseAction(JStr(s)) == Ok(s)
  {
    StripClean(s);
  }

  /** The normalisation loop of `_compose_with_llm`. */
  method NormaliseActions(raw: Json) returns (r: Result<seq<string>>)
    ensures r == NormalisedActions(raw)
  {
    var it := Iterate(raw);
    if it.Err? {
      return Err(it.error);
    }
    var xs := it.value;
    var norm: seq<string> := [];
    ghost var texts: seq<string> := [];
    for i := 0 to |xs|
      invariant MapAll(xs[..i], NormaliseAction) == Ok(texts)
      invariant norm == Filter(texts, NonEmpty)
    {
      MapAllStep(xs, NormaliseAction, i);
      var s := NormaliseAction(xs[i]);
      if s.Err? {
        MapAllErrSticky(xs, NormaliseAction, i + 1);
        return Err(s.error);
      }
      FilterSnoc(texts, s.value, NonEmpty);
      texts := texts + [s.value];
      if s.value != "" {
        norm := norm + [s.value];
      }
    }
    assert xs[..|xs|] == xs;
    r := Ok(norm);
  }

  /** A dict action with a step and a timebox gives the stripped step, then an em dash
      and the stripped timebox when that is not blank. */
  lemma StepWithTimebox(step: string, timebox: string)
    ensures NormaliseAction(JObject([("step", JStr(step)), ("timebox", JStr(timebox))])) ==
      Ok(if Strip(timebox) != "" then Strip(step) + " \U{2014} " + Strip(timebox) else Strip(step))
  {
    var ms := [("step", JStr(step)), ("timebox", JStr(timebox))];
    assert Get(ms, "step") == JStr(step) && Get(ms, "timebox") == JStr(timebox) &&
           Get(ms, "action") == JNull && Get(ms, "eta") == JNull by {
      assert "step" != "timebox" by { assert |"timebox"| != |"step"|; }
      assert ms[1..] == [("timebox", JStr(timebox))];
      assert Lookup(ms[1..], "timebox") == Some(JStr(timebox));
      assert |"action"| != |"step"| && |"action"| != |"timebox"| && |"eta"| != |"step"| && |"eta"| != |"timebox"|;
    }
    StrippedFieldOf(ms, "step", "action", step);
    StrippedFieldOf(ms, "timebox", "eta", timebox);
  }

  /** A field present as a string, whose fallback name is absent, reads as that string
      stripped. */
  lemma StrippedFieldOf(ms: seq<(string, Json)>, first: string, second: string, s: string)
    requires Get(ms, first) == JStr(s) && Get(ms, second) == JNull
    ensures StrippedField(ms, first, second) == Ok(Strip(s))
  {
    if s == "" {
      assert Strip("") == "";
    }
  }

  /** A dict with only an `eta` yields the separator alone in front of it, leading space
      included: the step part is empty but the joined text is not stripped again. */
  lemma TimeboxOnly(eta: string)
    requires Strip(eta) != ""
    ensures NormaliseAction(JObject([("eta", JStr(eta))])) == Ok(" \U{2014} " + Strip(eta))
  {
    var ms := [("eta", JStr(eta))];
    EtaGets(eta);
    StrippedFieldAbsent(ms, "step", "action");
    StrippedFieldOrElse(ms, "timebox", "eta", eta);
    assert "" + " \U{2014} " + Strip(eta) == " \U{2014} " + Strip(eta);
  }

  lemma EtaGets(eta: string)
    ensures var ms := [("eta", JStr(eta))];
      Get(ms, "step") == JNull && Get(ms, "action") == JNull && Get(ms, "timebox") == JNull &&
      Get(ms, "eta") == JStr(eta)
  {
    assert |"eta"| != |"step"| && |"eta"| != |"action"| && |"eta"| != |"timebox"|;
  }

  /** Both names absent: the field reads as the empty string. */
  lemma StrippedFieldAbsent(ms: seq<(string, Json)>, first: string, second: string)
    requires Get(ms, first) == JNull && Get(ms, second) == JNull
    ensures StrippedField(ms, first, second) == Ok("")
  {
    assert Strip("") == "";
  }

  /** The first name absent, the fallback name present as a string: that string, stripped. */
  lemma StrippedFieldOrElse(ms: seq<(string, Json)>, first: string, second: string, s: string)
    requires Get(ms, first) == JNull && Get(ms, second) == JStr(s)
    ensures StrippedField(ms, first, second) == Ok(Strip(s))
  {
    if s == "" {
      assert Strip("") == "";
    }
  }

  // ---- the Suggestion ----

  /** What the chat completion gives back: the call raised, the content is not JSON, or
      the decoded content. */
  datatype Completion = CallFailed | NotJson | Parsed(data: Json)

  /** `data.get("rationale", "")[:1000]`: a string is cut to 1000 characters, a list cut
      the same way fails validation, anything else cannot be sliced. */
  function Rationale(ms: seq<(string, Json)>): (r: Result<string>)
    ensures r.Ok? <==> GetOr(ms, "rationale", JStr("")).JStr?
    ensures r.Ok? ==> var given := GetOr(ms, "rationale", JStr("")).s;
      |r.value| <= 1000 && |r.value| <= |given| && r.value == given[..|r.value|] && (|given| <= 1000 ==> r.value == given)
  {
    match GetOr(ms, "rationale", JStr(""))
    case JStr(s) => Ok(Take(s, 1000))
    case JArray(_) => Err(ValidationError)
    case _ => Err(TypeError)
  }

  /** `data.get("suggestedOwner") or t.owner`, validated as `Optional[str]`. */
  function SuggestedOwner(ms: seq<(string, Json)>, owner: Option<string>): (r: Result<Option<string>>)
    ensures r.Ok? <==> !Truthy(Get(ms, "suggestedOwner")) || Get(ms, "suggestedOwner").JStr?
    ensures r.Ok? ==> r.value == if Truthy(Get(ms, "suggestedOwner")) then Some(Get(ms, "suggestedOwner").s) else owner
  {
    var v := Get(ms, "suggestedOwner");
    if !Truthy(v) then Ok(owner)
    else if v.JStr? then Ok(Some(v.s))
    else Err(ValidationError)
  }

  /** The `Suggestion` built from the decoded reply `data` for ticket `t`. */
  function SuggestionFrom(t: PTicket, data: Json): (r: Result<Suggestion>)
    ensures !data.JObject? ==> r == Err(AttributeError)
    ensures r.Ok? <==>
      (data.JObject? && NormalisedActions(GetOr(data.members, "nextActions", JArray([]))).Ok? &&
       Rationale(data.members).Ok? && SuggestedOwner(data.members, t.owner).Ok? &&
       GetOr(data.members, "urgency", JStr("")).JStr?)
    ensures r.Ok? ==> r.value.ticketId == t.ticketId
    ensures r.Ok? ==> |r.value.rationale| <= 1000 && |r.value.nextActions| <= 6
    ensures r.Ok? ==> forall i | 0 <= i < |r.value.nextActions| :: r.value.nextActions[i] != ""
    ensures r.Ok? ==> r.value.nextActions == Take(NormalisedActions(GetOr(data.members, "nextActions", JArray([]))).value, 6)
    ensures r.Ok? ==> var given := GetOr(data.members, "rationale", JStr("")).s;
      |r.value.rationale| <= |given| && r.value.rationale == given[..|r.value.rationale|] &&
      (|given| <= 1000 ==> r.value.rationale == given)
    ensures r.Ok? ==> var v := Get(data.members, "suggestedOwner");
      r.value.suggestedOwner == if Truthy(v) then Some(v.s) else t.owner
    ensures r.Ok? ==> JStr(r.value.urgency) == GetOr(data.members, "urgency", JStr(""))
  {
    if !data.JObject? then Err(AttributeError)
    else
      var ms := data.members;
      match NormalisedActions(GetOr(ms, "nextActions", JArray([])))
      case Err(e) => Err(e)
      case Ok(actions) =>
        match Rationale(ms)
        case Err(e) => Err(e)
        case Ok(rationale) =>
          var owner := SuggestedOwner(ms, t.owner);
          var urgency := GetOr(ms, "urgency", JStr(""));
          if owner.Ok? && urgency.JStr? then
            Ok(Suggestion(t.ticketId, rationale, Take(actions, 6), owner.value, urgency.s))
          else Err(ValidationError)
  }

  /** An empty reply object gives an empty suggestion that keeps the ticket's owner. */
  lemma EmptyReply(t: PTicket)
    ensures SuggestionFrom(t, JObject([])) == Ok(Suggestion(t.ticketId, "", [], t.owner, ""))
  {
    assert Filter([], NonEmpty) == [];
  }

  /** What `_compose_with_llm(t, kb)` returns, given the model's behaviour on the prompt. */
  function Composed(t: PTicket, kb: seq<Snippet>, llm: string -> Completion): (r: Result<Suggestion>)
    ensures r.Ok? ==> r.value.ticketId == t.ticketId
  {
    match llm(UserPrompt(t, KbText(kb)))
    case CallFailed => Err(ServiceError)
    case NotJson => Err(JsonDecodeError)
    case Parsed(data) => SuggestionFrom(t, data)
  }

  /** `_compose_with_llm(t, kb)`. */
  method ComposeSuggestion(t: PTicket, kb: seq<Snippet>, llm: string -> Completion) returns (r: Result<Suggestion>)
    ensures r == Composed(t, kb, llm)
  {
    var reply := llm(UserPrompt(t, KbText(kb)));
    if reply.CallFailed? {
      return Err(ServiceError);
    }
    if reply.NotJson? {
      return Err(JsonDecodeError);
    }
    var data := reply.data;
    if !data.JObject? {
      return Err(AttributeError);
    }
    var ms := data.members;
    var actions := NormaliseActions(GetOr(ms, "nextActions", JArray([])));
    if actions.Err? {
      return Err(actions.error);
    }
    var rationale := Rationale(ms);
    if rationale.Err? {
      return Err(rationale.error);
    }
    var owner := SuggestedOwner(ms, t.owner);
    var urgency := GetOr(ms, "urgency", JStr(""));
    if owner.Err? || !urgency.JStr? {
      return Err(ValidationError);
    }
    r := Ok(Suggestion(t.ticketId, rationale.value, Take(actions.value, 6), owner.value, urgency.s));
  }

  // ---- advise ----

  /** `f"{t.docCategory} remediation runbook"` */
  function Topic(t: PTicket): string {
    t.docCategory + " remediation runbook"
  }

  function SourcesOf(kb: seq<Snippet>): (r: seq<string>)
    ensures |r| == |kb| && forall i | 0 <= i < |kb| :: r[i] == kb[i].source
  {
    seq(|kb|, i requires 0 <= i < |kb| => kb[i].source)
  }

  /** One ticket of the loop: its suggestion and the sources of the snippets retrieved
      for it. */
  function AdviceFor(td: Scored, store: (string, nat) -> Backend, llm: string -> Completion): (r: Result<(Suggestion, seq<string>)>)
    ensures r.Ok? ==> JStr(r.value.0.ticketId) == td.ticketId
  {
    match ValidateTicket(td)
    case Err(e) => Err(e)
    case Ok(t) =>
      match Retrieved(store(Topic(t), 3))
      case Err(e) => Err(e)
      case Ok(kb) =>
        match Composed(t, kb, llm)
        case Err(e) => Err(e)
        case Ok(s) => Ok((s, SourcesOf(kb)))
  }

  function AdviceFn(store: (string, nat) -> Backend, llm: string -> Completion): (f: Scored -> Result<(Suggestion, seq<string>)>)
    ensures forall td :: f(td) == AdviceFor(td, store, llm)
  {
    td => AdviceFor(td, store, llm)
  }

  /** The suggestions for `tickets`, one per ticket in order and each for its own ticket,
      and every source seen (the sources of all retrieved snippets and nothing else), or
      the first exception raised. */
  function Advised(tickets: seq<Scored>, store: (string, nat) -> Backend, llm: string -> Completion): (r: Result<(seq<Suggestion>, seq<string>)>)
    ensures r.Ok? <==> forall i | 0 <= i < |tickets| :: AdviceFn(store, llm)(tickets[i]).Ok?
    ensures r.Ok? ==>
      (|r.value.0| == |tickets| &&
       forall i | 0 <= i < |tickets| :: r.value.0[i] == AdviceFn(store, llm)(tickets[i]).value.0 &&
         JStr(r.value.0[i].ticketId) == tickets[i].ticketId)
    ensures r.Ok? ==> forall i, k | 0 <= i < |tickets| && 0 <= k < |AdviceFn(store, llm)(tickets[i]).value.1| ::
      AdviceFn(store, llm)(tickets[i]).value.1[k] in r.value.1
    ensures r.Ok? ==> ProducedBy(r.value.1, tickets, AdviceFn(store, llm))
  {
    var r := MapCollect(tickets, AdviceFn(store, llm));
    if r.Ok? then
      MapCollectKeeps(tickets, AdviceFn(store, llm));
      MapCollectOnly(tickets, AdviceFn(store, llm));
      r
    else r
  }

  // ---- sorted(list(sources_used)) ----

  function Elements(xs: seq<string>): set<string> {
    set i | 0 <= i < |xs| :: xs[i]
  }

  /** Adds `x` to a strictly sorted list, unless it is already there. */
  function InsertString(x: string, xs: seq<string>): (r: seq<string>)
    requires StrictlySorted(xs)
    ensures StrictlySorted(r) && Elements(r) == Elements(xs) + {x}
  {
    if xs == [] then
      assert Elements([x]) == {x} by { assert [x][0] == x; }
      [x]
    else if x == xs[0] then xs
    else if StrLess(x, xs[0]) then
      InsertFrontSorted(x, xs);
      [x] + xs
    else
      assert StrictlySorted(xs[1..]);
      var rest := InsertString(x, xs[1..]);
      InsertAfterSorted(x, xs, rest);
      assert Elements(xs) == {xs[0]} + Elements(xs[1..]) by {
        assert forall i | 0 <= i < |xs[1..]| :: xs[1..][i] == xs[i + 1];
      }
      [xs[0]] + rest
  }

  lemma InsertFrontSorted(x: string, xs: seq<string>)
    requires StrictlySorted(xs) && xs != [] && StrLess(x, xs[0])
    ensures StrictlySorted([x] + xs) && Elements([x] + xs) == Elements(xs) + {x}
  {
    forall j | 0 <= j < |xs|
      ensures StrLess(x, xs[j])
    {
      if j > 0 {
        StrLessTransitive(x, xs[0], xs[j]);
      }
    }
    var r := [x] + xs;
    forall i, j | 0 <= i < j < |r|
      ensures StrLess(r[i], r[j])
    {
      assert r[j] == xs[j - 1];
      if i > 0 {
        assert r[i] == xs[i - 1];
      }
    }
    assert Elements(r) == Elements(xs) + {x} by {
      forall y | y in Elements(r)
        ensures y in Elements(xs) + {x}
      {
        var i :| 0 <= i < |r| && r[i] == y;
        if i > 0 {
          assert xs[i - 1] == y;
        }
      }
      forall y | y in Elements(xs)
        ensures y in Elements(r)
      {
        var i :| 0 <= i < |xs| && xs[i] == y;
        assert r[i + 1] == y;
      }
      assert r[0] == x;
    }
  }

  lemma InsertAfterSorted(x: string, xs: seq<string>, rest: seq<string>)
    requires StrictlySorted(xs) && xs != [] && x != xs[0] && !StrLess(x, xs[0])
    requires StrictlySorted(rest) && Elements(rest) == Elements(xs[1..]) + {x}
    ensures StrictlySorted([xs[0]] + rest)
    ensures Elements([xs[0]] + rest) == {xs[0]} + Elements(rest)
  {
    StrLessTotal(x, xs[0]);
    forall j | 0 <= j < |rest|
      ensures StrLess(xs[0], rest[j])
    {
      assert rest[j] in Elements(rest);
      if rest[j] != x {
        var k :| 0 <= k < |xs[1..]| && xs[1..][k] == rest[j];
        assert xs[k + 1] == rest[j];
      }
    }
    var r := [xs[0]] + rest;
    assert forall j | 1 <= j < |r| :: r[j] == rest[j - 1];
    assert forall i, j | 0 <= i < j < |r| :: StrLess(r[i], r[j]) by {
      forall i, j | 0 <= i < j < |r|
        ensures StrLess(r[i], r[j])
      {
        if i > 0 {
          assert r[i] == rest[i - 1] && r[j] == rest[j - 1];
        }
      }
    }
    assert Elements(r) == {xs[0]} + Elements(rest) by {
      forall y | y in Elements(r)
        ensures y in {xs[0]} + Elements(rest)
      {
        var i :| 0 <= i < |r| && r[i] == y;
        if i > 0 {
          assert rest[i - 1] == y;
        }
      }
      forall y | y in Elements(rest)
        ensures y in Elements(r)
      {
        var i :| 0 <= i < |rest| && rest[i] == y;
        assert r[i + 1] == y;
      }
      assert r[0] == xs[0];
    }
  }

  /** `sorted(list(set(xs)))`: the distinct strings of `xs`, in increasing order. */
  function SortedSet(xs: seq<string>): (r: seq<string>)
    ensures StrictlySorted(r) && Elements(r) == Elements(xs)
  {
    if xs == [] then []
    else
      var front := xs[..|xs| - 1];
      assert Elements(xs) == Elements(front) + {xs[|xs| - 1]} by {
        assert forall i | 0 <= i < |front| :: front[i] == xs[i];
      }
      InsertString(xs[|xs| - 1], SortedSet(front))
  }

  /** One pass of `advise`'s loop: validate, retrieve, note the sources, compose. */
  method AdviseOne(td: Scored, store: (string, nat) -> Backend, llm: string -> Completion)
    returns (r: Result<(Suggestion, seq<string>)>)
    ensures r == AdviceFor(td, store, llm)
  {
    var t := ValidateTicket(td);
    if t.Err? {
      return Err(t.error);
    }
    var kb := Retrieve(Topic(t.value), 3, store);
    if kb.Err? {
      return Err(kb.error);
    }
    var sources: seq<string> := [];
    for j := 0 to |kb.value|
      invariant sources == SourcesOf(kb.value)[..j]
    {
      assert SourcesOf(kb.value)[..j + 1] == SourcesOf(kb.value)[..j] + [kb.value[j].source];
      sources := sources + [kb.value[j].source];
    }
    assert SourcesOf(kb.value)[..|kb.value|] == SourcesOf(kb.value);
    var s := ComposeSuggestion(t.value, kb.value, llm);
    if s.Err? {
      return Err(s.error);
    }
    r := Ok((s.value, sources));
  }

  /** `advise(tickets)`: one suggestion per ticket, each for its own ticket id, and the
      knowledge-base sources consulted, sorted and without repetition. */
  method Advise(tickets: seq<Scored>, store: (string, nat) -> Backend, llm: string -> Completion)
    returns (r: Result<(seq<Suggestion>, seq<string>)>)
    ensures r == match Advised(tickets, store, llm)
      case Err(e) => Err(e)
      case Ok(acc) => Ok((acc.0, SortedSet(acc.1)))
  {
    var per: seq<Suggestion> := [];
    var sourcesUsed: seq<string> := [];
    ghost var f := AdviceFn(store, llm);
    for i := 0 to |tickets|
      invariant MapCollect(tickets[..i], f) == Ok((per, sourcesUsed))
    {
      MapCollectStep(tickets, f, i);
      var one := AdviseOne(tickets[i], store, llm);
      if one.Err? {
        MapCollectErrSticky(tickets, f, i + 1);
        return Err(one.error);
      }
      sourcesUsed := sourcesUsed + one.value.1;
      per := per + [one.value.0];
    }
    assert tickets[..|tickets|] == tickets;
    r := Ok((per, SortedSet(sourcesUsed)));
  }
}
