/** The risk scorer (`score_tickets`): each ticket record gets a score from its priority
    and days-to-due and a bucket, and the batch is ordered by the key
    `(bucket != "Critical", score)` in descending order with a stable sort. */
module Risk {
  import opened Base
  import opened JsonValues
  import opened Seqs

  datatype Bucket = Low | Medium | High | Critical

  function BucketName(b: Bucket): string {
    match b
    case Low => "Low"
    case Medium => "Medium"
    case High => "High"
    case Critical => "Critical"
  }

  /** A scored record: the nine fields copied from the input's camelCase keys (with the
      days value actually used in place of `daysToDue`), the score and the bucket. */
  datatype Scored = Scored(
    ticketId: Json, dcId: Json, docCategory: Json, owner: Json, priority: Json,
    status: Json, createdAt: Json, dueDate: Json, daysToDue: Json,
    riskScore: int, riskBucket: Bucket)

  /** `t.get("priority") or t.get("Priority") or "Medium"` */
  function PriorityKey(t: seq<(string, Json)>): Json {
    Or(Or(Get(t, "priority"), Get(t, "Priority")), JStr("Medium"))
  }

  /** `pri.get(key, 2)` for `pri = {"Low": 1, "Medium": 2, "High": 3}`. The lookup is
      case-sensitive; any other key weighs 2; a list or dict key is unhashable. */
  function PriorityWeight(key: Json): (r: Result<int>)
    ensures r.Ok? <==> !(key.JArray? || key.JObject?)
    ensures r.Ok? ==> 1 <= r.value <= 3
    ensures r == Ok(1) <==> key == JStr("Low")
    ensures r == Ok(3) <==> key == JStr("High")
  {
    match key
    case JArray(_) => Err(TypeError)
    case JObject(_) => Err(TypeError)
    case JStr(s) => Ok(if s == "Low" then 1 else if s == "Medium" then 2 else if s == "High" then 3 else 2)
    case _ => Ok(2)
  }

  /** `t.get("daysToDue") or t.get("DaysToDue") or 999`: every falsy value, 0 included,
      falls through to the next alternative. */
  function DaysValue(t: seq<(string, Json)>): (r: Json)
    ensures Truthy(r)
    ensures Truthy(Get(t, "daysToDue")) ==> r == Get(t, "daysToDue")
    ensures !Truthy(Get(t, "daysToDue")) && Truthy(Get(t, "DaysToDue")) ==> r == Get(t, "DaysToDue")
    ensures !Truthy(Get(t, "daysToDue")) && !Truthy(Get(t, "DaysToDue")) ==> r == JInt(999)
  {
    Or(Or(Get(t, "daysToDue"), Get(t, "DaysToDue")), JInt(999))
  }

  /** The number that `days > 21` compares: an int, or a bool as 0 or 1. Comparing a str,
      list, dict or None with an int raises. */
  function DaysNumber(v: Json): Result<int> {
    match v
    case JInt(n) => Ok(n)
    case JBool(b) => Ok(if b then 1 else 0)
    case _ => Err(TypeError)
  }

  /** 0 (safe) beyond three weeks, 1 (near) for 8..21 days, 2 (urgent) for 0..7 days,
      3 when overdue. */
  function DaysComponent(d: int): (c: int)
    ensures 0 <= c <= 3
    ensures c == 0 <==> d > 21
    ensures c == 1 <==> 8 <= d <= 21
    ensures c == 2 <==> 0 <= d <= 7
    ensures c == 3 <==> d < 0
  {
    if d > 21 then 0 else if d > 7 then 1 else if d >= 0 then 2 else 3
  }

  function BucketOf(component: int, score: int): Bucket {
    if component == 3 then Critical else if score >= 7 then High else if score >= 4 then Medium else Low
  }

  /** The body of the scoring loop for one record `t`. */
  function ScoreOne(t: Json): (r: Result<Scored>)
    ensures r.Ok? <==> t.JObject? && PriorityWeight(PriorityKey(t.members)).Ok? && DaysNumber(DaysValue(t.members)).Ok?
    ensures r.Ok? ==> 2 <= r.value.riskScore <= 15
    ensures r.Ok? ==> r.value.riskScore == 2 * PriorityWeight(PriorityKey(t.members)).value + 3 * DaysComponent(DaysNumber(DaysValue(t.members)).value)
    ensures r.Ok? ==> (r.value.riskBucket == Critical <==> DaysNumber(DaysValue(t.members)).value < 0)
    ensures r.Ok? && r.value.riskBucket != Critical ==>
      (r.value.riskBucket == High <==> r.value.riskScore >= 7) &&
      (r.value.riskBucket == Medium <==> 4 <= r.value.riskScore < 7) &&
      (r.value.riskBucket == Low <==> r.value.riskScore < 4)
    ensures r.Ok? ==> r.value.daysToDue == DaysValue(t.members) && Truthy(r.value.daysToDue)
    ensures r.Ok? ==>
      var ms := t.members;
      r.value.ticketId == Get(ms, "ticketId") && r.value.dcId == Get(ms, "dcId") &&
      r.value.docCategory == Get(ms, "docCategory") && r.value.owner == Get(ms, "owner") &&
      r.value.priority == Get(ms, "priority") && r.value.status == Get(ms, "status") &&
      r.value.createdAt == Get(ms, "createdAt") && r.value.dueDate == Get(ms, "dueDate")
  {
    match t
    case JObject(ms) =>
      (match PriorityWeight(PriorityKey(ms))
       case Err(e) => Err(e)
       case Ok(priority) =>
         var days := DaysValue(ms);
         match DaysNumber(days)
         case Err(e) => Err(e)
         case Ok(d) =>
           var component := DaysComponent(d);
           var score := priority * 2 + component * 3;
           Ok(Scored(
             Get(ms, "ticketId"), Get(ms, "dcId"), Get(ms, "docCategory"), Get(ms, "owner"),
             Get(ms, "priority"), Get(ms, "status"), Get(ms, "createdAt"), Get(ms, "dueDate"),
             days, score, BucketOf(component, score))))
    case _ => Err(AttributeError)
  }

  /** High priority due in 3 days: component 2, weight 3, score 12, bucket High. */
  lemma HighDueInThreeDays()
    ensures ScoreOne(JObject([("priority", JStr("High")), ("daysToDue", JInt(3))])) ==
      Ok(Scored(JNull, JNull, JNull, JNull, JStr("High"), JNull, JNull, JNull, JInt(3), 12, High))
  {
  }

  /** Low priority one day overdue: score 11, yet Critical. */
  lemma LowOverdueIsCritical()
    ensures ScoreOne(JObject([("priority", JStr("Low")), ("daysToDue", JInt(-1))])) ==
      Ok(Scored(JNull, JNull, JNull, JNull, JStr("Low"), JNull, JNull, JNull, JInt(-1), 11, Critical))
  {
  }

  /** A record with no usable priority or days scores as Medium priority, 999 days away. */
  lemma {:induction false} MissingFieldsUseDefaults(ms: seq<(string, Json)>)
    requires !Truthy(Get(ms, "priority")) && !Truthy(Get(ms, "Priority"))
    requires !Truthy(Get(ms, "daysToDue")) && !Truthy(Get(ms, "DaysToDue"))
    ensures ScoreOne(JObject(ms)).Ok?
    ensures ScoreOne(JObject(ms)).value.daysToDue == JInt(999)
    ensures ScoreOne(JObject(ms)).value.riskScore == 4
    ensures ScoreOne(JObject(ms)).value.riskBucket == Medium
  {
    assert PriorityKey(ms) == JStr("Medium");
  }

  /** A ticket due today (`daysToDue == 0`, no `DaysToDue`) is scored as 999 days away,
      and its output `daysToDue` is 999. */
  lemma {:induction false} DueTodayCountsAsFarFuture(ms: seq<(string, Json)>)
    requires Get(ms, "daysToDue") == JInt(0) && !Truthy(Get(ms, "DaysToDue"))
    requires PriorityWeight(PriorityKey(ms)).Ok?
    ensures ScoreOne(JObject(ms)).Ok?
    ensures ScoreOne(JObject(ms)).value.daysToDue == JInt(999)
    ensures ScoreOne(JObject(ms)).value.riskScore == 2 * PriorityWeight(PriorityKey(ms)).value
    ensures ScoreOne(JObject(ms)).value.riskBucket != Critical
  {
    assert DaysValue(ms) == JInt(999);
  }

  /** The output `daysToDue` is never 0: a zero, like every falsy value, is replaced. */
  lemma ScoredDaysNeverZero(t: Json)
    requires ScoreOne(t).Ok?
    ensures ScoreOne(t).value.daysToDue != JInt(0)
  {
  }

  // ---- ordering ----

  /** The sort key `(x["RiskBucket"] != "Critical", x["RiskScore"])`. */
  function RankKey(s: Scored): (bool, int) {
    (s.riskBucket != Critical, s.riskScore)
  }

  /** `a >= b` on Python tuples of a bool and an int (False < True). */
  predicate KeyAtLeast(a: (bool, int), b: (bool, int)) {
    (a.0 && !b.0) || (a.0 == b.0 && a.1 >= b.1)
  }

  /** Keys never increase from left to right. */
  predicate SortedByRisk(s: seq<Scored>) {
    forall i, j | 0 <= i < j < |s| :: KeyAtLeast(RankKey(s[i]), RankKey(s[j]))
  }

  /** Places `x` in front of the first element whose key is at most its own. */
  function Insert(x: Scored, s: seq<Scored>): (r: seq<Scored>)
    ensures multiset(r) == multiset(s) + multiset{x}
    ensures |r| == |s| + 1
  {
    if s == [] || KeyAtLeast(RankKey(x), RankKey(s[0])) then [x] + s
    else
      assert s == [s[0]] + s[1..];
      [s[0]] + Insert(x, s[1..])
  }

  lemma {:induction false} InsertSorted(x: Scored, s: seq<Scored>)
    requires SortedByRisk(s)
    ensures SortedByRisk(Insert(x, s))
  {
    if s != [] && !KeyAtLeast(RankKey(x), RankKey(s[0])) {
      var tail := Insert(x, s[1..]);
      InsertSorted(x, s[1..]);
      forall j | 0 <= j < |tail|
        ensures KeyAtLeast(RankKey(s[0]), RankKey(tail[j]))
      {
        assert tail[j] in multiset(tail);
        assert tail[j] == x || tail[j] in multiset(s[1..]);
      }
    }
  }

  /** `sorted(scored, key=RankKey, reverse=True)`, as an insertion sort that keeps equal
      keys in input order. */
  function SortByRisk(s: seq<Scored>): (r: seq<Scored>)
    ensures SortedByRisk(r)
    ensures multiset(r) == multiset(s) && |r| == |s|
  {
    if s == [] then []
    else
      var rest := SortByRisk(s[1..]);
      InsertSorted(s[0], rest);
      assert s == [s[0]] + s[1..];
      Insert(s[0], rest)
  }

  /** The elements of `s` whose key is `k`, in order. */
  function WithKey(s: seq<Scored>, k: (bool, int)): seq<Scored> {
    if s == [] then [] else (if RankKey(s[0]) == k then [s[0]] else []) + WithKey(s[1..], k)
  }

  lemma {:induction false} InsertWithKey(x: Scored, s: seq<Scored>, k: (bool, int))
    ensures WithKey(Insert(x, s), k) == (if RankKey(x) == k then [x] else []) + WithKey(s, k)
  {
    if s != [] && !KeyAtLeast(RankKey(x), RankKey(s[0])) {
      InsertWithKey(x, s[1..], k);
      var r := Insert(x, s);
      assert r[0] == s[0] && r[1..] == Insert(x, s[1..]);
    } else {
      var r := Insert(x, s);
      assert r[0] == x && r[1..] == s;
    }
  }

  /** Stability: for every key, the records with that key appear in input order. */
  lemma {:induction false} SortByRiskStable(s: seq<Scored>, k: (bool, int))
    ensures WithKey(SortByRisk(s), k) == WithKey(s, k)
  {
    if s != [] {
      SortByRiskStable(s[1..], k);
      InsertWithKey(s[0], SortByRisk(s[1..]), k);
    }
  }

  /** Sorting an already sorted list leaves it as it is. */
  lemma {:induction false} SortByRiskOfSorted(s: seq<Scored>)
    requires SortedByRisk(s)
    ensures SortByRisk(s) == s
  {
    if s != [] {
      assert SortedByRisk(s[1..]);
      SortByRiskOfSorted(s[1..]);
      assert s == [s[0]] + s[1..];
    }
  }

  /** Sorting twice with the same key is sorting once. */
  lemma SortByRiskIdempotent(s: seq<Scored>)
    ensures SortByRisk(SortByRisk(s)) == SortByRisk(s)
  {
    SortByRiskOfSorted(SortByRisk(s));
  }

  /** What a sorted list looks like: every non-Critical record precedes every Critical
      one, and within each of the two groups scores never increase. */
  lemma SortedMeansGroupsThenScores(s: seq<Scored>, i: int, j: int)
    requires SortedByRisk(s) && 0 <= i < j < |s|
    ensures s[i].riskBucket == Critical ==> s[j].riskBucket == Critical
    ensures (s[i].riskBucket == Critical) == (s[j].riskBucket == Critical) ==> s[i].riskScore >= s[j].riskScore
  {
  }

  lemma {:induction false} WithKeyHead(s: seq<Scored>, k: (bool, int))
    requires s != [] && RankKey(s[0]) == k
    ensures WithKey(s, k) == [s[0]] + WithKey(s[1..], k)
  {
  }

  lemma {:induction false} WithKeyAbsent(s: seq<Scored>, k: (bool, int))
    requires forall i | 0 <= i < |s| :: RankKey(s[i]) != k
    ensures WithKey(s, k) == []
  {
    if s != [] {
      WithKeyAbsent(s[1..], k);
    }
  }

  lemma {:induction false} WithKeyPresent(s: seq<Scored>, i: int)
    requires 0 <= i < |s|
    ensures WithKey(s, RankKey(s[i])) != []
  {
    if i > 0 && RankKey(s[0]) != RankKey(s[i]) {
      WithKeyPresent(s[1..], i - 1);
    }
  }

  /** Two sorted lists that agree, key by key, on which records carry that key and in
      what order, are the same list. */
  lemma {:induction false} SortedStableUnique(a: seq<Scored>, b: seq<Scored>)
    requires SortedByRisk(a) && SortedByRisk(b)
    requires forall k :: WithKey(a, k) == WithKey(b, k)
    ensures a == b
    decreases |a| + |b|
  {
    if a == [] {
      if b != [] {
        WithKeyPresent(b, 0);
      }
    } else if b == [] {
      WithKeyPresent(a, 0);
    } else {
      var ka, kb := RankKey(a[0]), RankKey(b[0]);
      if ka != kb {
        if KeyAtLeast(ka, kb) {
          // a[0]'s key is larger than every key in b, yet b must hold a record with that key
          WithKeyAbsent(b, ka);
          WithKeyPresent(a, 0);
        } else {
          WithKeyAbsent(a, kb);
          WithKeyPresent(b, 0);
        }
      }
      WithKeyHead(a, ka);
      WithKeyHead(b, ka);
      assert a[0] == WithKey(a, ka)[0] == WithKey(b, ka)[0] == b[0];
      forall k
        ensures WithKey(a[1..], k) == WithKey(b[1..], k)
      {
        assert WithKey(a, k) == WithKey(b, k);
        if k == ka {
          assert WithKey(a[1..], k) == WithKey(a, k)[1..];
          assert WithKey(b[1..], k) == WithKey(b, k)[1..];
        } else {
          assert WithKey(a[1..], k) == WithKey(a, k);
          assert WithKey(b[1..], k) == WithKey(b, k);
        }
      }
      assert SortedByRisk(a[1..]) && SortedByRisk(b[1..]);
      SortedStableUnique(a[1..], b[1..]);
      assert a == [a[0]] + a[1..] && b == [b[0]] + b[1..];
    }
  }

  /** Python's stable sort is fully determined: any sorted, stable rearrangement of `s`
      is `SortByRisk(s)`. */
  lemma SortByRiskIsTheStableSort(s: seq<Scored>, t: seq<Scored>)
    requires SortedByRisk(t)
    requires forall k :: WithKey(t, k) == WithKey(s, k)
    ensures t == SortByRisk(s)
  {
    forall k
      ensures WithKey(t, k) == WithKey(SortByRisk(s), k)
    {
      SortByRiskStable(s, k);
    }
    SortedStableUnique(t, SortByRisk(s));
  }

  /** A high-priority ticket due today ranks below a low-priority one that is a day
      overdue: it scores 6 (Medium) against 11 (Critical). */
  lemma DueTodayRanksBelowOverdue()
    ensures ScoreOne(JObject([("priority", JStr("High")), ("daysToDue", JInt(0))])).value.riskScore == 6
    ensures ScoreOne(JObject([("priority", JStr("High")), ("daysToDue", JInt(0))])).value.riskBucket == Medium
    ensures ScoreOne(JObject([("priority", JStr("Low")), ("daysToDue", JInt(-1))])).value.riskScore == 11
  {
  }

  // ---- the batch ----

  /** What `score_tickets` returns, or the exception it raises. */
  function ScoreAll(tickets: seq<Json>): (r: Result<seq<Scored>>)
    ensures r.Ok? <==> forall i | 0 <= i < |tickets| :: ScoreOne(tickets[i]).Ok?
    ensures r.Ok? ==> |r.value| == |tickets| && SortedByRisk(r.value)
  {
    match MapAll(tickets, ScoreOne)
    case Err(e) => Err(e)
    case Ok(xs) => Ok(SortByRisk(xs))
  }

  /** `score_tickets`: append one scored record per ticket, then sort. */
  method ScoreTickets(tickets: seq<Json>) returns (r: Result<seq<Scored>>)
    ensures r == ScoreAll(tickets)
    ensures r.Ok? <==> forall i | 0 <= i < |tickets| :: ScoreOne(tickets[i]).Ok?
    ensures r.Ok? ==> |r.value| == |tickets| && SortedByRisk(r.value)
    ensures r.Ok? ==> multiset(r.value) == multiset(MapAll(tickets, ScoreOne).value)
    ensures r.Ok? ==> forall k :: WithKey(r.value, k) == WithKey(MapAll(tickets, ScoreOne).value, k)
  {
    var scored: seq<Scored> := [];
    for i := 0 to |tickets|
      invariant MapAll(tickets[..i], ScoreOne) == Ok(scored)
    {
      MapAllStep(tickets, ScoreOne, i);
      var s := ScoreOne(tickets[i]);
      if s.Err? {
        MapAllErrSticky(tickets, ScoreOne, i + 1);
        return Err(s.error);
      }
      scored := scored + [s.value];
    }
    assert tickets[..|tickets|] == tickets;
    forall k
      ensures WithKey(SortByRisk(scored), k) == WithKey(scored, k)
    {
      SortByRiskStable(scored, k);
    }
    r := Ok(SortByRisk(scored));
  }
}
