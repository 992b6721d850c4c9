/** The arithmetic of `tool_get_spend_summary` and the currency parsing of
    `tool_get_client_detail`, with the Airtable reads and the clock taken as
    inputs. Amounts are whole dollars. */
module Spend {
  import opened Wrappers
  import opened JsonValue
  import opened Text
  import opened Numeral

  /** The four calendar-quarter buckets a client's spend is kept in. */
  datatype Quarter = JanMar | AprJun | JulSep | OctDec

  /** The Airtable column (and `period` argument) naming a bucket. */
  function QuarterKey(q: Quarter): string
  {
    match q
    case JanMar => "JAN-MAR"
    case AprJun => "APR-JUN"
    case JulSep => "JUL-SEP"
    case OctDec => "OCT-DEC"
  }

  /** `period in ['JAN-MAR', 'APR-JUN', 'JUL-SEP', 'OCT-DEC']`, and which one. */
  function QuarterByKey(key: string): Option<Quarter>
  {
    if key == "JAN-MAR" then Some(JanMar)
    else if key == "APR-JUN" then Some(AprJun)
    else if key == "JUL-SEP" then Some(JulSep)
    else if key == "OCT-DEC" then Some(OctDec)
    else None
  }

  /** Reading a key back gives its bucket, and only the four keys name a bucket. */
  lemma QuarterKeyRoundTrip(q: Quarter, key: string)
    ensures QuarterByKey(QuarterKey(q)) == Some(q)
    ensures QuarterByKey(key) == Some(q) <==> key == QuarterKey(q)
  {
  }

  /** The first month (1..12) of a bucket: the reference definition of the tables. */
  function FirstMonth(q: Quarter): int
  {
    match q
    case JanMar => 1
    case AprJun => 4
    case JulSep => 7
    case OctDec => 10
  }

  /** `calendar_quarters[month]`: the bucket holding the month. */
  function CalendarQuarter(month: int): (q: Quarter)
    requires 1 <= month <= 12
    ensures FirstMonth(q) <= month < FirstMonth(q) + 3
  {
    if month <= 3 then JanMar
    else if month <= 6 then AprJun
    else if month <= 9 then JulSep
    else OctDec
  }

  /** `prev_quarters[q]`: the bucket that ends the month before `q` starts. */
  function PreviousQuarter(q: Quarter): (p: Quarter)
    ensures FirstMonth(p) == (FirstMonth(q) + 8) % 12 + 1
  {
    match q
    case JanMar => OctDec
    case AprJun => JanMar
    case JulSep => AprJun
    case OctDec => JulSep
  }

  /** `prev_quarters` is a single 4-cycle. */
  lemma PreviousQuarterCycle(q: Quarter)
    ensures PreviousQuarter(PreviousQuarter(PreviousQuarter(PreviousQuarter(q)))) == q
    ensures PreviousQuarter(q) != q && PreviousQuarter(PreviousQuarter(q)) != q
  {
  }

  /** The previous bucket is the one holding the month three months earlier. */
  lemma PreviousQuarterIsThreeMonthsBack(month: int)
    requires 1 <= month <= 12
    ensures PreviousQuarter(CalendarQuarter(month)) == CalendarQuarter(if month > 3 then month - 3 else month + 9)
  {
    var p := PreviousQuarter(CalendarQuarter(month));
    var back := CalendarQuarter(if month > 3 then month - 3 else month + 9);
    assert FirstMonth(p) == FirstMonth(back);
  }

  /** `now.strftime('%B')` in the C locale. */
  function MonthName(month: int): string
    requires 1 <= month <= 12
  {
    ["January", "February", "March", "April", "May", "June", "July",
     "August", "September", "October", "November", "December"][month - 1]
  }

  /** `int(current_quarter.replace('Q', '') or 1)`, then one quarter back with
      Q1 wrapping to Q4: the label of the `last_quarter` period. */
  function LastQuarterLabel(currentQuarter: string): (r: Result<string, string>)
    ensures RemoveChar(currentQuarter, 'Q') == [] ==> r == Success("Q4")
    ensures RemoveChar(currentQuarter, 'Q') != [] ==>
              (r.Failure? <==> ParseInt(RemoveChar(currentQuarter, 'Q')).None?)
    ensures r.Failure? ==> r.error == IntError(RemoveChar(currentQuarter, 'Q'))
    ensures r.Success? && RemoveChar(currentQuarter, 'Q') != [] ==>
              var k := ParseInt(RemoveChar(currentQuarter, 'Q')).value;
              r.value == "Q" + Decimal(if k > 1 then k - 1 else 4)
  {
    var digits := RemoveChar(currentQuarter, 'Q');
    var n := if digits == [] then Some(1) else ParseInt(digits);
    match n
    case None => Failure(IntError(digits))
    case Some(k) =>
      assert "Q" + Decimal(4) == "Q4" by {
        assert DigitChar(4) == '4';
        assert Decimal(4) == "4";
      }
      Success("Q" + Decimal(if k > 1 then k - 1 else 4))
  }

  lemma QuarterLabelDigits(n: int)
    ensures RemoveChar("Q" + Decimal(n), 'Q') == Decimal(n)
  {
    RemoveCharAppend("Q", Decimal(n), 'Q');
    assert "Q"[1..] == [];
    assert 'Q' !in Decimal(n) by {
      var m := if n < 0 then -n else n;
      assert AllDigits(Digits(m));
      assert forall i :: 0 <= i < |Digits(m)| ==> Digits(m)[i] != 'Q';
    }
  }

  /** The label of `Qn` is one quarter back, and Q1 goes back to Q4. */
  lemma LastQuarterOfLabel(n: int)
    ensures LastQuarterLabel("Q" + Decimal(n)) == Success("Q" + Decimal(if n > 1 then n - 1 else 4))
  {
    var digits := RemoveChar("Q" + Decimal(n), 'Q');
    assert digits == Decimal(n) && digits != [] by {
      QuarterLabelDigits(n);
    }
    assert ParseInt(digits) == Some(n) by {
      ParseIntDecimal(n);
    }
  }

  /** A client whose current quarter is not set counts as being in Q1. */
  lemma LastQuarterOfUnset()
    ensures LastQuarterLabel("") == Success("Q4")
  {
  }

  /** Stepping back from Q1..Q4 four times comes back to the start. */
  lemma LastQuarterCycle(n: int)
    requires 1 <= n <= 4
    ensures exists l1, l2, l3 ::
              LastQuarterLabel("Q" + Decimal(n)) == Success(l1) &&
              LastQuarterLabel(l1) == Success(l2) &&
              LastQuarterLabel(l2) == Success(l3) &&
              LastQuarterLabel(l3) == Success("Q" + Decimal(n))
  {
    var k1 := if n > 1 then n - 1 else 4;
    var k2 := if k1 > 1 then k1 - 1 else 4;
    var k3 := if k2 > 1 then k2 - 1 else 4;
    var k4 := if k3 > 1 then k3 - 1 else 4;
    assert k4 == n;
    assert LastQuarterLabel("Q" + Decimal(n)) == Success("Q" + Decimal(k1)) by {
      LastQuarterOfLabel(n);
    }
    assert LastQuarterLabel("Q" + Decimal(k1)) == Success("Q" + Decimal(k2)) by {
      LastQuarterOfLabel(k1);
    }
    assert LastQuarterLabel("Q" + Decimal(k2)) == Success("Q" + Decimal(k3)) by {
      LastQuarterOfLabel(k2);
    }
    assert LastQuarterLabel("Q" + Decimal(k3)) == Success("Q" + Decimal(k4)) by {
      LastQuarterOfLabel(k3);
    }
    var l1, l2, l3 := "Q" + Decimal(k1), "Q" + Decimal(k2), "Q" + Decimal(k3);
    assert LastQuarterLabel(l3) == Success("Q" + Decimal(n));
  }

  /** A current quarter whose digits `int()` rejects makes the summary an error. */
  lemma LastQuarterRejects(currentQuarter: string)
    requires RemoveChar(currentQuarter, 'Q') != []
    requires ParseInt(RemoveChar(currentQuarter, 'Q')) == None
    ensures LastQuarterLabel(currentQuarter) == Failure(IntError(RemoveChar(currentQuarter, 'Q')))
  {
  }

  /** `round(spent / budget * 100) if budget > 0 else 0`, rounding half to even
      as Python's `round` does, over exact fractions. */
  function PercentUsed(spent: int, budget: int): (p: int)
    ensures budget <= 0 ==> p == 0
    ensures budget > 0 ==> 2 * Abs(p * budget - 100 * spent) <= budget
    ensures budget > 0 && 2 * Abs(p * budget - 100 * spent) == budget ==> p % 2 == 0
  {
    if budget <= 0 then 0
    else
      var q := (100 * spent) / budget;
      var rem := (100 * spent) % budget;
      assert q * budget == 100 * spent - rem;
      assert (q + 1) * budget == 100 * spent - rem + budget;
      if 2 * rem < budget then q
      else if 2 * rem > budget then q + 1
      else if q % 2 == 0 then q
      else q + 1
  }

  function Abs(x: int): nat
  {
    if x < 0 then -x else x
  }

  /** A spend within budget is between 0 and 100 percent of it. */
  lemma {:induction false} PercentWithinBudget(spent: int, budget: int)
    requires 0 <= spent <= budget && budget > 0
    ensures 0 <= PercentUsed(spent, budget) <= 100
  {
    var p := PercentUsed(spent, budget);
    MulCancel(-1, p, budget);
    MulCancel(p, 101, budget);
  }

  lemma MulCancel(x: int, y: int, b: int)
    requires b > 0 && x * b < y * b
    ensures x < y
  {
  }

  /** 6,200 spent of 10,000 is 62 percent. */
  lemma PercentExample()
    ensures PercentUsed(6200, 10000) == 62
  {
    var p := PercentUsed(6200, 10000);
    assert 2 * Abs(p * 10000 - 620000) <= 10000;
  }

  /** The figures read from a client's Airtable record, once parsed. */
  datatype ClientSpend = ClientSpend(
    name: Json,
    code: string,
    monthlyBudget: int,
    currentQuarter: string,
    rollover: int,
    rolloverUse: string,
    janMar: int,
    aprJun: int,
    julSep: int,
    octDec: int,
    thisMonth: int)
  {
    /** `client_info.get(quarter_key, 0)` */
    function Spent(q: Quarter): int
    {
      match q
      case JanMar => janMar
      case AprJun => aprJun
      case JulSep => julSep
      case OctDec => octDec
    }
  }

  datatype Summary =
    | MonthSummary(client: Json, clientCode: string, monthName: string,
                   budget: int, spent: int, remaining: int, percentUsed: int)
    | QuarterSummary(client: Json, clientCode: string, periodLabel: string,
                     budget: int, spent: int, remaining: int, percentUsed: int,
                     rolloverApplied: bool, rolloverAmount: int)

  /** The `period` argument, classified in the order the source tests it. */
  datatype Period = ThisQuarter | LastQuarter | Bucket(q: Quarter) | ThisMonth | Otherwise

  function PeriodOf(period: Json): Period
  {
    if period == Str("this_quarter") then ThisQuarter
    else if period == Str("last_quarter") then LastQuarter
    else if period.Str? && QuarterByKey(period.s).Some? then Bucket(QuarterByKey(period.s).value)
    else if period == Str("this_month") then ThisMonth
    else Otherwise
  }

  /** The summary of one quarter bucket: three months' budget, plus the rollover
      credit when the client assigned it to this bucket and it is positive. */
  function QuarterReport(c: ClientSpend, q: Quarter, periodName: string): (r: Summary)
    ensures r.QuarterSummary? && r.periodLabel == periodName && r.spent == c.Spent(q)
    ensures r.rolloverApplied <==> c.rolloverUse == QuarterKey(q) && c.rollover > 0
    ensures r.budget == 3 * c.monthlyBudget + (if r.rolloverApplied then c.rollover else 0)
    ensures r.budget >= 3 * c.monthlyBudget
    ensures r.remaining == r.budget - r.spent
    ensures r.budget <= 0 ==> r.percentUsed == 0
    ensures r.budget > 0 ==> 2 * Abs(r.percentUsed * r.budget - 100 * r.spent) <= r.budget
    ensures r.rolloverAmount == if c.rolloverUse == QuarterKey(q) then c.rollover else 0
  {
    var applied := c.rolloverUse == QuarterKey(q) && c.rollover > 0;
    var budget := 3 * c.monthlyBudget + (if applied then c.rollover else 0);
    var spent := c.Spent(q);
    QuarterSummary(c.name, c.code, periodName, budget, spent, budget - spent,
                   PercentUsed(spent, budget), applied,
                   if c.rolloverUse == QuarterKey(q) then c.rollover else 0)
  }

  /** `tool_get_spend_summary` once the client is found, for the month `month`. */
  function SpendSummary(c: ClientSpend, period: Json, month: int): (r: Result<Summary, string>)
    requires 1 <= month <= 12
    ensures r.Failure? <==> PeriodOf(period) == LastQuarter && LastQuarterLabel(c.currentQuarter).Failure?
    ensures r.Success? && PeriodOf(period) == ThisMonth ==>
              r.value.MonthSummary? && r.value.client == c.name && r.value.clientCode == c.code &&
              r.value.monthName == MonthName(month) &&
              r.value.spent == c.thisMonth && r.value.budget == c.monthlyBudget &&
              r.value.remaining == c.monthlyBudget - c.thisMonth &&
              r.value.percentUsed == PercentUsed(c.thisMonth, c.monthlyBudget)
    ensures PeriodOf(period) == ThisQuarter || PeriodOf(period) == Otherwise ==>
              r == Success(QuarterReport(c, CalendarQuarter(month), c.currentQuarter))
    ensures PeriodOf(period).Bucket? ==>
              r == Success(QuarterReport(c, PeriodOf(period).q, QuarterKey(PeriodOf(period).q)))
    ensures PeriodOf(period) == LastQuarter && LastQuarterLabel(c.currentQuarter).Success? ==>
              r == Success(QuarterReport(c, PreviousQuarter(CalendarQuarter(month)), LastQuarterLabel(c.currentQuarter).value))
  {
    var current := CalendarQuarter(month);
    match PeriodOf(period)
    case ThisMonth =>
      Success(MonthSummary(c.name, c.code, MonthName(month), c.monthlyBudget, c.thisMonth,
                           c.monthlyBudget - c.thisMonth, PercentUsed(c.thisMonth, c.monthlyBudget)))
    case ThisQuarter => Success(QuarterReport(c, current, c.currentQuarter))
    case LastQuarter =>
      (match LastQuarterLabel(c.currentQuarter)
       case Failure(e) => Failure(e)
       case Success(periodName) => Success(QuarterReport(c, PreviousQuarter(current), periodName)))
    case Bucket(q) => Success(QuarterReport(c, q, QuarterKey(q)))
    case Otherwise => Success(QuarterReport(c, current, c.currentQuarter))
  }

  /** The bucket a quarterly summary reports: the current one, the one before
      it, or the one named. */
  function SelectedBucket(period: Json, month: int): Quarter
    requires 1 <= month <= 12
  {
    match PeriodOf(period)
    case LastQuarter => PreviousQuarter(CalendarQuarter(month))
    case Bucket(q) => q
    case _ => CalendarQuarter(month)
  }

  /** At the level of the whole tool, every quarterly summary follows the
      rollover rule for the bucket its period selects: the rollover is added
      exactly when `rolloverUse` names that bucket and is positive, and
      remaining is budget minus that bucket's spend. */
  lemma SummaryBucket(c: ClientSpend, period: Json, month: int)
    requires 1 <= month <= 12
    ensures var r := SpendSummary(c, period, month);
            var b := SelectedBucket(period, month);
            r.Success? && r.value.QuarterSummary? ==>
              r.value.spent == c.Spent(b) &&
              (r.value.rolloverApplied <==> c.rolloverUse == QuarterKey(b) && c.rollover > 0) &&
              r.value.budget == 3 * c.monthlyBudget + (if r.value.rolloverApplied then c.rollover else 0) &&
              r.value.remaining == r.value.budget - r.value.spent &&
              r.value.rolloverAmount == (if c.rolloverUse == QuarterKey(b) then c.rollover else 0)
  {
    var r := SpendSummary(c, period, month);
    if r.Success? && r.value.QuarterSummary? {
      var periodName := match PeriodOf(period)
                   case LastQuarter => LastQuarterLabel(c.currentQuarter).value
                   case Bucket(q) => QuarterKey(q)
                   case _ => c.currentQuarter;
      assert r.value == QuarterReport(c, SelectedBucket(period, month), periodName);
    }
  }

  /** The `last_quarter` summary of a client in quarter `Qn` reports the
      previous calendar bucket under the label `Q(n-1)` (`Q4` after Q1). */
  lemma LastQuarterSummary(c: ClientSpend, n: int, month: int)
    requires 1 <= month <= 12
    requires c.currentQuarter == "Q" + Decimal(n)
    ensures SpendSummary(c, Str("last_quarter"), month) ==
            Success(QuarterReport(c, PreviousQuarter(CalendarQuarter(month)), "Q" + Decimal(if n > 1 then n - 1 else 4)))
  {
    LastQuarterOfLabel(n);
    assert PeriodOf(Str("last_quarter")) == LastQuarter;
  }

  /** The monthly summary keeps the same rules as the quarterly one: remaining
      is budget minus spent, and a budget of zero or less reports 0 percent. */
  lemma MonthSummaryRules(c: ClientSpend, month: int)
    requires 1 <= month <= 12
    ensures var r := SpendSummary(c, Str("this_month"), month);
            r.Success? && r.value.MonthSummary? &&
            r.value.monthName == MonthName(month) &&
            r.value.remaining == c.monthlyBudget - c.thisMonth &&
            (c.monthlyBudget <= 0 ==> r.value.percentUsed == 0)
  {
    assert PeriodOf(Str("this_month")) == ThisMonth;
  }

  /** The rollover amount is reported for the bucket it is assigned to even when
      it is not positive and so was not added to the budget. */
  lemma RolloverReportedButNotApplied(c: ClientSpend, q: Quarter)
    requires c.rolloverUse == QuarterKey(q) && c.rollover <= 0
    ensures var r := QuarterReport(c, q, QuarterKey(q));
            !r.rolloverApplied && r.rolloverAmount == c.rollover && r.budget == 3 * c.monthlyBudget
  {
  }

  /** The loop over the Clients table: the index of the first record whose
      "Client code" is `code`, or -1. */
  method FindClient(records: seq<map<string, Json>>, code: string) returns (index: int)
    ensures -1 <= index < |records|
    ensures index >= 0 ==> GetOr(records[index], "Client code", Str("")) == Str(code)
    ensures forall i :: 0 <= i < |records| && (index == -1 || i < index) ==>
              GetOr(records[i], "Client code", Str("")) != Str(code)
  {
    index := -1;
    var i := 0;
    while i < |records|
      invariant 0 <= i <= |records|
      invariant forall j :: 0 <= j < i ==> GetOr(records[j], "Client code", Str("")) != Str(code)
    {
      if GetOr(records[i], "Client code", Str("")) == Str(code) {
        index := i;
        return;
      }
      i := i + 1;
    }
  }
}
