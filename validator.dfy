/** The record and dataset validator (`DataValidator`): which rules run on a
    record of each dataset type, in what order, what issue each failure logs,
    and the issue log of a whole dataset. */
module Validator {
  import opened Values
  import opened Rules
  import opened Policies

  /** One row: column name to cell. A missing key is a column the dataset lacks. */
  type Record = map<string, Raw>

  /** An issue as a record validator reports it. */
  datatype Issue = Issue(issueType: IssueType, issueDetail: Detail, actionTaken: Action)

  /** An issue in the dataset log, stamped with the identifier of its row. */
  datatype LoggedIssue =
    LoggedIssue(recordIdentifier: Raw, issueType: IssueType, issueDetail: Detail, actionTaken: Action)

  /** `record.get(key)`: the cell, or None when the column is absent. */
  function Get(r: Record, key: string): (v: Raw)
    ensures key !in r ==> v.Null?
    ensures IsNa(v) <==> key !in r || IsNa(r[key])
  {
    if key in r then r[key] else Null
  }

  /** The issue a failed verdict logs, or none. */
  function Flag(v: Verdict, t: IssueType, a: Action): seq<Issue>
  {
    if v.Invalid? then [Issue(t, v.detail, a)] else []
  }

  /** A one-cell rule, run only when its column is present. */
  function Checked(r: Record, key: string, rule: Raw -> Verdict, t: IssueType, a: Action): seq<Issue>
  {
    if key in r then Flag(rule(r[key]), t, a) else []
  }

  /** The column is present and its rule rejects it. */
  predicate Fails(r: Record, key: string, rule: Raw -> Verdict)
    ensures Fails(r, key, rule) ==> key in r
  {
    key in r && rule(r[key]).Invalid?
  }

  /** Both cost columns are present and the cost exceeds the price. */
  predicate CostFails(r: Record)
    ensures CostFails(r) <==>
      "unit_cost_aed" in r && "base_price_aed" in r
      && Coerce(r["unit_cost_aed"]).Some? && Coerce(r["base_price_aed"]).Some?
      && Less(Coerce(r["base_price_aed"]).value, Coerce(r["unit_cost_aed"]).value)
  {
    "unit_cost_aed" in r && "base_price_aed" in r
    && ValidateCostConstraint(r["unit_cost_aed"], r["base_price_aed"]).Invalid?
  }

  /** The cost rule, run only when both cost columns are present. */
  function CostCheck(r: Record): (found: seq<Issue>)
    ensures found != [] <==> CostFails(r)
    ensures found != [] ==>
      found == [Issue(ConstraintViolation, ValidateCostConstraint(r["unit_cost_aed"], r["base_price_aed"]).detail, Cap)]
  {
    if "unit_cost_aed" in r && "base_price_aed" in r then
      Flag(ValidateCostConstraint(r["unit_cost_aed"], r["base_price_aed"]), ConstraintViolation, Cap)
    else []
  }

  /** The missing-value check: logged when the column is absent or NA. */
  function Missing(r: Record, key: string, message: string): (found: seq<Issue>)
    ensures found != [] <==> key !in r || IsNa(r[key])
    ensures found != [] ==> found == [Issue(MissingValue, Literal(message), Impute)]
  {
    if IsNa(Get(r, key)) then [Issue(MissingValue, Literal(message), Impute)] else []
  }

  /** The issues of a sales record: the eight checks in the order
      `validate_sales_record` runs them, each contributing at most one issue. */
  function SalesIssues(r: Record): seq<Issue>
  {
    Checked(r, "order_time", ValidateTimestamp, InvalidTimestamp, Drop)
    + Checked(r, "selling_price_aed", ValidatePrice, OutlierValue, Cap)
    + Checked(r, "qty", ValidateQuantity, OutlierValue, Cap)
    + Checked(r, "city", ValidateCity, InvalidCity, Correct)
    + Checked(r, "channel", ValidateChannel, InvalidChannel, Correct)
    + Checked(r, "payment_status", ValidatePaymentStatus, InvalidValue, Correct)
    + CostCheck(r)
    + Missing(r, "discount_pct", "Missing discount_pct")
  }

  /** The issues of an inventory record. */
  function InventoryIssues(r: Record): seq<Issue>
  {
    Checked(r, "stock_on_hand", ValidateStock, ImpossibleValue, Correct)
  }

  /** The issues of a product record. */
  function ProductsIssues(r: Record): seq<Issue>
  {
    Missing(r, "unit_cost_aed", "Missing unit_cost_aed") + CostCheck(r)
  }

  /** Dispatch on the dataset type; any other type gets no rules. */
  function RecordIssues(r: Record, datasetType: string): seq<Issue>
  {
    if datasetType == "sales" then SalesIssues(r)
    else if datasetType == "inventory" then InventoryIssues(r)
    else if datasetType == "products" then ProductsIssues(r)
    else []
  }

  // ---------------------------------------------------------------------------
  // What the record validators promise

  /** The number of issues of type t. */
  function Count(s: seq<Issue>, t: IssueType): nat
  {
    if s == [] then 0 else (if s[0].issueType == t then 1 else 0) + Count(s[1..], t)
  }

  function Indicator(b: bool): nat
  {
    if b then 1 else 0
  }

  lemma {:induction false} CountAppend(a: seq<Issue>, b: seq<Issue>, t: IssueType)
    ensures Count(a + b, t) == Count(a, t) + Count(b, t)
  {
    if a == [] {
      assert a + b == b;
    } else {
      assert (a + b)[0] == a[0];
      assert (a + b)[1..] == a[1..] + b;
      CountAppend(a[1..], b, t);
    }
  }

  lemma CountFlag(v: Verdict, t: IssueType, a: Action)
    ensures forall u :: Count(Flag(v, t, a), u) == Indicator(v.Invalid? && t == u)
    ensures |Flag(v, t, a)| <= 1
  {
    if v.Invalid? {
      assert Flag(v, t, a)[1..] == [];
    }
  }

  lemma CountChecked(r: Record, key: string, rule: Raw -> Verdict, t: IssueType, a: Action)
    ensures forall u :: Count(Checked(r, key, rule, t, a), u) == Indicator(Fails(r, key, rule) && t == u)
    ensures |Checked(r, key, rule, t, a)| <= 1
  {
    if key in r {
      CountFlag(rule(r[key]), t, a);
    }
  }

  /** A one-cell rule logs an issue exactly when its column is present and the
      rule rejects the cell, and then only that rule's issue with its verdict's detail. */
  lemma CheckedIssue(r: Record, key: string, rule: Raw -> Verdict, t: IssueType, a: Action)
    ensures Checked(r, key, rule, t, a) != [] <==> Fails(r, key, rule)
    ensures Checked(r, key, rule, t, a) != [] ==> Checked(r, key, rule, t, a) == [Issue(t, rule(r[key]).detail, a)]
  {
  }

  lemma CountCostCheck(r: Record)
    ensures forall u :: Count(CostCheck(r), u) == Indicator(CostFails(r) && u == ConstraintViolation)
    ensures |CostCheck(r)| <= 1
  {
    if "unit_cost_aed" in r && "base_price_aed" in r {
      CountFlag(ValidateCostConstraint(r["unit_cost_aed"], r["base_price_aed"]), ConstraintViolation, Cap);
    }
  }

  lemma CountMissing(r: Record, key: string, message: string)
    ensures forall u :: Count(Missing(r, key, message), u) == Indicator(IsNa(Get(r, key)) && u == MissingValue)
    ensures |Missing(r, key, message)| <= 1
  {
    if IsNa(Get(r, key)) {
      assert Missing(r, key, message)[1..] == [];
    }
  }

  /** The count in eight concatenated pieces is the sum of their counts. */
  lemma CountEight(p0: seq<Issue>, p1: seq<Issue>, p2: seq<Issue>, p3: seq<Issue>,
                   p4: seq<Issue>, p5: seq<Issue>, p6: seq<Issue>, p7: seq<Issue>, u: IssueType)
    ensures Count(p0 + p1 + p2 + p3 + p4 + p5 + p6 + p7, u) ==
      Count(p0, u) + Count(p1, u) + Count(p2, u) + Count(p3, u)
      + Count(p4, u) + Count(p5, u) + Count(p6, u) + Count(p7, u)
  {
    var s1 := p0 + p1;
    CountAppend(p0, p1, u);
    var s2 := s1 + p2;
    CountAppend(s1, p2, u);
    var s3 := s2 + p3;
    CountAppend(s2, p3, u);
    var s4 := s3 + p4;
    CountAppend(s3, p4, u);
    var s5 := s4 + p5;
    CountAppend(s4, p5, u);
    var s6 := s5 + p6;
    CountAppend(s5, p6, u);
    CountAppend(s6, p7, u);
  }

  /** The count of type u in a sales record's issues, check by check. */
  lemma SalesCountByCheck(r: Record, u: IssueType)
    ensures Count(SalesIssues(r), u) ==
      Count(Checked(r, "order_time", ValidateTimestamp, InvalidTimestamp, Drop), u)
      + Count(Checked(r, "selling_price_aed", ValidatePrice, OutlierValue, Cap), u)
      + Count(Checked(r, "qty", ValidateQuantity, OutlierValue, Cap), u)
      + Count(Checked(r, "city", ValidateCity, InvalidCity, Correct), u)
      + Count(Checked(r, "channel", ValidateChannel, InvalidChannel, Correct), u)
      + Count(Checked(r, "payment_status", ValidatePaymentStatus, InvalidValue, Correct), u)
      + Count(CostCheck(r), u)
      + Count(Missing(r, "discount_pct", "Missing discount_pct"), u)
  {
    CountEight(Checked(r, "order_time", ValidateTimestamp, InvalidTimestamp, Drop),
               Checked(r, "selling_price_aed", ValidatePrice, OutlierValue, Cap),
               Checked(r, "qty", ValidateQuantity, OutlierValue, Cap),
               Checked(r, "city", ValidateCity, InvalidCity, Correct),
               Checked(r, "channel", ValidateChannel, InvalidChannel, Correct),
               Checked(r, "payment_status", ValidatePaymentStatus, InvalidValue, Correct),
               CostCheck(r),
               Missing(r, "discount_pct", "Missing discount_pct"), u);
  }

  /** The count of type u in a sales record's issues: one for each failing
      rule of that type. */
  lemma SalesCountByRule(r: Record, u: IssueType)
    ensures Count(SalesIssues(r), u) ==
      Indicator(Fails(r, "order_time", ValidateTimestamp) && u == InvalidTimestamp)
      + Indicator(Fails(r, "selling_price_aed", ValidatePrice) && u == OutlierValue)
      + Indicator(Fails(r, "qty", ValidateQuantity) && u == OutlierValue)
      + Indicator(Fails(r, "city", ValidateCity) && u == InvalidCity)
      + Indicator(Fails(r, "channel", ValidateChannel) && u == InvalidChannel)
      + Indicator(Fails(r, "payment_status", ValidatePaymentStatus) && u == InvalidValue)
      + Indicator(CostFails(r) && u == ConstraintViolation)
      + Indicator(IsNa(Get(r, "discount_pct")) && u == MissingValue)
  {
    SalesCountByCheck(r, u);
    CountChecked(r, "order_time", ValidateTimestamp, InvalidTimestamp, Drop);
    CountChecked(r, "selling_price_aed", ValidatePrice, OutlierValue, Cap);
    CountChecked(r, "qty", ValidateQuantity, OutlierValue, Cap);
    CountChecked(r, "city", ValidateCity, InvalidCity, Correct);
    CountChecked(r, "channel", ValidateChannel, InvalidChannel, Correct);
    CountChecked(r, "payment_status", ValidatePaymentStatus, InvalidValue, Correct);
    CountCostCheck(r);
    CountMissing(r, "discount_pct", "Missing discount_pct");
  }

  /** Every failing sales rule logs exactly one issue of its type, and a rule
      whose column is absent logs nothing. */
  lemma SalesIssueCounts(r: Record)
    ensures Count(SalesIssues(r), InvalidTimestamp) == Indicator(Fails(r, "order_time", ValidateTimestamp))
    ensures Count(SalesIssues(r), OutlierValue) ==
      Indicator(Fails(r, "selling_price_aed", ValidatePrice)) + Indicator(Fails(r, "qty", ValidateQuantity))
    ensures Count(SalesIssues(r), InvalidCity) == Indicator(Fails(r, "city", ValidateCity))
    ensures Count(SalesIssues(r), InvalidChannel) == Indicator(Fails(r, "channel", ValidateChannel))
    ensures Count(SalesIssues(r), InvalidValue) == Indicator(Fails(r, "payment_status", ValidatePaymentStatus))
    ensures Count(SalesIssues(r), ConstraintViolation) == Indicator(CostFails(r))
    ensures Count(SalesIssues(r), MissingValue) == Indicator(IsNa(Get(r, "discount_pct")))
    ensures Count(SalesIssues(r), ImpossibleValue) == 0
  {
    SalesCountByRule(r, InvalidTimestamp);
    SalesCountByRule(r, OutlierValue);
    SalesCountByRule(r, InvalidCity);
    SalesCountByRule(r, InvalidChannel);
    SalesCountByRule(r, InvalidValue);
    SalesCountByRule(r, ConstraintViolation);
    SalesCountByRule(r, MissingValue);
    SalesCountByRule(r, ImpossibleValue);
  }

  /** Every issue has a type, so the issues are the sum of the counts per type. */
  lemma {:induction false} CountsAddUp(s: seq<Issue>)
    ensures |s| == Count(s, InvalidTimestamp) + Count(s, OutlierValue) + Count(s, MissingValue)
      + Count(s, InvalidCity) + Count(s, InvalidChannel) + Count(s, InvalidValue)
      + Count(s, ConstraintViolation) + Count(s, ImpossibleValue)
  {
    if s != [] {
      CountsAddUp(s[1..]);
    }
  }

  /** A sales record yields at most eight issues. */
  lemma SalesIssuesBound(r: Record)
    ensures |SalesIssues(r)| <= 8
  {
    SalesIssueCounts(r);
    CountsAddUp(SalesIssues(r));
  }

  /** The position in `validate_sales_record` of the first rule that logs
      the type; IMPOSSIBLE_VALUE comes from no sales rule. */
  function Rank(t: IssueType): nat
  {
    match t
    case InvalidTimestamp => 0
    case OutlierValue => 1
    case InvalidCity => 3
    case InvalidChannel => 4
    case InvalidValue => 5
    case ConstraintViolation => 6
    case MissingValue => 7
    case ImpossibleValue => 8
  }

  /** The issues are ordered by the position of the rule that logged them. */
  predicate RankSorted(s: seq<Issue>)
  {
    forall i, j :: 0 <= i < j < |s| ==> Rank(s[i].issueType) <= Rank(s[j].issueType)
  }

  predicate RanksAtMost(s: seq<Issue>, k: nat)
  {
    forall i :: 0 <= i < |s| ==> Rank(s[i].issueType) <= k
  }

  /** What one check contributes: nothing, or one issue of type t. */
  predicate Fits(piece: seq<Issue>, t: IssueType)
  {
    piece == [] || (|piece| == 1 && piece[0].issueType == t)
  }

  /** Appending what a later rule contributes keeps the issues ordered. */
  lemma SortedSnoc(s: seq<Issue>, piece: seq<Issue>, k: nat, t: IssueType)
    requires RankSorted(s) && RanksAtMost(s, k) && k <= Rank(t) && Fits(piece, t)
    ensures RankSorted(s + piece) && RanksAtMost(s + piece, Rank(t))
  {
    if piece == [] {
      assert s + piece == s;
    } else {
      assert forall i :: 0 <= i < |s| ==> (s + piece)[i] == s[i];
      assert (s + piece)[|s|] == piece[0];
    }
  }

  /** Eight contributions whose types come in rule order concatenate to
      issues in rule order. */
  lemma SortedEight(p0: seq<Issue>, p1: seq<Issue>, p2: seq<Issue>, p3: seq<Issue>,
                    p4: seq<Issue>, p5: seq<Issue>, p6: seq<Issue>, p7: seq<Issue>,
                    order: seq<IssueType>)
    requires |order| == 8
    requires forall i, j :: 0 <= i < j < 8 ==> Rank(order[i]) <= Rank(order[j])
    requires Fits(p0, order[0]) && Fits(p1, order[1]) && Fits(p2, order[2]) && Fits(p3, order[3])
    requires Fits(p4, order[4]) && Fits(p5, order[5]) && Fits(p6, order[6]) && Fits(p7, order[7])
    ensures RankSorted(p0 + p1 + p2 + p3 + p4 + p5 + p6 + p7)
  {
    SortedSnoc([], p0, 0, order[0]);
    assert [] + p0 == p0;
    SortedSnoc(p0, p1, Rank(order[0]), order[1]);
    SortedSnoc(p0 + p1, p2, Rank(order[1]), order[2]);
    SortedSnoc(p0 + p1 + p2, p3, Rank(order[2]), order[3]);
    SortedSnoc(p0 + p1 + p2 + p3, p4, Rank(order[3]), order[4]);
    SortedSnoc(p0 + p1 + p2 + p3 + p4, p5, Rank(order[4]), order[5]);
    SortedSnoc(p0 + p1 + p2 + p3 + p4 + p5, p6, Rank(order[5]), order[6]);
    SortedSnoc(p0 + p1 + p2 + p3 + p4 + p5 + p6, p7, Rank(order[6]), order[7]);
  }

  /** The order in which `validate_sales_record` runs its rules, by the type each logs. */
  const SalesRuleOrder: seq<IssueType> :=
    [InvalidTimestamp, OutlierValue, OutlierValue, InvalidCity,
     InvalidChannel, InvalidValue, ConstraintViolation, MissingValue]

  lemma CheckedFits(r: Record, key: string, rule: Raw -> Verdict, t: IssueType, a: Action)
    ensures Fits(Checked(r, key, rule, t, a), t)
  {
  }

  /** The issues of a sales record come in the order of the rules that log them. */
  lemma SalesIssuesInRuleOrder(r: Record)
    ensures RankSorted(SalesIssues(r))
  {
    CheckedFits(r, "order_time", ValidateTimestamp, InvalidTimestamp, Drop);
    CheckedFits(r, "selling_price_aed", ValidatePrice, OutlierValue, Cap);
    CheckedFits(r, "qty", ValidateQuantity, OutlierValue, Cap);
    CheckedFits(r, "city", ValidateCity, InvalidCity, Correct);
    CheckedFits(r, "channel", ValidateChannel, InvalidChannel, Correct);
    CheckedFits(r, "payment_status", ValidatePaymentStatus, InvalidValue, Correct);
    assert Fits(CostCheck(r), ConstraintViolation);
    assert Fits(Missing(r, "discount_pct", "Missing discount_pct"), MissingValue);
    SortedEight(Checked(r, "order_time", ValidateTimestamp, InvalidTimestamp, Drop),
                Checked(r, "selling_price_aed", ValidatePrice, OutlierValue, Cap),
                Checked(r, "qty", ValidateQuantity, OutlierValue, Cap),
                Checked(r, "city", ValidateCity, InvalidCity, Correct),
                Checked(r, "channel", ValidateChannel, InvalidChannel, Correct),
                Checked(r, "payment_status", ValidatePaymentStatus, InvalidValue, Correct),
                CostCheck(r),
                Missing(r, "discount_pct", "Missing discount_pct"),
                SalesRuleOrder);
  }

  /** An inventory record has at most one issue: IMPOSSIBLE_VALUE/CORRECT, exactly
      when the stock column is present and fails the stock rule. */
  lemma InventoryIssuesShape(r: Record)
    ensures |InventoryIssues(r)| <= 1
    ensures InventoryIssues(r) != [] <==> Fails(r, "stock_on_hand", ValidateStock)
    ensures forall i :: i in InventoryIssues(r) ==> i.issueType == ImpossibleValue && i.actionTaken == Correct
  {
  }

  /** A product record has MISSING_VALUE/IMPUTE first when the cost is absent or
      NaN, then CONSTRAINT_VIOLATION/CAP when the cost exceeds the price. */
  lemma ProductsIssuesShape(r: Record)
    ensures |ProductsIssues(r)| <= 1
    ensures !(IsNa(Get(r, "unit_cost_aed")) && CostFails(r))
    ensures Count(ProductsIssues(r), MissingValue) == Indicator(IsNa(Get(r, "unit_cost_aed")))
    ensures Count(ProductsIssues(r), ConstraintViolation) == Indicator(CostFails(r))
    ensures IsNa(Get(r, "unit_cost_aed")) ==>
      ProductsIssues(r)[0] == Issue(MissingValue, Literal("Missing unit_cost_aed"), Impute)
    ensures forall i :: i in ProductsIssues(r) ==> i.issueType == MissingValue || i.issueType == ConstraintViolation
  {
    var a := Missing(r, "unit_cost_aed", "Missing unit_cost_aed");
    var b := CostCheck(r);
    CountAppend(a, b, MissingValue);
    CountAppend(a, b, ConstraintViolation);
    CountMissing(r, "unit_cost_aed", "Missing unit_cost_aed");
    CountCostCheck(r);
  }

  /** The action an issue carries is the one its policy prescribes. */
  predicate FollowsPolicy(t: IssueType, a: Action)
  {
    a == GetPolicy(t.Name()).action
  }

  predicate AllFollowPolicy(s: seq<Issue>)
  {
    forall i :: 0 <= i < |s| ==> FollowsPolicy(s[i].issueType, s[i].actionTaken)
  }

  /** The action each issue type is logged with by the record validators. */
  lemma PolicyActions()
    ensures FollowsPolicy(InvalidTimestamp, Drop) && FollowsPolicy(OutlierValue, Cap)
    ensures FollowsPolicy(MissingValue, Impute) && FollowsPolicy(InvalidCity, Correct)
    ensures FollowsPolicy(InvalidChannel, Correct) && FollowsPolicy(InvalidValue, Correct)
    ensures FollowsPolicy(ConstraintViolation, Cap) && FollowsPolicy(ImpossibleValue, Correct)
  {
  }

  lemma FollowAppend(a: seq<Issue>, b: seq<Issue>)
    requires AllFollowPolicy(a) && AllFollowPolicy(b)
    ensures AllFollowPolicy(a + b)
  {
    assert forall i :: |a| <= i < |a + b| ==> (a + b)[i] == b[i - |a|];
  }

  lemma CheckedFollowsPolicy(r: Record, key: string, rule: Raw -> Verdict, t: IssueType, a: Action)
    requires FollowsPolicy(t, a)
    ensures AllFollowPolicy(Checked(r, key, rule, t, a))
  {
  }

  lemma SalesIssuesFollowPolicy(r: Record)
    ensures AllFollowPolicy(SalesIssues(r))
  {
    PolicyActions();
    var p0 := Checked(r, "order_time", ValidateTimestamp, InvalidTimestamp, Drop);
    var p1 := Checked(r, "selling_price_aed", ValidatePrice, OutlierValue, Cap);
    var p2 := Checked(r, "qty", ValidateQuantity, OutlierValue, Cap);
    var p3 := Checked(r, "city", ValidateCity, InvalidCity, Correct);
    var p4 := Checked(r, "channel", ValidateChannel, InvalidChannel, Correct);
    var p5 := Checked(r, "payment_status", ValidatePaymentStatus, InvalidValue, Correct);
    var p6 := CostCheck(r);
    var p7 := Missing(r, "discount_pct", "Missing discount_pct");
    CheckedFollowsPolicy(r, "order_time", ValidateTimestamp, InvalidTimestamp, Drop);
    CheckedFollowsPolicy(r, "selling_price_aed", ValidatePrice, OutlierValue, Cap);
    CheckedFollowsPolicy(r, "qty", ValidateQuantity, OutlierValue, Cap);
    CheckedFollowsPolicy(r, "city", ValidateCity, InvalidCity, Correct);
    CheckedFollowsPolicy(r, "channel", ValidateChannel, InvalidChannel, Correct);
    CheckedFollowsPolicy(r, "payment_status", ValidatePaymentStatus, InvalidValue, Correct);
    assert AllFollowPolicy(p6);
    assert AllFollowPolicy(p7);
    FollowAppend(p0, p1);
    FollowAppend(p0 + p1, p2);
    FollowAppend(p0 + p1 + p2, p3);
    FollowAppend(p0 + p1 + p2 + p3, p4);
    FollowAppend(p0 + p1 + p2 + p3 + p4, p5);
    FollowAppend(p0 + p1 + p2 + p3 + p4 + p5, p6);
    FollowAppend(p0 + p1 + p2 + p3 + p4 + p5 + p6, p7);
  }

  lemma ProductsIssuesFollowPolicy(r: Record)
    ensures AllFollowPolicy(ProductsIssues(r))
  {
    PolicyActions();
    FollowAppend(Missing(r, "unit_cost_aed", "Missing unit_cost_aed"), CostCheck(r));
  }

  /** Every issue a record validator emits carries its policy's action. */
  lemma RecordIssuesFollowPolicy(r: Record, datasetType: string)
    ensures AllFollowPolicy(RecordIssues(r, datasetType))
  {
    if datasetType == "sales" {
      SalesIssuesFollowPolicy(r);
    } else if datasetType == "inventory" {
      PolicyActions();
    } else if datasetType == "products" {
      ProductsIssuesFollowPolicy(r);
    }
  }

  // ---------------------------------------------------------------------------
  // A worked sales record

  /** An over-priced sale with a misspelt city and no channel, payment status,
      timestamp, cost or discount columns. */
  function SampleSale(): Record
  {
    map["selling_price_aed" := Num(Real(15000.0)), "qty" := Num(Real(3.0)), "city" := Text("Dubayy")]
  }

  /** Which columns the sample has, and their cells. */
  lemma SampleSaleCells()
    ensures "order_time" !in SampleSale() && "channel" !in SampleSale()
    ensures "payment_status" !in SampleSale() && "unit_cost_aed" !in SampleSale()
    ensures "discount_pct" !in SampleSale()
    ensures SampleSale()["selling_price_aed"] == Num(Real(15000.0))
    ensures SampleSale()["qty"] == Num(Real(3.0))
    ensures SampleSale()["city"] == Text("Dubayy")
  {
    assert |"order_time"| == 10 && |"channel"| == 7 && |"payment_status"| == 14;
    assert |"unit_cost_aed"| == 13 && |"discount_pct"| == 12;
    assert |"selling_price_aed"| == 17 && |"qty"| == 3 && |"city"| == 4;
  }

  /** The price rule rejects 15000, the quantity rule accepts 3, the city rule rejects "Dubayy". */
  lemma SampleSaleVerdicts()
    ensures ValidatePrice(Num(Real(15000.0))) == Invalid(OutsideRange(0, 10000, Real(15000.0)))
    ensures ValidateQuantity(Num(Real(3.0))) == Valid
    ensures ValidateCity(Text("Dubayy")) == Invalid(NotInSet("city", Text("Dubayy")))
  {
    StripUnpadded("Dubayy");
  }

  /** What each of the eight checks contributes for the sample. */
  lemma SampleSaleChecks()
    ensures Checked(SampleSale(), "order_time", ValidateTimestamp, InvalidTimestamp, Drop) == []
    ensures Checked(SampleSale(), "selling_price_aed", ValidatePrice, OutlierValue, Cap)
      == [Issue(OutlierValue, OutsideRange(0, 10000, Real(15000.0)), Cap)]
    ensures Checked(SampleSale(), "qty", ValidateQuantity, OutlierValue, Cap) == []
    ensures Checked(SampleSale(), "city", ValidateCity, InvalidCity, Correct)
      == [Issue(InvalidCity, NotInSet("city", Text("Dubayy")), Correct)]
    ensures Checked(SampleSale(), "channel", ValidateChannel, InvalidChannel, Correct) == []
    ensures Checked(SampleSale(), "payment_status", ValidatePaymentStatus, InvalidValue, Correct) == []
    ensures CostCheck(SampleSale()) == []
    ensures Missing(SampleSale(), "discount_pct", "Missing discount_pct")
      == [Issue(MissingValue, Literal("Missing discount_pct"), Impute)]
  {
    SampleSaleCells();
    SampleSaleVerdicts();
  }

  /** Empty pieces vanish from a concatenation. */
  lemma AmongEmpty(a: Issue, b: Issue, c: Issue)
    ensures [] + [a] + [] + [b] + [] + [] + [] + [c] == [a, b, c]
  {
  }

  /** The sample logs the price outlier, then the invalid city, then the missing
      discount: the discount check runs even though its column is absent. */
  lemma SampleSaleIssues()
    ensures SalesIssues(SampleSale())
      == [Issue(OutlierValue, OutsideRange(0, 10000, Real(15000.0)), Cap),
          Issue(InvalidCity, NotInSet("city", Text("Dubayy")), Correct),
          Issue(MissingValue, Literal("Missing discount_pct"), Impute)]
  {
    SampleSaleChecks();
    AmongEmpty(Issue(OutlierValue, OutsideRange(0, 10000, Real(15000.0)), Cap),
               Issue(InvalidCity, NotInSet("city", Text("Dubayy")), Correct),
               Issue(MissingValue, Literal("Missing discount_pct"), Impute));
  }

  // ---------------------------------------------------------------------------
  // The dataset log

  /** The synthetic identifier `ROW_<idx>`. */
  function RowLabel(idx: nat): string
  {
    "ROW_" + DecimalText(idx)
  }

  /** Rows told apart only by their position still get distinct identifiers. */
  lemma RowLabelsDistinct(i: nat, j: nat)
    requires RowLabel(i) == RowLabel(j)
    ensures i == j
  {
    assert RowLabel(i)[4..] == DecimalText(i);
    assert RowLabel(j)[4..] == DecimalText(j);
    DecimalTextInjective(i, j);
  }

  /** `order_id or product_id or f'ROW_{idx}'`: the first truthy candidate. */
  function RecordIdentifier(row: Record, idx: nat): (id: Raw)
    ensures Truthy(id)
    ensures Truthy(Get(row, "order_id")) ==> id == Get(row, "order_id")
    ensures !Truthy(Get(row, "order_id")) && Truthy(Get(row, "product_id")) ==> id == Get(row, "product_id")
    ensures !Truthy(Get(row, "order_id")) && !Truthy(Get(row, "product_id")) ==> id == Text(RowLabel(idx))
  {
    var order := Get(row, "order_id");
    var product := Get(row, "product_id");
    if Truthy(order) then order else if Truthy(product) then product else Text(RowLabel(idx))
  }

  /** The issues of one row, each stamped with the row's identifier. */
  function Stamp(id: Raw, issues: seq<Issue>): (log: seq<LoggedIssue>)
    ensures |log| == |issues|
    ensures forall k :: 0 <= k < |issues| ==>
      log[k] == LoggedIssue(id, issues[k].issueType, issues[k].issueDetail, issues[k].actionTaken)
  {
    seq(|issues|, k requires 0 <= k < |issues| =>
      LoggedIssue(id, issues[k].issueType, issues[k].issueDetail, issues[k].actionTaken))
  }

  lemma StampSnoc(id: Raw, issues: seq<Issue>, k: nat)
    requires k < |issues|
    ensures Stamp(id, issues[..k + 1]) == Stamp(id, issues[..k])
      + [LoggedIssue(id, issues[k].issueType, issues[k].issueDetail, issues[k].actionTaken)]
  {
    assert Stamp(id, issues[..k + 1])[k] == Stamp(id, issues)[k];
  }

  function RowLog(row: Record, idx: nat, datasetType: string): seq<LoggedIssue>
  {
    Stamp(RecordIdentifier(row, idx), RecordIssues(row, datasetType))
  }

  /** What each row contributes to the log of a dataset of the given type. */
  function RowLogOf(datasetType: string): (Record, nat) -> seq<LoggedIssue>
  {
    (row: Record, idx: nat) => RowLog(row, idx, datasetType)
  }

  /** The entries of rows whose first one is at position `first`, row after row. */
  function Collect(rows: seq<Record>, first: nat, entries: (Record, nat) -> seq<LoggedIssue>): seq<LoggedIssue>
    decreases |rows|
  {
    if rows == [] then []
    else Collect(rows[..|rows| - 1], first, entries) + entries(rows[|rows| - 1], first + |rows| - 1)
  }

  /** The entries of the first k + 1 rows are those of the first k, then row k's. */
  lemma CollectSnoc(rows: seq<Record>, k: nat, first: nat, entries: (Record, nat) -> seq<LoggedIssue>)
    requires k < |rows|
    ensures Collect(rows[..k + 1], first, entries) == Collect(rows[..k], first, entries) + entries(rows[k], first + k)
  {
    assert rows[..k + 1][..k] == rows[..k];
  }

  lemma RowLogOfApplies(datasetType: string, row: Record, idx: nat)
    ensures RowLogOf(datasetType)(row, idx) == Stamp(RecordIdentifier(row, idx), RecordIssues(row, datasetType))
  {
  }

  /** The result of `validate_dataset`. */
  function DatasetLog(rows: seq<Record>, datasetType: string): seq<LoggedIssue>
  {
    Collect(rows, 0, RowLogOf(datasetType))
  }

  /** Collecting two consecutive chunks separately and concatenating the results
      gives the result for the whole. */
  lemma {:induction false} CollectSplit(a: seq<Record>, b: seq<Record>, first: nat,
                                        entries: (Record, nat) -> seq<LoggedIssue>)
    ensures Collect(a + b, first, entries) == Collect(a, first, entries) + Collect(b, first + |a|, entries)
    decreases |b|
  {
    if b == [] {
      assert a + b == a;
    } else {
      var b' := b[..|b| - 1];
      assert (a + b)[..|a + b| - 1] == a + b';
      assert (a + b)[|a + b| - 1] == b[|b| - 1];
      CollectSplit(a, b', first, entries);
    }
  }

  /** Row i's entries sit between those of the rows before it and after it. */
  lemma CollectAt(rows: seq<Record>, i: nat, first: nat, entries: (Record, nat) -> seq<LoggedIssue>)
    requires i < |rows|
    ensures Collect(rows, first, entries) ==
      Collect(rows[..i], first, entries) + entries(rows[i], first + i) + Collect(rows[i + 1..], first + i + 1, entries)
  {
    assert rows == rows[..i + 1] + rows[i + 1..];
    CollectSplit(rows[..i + 1], rows[i + 1..], first, entries);
    CollectSnoc(rows, i, first, entries);
  }

  /** The log of a dataset is the log of the rows before row i, then row i's
      own issues stamped with its identifier, then the log of the rows after it. */
  lemma LogAtRow(rows: seq<Record>, i: nat, datasetType: string)
    requires i < |rows|
    ensures DatasetLog(rows, datasetType) ==
      DatasetLog(rows[..i], datasetType)
      + Stamp(RecordIdentifier(rows[i], i), RecordIssues(rows[i], datasetType))
      + Collect(rows[i + 1..], i + 1, RowLogOf(datasetType))
  {
    CollectAt(rows, i, 0, RowLogOf(datasetType));
    RowLogOfApplies(datasetType, rows[i], i);
  }

  /** The most issues one record of the type can have. */
  function MaxIssues(datasetType: string): nat
  {
    if datasetType == "sales" then 8
    else if datasetType == "inventory" then 1
    else if datasetType == "products" then 1
    else 0
  }

  lemma RecordIssuesBound(r: Record, datasetType: string)
    ensures |RecordIssues(r, datasetType)| <= MaxIssues(datasetType)
  {
    if datasetType == "sales" {
      SalesIssuesBound(r);
    } else if datasetType == "products" {
      ProductsIssuesShape(r);
    }
  }

  lemma {:induction false} CollectBound(rows: seq<Record>, first: nat,
                                        entries: (Record, nat) -> seq<LoggedIssue>, most: nat)
    requires forall row, idx :: |entries(row, idx)| <= most
    ensures |Collect(rows, first, entries)| <= most * |rows|
    decreases |rows|
  {
    if rows != [] {
      CollectBound(rows[..|rows| - 1], first, entries, most);
      assert most * |rows| == most * (|rows| - 1) + most;
    }
  }

  /** A dataset of n rows has at most 8n issues as sales, n as inventory or as
      products, and none at all under any other type. */
  lemma DatasetLogBound(rows: seq<Record>, datasetType: string)
    ensures |DatasetLog(rows, datasetType)| <= MaxIssues(datasetType) * |rows|
    ensures MaxIssues(datasetType) == 0 <==> datasetType !in {"sales", "inventory", "products"}
    ensures MaxIssues(datasetType) == 0 ==> DatasetLog(rows, datasetType) == []
  {
    var f := RowLogOf(datasetType);
    forall row, idx: nat ensures |f(row, idx)| <= MaxIssues(datasetType) {
      RecordIssuesBound(row, datasetType);
    }
    CollectBound(rows, 0, f, MaxIssues(datasetType));
  }

  predicate LogFollowsPolicy(log: seq<LoggedIssue>)
  {
    forall i :: 0 <= i < |log| ==> FollowsPolicy(log[i].issueType, log[i].actionTaken)
  }

  lemma LogFollowAppend(a: seq<LoggedIssue>, b: seq<LoggedIssue>)
    requires LogFollowsPolicy(a) && LogFollowsPolicy(b)
    ensures LogFollowsPolicy(a + b)
  {
    assert forall i :: |a| <= i < |a + b| ==> (a + b)[i] == b[i - |a|];
  }

  lemma {:induction false} CollectFollowsPolicy(rows: seq<Record>, first: nat,
                                                entries: (Record, nat) -> seq<LoggedIssue>)
    requires forall row, idx :: LogFollowsPolicy(entries(row, idx))
    ensures LogFollowsPolicy(Collect(rows, first, entries))
    decreases |rows|
  {
    if rows != [] {
      CollectFollowsPolicy(rows[..|rows| - 1], first, entries);
      LogFollowAppend(Collect(rows[..|rows| - 1], first, entries), entries(rows[|rows| - 1], first + |rows| - 1));
    }
  }

  /** Every logged issue carries the action its policy prescribes. */
  lemma DatasetLogFollowsPolicy(rows: seq<Record>, datasetType: string)
    ensures LogFollowsPolicy(DatasetLog(rows, datasetType))
  {
    var f := RowLogOf(datasetType);
    forall row, idx: nat ensures LogFollowsPolicy(f(row, idx)) {
      RecordIssuesFollowPolicy(row, datasetType);
    }
    CollectFollowsPolicy(rows, 0, f);
  }

  // ---------------------------------------------------------------------------
  // The validator object

  class DataValidator {
    /** The log of the last `ValidateDataset` call. */
    var issues: seq<LoggedIssue>

    constructor ()
      ensures issues == []
    {
      issues := [];
    }

    /** The step each record validator repeats: when the column is present,
        run its rule and log a failure with the given type and action. */
    method RunRule(record: Record, key: string, rule: Raw -> Verdict, t: IssueType, a: Action)
      returns (piece: seq<Issue>)
      ensures piece == Checked(record, key, rule, t, a)
    {
      piece := [];
      if key in record {
        var verdict := rule(record[key]);
        if verdict.Invalid? {
          piece := [Issue(t, verdict.detail, a)];
        }
      }
    }

    /** The cross-field step: when both cost columns are present, compare them. */
    method RunCostRule(record: Record) returns (piece: seq<Issue>)
      ensures piece == CostCheck(record)
    {
      piece := [];
      if "unit_cost_aed" in record && "base_price_aed" in record {
        var verdict := ValidateCostConstraint(record["unit_cost_aed"], record["base_price_aed"]);
        if verdict.Invalid? {
          piece := [Issue(ConstraintViolation, verdict.detail, Cap)];
        }
      }
    }

    /** The missing-value step: an absent or NA cell is logged for imputation. */
    method RunMissing(record: Record, key: string, message: string) returns (piece: seq<Issue>)
      ensures piece == Missing(record, key, message)
    {
      piece := [];
      if key !in record || IsNa(Get(record, key)) {
        piece := [Issue(MissingValue, Literal(message), Impute)];
      }
    }

    /** `validate_sales_record`: the eight checks in order, each failure appended. */
    method ValidateSalesRecord(record: Record) returns (found: seq<Issue>)
      ensures found == SalesIssues(record)
    {
      found := [];
      var piece := RunRule(record, "order_time", ValidateTimestamp, InvalidTimestamp, Drop);
      found := found + piece;
      assert found == piece;
      piece := RunRule(record, "selling_price_aed", ValidatePrice, OutlierValue, Cap);
      found := found + piece;
      piece := RunRule(record, "qty", ValidateQuantity, OutlierValue, Cap);
      found := found + piece;
      piece := RunRule(record, "city", ValidateCity, InvalidCity, Correct);
      found := found + piece;
      piece := RunRule(record, "channel", ValidateChannel, InvalidChannel, Correct);
      found := found + piece;
      piece := RunRule(record, "payment_status", ValidatePaymentStatus, InvalidValue, Correct);
      found := found + piece;
      piece := RunCostRule(record);
      found := found + piece;
      piece := RunMissing(record, "discount_pct", "Missing discount_pct");
      found := found + piece;
    }

    /** `validate_inventory_record` */
    method ValidateInventoryRecord(record: Record) returns (found: seq<Issue>)
      ensures found == InventoryIssues(record)
    {
      found := RunRule(record, "stock_on_hand", ValidateStock, ImpossibleValue, Correct);
    }

    /** `validate_products_record`: the missing cost first, then the cost constraint. */
    method ValidateProductsRecord(record: Record) returns (found: seq<Issue>)
      ensures found == ProductsIssues(record)
    {
      found := RunMissing(record, "unit_cost_aed", "Missing unit_cost_aed");
      var piece := RunCostRule(record);
      found := found + piece;
    }

    /** The dispatch inside `validate_dataset`: the validator of the dataset
        type, or no issues for any other type. */
    method ValidateRecord(record: Record, datasetType: string) returns (found: seq<Issue>)
      ensures found == RecordIssues(record, datasetType)
    {
      if datasetType == "sales" {
        found := ValidateSalesRecord(record);
      } else if datasetType == "inventory" {
        found := ValidateInventoryRecord(record);
      } else if datasetType == "products" {
        found := ValidateProductsRecord(record);
      } else {
        found := [];
      }
    }

    /** The inner loop of `validate_dataset`: each issue of a row appended to the
        log, in order, with the row's identifier. */
    method AppendStamped(log: seq<LoggedIssue>, recordId: Raw, found: seq<Issue>)
      returns (extended: seq<LoggedIssue>)
      ensures extended == log + Stamp(recordId, found)
    {
      extended := log;
      var k := 0;
      while k < |found|
        invariant 0 <= k <= |found|
        invariant extended == log + Stamp(recordId, found[..k])
      {
        var issue := found[k];
        extended := extended + [LoggedIssue(recordId, issue.issueType, issue.issueDetail, issue.actionTaken)];
        StampSnoc(recordId, found, k);
        k := k + 1;
      }
      assert found[..k] == found;
    }

    /** `validate_dataset`: the rows in order, each row's issues stamped with its
        identifier; the log is also kept in `issues`. */
    method ValidateDataset(df: seq<Record>, datasetType: string := "sales") returns (result: seq<LoggedIssue>)
      modifies this
      ensures result == DatasetLog(df, datasetType)
      ensures issues == result
    {
      ghost var f := RowLogOf(datasetType);
      var validationIssues: seq<LoggedIssue> := [];
      var idx := 0;
      while idx < |df|
        invariant 0 <= idx <= |df|
        invariant validationIssues == Collect(df[..idx], 0, f)
      {
        var row := df[idx];
        var recordId := RecordIdentifier(row, idx);
        var found := ValidateRecord(row, datasetType);
        validationIssues := AppendStamped(validationIssues, recordId, found);
        RowLogOfApplies(datasetType, row, idx);
        CollectSnoc(df, idx, 0, f);
        idx := idx + 1;
      }
      assert df[..idx] == df;
      issues := validationIssues;
      result := validationIssues;
    }
  }

  /** Validating the same rows twice gives the same log both times. */
  method RevalidationAgrees(v: DataValidator, df: seq<Record>, datasetType: string)
    returns (first: seq<LoggedIssue>, second: seq<LoggedIssue>)
    modifies v
    ensures first == second && v.issues == second
  {
    first := v.ValidateDataset(df, datasetType);
    second := v.ValidateDataset(df, datasetType);
  }
}
