/** The bookkeeping around the shopping classifier: the encoding of one
    spreadsheet row as evidence and label, and the sensitivity and
    specificity of a list of predictions. */
module Shopping {
  import opened Outcomes

  // ---------------------------------------------------------------------
  // Months.

  /** The table of `converMonth01`; June is spelled out in full. */
  const MONTHS: map<string, int> := map[
    "Jan" := 0, "Feb" := 1, "Mar" := 2, "Apr" := 3, "May" := 4, "June" := 5,
    "Jul" := 6, "Aug" := 7, "Sep" := 8, "Oct" := 9, "Nov" := 10, "Dec" := 11]

  /** The month names as the spreadsheet writes them, January first. */
  const CALENDAR: seq<string> :=
    ["Jan", "Feb", "Mar", "Apr", "May", "June", "Jul", "Aug", "Sep", "Oct", "Nov", "Dec"]

  /** `converMonth01(month)`: the month's index, or `KeyError` for a name
      the table lacks. */
  function ConvertMonth(month: string): (r: Result<int>)
    ensures r.Ok? <==> month in CALENDAR
    ensures r.Err? ==> r.error == KeyError
    ensures r.Ok? ==> 0 <= r.value < 12 && CALENDAR[r.value] == month
  {
    if month in MONTHS then Ok(MONTHS[month]) else Err(KeyError)
  }

  /** The table numbers the months 0 to 11 in calendar order. */
  lemma MonthsInCalendarOrder(i: int)
    requires 0 <= i < 12
    ensures ConvertMonth(CALENDAR[i]) == Ok(i)
  {
  }

  /** Different month names get different indices. */
  lemma MonthsOneToOne(a: string, b: string)
    requires ConvertMonth(a).Ok? && ConvertMonth(b).Ok?
    ensures ConvertMonth(a) == ConvertMonth(b) ==> a == b
  {
  }

  /** The three-letter `Jun` is not in the table. */
  lemma JunIsKeyError()
    ensures ConvertMonth("Jun") == Err(KeyError)
  {
    assert "Jun" !in CALENDAR;
  }

  // ---------------------------------------------------------------------
  // Rows, evidence and labels.

  /** One row of the spreadsheet, with the numeric fields already parsed. */
  datatype Row = Row(
    month: string,
    administrative: int, administrativeDuration: real,
    informational: int, informationalDuration: real,
    productRelated: int, productRelatedDuration: real,
    bounceRates: real, exitRates: real, pageValues: real, specialDay: real,
    operatingSystems: int, browser: int, region: int, trafficType: int,
    visitorType: string, weekend: string, revenue: string)

  /** An entry of an evidence list: a Python `int` or `float`. */
  datatype Value = Int(i: int) | Float(x: real)

  /** The 0/1 flag of a string field: 1 exactly for the one marked value. */
  function Flag(field: string, marked: string): (r: int)
    ensures r == 0 || r == 1
    ensures r == 1 <==> field == marked
  {
    if field == marked then 1 else 0
  }

  function VisitorFlag(row: Row): (r: int)
    ensures (r == 1 <==> row.visitorType == "Returning_Visitor") && (r == 0 <==> row.visitorType != "Returning_Visitor")
  {
    Flag(row.visitorType, "Returning_Visitor")
  }

  function WeekendFlag(row: Row): (r: int)
    ensures (r == 1 <==> row.weekend == "TRUE") && (r == 0 <==> row.weekend != "TRUE")
  {
    Flag(row.weekend, "TRUE")
  }

  /** The label of a row: 1 when Revenue is `TRUE`, 0 otherwise. */
  function Label(row: Row): (r: int)
    ensures (r == 1 <==> row.revenue == "TRUE") && (r == 0 <==> row.revenue != "TRUE")
  {
    Flag(row.revenue, "TRUE")
  }

  /** The evidence list of a row, in the order `load_data` builds it: the
      month index first, then the fourteen numeric fields, then the two
      flags. */
  function Evidence(row: Row): (r: Result<seq<Value>>)
    ensures r.Ok? <==> row.month in CALENDAR
    ensures r.Err? ==> r.error == KeyError
    ensures r.Ok? ==> |r.value| == 17
    ensures r.Ok? ==> r.value[0] == Int(ConvertMonth(row.month).value) && 0 <= ConvertMonth(row.month).value < 12
    ensures r.Ok? ==> r.value[15] == Int(VisitorFlag(row)) && r.value[16] == Int(WeekendFlag(row))
  {
    match ConvertMonth(row.month)
    case Err(e) => Err(e)
    case Ok(m) =>
      Ok([Int(m),
          Int(row.administrative), Float(row.administrativeDuration),
          Int(row.informational), Float(row.informationalDuration),
          Int(row.productRelated), Float(row.productRelatedDuration),
          Float(row.bounceRates), Float(row.exitRates), Float(row.pageValues), Float(row.specialDay),
          Int(row.operatingSystems), Int(row.browser), Int(row.region), Int(row.trafficType),
          Int(VisitorFlag(row)), Int(WeekendFlag(row))])
  }

  /** The fourteen numeric fields follow the month, each at its own
      position and with its own type. */
  lemma EvidenceFields(row: Row)
    requires row.month in CALENDAR
    ensures var e := Evidence(row).value;
      && e[1] == Int(row.administrative) && e[2] == Float(row.administrativeDuration)
      && e[3] == Int(row.informational) && e[4] == Float(row.informationalDuration)
      && e[5] == Int(row.productRelated) && e[6] == Float(row.productRelatedDuration)
      && e[7] == Float(row.bounceRates) && e[8] == Float(row.exitRates)
      && e[9] == Float(row.pageValues) && e[10] == Float(row.specialDay)
      && e[11] == Int(row.operatingSystems) && e[12] == Int(row.browser)
      && e[13] == Int(row.region) && e[14] == Int(row.trafficType)
  {
  }

  /** What `load_data` returns: the evidence lists and the labels. */
  datatype Dataset = Dataset(evidence: seq<seq<Value>>, labels: seq<int>)

  /** The row loop of `load_data`: one evidence list and one label per row,
      in lockstep; a row with an unknown month raises `KeyError`. */
  method LoadData(rows: seq<Row>) returns (r: Result<Dataset>)
    ensures r.Ok? <==> forall i | 0 <= i < |rows| :: rows[i].month in CALENDAR
    ensures r.Err? ==> r.error == KeyError
    ensures r.Ok? ==> |r.value.evidence| == |rows| && |r.value.labels| == |rows|
    ensures r.Ok? ==> forall i | 0 <= i < |rows| ::
      r.value.evidence[i] == Evidence(rows[i]).value && r.value.labels[i] == Label(rows[i])
  {
    var intEvidenceData: seq<seq<Value>> := [];
    var intLabelData: seq<int> := [];
    for k := 0 to |rows|
      invariant forall i | 0 <= i < k :: rows[i].month in CALENDAR
      invariant |intEvidenceData| == k && |intLabelData| == k
      invariant forall i | 0 <= i < k :: intEvidenceData[i] == Evidence(rows[i]).value && intLabelData[i] == Label(rows[i])
    {
      var evidence := Evidence(rows[k]);
      if evidence.Err? {
        return Err(evidence.error);
      }
      intEvidenceData := intEvidenceData + [evidence.value];
      intLabelData := intLabelData + [Label(rows[k])];
    }
    return Ok(Dataset(intEvidenceData, intLabelData));
  }

  /** Every label `load_data` produces is 0 or 1, and every evidence list
      has 17 entries with the month index first. */
  lemma LoadedShapes(rows: seq<Row>, data: Dataset)
    requires forall i | 0 <= i < |rows| :: rows[i].month in CALENDAR
    requires |data.evidence| == |rows| && |data.labels| == |rows|
    requires forall i | 0 <= i < |rows| :: data.evidence[i] == Evidence(rows[i]).value && data.labels[i] == Label(rows[i])
    ensures forall i | 0 <= i < |rows| :: data.labels[i] == 0 || data.labels[i] == 1
    ensures forall i | 0 <= i < |rows| :: |data.evidence[i]| == 17 && data.evidence[i][0].Int? && 0 <= data.evidence[i][0].i < 12
  {
    forall i | 0 <= i < |rows|
      ensures |data.evidence[i]| == 17 && data.evidence[i][0].Int? && 0 <= data.evidence[i][0].i < 12
    {
      assert Evidence(rows[i]).Ok?;
    }
  }

  // ---------------------------------------------------------------------
  // Sensitivity and specificity.

  /** `zip(labels, predictions)`: the pairs up to the shorter length. */
  function Zip(labels: seq<int>, predictions: seq<int>): (ps: seq<(int, int)>)
    ensures |ps| == if |labels| <= |predictions| then |labels| else |predictions|
    ensures forall i | 0 <= i < |ps| :: ps[i] == (labels[i], predictions[i])
  {
    if |labels| == 0 || |predictions| == 0 then []
    else [(labels[0], predictions[0])] + Zip(labels[1..], predictions[1..])
  }

  /** How many pairs have actual label `l` and predicted label `p`. */
  function Count(ps: seq<(int, int)>, l: int, p: int): (n: nat)
    ensures n <= |ps|
  {
    if |ps| == 0 then 0
    else Count(ps[..|ps| - 1], l, p) + (if ps[|ps| - 1] == (l, p) then 1 else 0)
  }

  /** A pair both of whose labels are 0 or 1. */
  predicate Binary(pair: (int, int))
  {
    (pair.0 == 0 || pair.0 == 1) && (pair.1 == 0 || pair.1 == 1)
  }

  /** How many pairs are not binary. */
  function Others(ps: seq<(int, int)>): (n: nat)
    ensures n <= |ps|
  {
    if |ps| == 0 then 0
    else Others(ps[..|ps| - 1]) + (if Binary(ps[|ps| - 1]) then 0 else 1)
  }

  /** Every pair falls in exactly one of the four cells or in none: the four
      counts and the non-binary pairs add up to the number of pairs. */
  lemma {:induction false} CountsPartition(ps: seq<(int, int)>)
    ensures Count(ps, 1, 1) + Count(ps, 1, 0) + Count(ps, 0, 1) + Count(ps, 0, 0) + Others(ps) == |ps|
  {
    if |ps| > 0 {
      CountsPartition(ps[..|ps| - 1]);
    }
  }

  /** With 0/1 labels the four counts add up to the shorter length. */
  lemma {:induction false} BinaryCountsTotal(labels: seq<int>, predictions: seq<int>)
    requires forall i | 0 <= i < |labels| :: labels[i] == 0 || labels[i] == 1
    requires forall i | 0 <= i < |predictions| :: predictions[i] == 0 || predictions[i] == 1
    ensures var ps := Zip(labels, predictions);
      Count(ps, 1, 1) + Count(ps, 1, 0) + Count(ps, 0, 1) + Count(ps, 0, 0)
      == if |labels| <= |predictions| then |labels| else |predictions|
  {
    var ps := Zip(labels, predictions);
    CountsPartition(ps);
    NoOthers(ps);
  }

  lemma {:induction false} NoOthers(ps: seq<(int, int)>)
    requires forall i | 0 <= i < |ps| :: Binary(ps[i])
    ensures Others(ps) == 0
  {
    if |ps| > 0 {
      NoOthers(ps[..|ps| - 1]);
    }
  }

  /** A pair whose label or prediction is not 0/1 adds to none of the four
      counts. */
  lemma NonBinaryIgnored(ps: seq<(int, int)>, pair: (int, int), l: int, p: int)
    requires !Binary(pair) && (l == 0 || l == 1) && (p == 0 || p == 1)
    ensures Count(ps + [pair], l, p) == Count(ps, l, p)
  {
    assert (ps + [pair])[..|ps|] == ps;
  }

  /** With 0/1 predictions, there is neither a true positive nor a false
      negative exactly when no pair has actual label 1. */
  lemma {:induction false} NoPositives(ps: seq<(int, int)>)
    requires forall i | 0 <= i < |ps| :: ps[i].1 == 0 || ps[i].1 == 1
    ensures Count(ps, 1, 1) + Count(ps, 1, 0) == 0 <==> forall i | 0 <= i < |ps| :: ps[i].0 != 1
  {
    if |ps| > 0 {
      var init := ps[..|ps| - 1];
      NoPositives(init);
      assert forall i | 0 <= i < |init| :: init[i] == ps[i];
    }
  }

  /** With 0/1 predictions, there is neither a true negative nor a false
      positive exactly when no pair has actual label 0. */
  lemma {:induction false} NoNegatives(ps: seq<(int, int)>)
    requires forall i | 0 <= i < |ps| :: ps[i].1 == 0 || ps[i].1 == 1
    ensures Count(ps, 0, 0) + Count(ps, 0, 1) == 0 <==> forall i | 0 <= i < |ps| :: ps[i].0 != 0
  {
    if |ps| > 0 {
      var init := ps[..|ps| - 1];
      NoNegatives(init);
      assert forall i | 0 <= i < |init| :: init[i] == ps[i];
    }
  }

  /** One more pair adds one to the count of its own cell only. */
  lemma CountAppend(ps: seq<(int, int)>, k: int, l: int, p: int)
    requires 0 <= k < |ps|
    ensures Count(ps[..k + 1], l, p) == Count(ps[..k], l, p) + (if ps[k] == (l, p) then 1 else 0)
  {
    assert ps[..k + 1][..k] == ps[..k];
  }

  /** A share `a / (a + b)` of two counts lies in [0, 1]. */
  lemma ShareInUnit(a: nat, b: nat)
    requires a + b > 0
    ensures 0.0 <= (a as real) / ((a + b) as real) <= 1.0
  {
  }

  /** The counting loop of `evaluate`: the four cells of the confusion
      matrix over the zipped pairs. */
  method ConfusionCounts(labels: seq<int>, predictions: seq<int>) returns (tp: nat, fn: nat, fp: nat, tn: nat)
    ensures var ps := Zip(labels, predictions);
      tp == Count(ps, 1, 1) && fn == Count(ps, 1, 0) && fp == Count(ps, 0, 1) && tn == Count(ps, 0, 0)
  {
    ghost var ps := Zip(labels, predictions);
    var n := if |labels| <= |predictions| then |labels| else |predictions|;
    tp, fn, fp, tn := 0, 0, 0, 0;
    for k := 0 to n
      invariant tp == Count(ps[..k], 1, 1) && fn == Count(ps[..k], 1, 0)
      invariant fp == Count(ps[..k], 0, 1) && tn == Count(ps[..k], 0, 0)
    {
      var trueLabel, predictedLabel := labels[k], predictions[k];
      assert ps[k] == (trueLabel, predictedLabel);
      CountAppend(ps, k, 1, 1);
      CountAppend(ps, k, 1, 0);
      CountAppend(ps, k, 0, 1);
      CountAppend(ps, k, 0, 0);
      if trueLabel == 1 && predictedLabel == 1 {
        tp := tp + 1;
      } else if trueLabel == 1 && predictedLabel == 0 {
        fn := fn + 1;
      } else if trueLabel == 0 && predictedLabel == 1 {
        fp := fp + 1;
      } else if trueLabel == 0 && predictedLabel == 0 {
        tn := tn + 1;
      }
    }
    assert ps[..n] == ps;
  }

  /** The two ratios of `evaluate`: the true positive rate and the true
      negative rate, each a share in [0, 1]; either denominator being zero
      raises `ZeroDivisionError`. */
  function Rates(tp: nat, fn: nat, fp: nat, tn: nat): (r: Result<(real, real)>)
    ensures r.Err? <==> tp + fn == 0 || tn + fp == 0
    ensures r.Err? ==> r.error == ZeroDivisionError
    ensures r.Ok? ==> 0.0 <= r.value.0 <= 1.0 && 0.0 <= r.value.1 <= 1.0
    ensures r.Ok? ==> r.value.0 * ((tp + fn) as real) == tp as real && r.value.1 * ((tn + fp) as real) == tn as real
  {
    if tp + fn == 0 || tn + fp == 0 then Err(ZeroDivisionError)
    else
      ShareInUnit(tp, fn);
      ShareInUnit(tn, fp);
      Ok(((tp as real) / ((tp + fn) as real), (tn as real) / ((tn + fp) as real)))
  }

  /** `evaluate(labels, predictions)`: the counts of the zipped pairs, then
      the two rates. */
  method Evaluate(labels: seq<int>, predictions: seq<int>) returns (r: Result<(real, real)>)
    ensures var ps := Zip(labels, predictions);
      r == Rates(Count(ps, 1, 1), Count(ps, 1, 0), Count(ps, 0, 1), Count(ps, 0, 0))
  {
    var truePositive, falseNegative, falsePositive, trueNegative := ConfusionCounts(labels, predictions);
    r := Rates(truePositive, falseNegative, falsePositive, trueNegative);
  }
}
