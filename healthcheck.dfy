/**
 * `health_check`: the 18-point data-quality report over a frame. Checks 1-17
 * each count the rows that meet a per-check condition, turn the count into a
 * percentage of the record count and grade it against per-check thresholds;
 * check 18 rolls the PASS count of the first seventeen into an overall band.
 * The report keeps each check's status and the count it graded; the
 * `value` and `message` texts are not modelled.
 */
module HealthCheck {
  import opened Wrappers
  import opened Frames
  import opened Numeric
  import Normalize

  datatype Status = Pass | Warn | Fail | Info | Excellent | Good | Fair | Poor

  /** One entry of the report: a check with its graded count, or the overall roll-up. */
  datatype Entry =
    | Check(name: string, status: Status, count: Option<nat>)
    | Overall(name: string, status: Status, passes: nat, warns: nat, fails: nat)

  const EntryNames: seq<string> := [
    "1_Record_Count", "2_Address_Completeness", "3_ZIP_Validity", "4_Property_Value_Range",
    "5_LTV_Range", "6_Equity_Accuracy", "7_Loan_Date_Format", "8_Loan_Age_Reasonable",
    "9_Duplicate_Detection", "10_Missing_Values", "11_APS_Score_Distribution", "12_Tier_Assignment",
    "13_CCI_Validity", "14_State_Code_Format", "15_Refi_Eligibility", "16_Owner_Name_Present",
    "17_Data_Freshness", "18_Overall_Quality"]

  // Columns read only by the health check.
  const AddressKey := "Property Address"
  const ZipKey := "ZIP"
  const StateKey := "State"
  const OwnerKey := "Owner Name"

  /** The columns whose missing cells check 10 counts, present or not. */
  const CriticalKeys: seq<string> :=
    [AddressKey, ZipKey, Normalize.EstValueKey, Normalize.TotalLoanBalKey, Normalize.LastLoanDateKey]

  // ---------------------------------------------------------------------
  // Counting

  /** The number of `true`s in a boolean mask (`Series.sum()`). */
  function Trues(mask: seq<bool>): (n: nat)
    ensures n <= |mask|
  {
    if mask == [] then 0 else (if mask[0] then 1 else 0) + Trues(mask[1..])
  }

  /** The number of rows satisfying `p`. */
  function CountIf(rows: seq<Row>, p: Row -> bool): (n: nat)
    ensures n <= |rows|
  {
    Trues(seq(|rows|, i requires 0 <= i < |rows| => p(rows[i])))
  }

  lemma {:induction false} TruesAll(mask: seq<bool>)
    ensures Trues(mask) == |mask| <==> forall i :: 0 <= i < |mask| ==> mask[i]
  {
    if mask != [] {
      TruesAll(mask[1..]);
      if forall i :: 0 <= i < |mask| ==> mask[i] {
        assert forall i :: 0 <= i < |mask[1..]| ==> mask[1..][i] by {
          forall i | 0 <= i < |mask[1..]| ensures mask[1..][i] {
            assert mask[1..][i] == mask[i + 1];
          }
        }
      } else {
        var k :| 0 <= k < |mask| && !mask[k];
        if k > 0 {
          assert !mask[1..][k - 1];
        }
      }
    }
  }

  lemma {:induction false} TruesNone(mask: seq<bool>)
    ensures Trues(mask) == 0 <==> forall i :: 0 <= i < |mask| ==> !mask[i]
  {
    if mask != [] {
      TruesNone(mask[1..]);
      if forall i :: 0 <= i < |mask| ==> !mask[i] {
        assert forall i :: 0 <= i < |mask[1..]| ==> !mask[1..][i] by {
          forall i | 0 <= i < |mask[1..]| ensures !mask[1..][i] {
            assert mask[1..][i] == mask[i + 1];
          }
        }
      } else {
        var k :| 0 <= k < |mask| && mask[k];
        if k > 0 {
          assert mask[1..][k - 1];
        }
      }
    }
  }

  /** Two different `true`s make a count of at least two. */
  lemma {:induction false} TruesTwo(mask: seq<bool>, i: nat, j: nat)
    requires i < j < |mask| && mask[i] && mask[j]
    ensures Trues(mask) >= 2
  {
    if i == 0 {
      assert mask[1..][j - 1];
      TruesNone(mask[1..]);
    } else {
      assert mask[1..][i - 1] && mask[1..][j - 1];
      TruesTwo(mask[1..], i - 1, j - 1);
    }
  }

  /** Every row satisfies `p` exactly when all rows are counted. */
  lemma CountIfAll(rows: seq<Row>, p: Row -> bool)
    ensures CountIf(rows, p) == |rows| <==> forall i :: 0 <= i < |rows| ==> p(rows[i])
  {
    var mask := seq(|rows|, i requires 0 <= i < |rows| => p(rows[i]));
    assert forall i :: 0 <= i < |rows| ==> mask[i] == p(rows[i]);
    TruesAll(mask);
  }

  /** No row satisfies `p` exactly when none is counted. */
  lemma CountIfNone(rows: seq<Row>, p: Row -> bool)
    ensures CountIf(rows, p) == 0 <==> forall i :: 0 <= i < |rows| ==> !p(rows[i])
  {
    var mask := seq(|rows|, i requires 0 <= i < |rows| => p(rows[i]));
    assert forall i :: 0 <= i < |rows| ==> mask[i] == p(rows[i]);
    TruesNone(mask);
  }

  /** `count / total * 100`, or 0 for an empty dataset. */
  function Pct(count: nat, total: nat): real {
    if total > 0 then count as real / total as real * 100.0 else 0.0
  }

  /** A percentage threshold read as a whole-number comparison of the count. */
  lemma {:induction false} PctAtLeast(count: nat, total: nat, bound: real)
    requires total > 0
    ensures Pct(count, total) >= bound <==> count as real * 100.0 >= bound * total as real
  {
    var t := total as real;
    var p := Pct(count, total);
    assert p * t == count as real * 100.0;
    if p >= bound {
      assert p * t >= bound * t;
    } else {
      assert p * t < bound * t;
    }
  }

  /** The upper-bound reading of a percentage threshold. */
  lemma {:induction false} PctAtMost(count: nat, total: nat, bound: real)
    requires total > 0
    ensures Pct(count, total) <= bound <==> count as real * 100.0 <= bound * total as real
  {
    var t := total as real;
    var p := Pct(count, total);
    assert p * t == count as real * 100.0;
    if p <= bound {
      assert p * t <= bound * t;
    } else {
      assert p * t > bound * t;
    }
  }

  /** A whole-number threshold read on the count; an empty dataset is 0%. */
  lemma {:induction false} PctAtLeastWhole(count: nat, total: nat, bound: nat)
    ensures total > 0 ==> (Pct(count, total) >= bound as real <==> count * 100 >= bound * total)
    ensures total == 0 ==> (Pct(count, total) >= bound as real <==> bound == 0)
  {
    if total > 0 {
      PctAtLeast(count, total, bound as real);
      assert (count * 100) as real == count as real * 100.0;
      assert (bound * total) as real == bound as real * total as real;
    }
  }

  lemma {:induction false} PctZero(count: nat, total: nat)
    ensures Pct(count, total) == 0.0 <==> total == 0 || count == 0
  {
    if total > 0 {
      PctAtLeast(count, total, 0.0);
      PctAtMost(count, total, 0.0);
    }
  }

  // ---------------------------------------------------------------------
  // Grading

  /** PASS at or above `pass`, WARN at or above `warn`, otherwise FAIL (checks 2-8 and 16). */
  function Graded(pct: real, pass: real, warn: real): Status {
    if pct >= pass then Pass else if pct >= warn then Warn else Fail
  }

  /** PASS at or above 95, otherwise WARN (checks 11-14). */
  function Lenient(pct: real): Status {
    if pct >= 95.0 then Pass else Warn
  }

  /** PASS at or above `pass`, WARN at or above `warn`, otherwise INFO (checks 15 and 17). */
  function Informative(pct: real, pass: real, warn: real): Status {
    if pct >= pass then Pass else if pct >= warn then Warn else Info
  }

  /** Check 9: PASS only without duplicates, WARN below 5%, otherwise FAIL. */
  function DuplicateGrade(pct: real): Status {
    if pct == 0.0 then Pass else if pct < 5.0 then Warn else Fail
  }

  /** Check 10: PASS below 5% missing, WARN below 15%, otherwise FAIL. */
  function MissingGrade(pct: real): Status {
    if pct < 5.0 then Pass else if pct < 15.0 then Warn else Fail
  }

  /**
   * `e` is a three-band grade of its count over `total` records: PASS when at
   * least `pass`% of them are counted, FAIL below `warn`%, WARN between; an
   * empty dataset is 0% and fails.
   */
  predicate GradedAt(e: Entry, total: nat, pass: nat, warn: nat)
    requires e.Check?
  {
    e.count.Some? && e.count.value <= total && e.status in {Pass, Warn, Fail}
    && (total > 0 ==> (e.status == Pass <==> e.count.value * 100 >= pass * total)
                      && (e.status == Fail <==> e.count.value * 100 < warn * total))
    && (total == 0 ==> e.status == Fail)
  }

  /** `e` is a lenient grade of its count: PASS when at least 95% are counted, otherwise WARN. */
  predicate LenientAt(e: Entry, total: nat)
    requires e.Check?
  {
    e.count.Some? && e.count.value <= total && e.status in {Pass, Warn}
    && (e.status == Pass <==> total > 0 && e.count.value * 100 >= 95 * total)
  }

  /** `e` is an informative grade of its count: PASS from `pass`%, WARN from `warn`%, otherwise INFO. */
  predicate InformativeAt(e: Entry, total: nat, pass: nat, warn: nat)
    requires e.Check?
  {
    e.count.Some? && e.count.value <= total && e.status in {Pass, Warn, Info}
    && (total > 0 ==> (e.status == Pass <==> e.count.value * 100 >= pass * total)
                      && (e.status == Info <==> e.count.value * 100 < warn * total))
    && (total == 0 ==> e.status == Info)
  }

  /** Check 18: EXCELLENT at or above 85, GOOD at or above 70, FAIR at or above 50, otherwise POOR. */
  function QualityGrade(quality: real): Status {
    if quality >= 85.0 then Excellent
    else if quality >= 70.0 then Good
    else if quality >= 50.0 then Fair
    else Poor
  }

  // ---------------------------------------------------------------------
  // Row conditions

  predicate Present(r: Row, key: string) {
    !IsNa(Get(r, key))
  }

  predicate IsUpper(c: char) {
    'A' <= c <= 'Z'
  }

  /**
   * `str.match(r'^X{n}$')` on a cell's text: exactly `n` characters with
   * property `ok`, optionally followed by one final newline (where `$` also
   * matches). A missing cell reads as "nan" and never matches.
   */
  predicate Matches(c: Cell, n: nat, ok: char -> bool) {
    c.Text? && (|c.s| == n || (|c.s| == n + 1 && c.s[n] == '\n'))
    && forall i :: 0 <= i < n ==> ok(c.s[i])
  }

  /** `pd.to_numeric(cell, errors='coerce')` without any clean-up. */
  function NumericOf(c: Cell): Option<real> {
    match c
    case Text(s) => ParseDecimal(s)
    case Num(x) => Some(x)
    case _ => None
  }

  predicate ValueInRange(c: Cell) {
    NumericOf(c).Some? && 50000.0 <= NumericOf(c).value <= 10000000.0
  }

  /** `abs((Equity % + LTV %) - 100) < 1`. */
  predicate EquityAccurate(r: Row) {
    var e := Get(r, Normalize.EquityKey);
    var l := Get(r, Normalize.LtvKey);
    e.Num? && l.Num? && -1.0 < e.x + l.x - 100.0 < 1.0
  }

  predicate RefiEligible(r: Row) {
    var l := Get(r, Normalize.LtvKey);
    var a := Get(r, Normalize.AgeKey);
    l.Num? && l.x <= 80.0 && a.Num? && a.x >= 18.0
  }

  predicate OnOrAfter(d: Date, since: Date) {
    d.year > since.year
    || (d.year == since.year && (d.month > since.month || (d.month == since.month && d.day >= since.day)))
  }

  /** A loan date that parses to 2020-01-01 or later. */
  predicate Recent(c: Cell, parse: string -> Option<Date>) {
    var d := ToDatetime(c, parse);
    d.Some? && OnOrAfter(d.value, Date(2020, 1, 1))
  }

  predicate SamePair(a: Row, b: Row) {
    Get(a, AddressKey) == Get(b, AddressKey) && Get(a, ZipKey) == Get(b, ZipKey)
  }

  /** `duplicated(subset=['Property Address', 'ZIP'], keep=False)`: another row has the same pair. */
  predicate Duplicated(rows: seq<Row>, i: nat)
    requires i < |rows|
  {
    exists j :: 0 <= j < |rows| && j != i && SamePair(rows[i], rows[j])
  }

  function DuplicateCount(rows: seq<Row>): nat {
    Trues(seq(|rows|, i requires 0 <= i < |rows| => Duplicated(rows, i)))
  }

  /** Check 4's column: EstValue, else property_value. */
  function ValueColumn(names: seq<string>): string {
    if Normalize.EstValueKey in names then Normalize.EstValueKey else Normalize.PropertyValueKey
  }

  /** Checks 7 and 17's column: LastLoanDate, else loan_date. */
  function DateColumn(names: seq<string>): string {
    if Normalize.LastLoanDateKey in names then Normalize.LastLoanDateKey else Normalize.LoanDateKey
  }

  /** The missing cells in those of `cols` that the frame has, summed column by column. */
  function MissingIn(names: seq<string>, rows: seq<Row>, cols: seq<string>): nat {
    if cols == [] then 0
    else
      var col := cols[|cols| - 1];
      MissingIn(names, rows, cols[..|cols| - 1])
      + (if col in names then CountIf(rows, r => IsNa(Get(r, col))) else 0)
  }

  // ---------------------------------------------------------------------
  // The checks

  /** Check 1: PASS exactly when there is a record, counting them all. */
  function RecordCount(rows: seq<Row>): (e: Entry)
    ensures e.Check? && e.name == EntryNames[0] && e.count == Some(|rows|)
    ensures e.status in {Pass, Fail} && (e.status == Pass <==> |rows| > 0)
  {
    Check(EntryNames[0], if |rows| > 0 then Pass else Fail, Some(|rows|))
  }

  /** A graded check over the rows satisfying `p`, FAIL when its column is absent. */
  function GradedCheck(name: string, present: bool, rows: seq<Row>, p: Row -> bool, pass: nat, warn: nat): (e: Entry)
    requires 0 < warn <= pass
    ensures e.Check? && e.name == name
    ensures !present ==> e.status == Fail && e.count.None?
    ensures present ==> e.count == Some(CountIf(rows, p)) && GradedAt(e, |rows|, pass, warn)
  {
    if present then
      var n := CountIf(rows, p);
      PctAtLeastWhole(n, |rows|, pass);
      PctAtLeastWhole(n, |rows|, warn);
      Check(name, Graded(Pct(n, |rows|), pass as real, warn as real), Some(n))
    else Check(name, Fail, None)
  }

  /** A lenient check over the rows satisfying `p`, FAIL when its column is absent. */
  function LenientCheck(name: string, present: bool, rows: seq<Row>, p: Row -> bool): (e: Entry)
    ensures e.Check? && e.name == name
    ensures !present ==> e.status == Fail && e.count.None?
    ensures present ==> e.count == Some(CountIf(rows, p)) && LenientAt(e, |rows|)
  {
    if present then
      var n := CountIf(rows, p);
      PctAtLeastWhole(n, |rows|, 95);
      Check(name, Lenient(Pct(n, |rows|)), Some(n))
    else Check(name, Fail, None)
  }

  /** An informative check over the rows satisfying `p`, FAIL when its columns are absent. */
  function InformativeCheck(name: string, present: bool, rows: seq<Row>, p: Row -> bool, pass: nat, warn: nat): (e: Entry)
    requires 0 < warn <= pass
    ensures e.Check? && e.name == name
    ensures !present ==> e.status == Fail && e.count.None?
    ensures present ==> e.count == Some(CountIf(rows, p)) && InformativeAt(e, |rows|, pass, warn)
  {
    if present then
      var n := CountIf(rows, p);
      PctAtLeastWhole(n, |rows|, pass);
      PctAtLeastWhole(n, |rows|, warn);
      Check(name, Informative(Pct(n, |rows|), pass as real, warn as real), Some(n))
    else Check(name, Fail, None)
  }

  /** Check 2: records with a property address. */
  function AddressCompleteness(names: seq<string>, rows: seq<Row>): (e: Entry)
    ensures e.Check? && e.name == EntryNames[1]
    ensures !(AddressKey in names) ==> e.status == Fail && e.count.None?
    ensures AddressKey in names ==> GradedAt(e, |rows|, 95, 80)
  {
    GradedCheck(EntryNames[1], AddressKey in names, rows, r => Present(r, AddressKey), 95, 80)
  }

  /** Check 3: records whose ZIP is five digits. */
  function ZipValidity(names: seq<string>, rows: seq<Row>): (e: Entry)
    ensures e.Check? && e.name == EntryNames[2]
    ensures !(ZipKey in names) ==> e.status == Fail && e.count.None?
    ensures ZipKey in names ==> GradedAt(e, |rows|, 95, 80)
  {
    GradedCheck(EntryNames[2], ZipKey in names, rows, r => Matches(Get(r, ZipKey), 5, IsDigit), 95, 80)
  }

  /** Check 4: records whose value column reads as a number from $50,000 to $10,000,000. */
  function ValueRange(names: seq<string>, rows: seq<Row>): (e: Entry)
    ensures e.Check? && e.name == EntryNames[3]
    ensures !(ValueColumn(names) in names) ==> e.status == Fail && e.count.None?
    ensures ValueColumn(names) in names ==> GradedAt(e, |rows|, 90, 70)
  {
    var col := ValueColumn(names);
    GradedCheck(EntryNames[3], col in names, rows, r => ValueInRange(Get(r, col)), 90, 70)
  }

  /** Check 5: records whose LTV % lies within 0 to 100. */
  function LtvRange(names: seq<string>, rows: seq<Row>): (e: Entry)
    ensures e.Check? && e.name == EntryNames[4]
    ensures !(Normalize.LtvKey in names) ==> e.status == Fail && e.count.None?
    ensures Normalize.LtvKey in names ==> GradedAt(e, |rows|, 95, 80)
  {
    GradedCheck(EntryNames[4], Normalize.LtvKey in names, rows,
                r => Normalize.NumIn(Get(r, Normalize.LtvKey), 0.0, 100.0), 95, 80)
  }

  /** Check 6: records whose Equity % and LTV % add up to 100 within one point. */
  function EquityAccuracy(names: seq<string>, rows: seq<Row>): (e: Entry)
    ensures e.Check? && e.name == EntryNames[5]
    ensures !(Normalize.EquityKey in names && Normalize.LtvKey in names) ==> e.status == Fail && e.count.None?
    ensures Normalize.EquityKey in names && Normalize.LtvKey in names ==> GradedAt(e, |rows|, 95, 80)
  {
    GradedCheck(EntryNames[5], Normalize.EquityKey in names && Normalize.LtvKey in names, rows,
                EquityAccurate, 95, 80)
  }

  /** Check 7: records whose loan date converts to a date. */
  function DateFormat(names: seq<string>, rows: seq<Row>, parse: string -> Option<Date>): (e: Entry)
    ensures e.Check? && e.name == EntryNames[6]
    ensures !(DateColumn(names) in names) ==> e.status == Fail && e.count.None?
    ensures DateColumn(names) in names ==> GradedAt(e, |rows|, 90, 70)
  {
    var col := DateColumn(names);
    GradedCheck(EntryNames[6], col in names, rows, r => ToDatetime(Get(r, col), parse).Some?, 90, 70)
  }

  /** Check 8: records whose loan age lies within 0 to 360 months. */
  function AgeReasonable(names: seq<string>, rows: seq<Row>): (e: Entry)
    ensures e.Check? && e.name == EntryNames[7]
    ensures !(Normalize.AgeKey in names) ==> e.status == Fail && e.count.None?
    ensures Normalize.AgeKey in names ==> GradedAt(e, |rows|, 95, 80)
  {
    GradedCheck(EntryNames[7], Normalize.AgeKey in names, rows,
                r => Normalize.NumIn(Get(r, Normalize.AgeKey), 0.0, 360.0), 95, 80)
  }

  /**
   * Check 9: WARN without the address or the ZIP column; otherwise PASS
   * exactly when no record is a duplicate, FAIL from 5% duplicates.
   */
  function Duplicates(names: seq<string>, rows: seq<Row>): (e: Entry)
    ensures e.Check? && e.name == EntryNames[8]
    ensures !(AddressKey in names && ZipKey in names) ==> e.status == Warn && e.count.None?
    ensures AddressKey in names && ZipKey in names ==>
      e.count == Some(DuplicateCount(rows)) && e.status in {Pass, Warn, Fail}
      && (e.status == Pass <==> DuplicateCount(rows) == 0)
      && (e.status == Fail <==> DuplicateCount(rows) * 100 >= 5 * |rows| && DuplicateCount(rows) > 0)
  {
    if AddressKey in names && ZipKey in names then
      var n := DuplicateCount(rows);
      PctZero(n, |rows|);
      PctAtLeastWhole(n, |rows|, 5);
      Check(EntryNames[8], DuplicateGrade(Pct(n, |rows|)), Some(n))
    else Check(EntryNames[8], Warn, None)
  }

  /**
   * Check 10 over `missing` cells out of five critical columns per record:
   * PASS below 5% of those cells, FAIL from 15%; an empty dataset passes.
   */
  function MissingValues(rows: seq<Row>, missing: nat): (e: Entry)
    ensures e.Check? && e.name == EntryNames[9] && e.count == Some(missing) && e.status in {Pass, Warn, Fail}
    ensures e.status == Pass <==> |rows| == 0 || missing * 100 < 25 * |rows|
    ensures e.status == Fail <==> |rows| > 0 && missing * 100 >= 75 * |rows|
  {
    PctAtLeastWhole(missing, |rows| * |CriticalKeys|, 5);
    PctAtLeastWhole(missing, |rows| * |CriticalKeys|, 15);
    Check(EntryNames[9], MissingGrade(Pct(missing, |rows| * |CriticalKeys|)), Some(missing))
  }

  function MissingCritical(names: seq<string>, rows: seq<Row>): nat {
    MissingIn(names, rows, CriticalKeys)
  }

  /** Check 11: records whose APS score lies within 0 to 100. */
  function ScoreDistribution(names: seq<string>, rows: seq<Row>): (e: Entry)
    ensures e.Check? && e.name == EntryNames[10]
    ensures !(Normalize.ScoreKey in names) ==> e.status == Fail && e.count.None?
    ensures Normalize.ScoreKey in names ==> LenientAt(e, |rows|)
  {
    LenientCheck(EntryNames[10], Normalize.ScoreKey in names, rows,
                 r => Normalize.NumIn(Get(r, Normalize.ScoreKey), 0.0, 100.0))
  }

  /** Check 12: records with one of the four tier labels. */
  function TierAssignment(names: seq<string>, rows: seq<Row>): (e: Entry)
    ensures e.Check? && e.name == EntryNames[11]
    ensures !(Normalize.TierKey in names) ==> e.status == Fail && e.count.None?
    ensures Normalize.TierKey in names ==> LenientAt(e, |rows|)
  {
    LenientCheck(EntryNames[11], Normalize.TierKey in names, rows,
                 r => Get(r, Normalize.TierKey).Text? && Get(r, Normalize.TierKey).s in Normalize.TierLabels)
  }

  /** Check 13: records whose CCI lies within 0 to 100. */
  function CciValidity(names: seq<string>, rows: seq<Row>): (e: Entry)
    ensures e.Check? && e.name == EntryNames[12]
    ensures !(Normalize.CciKey in names) ==> e.status == Fail && e.count.None?
    ensures Normalize.CciKey in names ==> LenientAt(e, |rows|)
  {
    LenientCheck(EntryNames[12], Normalize.CciKey in names, rows,
                 r => Normalize.NumIn(Get(r, Normalize.CciKey), 0.0, 100.0))
  }

  /** Check 14: records whose state is two capital letters. */
  function StateFormat(names: seq<string>, rows: seq<Row>): (e: Entry)
    ensures e.Check? && e.name == EntryNames[13]
    ensures !(StateKey in names) ==> e.status == Fail && e.count.None?
    ensures StateKey in names ==> LenientAt(e, |rows|)
  {
    LenientCheck(EntryNames[13], StateKey in names, rows, r => Matches(Get(r, StateKey), 2, IsUpper))
  }

  /** Check 15: records at most 80% LTV with a loan at least 18 months old. */
  function RefiEligibility(names: seq<string>, rows: seq<Row>): (e: Entry)
    ensures e.Check? && e.name == EntryNames[14]
    ensures !(Normalize.LtvKey in names && Normalize.AgeKey in names) ==> e.status == Fail && e.count.None?
    ensures Normalize.LtvKey in names && Normalize.AgeKey in names ==> InformativeAt(e, |rows|, 50, 25)
  {
    InformativeCheck(EntryNames[14], Normalize.LtvKey in names && Normalize.AgeKey in names, rows,
                     RefiEligible, 50, 25)
  }

  /** Check 16: records with an owner name. */
  function OwnerPresent(names: seq<string>, rows: seq<Row>): (e: Entry)
    ensures e.Check? && e.name == EntryNames[15]
    ensures !(OwnerKey in names) ==> e.status == Fail && e.count.None?
    ensures OwnerKey in names ==> GradedAt(e, |rows|, 90, 70)
  {
    GradedCheck(EntryNames[15], OwnerKey in names, rows, r => Present(r, OwnerKey), 90, 70)
  }

  /** Check 17: records whose loan date is 2020-01-01 or later. */
  function Freshness(names: seq<string>, rows: seq<Row>, parse: string -> Option<Date>): (e: Entry)
    ensures e.Check? && e.name == EntryNames[16]
    ensures !(DateColumn(names) in names) ==> e.status == Fail && e.count.None?
    ensures DateColumn(names) in names ==> InformativeAt(e, |rows|, 70, 40)
  {
    var col := DateColumn(names);
    InformativeCheck(EntryNames[16], col in names, rows, r => Recent(Get(r, col), parse), 70, 40)
  }

  /** How many entries carry status `s`. */
  function Tally(entries: seq<Entry>, s: Status): (n: nat)
    ensures n <= |entries|
    ensures n == 0 <==> forall i :: 0 <= i < |entries| ==> entries[i].status != s
    ensures n == |entries| <==> forall i :: 0 <= i < |entries| ==> entries[i].status == s
  {
    if entries == [] then 0 else (if entries[0].status == s then 1 else 0) + Tally(entries[1..], s)
  }

  /** `pass_count / 17 * 100`. */
  function Quality(passes: nat): real {
    passes as real / 17.0 * 100.0
  }

  /**
   * Check 18 over the first seventeen entries: the PASS, WARN and FAIL
   * tallies, graded on the passes, 15 or more EXCELLENT, 12 GOOD, 9 FAIR.
   */
  function OverallQuality(checks: seq<Entry>): (e: Entry)
    ensures e.Overall? && e.name == EntryNames[17]
    ensures e.passes == Tally(checks, Pass) && e.warns == Tally(checks, Warn) && e.fails == Tally(checks, Fail)
    ensures e.status ==
      if e.passes >= 15 then Excellent else if e.passes >= 12 then Good else if e.passes >= 9 then Fair else Poor
  {
    OverallByPasses(Tally(checks, Pass));
    var passes := Tally(checks, Pass);
    Overall(EntryNames[17], QualityGrade(Quality(passes)), passes, Tally(checks, Warn), Tally(checks, Fail))
  }

  /** Checks 1-8. The checks are grouped in three so that each group's contract is proved on its own. */
  function ChecksLow(names: seq<string>, rows: seq<Row>, parse: string -> Option<Date>): (c: seq<Entry>)
    ensures |c| == 8 && forall i :: 0 <= i < 8 ==> c[i].Check? && c[i].name == EntryNames[i]
  {
    [RecordCount(rows), AddressCompleteness(names, rows), ZipValidity(names, rows), ValueRange(names, rows),
     LtvRange(names, rows), EquityAccuracy(names, rows), DateFormat(names, rows, parse), AgeReasonable(names, rows)]
  }

  /** Checks 9 and 10 (see `ChecksLow`). */
  function ChecksMid(names: seq<string>, rows: seq<Row>): (c: seq<Entry>)
    ensures |c| == 2 && forall i :: 0 <= i < 2 ==> c[i].Check? && c[i].name == EntryNames[8 + i]
  {
    [Duplicates(names, rows), MissingValues(rows, MissingCritical(names, rows))]
  }

  /** Checks 11-17 (see `ChecksLow`). */
  function ChecksHigh(names: seq<string>, rows: seq<Row>, parse: string -> Option<Date>): (c: seq<Entry>)
    ensures |c| == 7 && forall i :: 0 <= i < 7 ==> c[i].Check? && c[i].name == EntryNames[10 + i]
  {
    [ScoreDistribution(names, rows), TierAssignment(names, rows), CciValidity(names, rows),
     StateFormat(names, rows), RefiEligibility(names, rows), OwnerPresent(names, rows), Freshness(names, rows, parse)]
  }

  /** Checks 1-17 in order, each a check named for its position. */
  function FirstChecks(names: seq<string>, rows: seq<Row>, parse: string -> Option<Date>): (c: seq<Entry>)
    ensures |c| == 17
    ensures forall i :: 0 <= i < 17 ==> c[i].Check? && c[i].name == EntryNames[i]
  {
    var low, mid, high := ChecksLow(names, rows, parse), ChecksMid(names, rows), ChecksHigh(names, rows, parse);
    assert forall i :: 8 <= i < 10 ==> (low + mid + high)[i] == mid[i - 8];
    assert forall i :: 10 <= i < 17 ==> (low + mid + high)[i] == high[i - 10];
    low + mid + high
  }

  /** The whole report: checks 1-17 and the overall roll-up. */
  function Report(names: seq<string>, rows: seq<Row>, parse: string -> Option<Date>): (r: seq<Entry>)
    ensures |r| == 18
    ensures forall i :: 0 <= i < 18 ==> r[i].name == EntryNames[i]
    ensures forall i :: 0 <= i < 17 ==> r[i].Check?
    ensures r[..17] == FirstChecks(names, rows, parse) && r[17] == OverallQuality(r[..17])
  {
    var first := FirstChecks(names, rows, parse);
    first + [OverallQuality(first)]
  }

  /**
   * `health_check(df)`: builds the report entry by entry, summing the
   * missing critical cells column by column.
   */
  method RunHealthCheck(df: Frame, parse: string -> Option<Date>) returns (checks: seq<Entry>)
    requires df.Valid()
    ensures checks == Report(df.names, df.rows, parse)
  {
    var names := df.names;
    var rows := df.rows;
    checks := [RecordCount(rows)];
    checks := checks + [AddressCompleteness(names, rows)];
    checks := checks + [ZipValidity(names, rows)];
    checks := checks + [ValueRange(names, rows)];
    checks := checks + [LtvRange(names, rows)];
    checks := checks + [EquityAccuracy(names, rows)];
    checks := checks + [DateFormat(names, rows, parse)];
    checks := checks + [AgeReasonable(names, rows)];
    checks := checks + [Duplicates(names, rows)];

    var missing := 0;
    var i := 0;
    while i < |CriticalKeys|
      invariant 0 <= i <= |CriticalKeys|
      invariant missing == MissingIn(names, rows, CriticalKeys[..i])
    {
      var col := CriticalKeys[i];
      assert CriticalKeys[..i + 1][..i] == CriticalKeys[..i];
      if col in names {
        missing := missing + CountIf(rows, r => IsNa(Get(r, col)));
      }
      i := i + 1;
    }
    assert CriticalKeys[..|CriticalKeys|] == CriticalKeys;
    checks := checks + [MissingValues(rows, missing)];

    checks := checks + [ScoreDistribution(names, rows)];
    checks := checks + [TierAssignment(names, rows)];
    checks := checks + [CciValidity(names, rows)];
    checks := checks + [StateFormat(names, rows)];
    checks := checks + [RefiEligibility(names, rows)];
    checks := checks + [OwnerPresent(names, rows)];
    checks := checks + [Freshness(names, rows, parse)];
    assert checks == FirstChecks(names, rows, parse);
    checks := checks + [OverallQuality(checks)];
  }

  // ---------------------------------------------------------------------
  // Properties

  /** Check 1 passes exactly when there is at least one record. */
  lemma RecordCountPassIff(names: seq<string>, rows: seq<Row>, parse: string -> Option<Date>)
    ensures Report(names, rows, parse)[0].status == Pass <==> |rows| > 0
    ensures Report(names, rows, parse)[0].count == Some(|rows|)
  {
  }

  /** A percentage of 0 to 100 never lands above the graded range. */
  lemma {:induction false} PctAtMostHundred(count: nat, total: nat)
    requires count <= total
    ensures 0.0 <= Pct(count, total) <= 100.0
    ensures total > 0 && count == total ==> Pct(count, total) == 100.0
  {
    if total > 0 {
      PctAtLeast(count, total, 0.0);
      PctAtLeast(count, total, 100.0);
      PctAtMost(count, total, 100.0);
    }
  }

  /**
   * Report entries 2-5 as the individual checks compute them. The report is
   * unfolded in four parts so that each proof stays small.
   */
  lemma EntriesA(names: seq<string>, rows: seq<Row>, parse: string -> Option<Date>)
    ensures var rep := Report(names, rows, parse);
      && rep[1] == AddressCompleteness(names, rows) && rep[2] == ZipValidity(names, rows)
      && rep[3] == ValueRange(names, rows) && rep[4] == LtvRange(names, rows)
  {
  }

  /** Report entries 6-9 as the individual checks compute them (see `EntriesA`). */
  lemma EntriesB(names: seq<string>, rows: seq<Row>, parse: string -> Option<Date>)
    ensures var rep := Report(names, rows, parse);
      && rep[5] == EquityAccuracy(names, rows) && rep[6] == DateFormat(names, rows, parse)
      && rep[7] == AgeReasonable(names, rows) && rep[8] == Duplicates(names, rows)
  {
  }

  /** Report entries 10-13 as the individual checks compute them (see `EntriesA`). */
  lemma EntriesC(names: seq<string>, rows: seq<Row>, parse: string -> Option<Date>)
    ensures var rep := Report(names, rows, parse);
      && rep[9] == MissingValues(rows, MissingCritical(names, rows))
      && rep[10] == ScoreDistribution(names, rows) && rep[11] == TierAssignment(names, rows)
      && rep[12] == CciValidity(names, rows)
  {
  }

  /** Report entries 14-17 as the individual checks compute them (see `EntriesA`). */
  lemma EntriesD(names: seq<string>, rows: seq<Row>, parse: string -> Option<Date>)
    ensures var rep := Report(names, rows, parse);
      && rep[13] == StateFormat(names, rows) && rep[14] == RefiEligibility(names, rows)
      && rep[15] == OwnerPresent(names, rows) && rep[16] == Freshness(names, rows, parse)
  {
  }

  /**
   * A missing column makes its check FAIL; without both the address and the
   * ZIP column the duplicate check only WARNs.
   */
  lemma MissingColumnVerdicts(names: seq<string>, rows: seq<Row>, parse: string -> Option<Date>)
    ensures var rep := Report(names, rows, parse);
      && (AddressKey !in names ==> rep[1].status == Fail)
      && (ZipKey !in names ==> rep[2].status == Fail)
      && (Normalize.EstValueKey !in names && Normalize.PropertyValueKey !in names ==> rep[3].status == Fail)
      && (Normalize.LtvKey !in names ==> rep[4].status == Fail && rep[5].status == Fail && rep[14].status == Fail)
      && (Normalize.EquityKey !in names ==> rep[5].status == Fail)
      && (Normalize.LastLoanDateKey !in names && Normalize.LoanDateKey !in names ==>
            rep[6].status == Fail && rep[16].status == Fail)
      && (Normalize.AgeKey !in names ==> rep[7].status == Fail && rep[14].status == Fail)
      && (AddressKey !in names || ZipKey !in names ==> rep[8].status == Warn)
      && (Normalize.ScoreKey !in names ==> rep[10].status == Fail)
      && (Normalize.TierKey !in names ==> rep[11].status == Fail)
      && (Normalize.CciKey !in names ==> rep[12].status == Fail)
      && (StateKey !in names ==> rep[13].status == Fail)
      && (OwnerKey !in names ==> rep[15].status == Fail)
  {
    EntriesA(names, rows, parse);
    EntriesB(names, rows, parse);
    EntriesC(names, rows, parse);
    EntriesD(names, rows, parse);
  }

  /** With their column present, checks 11-14 never FAIL: PASS at 95% and over, WARN below. */
  lemma LenientNeverFails(names: seq<string>, rows: seq<Row>, parse: string -> Option<Date>)
    ensures var rep := Report(names, rows, parse);
      && (Normalize.ScoreKey in names ==> rep[10].status in {Pass, Warn})
      && (Normalize.TierKey in names ==> rep[11].status in {Pass, Warn})
      && (Normalize.CciKey in names ==> rep[12].status in {Pass, Warn})
      && (StateKey in names ==> rep[13].status in {Pass, Warn})
  {
    EntriesC(names, rows, parse);
    EntriesD(names, rows, parse);
  }

  /** With their columns present, checks 15 and 17 report INFO, not FAIL, below their WARN band. */
  lemma InformativeNeverFails(names: seq<string>, rows: seq<Row>, parse: string -> Option<Date>)
    ensures var rep := Report(names, rows, parse);
      && (Normalize.LtvKey in names && Normalize.AgeKey in names ==>
            rep[14].status in {Pass, Warn, Info}
            && (rep[14].status == Info <==> Pct(rep[14].count.value, |rows|) < 25.0))
      && (DateColumn(names) in names ==>
            rep[16].status in {Pass, Warn, Info}
            && (rep[16].status == Info <==> Pct(rep[16].count.value, |rows|) < 40.0))
  {
    EntriesD(names, rows, parse);
  }

  /** Every one of checks 1-17 is PASS, WARN, FAIL or INFO. */
  lemma FirstChecksGraded(names: seq<string>, rows: seq<Row>, parse: string -> Option<Date>)
    ensures forall e :: e in FirstChecks(names, rows, parse) ==> e.status in {Pass, Warn, Fail, Info}
  {
    GradedLow(names, rows, parse);
    GradedHigh(names, rows, parse);
    var low, mid, high := ChecksLow(names, rows, parse), ChecksMid(names, rows), ChecksHigh(names, rows, parse);
    assert forall e :: e in low + mid + high ==> e in low || e in mid || e in high;
  }

  /** Checks 1-10 are each PASS, WARN, FAIL or INFO; split from checks 11-17 to keep each proof small. */
  lemma GradedLow(names: seq<string>, rows: seq<Row>, parse: string -> Option<Date>)
    ensures forall e :: e in ChecksLow(names, rows, parse) ==> e.status in {Pass, Warn, Fail, Info}
    ensures forall e :: e in ChecksMid(names, rows) ==> e.status in {Pass, Warn, Fail, Info}
  {
  }

  /** Checks 11-17 are each PASS, WARN, FAIL or INFO (see `GradedLow`). */
  lemma GradedHigh(names: seq<string>, rows: seq<Row>, parse: string -> Option<Date>)
    ensures forall e :: e in ChecksHigh(names, rows, parse) ==> e.status in {Pass, Warn, Fail, Info}
  {
  }


  /** Statuses drawn from PASS/WARN/FAIL/INFO tally up to the number of entries. */
  lemma {:induction false} TallyPartition(entries: seq<Entry>)
    requires forall e :: e in entries ==> e.status in {Pass, Warn, Fail, Info}
    ensures Tally(entries, Pass) + Tally(entries, Warn) + Tally(entries, Fail) + Tally(entries, Info) == |entries|
  {
    if entries != [] {
      assert forall e :: e in entries[1..] ==> e in entries;
      TallyPartition(entries[1..]);
    }
  }

  /** INFO counts in none of the roll-up's tallies, so they add up to at most 17. */
  lemma OverallTally(names: seq<string>, rows: seq<Row>, parse: string -> Option<Date>)
    ensures var o := Report(names, rows, parse)[17];
      o.passes + o.warns + o.fails == 17 - Tally(FirstChecks(names, rows, parse), Info)
    ensures var o := Report(names, rows, parse)[17];
      o.passes + o.warns + o.fails <= 17
  {
    FirstChecksGraded(names, rows, parse);
    TallyPartition(FirstChecks(names, rows, parse));
  }

  /** The overall band by the number of passed checks: 15+ EXCELLENT, 12-14 GOOD, 9-11 FAIR, fewer POOR. */
  lemma OverallByPasses(passes: nat)
    ensures QualityGrade(Quality(passes)) ==
      if passes >= 15 then Excellent else if passes >= 12 then Good else if passes >= 9 then Fair else Poor
  {
  }

  /** The tally of two runs of entries is the sum of their tallies. */
  lemma {:induction false} TallyConcat(a: seq<Entry>, b: seq<Entry>, s: Status)
    ensures Tally(a + b, s) == Tally(a, s) + Tally(b, s)
  {
    if a != [] {
      assert (a + b)[1..] == a[1..] + b;
      TallyConcat(a[1..], b, s);
    } else {
      assert a + b == b;
    }
  }

  /** Entries none of which has status `s` tally zero for it. */
  lemma {:induction false} TallyNone(entries: seq<Entry>, s: Status)
    requires forall e :: e in entries ==> e.status != s
    ensures Tally(entries, s) == 0
  {
    if entries != [] {
      assert forall e :: e in entries[1..] ==> e in entries;
      TallyNone(entries[1..], s);
    }
  }


  /**
   * An empty dataset grades POOR: every percentage is 0, so only the
   * duplicate and missing-value checks can pass, and check 1 fails.
   */
  lemma EmptyDatasetIsPoor(names: seq<string>, parse: string -> Option<Date>)
    ensures Report(names, [], parse)[0].status == Fail
    ensures Report(names, [], parse)[17].status == Poor
  {
    var first := FirstChecks(names, [], parse);
    EmptyPassesAtMostTwo(names, parse);
    assert Report(names, [], parse)[0] == RecordCount([]);
    assert Report(names, [], parse)[17] == OverallQuality(first);
    OverallByPasses(Tally(first, Pass));
  }

  /** On an empty dataset at most two of checks 1-17 pass. */
  lemma EmptyPassesAtMostTwo(names: seq<string>, parse: string -> Option<Date>)
    ensures Tally(FirstChecks(names, [], parse), Pass) <= 2
  {
    EmptyChecksLow(names, parse);
    EmptyChecksHigh(names, parse);
    PassesOnlyInMiddle(ChecksLow(names, [], parse), ChecksMid(names, []), ChecksHigh(names, [], parse));
  }

  /** Three runs of entries where only the middle one, of two entries, can pass, pass at most twice. */
  lemma PassesOnlyInMiddle(low: seq<Entry>, mid: seq<Entry>, high: seq<Entry>)
    requires |mid| == 2
    requires forall e :: e in low ==> e.status != Pass
    requires forall e :: e in high ==> e.status != Pass
    ensures Tally(low + mid + high, Pass) <= 2
  {
    TallyNone(low, Pass);
    TallyNone(high, Pass);
    TallyConcat(low, mid, Pass);
    TallyConcat(low + mid, high, Pass);
  }

  /** On an empty dataset check 1 fails and checks 2-8 cannot pass: every percentage is 0. */
  lemma EmptyChecksLow(names: seq<string>, parse: string -> Option<Date>)
    ensures RecordCount([]).status == Fail
    ensures forall e :: e in ChecksLow(names, [], parse) ==> e.status != Pass
  {
  }

  /** On an empty dataset checks 11-17 cannot pass either. */
  lemma EmptyChecksHigh(names: seq<string>, parse: string -> Option<Date>)
    ensures forall e :: e in ChecksHigh(names, [], parse) ==> e.status != Pass
  {
  }





  // ---------------------------------------------------------------------
  // Duplicates

  /** A duplicated row's partner is duplicated too, so the duplicate count is never exactly one. */
  lemma DuplicateCountNotOne(rows: seq<Row>)
    ensures DuplicateCount(rows) != 1
  {
    var mask := seq(|rows|, i requires 0 <= i < |rows| => Duplicated(rows, i));
    if DuplicateCount(rows) > 0 {
      TruesNone(mask);
      var i :| 0 <= i < |rows| && mask[i];
      var j :| 0 <= j < |rows| && j != i && SamePair(rows[i], rows[j]);
      assert mask[j];
      if i < j {
        TruesTwo(mask, i, j);
      } else {
        TruesTwo(mask, j, i);
      }
    }
  }

  /** No row is counted as a duplicate exactly when all (address, ZIP) pairs differ. */
  lemma NoDuplicatesIff(rows: seq<Row>)
    ensures DuplicateCount(rows) == 0 <==>
      forall i, j :: 0 <= i < |rows| && 0 <= j < |rows| && i != j ==> !SamePair(rows[i], rows[j])
  {
    var mask := seq(|rows|, i requires 0 <= i < |rows| => Duplicated(rows, i));
    TruesNone(mask);
    if DuplicateCount(rows) == 0 {
      forall i, j | 0 <= i < |rows| && 0 <= j < |rows| && i != j ensures !SamePair(rows[i], rows[j]) {
        assert !mask[i];
      }
    } else {
      var i :| 0 <= i < |rows| && mask[i];
    }
  }

  /** With both columns present, check 9 passes exactly when no (address, ZIP) pair repeats. */
  lemma DuplicatesPassIff(names: seq<string>, rows: seq<Row>, parse: string -> Option<Date>)
    requires AddressKey in names && ZipKey in names
    ensures Report(names, rows, parse)[8].status == Pass <==>
      forall i, j :: 0 <= i < |rows| && 0 <= j < |rows| && i != j ==> !SamePair(rows[i], rows[j])
  {
    EntriesB(names, rows, parse);
    PctZero(DuplicateCount(rows), |rows|);
    NoDuplicatesIff(rows);
  }

  // ---------------------------------------------------------------------
  // Check 4 and the currency format

  /** Check 4 parses the raw text: a value written with `$` or `,` is never in range. */
  lemma FormattedValueNotCounted(c: Cell)
    requires c.Text? && ('$' in c.s || ',' in c.s)
    ensures !ValueInRange(c)
  {
    ParseRejectsCurrencyMarks(c.s);
  }

  /** A non-empty dataset whose values are all written with `$` or `,` fails check 4. */
  lemma FormattedValuesFail(names: seq<string>, rows: seq<Row>, parse: string -> Option<Date>)
    requires |rows| > 0 && ValueColumn(names) in names
    requires forall i :: 0 <= i < |rows| ==>
      Get(rows[i], ValueColumn(names)).Text? && ('$' in Get(rows[i], ValueColumn(names)).s || ',' in Get(rows[i], ValueColumn(names)).s)
    ensures Report(names, rows, parse)[3].status == Fail
  {
    FormattedValueRangeFails(names, rows);
    EntriesA(names, rows, parse);
  }

  lemma FormattedValueRangeFails(names: seq<string>, rows: seq<Row>)
    requires |rows| > 0 && ValueColumn(names) in names
    requires forall i :: 0 <= i < |rows| ==>
      Get(rows[i], ValueColumn(names)).Text? && ('$' in Get(rows[i], ValueColumn(names)).s || ',' in Get(rows[i], ValueColumn(names)).s)
    ensures ValueRange(names, rows).status == Fail
  {
    var col := ValueColumn(names);
    var p := (r: Row) => ValueInRange(Get(r, col));
    forall i | 0 <= i < |rows| ensures !p(rows[i]) {
      FormattedValueNotCounted(Get(rows[i], col));
    }
    CountIfNone(rows, p);
  }

  // ---------------------------------------------------------------------
  // Missing values

  lemma {:induction false} MissingInBound(names: seq<string>, rows: seq<Row>, cols: seq<string>)
    ensures MissingIn(names, rows, cols) <= |cols| * |rows|
  {
    if cols != [] {
      MissingInBound(names, rows, cols[..|cols| - 1]);
      assert |cols| * |rows| == (|cols| - 1) * |rows| + |rows|;
    }
  }

  /** At most every critical cell is missing, so check 10's percentage stays within 0 to 100. */
  lemma MissingCriticalBound(names: seq<string>, rows: seq<Row>)
    ensures MissingCritical(names, rows) <= |rows| * |CriticalKeys|
    ensures 0.0 <= Pct(MissingCritical(names, rows), |rows| * |CriticalKeys|) <= 100.0
  {
    MissingInBound(names, rows, CriticalKeys);
    PctAtMostHundred(MissingCritical(names, rows), |rows| * |CriticalKeys|);
  }

  lemma {:induction false} MissingInNone(names: seq<string>, rows: seq<Row>, cols: seq<string>)
    requires forall i, k :: 0 <= i < |rows| && k in rows[i] ==> !IsNa(rows[i][k])
    requires forall i, k :: 0 <= i < |rows| && k in names ==> k in rows[i]
    ensures MissingIn(names, rows, cols) == 0
  {
    if cols != [] {
      MissingInNone(names, rows, cols[..|cols| - 1]);
      var col := cols[|cols| - 1];
      if col in names {
        CountIfNone(rows, r => IsNa(Get(r, col)));
      }
    }
  }

  /**
   * A frame read as text (every cell a string, empty cells included, as
   * the callers read CSV files) has no missing critical cell: check 10
   * passes, and checks 2 and 16 count every record.
   */
  lemma TextFrameHasNoMissing(names: seq<string>, rows: seq<Row>, parse: string -> Option<Date>)
    requires WellFormed(names, rows)
    requires forall i, k :: 0 <= i < |rows| && k in rows[i] ==> rows[i][k].Text?
    ensures MissingCritical(names, rows) == 0
    ensures Report(names, rows, parse)[9].status == Pass
    ensures |rows| > 0 && AddressKey in names ==> Report(names, rows, parse)[1].status == Pass
    ensures |rows| > 0 && OwnerKey in names ==> Report(names, rows, parse)[15].status == Pass
  {
    TextFrameChecks(names, rows);
    EntriesA(names, rows, parse);
    EntriesC(names, rows, parse);
    EntriesD(names, rows, parse);
  }

  lemma TextFrameChecks(names: seq<string>, rows: seq<Row>)
    requires WellFormed(names, rows)
    requires forall i, k :: 0 <= i < |rows| && k in rows[i] ==> rows[i][k].Text?
    ensures MissingCritical(names, rows) == 0
    ensures MissingValues(rows, MissingCritical(names, rows)).status == Pass
    ensures |rows| > 0 && AddressKey in names ==> AddressCompleteness(names, rows).status == Pass
    ensures |rows| > 0 && OwnerKey in names ==> OwnerPresent(names, rows).status == Pass
  {
    forall i, k | 0 <= i < |rows| && k in names ensures k in rows[i] {
      assert k in NameSet(names);
    }
    MissingInNone(names, rows, CriticalKeys);
    if |rows| > 0 && AddressKey in names {
      AllRowsPass(names, rows, r => Present(r, AddressKey), 95.0, 80.0);
    }
    if |rows| > 0 && OwnerKey in names {
      AllRowsPass(names, rows, r => Present(r, OwnerKey), 90.0, 70.0);
    }
  }

  /** When every row satisfies a graded check's condition, the check passes. */
  lemma AllRowsPass(names: seq<string>, rows: seq<Row>, p: Row -> bool, pass: real, warn: real)
    requires |rows| > 0 && pass <= 100.0 && warn <= pass
    requires forall i :: 0 <= i < |rows| ==> p(rows[i])
    ensures Graded(Pct(CountIf(rows, p), |rows|), pass, warn) == Pass
    ensures Lenient(Pct(CountIf(rows, p), |rows|)) == Pass
  {
    CountIfAll(rows, p);
    PctAtMostHundred(|rows|, |rows|);
  }

  // ---------------------------------------------------------------------
  // Scored frames

  /** A non-empty frame of scored rows passes checks 5, 6, 11, 12 and 13. */
  lemma ScoredRowsPass(names: seq<string>, rows: seq<Row>, parse: string -> Option<Date>)
    requires |rows| > 0
    requires forall k :: k in Normalize.DerivedKeys ==> k in names
    requires forall i :: 0 <= i < |rows| ==> Normalize.ScoredRow(rows[i])
    ensures var rep := Report(names, rows, parse);
      rep[4].status == Pass && rep[5].status == Pass && rep[10].status == Pass
      && rep[11].status == Pass && rep[12].status == Pass
  {
    ScoredChecksPass(names, rows);
    EntriesA(names, rows, parse);
    EntriesB(names, rows, parse);
    EntriesC(names, rows, parse);
  }

  lemma ScoredChecksPass(names: seq<string>, rows: seq<Row>)
    requires |rows| > 0
    requires forall k :: k in Normalize.DerivedKeys ==> k in names
    requires forall i :: 0 <= i < |rows| ==> Normalize.ScoredRow(rows[i])
    ensures LtvRange(names, rows).status == Pass && EquityAccuracy(names, rows).status == Pass
    ensures ScoreDistribution(names, rows).status == Pass && TierAssignment(names, rows).status == Pass
    ensures CciValidity(names, rows).status == Pass
  {
    Normalize.KeysDistinct();
    assert Normalize.LtvKey in Normalize.DerivedKeys && Normalize.EquityKey in Normalize.DerivedKeys;
    assert Normalize.ScoreKey in Normalize.DerivedKeys && Normalize.TierKey in Normalize.DerivedKeys;
    assert Normalize.CciKey in Normalize.DerivedKeys;
    AllRowsPass(names, rows, r => Normalize.NumIn(Get(r, Normalize.LtvKey), 0.0, 100.0), 95.0, 80.0);
    AllRowsPass(names, rows, EquityAccurate, 95.0, 80.0);
    AllRowsPass(names, rows, r => Normalize.NumIn(Get(r, Normalize.ScoreKey), 0.0, 100.0), 95.0, 80.0);
    AllRowsPass(names, rows, r => Get(r, Normalize.TierKey).Text? && Get(r, Normalize.TierKey).s in Normalize.TierLabels, 95.0, 80.0);
    AllRowsPass(names, rows, r => Normalize.NumIn(Get(r, Normalize.CciKey), 0.0, 100.0), 95.0, 80.0);
  }

  /**
   * The normaliser's output, whatever its input, passes checks 5, 6, 11, 12
   * and 13 when it has records.
   */
  lemma NormalizedFramePasses(names: seq<string>, rows: seq<Row>, out: seq<Row>, today: Date, parse: string -> Option<Date>)
    requires |rows| > 0 && |out| == |rows|
    requires forall i :: 0 <= i < |rows| ==> out[i] == Normalize.Normalized(rows[i], today, parse)
    ensures var rep := Report(Normalize.NormalizedNames(names), out, parse);
      rep[4].status == Pass && rep[5].status == Pass && rep[10].status == Pass
      && rep[11].status == Pass && rep[12].status == Pass
  {
    forall i | 0 <= i < |out| ensures Normalize.ScoredRow(out[i]) {
      Normalize.NormalizedIsScored(rows[i], today, parse);
    }
    Normalize.NormalizedNamesHaveDerived(names);
    ScoredRowsPass(Normalize.NormalizedNames(names), out, parse);
  }
}
