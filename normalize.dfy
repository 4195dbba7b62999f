/**
 * `normalize_and_score`: resolves the property value, loan balance and loan
 * date from whichever source columns the frame has, then adds the derived
 * and scored columns one by one to the caller's frame, and returns a copy
 * without the three temporary columns.
 */
module Normalize {
  import opened Wrappers
  import opened Frames
  import opened Numeric
  import opened Scoring
  import Rounding

  // Source columns, canonical name first, alias second.
  const EstValueKey := "EstValue"
  const PropertyValueKey := "property_value"
  const TotalLoanBalKey := "TotalLoanBal"
  const LoanBalanceKey := "loan_balance"
  const LastLoanDateKey := "LastLoanDate"
  const LoanDateKey := "loan_date"

  // Temporary working columns.
  const TempValueKey := "_property_value"
  const TempBalanceKey := "_loan_balance"
  const TempDateKey := "_loan_date"

  // Derived and scored columns.
  const LtvKey := "LTV %"
  const EquityKey := "Equity %"
  const DollarsKey := "Equity_Dollars"
  const AgeKey := "Loan_Age_Mo"
  const ScoreKey := "APS_Score (v2.0)"
  const TierKey := "APS_Tier"
  const CciKey := "CCI"

  const TempKeys: set<string> := {TempValueKey, TempBalanceKey, TempDateKey}
  const SourceKeys: set<string> :=
    {EstValueKey, PropertyValueKey, TotalLoanBalKey, LoanBalanceKey, LastLoanDateKey, LoanDateKey}
  const DerivedKeys: set<string> := {LtvKey, EquityKey, DollarsKey, AgeKey, ScoreKey, TierKey, CciKey}

  // ---------------------------------------------------------------------
  // Field resolution

  /**
   * `pd.to_numeric(col.astype(str).str.replace('$', '').str.replace(',', '')
   * .str.strip(), errors='coerce')` on one cell. A number's text form reads
   * back as the same number; NaN and datetimes are not numbers.
   */
  function MoneyCell(c: Cell): (m: Cell)
    ensures m.Num? || m.Missing?
    ensures c.Num? ==> m == c
    ensures c.Text? ==> (m.Num? <==> ParseMoney(c.s).Some?)
    ensures c.Text? && m.Num? ==> ParseMoney(c.s) == Some(m.x)
  {
    match c
    case Text(s) =>
      (match ParseMoney(s)
       case Some(x) => Num(x)
       case None => Missing)
    case Num(x) => Num(x)
    case _ => Missing
  }

  /** `_property_value`: EstValue, else property_value, else 0. */
  function ValueSource(r: Row): Cell {
    if EstValueKey in r then MoneyCell(r[EstValueKey])
    else if PropertyValueKey in r then MoneyCell(r[PropertyValueKey])
    else Num(0.0)
  }

  /** `_loan_balance`: TotalLoanBal, else loan_balance, else 0. */
  function BalanceSource(r: Row): Cell {
    if TotalLoanBalKey in r then MoneyCell(r[TotalLoanBalKey])
    else if LoanBalanceKey in r then MoneyCell(r[LoanBalanceKey])
    else Num(0.0)
  }

  /** `_loan_date`: LastLoanDate, else loan_date, else NaT. */
  function DateSource(r: Row, parse: string -> Option<Date>): Cell {
    var src := if LastLoanDateKey in r then r[LastLoanDateKey]
               else if LoanDateKey in r then r[LoanDateKey]
               else Missing;
    match ToDatetime(src, parse)
    case Some(d) => Stamp(d)
    case None => Missing
  }

  // ---------------------------------------------------------------------
  // One column each: what `df[key] = ...` computes for one row, reading the
  // columns written by the steps before it.

  function LtvCell(r: Row): Cell {
    Num(LtvPct(NumberOf(Get(r, TempBalanceKey)), NumberOf(Get(r, TempValueKey))))
  }

  function EquityCell(r: Row): Cell {
    match NumberOf(Get(r, LtvKey))
    case Some(l) => Num(EquityPct(l))
    case None => Missing
  }

  function DollarsCell(r: Row): Cell {
    match NumberOf(Get(r, EquityKey))
    case Some(e) =>
      (match EquityDollars(NumberOf(Get(r, TempValueKey)), e)
       case Some(d) => Num(d)
       case None => Missing)
    case None => Missing
  }

  function AgeCell(r: Row, today: Date): Cell {
    Num(LoanAgeMonths(DateOf(Get(r, TempDateKey)), today) as real)
  }

  function ScoreCell(r: Row): Cell {
    match (NumberOf(Get(r, EquityKey)), NumberOf(Get(r, AgeKey)), NumberOf(Get(r, LtvKey)))
    case (Some(e), Some(a), Some(l)) => Num(ApsScore(e, a, l))
    case _ => Missing
  }

  function TierCell(r: Row): Cell {
    Text(AssignTier(NumberOf(Get(r, ScoreKey)), NumberOf(Get(r, LtvKey)), NumberOf(Get(r, DollarsKey))).Label())
  }

  function CciCell(r: Row): Cell {
    match (NumberOf(Get(r, EquityKey)), NumberOf(Get(r, LtvKey)), NumberOf(Get(r, AgeKey)))
    case (Some(e), Some(l), Some(a)) => Num(Cci(e, l, a))
    case _ => Missing
  }

  /** The three working columns: `_property_value`, `_loan_balance`, `_loan_date`. */
  function AddWorking(r: Row, parse: string -> Option<Date>): Row {
    var r1 := r[TempValueKey := ValueSource(r)];
    var r2 := r1[TempBalanceKey := BalanceSource(r1)];
    r2[TempDateKey := DateSource(r2, parse)]
  }

  /** `LTV %`, `Equity %` and `Equity_Dollars`. */
  function AddFinancials(r: Row): Row {
    var r4 := r[LtvKey := LtvCell(r)];
    var r5 := r4[EquityKey := EquityCell(r4)];
    r5[DollarsKey := DollarsCell(r5)]
  }

  /** `Loan_Age_Mo`, `APS_Score (v2.0)`, `APS_Tier` and `CCI`. */
  function AddScores(r: Row, today: Date): Row {
    var r7 := r[AgeKey := AgeCell(r, today)];
    var r8 := r7[ScoreKey := ScoreCell(r7)];
    var r9 := r8[TierKey := TierCell(r8)];
    r9[CciKey := CciCell(r9)]
  }

  /**
   * The row as `normalize_and_score` leaves it in the caller's frame: every
   * column added, in order. It has the input's columns, the three working
   * ones and the seven derived ones.
   */
  function Augment(r: Row, today: Date, parse: string -> Option<Date>): (a: Row)
    ensures a.Keys == r.Keys + TempKeys + DerivedKeys
  {
    AddScores(AddFinancials(AddWorking(r, parse)), today)
  }

  /**
   * The row as returned: augmented, temporary columns dropped. It has the
   * input's columns less the working ones, plus the derived ones.
   */
  function Normalized(r: Row, today: Date, parse: string -> Option<Date>): (n: Row)
    ensures n.Keys == (r.Keys - TempKeys) + DerivedKeys
  {
    KeysDistinct();
    Augment(r, today, parse) - TempKeys
  }

  /** The caller's column list afterwards. */
  function AugmentedNames(names: seq<string>): seq<string> {
    var n1 := WithName(names, TempValueKey);
    var n2 := WithName(n1, TempBalanceKey);
    var n3 := WithName(n2, TempDateKey);
    var n4 := WithName(n3, LtvKey);
    var n5 := WithName(n4, EquityKey);
    var n6 := WithName(n5, DollarsKey);
    var n7 := WithName(n6, AgeKey);
    var n8 := WithName(n7, ScoreKey);
    var n9 := WithName(n8, TierKey);
    WithName(n9, CciKey)
  }

  /** The returned frame's column list. */
  function NormalizedNames(names: seq<string>): seq<string> {
    Without(AugmentedNames(names), TempKeys)
  }

  function Column(rows: seq<Row>, f: Row -> Cell): (c: seq<Cell>)
    ensures |c| == |rows|
    ensures forall i :: 0 <= i < |rows| ==> c[i] == f(rows[i])
  {
    seq(|rows|, i requires 0 <= i < |rows| => f(rows[i]))
  }

  /**
   * `normalize_and_score(df)` with the evaluation date `today` (the source
   * reads the clock) and pandas' date parser `parse` as parameters.
   */
  method NormalizeAndScore(df: Frame, today: Date, parse: string -> Option<Date>) returns (out: Frame)
    requires df.Valid()
    modifies df
    ensures df.Valid() && fresh(out) && out.Valid()
    ensures df.names == AugmentedNames(old(df.names))
    ensures |df.rows| == |old(df.rows)|
    ensures forall i :: 0 <= i < |df.rows| ==> df.rows[i] == Augment(old(df.rows[i]), today, parse)
    ensures out.names == NormalizedNames(old(df.names))
    ensures |out.rows| == |old(df.rows)|
    ensures forall i :: 0 <= i < |out.rows| ==> out.rows[i] == Normalized(old(df.rows[i]), today, parse)
  {
    df.SetColumn(TempValueKey, Column(df.rows, ValueSource));
    df.SetColumn(TempBalanceKey, Column(df.rows, BalanceSource));
    df.SetColumn(TempDateKey, Column(df.rows, r => DateSource(r, parse)));
    df.SetColumn(LtvKey, Column(df.rows, LtvCell));
    df.SetColumn(EquityKey, Column(df.rows, EquityCell));
    df.SetColumn(DollarsKey, Column(df.rows, DollarsCell));
    df.SetColumn(AgeKey, Column(df.rows, r => AgeCell(r, today)));
    df.SetColumn(ScoreKey, Column(df.rows, ScoreCell));
    df.SetColumn(TierKey, Column(df.rows, TierCell));
    df.SetColumn(CciKey, Column(df.rows, CciCell));
    out := df.Drop(TempKeys);
  }

  // ---------------------------------------------------------------------
  // The same computation per record, on resolved values

  /**
   * The resolved property value: 0 without either column, otherwise the
   * money reading of the column chosen, NaN (None) when it does not parse.
   */
  function Value(r: Row): (v: Option<real>)
    ensures EstValueKey !in r && PropertyValueKey !in r ==> v == Some(0.0)
    ensures v.None? <==>
      (EstValueKey in r && MoneyCell(r[EstValueKey]).Missing?)
      || (EstValueKey !in r && PropertyValueKey in r && MoneyCell(r[PropertyValueKey]).Missing?)
    ensures EstValueKey in r && r[EstValueKey].Num? ==> v == Some(r[EstValueKey].x)
  {
    NumberOf(ValueSource(r))
  }

  /** The resolved loan balance, chosen and read as the property value is. */
  function Balance(r: Row): (b: Option<real>)
    ensures TotalLoanBalKey !in r && LoanBalanceKey !in r ==> b == Some(0.0)
    ensures b.None? <==>
      (TotalLoanBalKey in r && MoneyCell(r[TotalLoanBalKey]).Missing?)
      || (TotalLoanBalKey !in r && LoanBalanceKey in r && MoneyCell(r[LoanBalanceKey]).Missing?)
    ensures TotalLoanBalKey in r && r[TotalLoanBalKey].Num? ==> b == Some(r[TotalLoanBalKey].x)
  {
    NumberOf(BalanceSource(r))
  }

  /** The resolved loan date: NaT without either column or when the chosen one does not convert. */
  function LoanDate(r: Row, parse: string -> Option<Date>): (d: Option<Date>)
    ensures LastLoanDateKey !in r && LoanDateKey !in r ==> d == None
    ensures LastLoanDateKey in r ==> d == ToDatetime(r[LastLoanDateKey], parse)
    ensures LastLoanDateKey !in r && LoanDateKey in r ==> d == ToDatetime(r[LoanDateKey], parse)
  {
    DateOf(DateSource(r, parse))
  }

  /** The derived and scored fields of one record. */
  datatype Derived = Derived(ltv: real, equity: real, dollars: Option<real>, age: nat,
                             score: real, tier: Tier, cci: real)

  /**
   * The derivation chain from the resolved fields: LTV, equity, equity
   * dollars, loan age, then score, tier and CCI from those.
   */
  function Derive(r: Row, today: Date, parse: string -> Option<Date>): (d: Derived)
    ensures 0.0 <= d.ltv <= 100.0
    ensures d.equity + d.ltv == 100.0
    ensures 0.0 <= d.score <= 100.0
    ensures 0.0 <= d.cci <= 100.0
    ensures d.dollars.Some? <==> Value(r).Some?
  {
    DeriveFrom(Value(r), Balance(r), LoanDate(r, parse), today)
  }

  /** The derivation from the three resolved fields alone. */
  function DeriveFrom(value: Option<real>, balance: Option<real>, loanDate: Option<Date>, today: Date): (d: Derived)
    ensures 0.0 <= d.ltv <= 100.0
    ensures d.equity + d.ltv == 100.0
    ensures 0.0 <= d.score <= 100.0
    ensures 0.0 <= d.cci <= 100.0
    ensures d.dollars.Some? <==> value.Some?
  {
    var ltv := LtvPct(balance, value);
    EquityComplementsLtv(balance, value);
    var equity := EquityPct(ltv);
    var dollars := EquityDollars(value, equity);
    var age := LoanAgeMonths(loanDate, today);
    var score := ApsScore(equity, age as real, ltv);
    Derived(ltv, equity, dollars, age, score, AssignTier(Some(score), Some(ltv), dollars),
            Cci(equity, ltv, age as real))
  }

  function DollarsAsCell(d: Option<real>): Cell {
    match d
    case Some(x) => Num(x)
    case None => Missing
  }

  /** The working and derived column names are pairwise distinct and distinct from the source names. */
  lemma KeysDistinct()
    ensures |TempKeys| == 3 && |DerivedKeys| == 7
    ensures TempKeys !! DerivedKeys && TempKeys !! SourceKeys && DerivedKeys !! SourceKeys
  {
  }

  /** The normaliser changes no cell outside the working and derived columns. */
  lemma {:induction false} AugmentFrame(r: Row, today: Date, parse: string -> Option<Date>)
    ensures forall k :: k in r && k !in TempKeys && k !in DerivedKeys ==> Augment(r, today, parse)[k] == r[k]
  {
    KeysDistinct();
  }

  lemma {:induction false} WorkingAgrees(r: Row, parse: string -> Option<Date>)
    ensures NumberOf(Get(AddWorking(r, parse), TempValueKey)) == Value(r)
    ensures NumberOf(Get(AddWorking(r, parse), TempBalanceKey)) == Balance(r)
    ensures DateOf(Get(AddWorking(r, parse), TempDateKey)) == LoanDate(r, parse)
  {
    KeysDistinct();
    var r1 := r[TempValueKey := ValueSource(r)];
    assert BalanceSource(r1) == BalanceSource(r);
    var r2 := r1[TempBalanceKey := BalanceSource(r1)];
    assert DateSource(r2, parse) == DateSource(r, parse);
  }

  lemma {:induction false} FinancialsAgree(w: Row)
    ensures var ltv := LtvPct(NumberOf(Get(w, TempBalanceKey)), NumberOf(Get(w, TempValueKey)));
      && Get(AddFinancials(w), LtvKey) == Num(ltv)
      && Get(AddFinancials(w), EquityKey) == Num(EquityPct(ltv))
      && Get(AddFinancials(w), DollarsKey) == DollarsAsCell(EquityDollars(NumberOf(Get(w, TempValueKey)), EquityPct(ltv)))
      && Get(AddFinancials(w), TempDateKey) == Get(w, TempDateKey)
  {
    KeysDistinct();
  }

  lemma {:induction false} ScoresAgree(f: Row, today: Date, ltv: real, equity: real)
    requires Get(f, LtvKey) == Num(ltv) && Get(f, EquityKey) == Num(equity)
    ensures var age := LoanAgeMonths(DateOf(Get(f, TempDateKey)), today);
      var score := ApsScore(equity, age as real, ltv);
      && AddScores(f, today)[LtvKey] == Num(ltv)
      && AddScores(f, today)[EquityKey] == Num(equity)
      && Get(AddScores(f, today), DollarsKey) == Get(f, DollarsKey)
      && AddScores(f, today)[AgeKey] == Num(age as real)
      && AddScores(f, today)[ScoreKey] == Num(score)
      && AddScores(f, today)[TierKey] == Text(AssignTier(Some(score), Some(ltv), NumberOf(Get(f, DollarsKey))).Label())
      && AddScores(f, today)[CciKey] == Num(Cci(equity, ltv, age as real))
  {
    KeysDistinct();
    var age := LoanAgeMonths(DateOf(Get(f, TempDateKey)), today);
    var r7 := f[AgeKey := AgeCell(f, today)];
    assert Get(r7, AgeKey) == Num(age as real);
    assert Get(r7, EquityKey) == Num(equity) && Get(r7, LtvKey) == Num(ltv);
    var r8 := r7[ScoreKey := ScoreCell(r7)];
    assert ScoreCell(r7) == Num(ApsScore(equity, age as real, ltv));
    assert Get(r8, DollarsKey) == Get(f, DollarsKey);
    var r9 := r8[TierKey := TierCell(r8)];
    assert Get(r9, AgeKey) == Num(age as real);
    assert Get(r9, EquityKey) == Num(equity) && Get(r9, LtvKey) == Num(ltv);
  }

  /** `row` holds the derived record `d` in its seven derived columns. */
  predicate Carries(row: Row, d: Derived) {
    && DerivedKeys <= row.Keys
    && row[LtvKey] == Num(d.ltv)
    && row[EquityKey] == Num(d.equity)
    && row[DollarsKey] == DollarsAsCell(d.dollars)
    && row[AgeKey] == Num(d.age as real)
    && row[ScoreKey] == Num(d.score)
    && row[TierKey] == Text(d.tier.Label())
    && row[CciKey] == Num(d.cci)
  }

  /** Column-by-column and record-by-record give the same derived cells. */
  lemma {:induction false} AugmentAgrees(r: Row, today: Date, parse: string -> Option<Date>)
    ensures Carries(Augment(r, today, parse), Derive(r, today, parse))
  {
    var w := AddWorking(r, parse);
    WorkingAgrees(r, parse);
    FinancialsAgree(w);
    var f := AddFinancials(w);
    var d := Derive(r, today, parse);
    assert NumberOf(Get(f, DollarsKey)) == d.dollars;
    ScoresAgree(f, today, d.ltv, d.equity);
    KeysDistinct();
  }

  // ---------------------------------------------------------------------
  // Properties

  /**
   * Source precedence: the canonical column hides its alias entirely; without
   * it the alias is read exactly as the canonical column would be; with
   * neither column the money fields read 0 and the date is absent.
   */
  lemma SourcePrecedence(r: Row, c: Cell, parse: string -> Option<Date>)
    ensures EstValueKey in r ==> Value(r[PropertyValueKey := c]) == Value(r)
    ensures TotalLoanBalKey in r ==> Balance(r[LoanBalanceKey := c]) == Balance(r)
    ensures LastLoanDateKey in r ==> LoanDate(r[LoanDateKey := c], parse) == LoanDate(r, parse)
    ensures EstValueKey !in r && PropertyValueKey !in r ==> Value(r) == Some(0.0)
    ensures TotalLoanBalKey !in r && LoanBalanceKey !in r ==> Balance(r) == Some(0.0)
    ensures LastLoanDateKey !in r && LoanDateKey !in r ==> LoanDate(r, parse) == None
    ensures EstValueKey !in r && PropertyValueKey in r ==>
      Value(r) == Value(map[EstValueKey := r[PropertyValueKey]])
    ensures TotalLoanBalKey !in r && LoanBalanceKey in r ==>
      Balance(r) == Balance(map[TotalLoanBalKey := r[LoanBalanceKey]])
    ensures LastLoanDateKey !in r && LoanDateKey in r ==>
      LoanDate(r, parse) == LoanDate(map[LastLoanDateKey := r[LoanDateKey]], parse)
  {
  }

  /** The valid tier labels. */
  const TierLabels: set<string> := {"Platinum", "Gold", "Silver", "Nurture"}

  predicate NumIn(c: Cell, lo: real, hi: real) {
    c.Num? && lo <= c.x <= hi
  }

  /** What every scored row satisfies: the ranges and the complement the health check audits. */
  predicate ScoredRow(row: Row) {
    && DerivedKeys <= row.Keys
    && NumIn(row[LtvKey], 0.0, 100.0)
    && row[EquityKey].Num? && row[EquityKey].x + row[LtvKey].x == 100.0
    && NumIn(row[ScoreKey], 0.0, 100.0)
    && NumIn(row[CciKey], 0.0, 100.0)
    && row[AgeKey].Num? && row[AgeKey].x >= 0.0
    && row[TierKey].Text? && row[TierKey].s in TierLabels
  }

  /** Every row the normaliser returns is a scored row, whatever its input. */
  lemma {:induction false} NormalizedIsScored(r: Row, today: Date, parse: string -> Option<Date>)
    ensures ScoredRow(Normalized(r, today, parse))
  {
    AugmentAgrees(r, today, parse);
    CarriesAfterDrop(Augment(r, today, parse), Derive(r, today, parse));
    ScoredRowOf(Normalized(r, today, parse), Derive(r, today, parse));
  }

  /** Dropping the working columns keeps the derived cells. */
  lemma CarriesAfterDrop(aug: Row, d: Derived)
    requires Carries(aug, d)
    ensures Carries(aug - TempKeys, d)
  {
    KeysDistinct();
  }

  /** A row carrying a derived record's cells is a scored row. */
  lemma ScoredRowOf(row: Row, d: Derived)
    requires Carries(row, d)
    requires 0.0 <= d.ltv <= 100.0 && d.equity + d.ltv == 100.0
    requires 0.0 <= d.score <= 100.0 && 0.0 <= d.cci <= 100.0
    ensures ScoredRow(row)
  {
    assert d.tier.Label() in TierLabels;
  }

  /** Two rows that agree on the source columns read the same value, balance and date. */
  lemma {:induction false} SourcesAgree(r: Row, s: Row, parse: string -> Option<Date>)
    requires forall k :: k in SourceKeys ==> (k in r <==> k in s)
    requires forall k :: k in SourceKeys && k in r ==> r[k] == s[k]
    ensures Value(s) == Value(r) && Balance(s) == Balance(r) && LoanDate(s, parse) == LoanDate(r, parse)
  {
    assert ValueSource(s) == ValueSource(r);
    assert BalanceSource(s) == BalanceSource(r);
    assert DateSource(s, parse) == DateSource(r, parse);
  }

  /** The normalised row keeps the source cells, so it reads the same value, balance and date. */
  lemma {:induction false} NormalizedKeepsSources(r: Row, today: Date, parse: string -> Option<Date>)
    ensures Value(Normalized(r, today, parse)) == Value(r)
    ensures Balance(Normalized(r, today, parse)) == Balance(r)
    ensures LoanDate(Normalized(r, today, parse), parse) == LoanDate(r, parse)
  {
    var once := Normalized(r, today, parse);
    AugmentFrame(r, today, parse);
    KeysDistinct();
    forall k | k in SourceKeys ensures (k in r <==> k in once) && (k in r ==> r[k] == once[k]) {
    }
    SourcesAgree(r, once, parse);
  }

  /** The derived cells depend on a row only through its value, balance and loan date. */
  lemma {:induction false} DerivedCellsBySources(r: Row, s: Row, today: Date, parse: string -> Option<Date>)
    requires Value(r) == Value(s) && Balance(r) == Balance(s) && LoanDate(r, parse) == LoanDate(s, parse)
    ensures forall k :: k in DerivedKeys ==> Augment(r, today, parse)[k] == Augment(s, today, parse)[k]
  {
    assert Derive(s, today, parse) == Derive(r, today, parse);
    AugmentAgrees(r, today, parse);
    AugmentAgrees(s, today, parse);
    SameDerivedCells(Augment(r, today, parse), Augment(s, today, parse), Derive(r, today, parse));
  }

  /** Two rows carrying the same derived record carry the same derived cells. */
  lemma SameDerivedCells(a: Row, b: Row, d: Derived)
    requires Carries(a, d) && Carries(b, d)
    ensures forall k :: k in DerivedKeys ==> a[k] == b[k]
  {
  }

  /**
   * Re-running the normaliser on its own output, with the same evaluation
   * date, changes nothing: it reads only source columns, which it never writes.
   */
  lemma {:induction false} NormalizeIdempotent(r: Row, today: Date, parse: string -> Option<Date>)
    ensures Normalized(Normalized(r, today, parse), today, parse) == Normalized(r, today, parse)
  {
    var once := Normalized(r, today, parse);
    AugmentFrame(r, today, parse);
    AugmentFrame(once, today, parse);
    NormalizedKeepsSources(r, today, parse);
    DerivedCellsBySources(once, r, today, parse);
    RerunGivesBack(Augment(r, today, parse), Augment(once, today, parse));
  }

  /**
   * The shape of a second run: `aug2` re-augments `aug1` less its working
   * columns, keeping every other cell and rewriting the derived ones to what
   * they already were. Dropping the working columns again gives the same row.
   */
  lemma {:induction false} RerunGivesBack(aug1: Row, aug2: Row)
    requires TempKeys <= aug1.Keys && DerivedKeys <= aug1.Keys
    requires aug2.Keys == (aug1 - TempKeys).Keys + TempKeys + DerivedKeys
    requires forall k :: k in aug1 - TempKeys && k !in TempKeys && k !in DerivedKeys ==> aug2[k] == (aug1 - TempKeys)[k]
    requires forall k :: k in DerivedKeys ==> aug2[k] == aug1[k]
    ensures aug2 - TempKeys == aug1 - TempKeys
  {
    KeysDistinct();
    var once := aug1 - TempKeys;
    forall k | k in once ensures aug2[k] == once[k] {
      if k in DerivedKeys {
        assert aug2[k] == aug1[k];
      }
    }
  }

  lemma {:induction false} AugmentedNamesOfScored(names: seq<string>)
    requires forall k :: k in DerivedKeys ==> k in names
    requires forall k :: k in names ==> k !in TempKeys
    ensures AugmentedNames(names) == names + [TempValueKey, TempBalanceKey, TempDateKey]
  {
    var n3 := WithTempNames(names);
    assert LtvKey in n3 && EquityKey in n3 && DollarsKey in n3 && AgeKey in n3;
    assert ScoreKey in n3 && TierKey in n3 && CciKey in n3;
  }

  lemma {:induction false} WithTempNames(names: seq<string>) returns (n3: seq<string>)
    requires forall k :: k in DerivedKeys ==> k in names
    requires forall k :: k in names ==> k !in TempKeys
    ensures n3 == WithName(WithName(WithName(names, TempValueKey), TempBalanceKey), TempDateKey)
    ensures n3 == names + [TempValueKey, TempBalanceKey, TempDateKey]
    ensures forall k :: k in DerivedKeys ==> k in n3
  {
    var n1 := WithName(names, TempValueKey);
    assert TempValueKey !in names;
    assert n1 == names + [TempValueKey];
    var n2 := WithName(n1, TempBalanceKey);
    assert TempBalanceKey !in n1;
    assert n2 == names + [TempValueKey, TempBalanceKey];
    n3 := WithName(n2, TempDateKey);
    assert TempDateKey !in n2;
    assert n3 == n2 + [TempDateKey];
  }

  lemma {:induction false} AugmentedNamesHaveDerived(names: seq<string>)
    ensures forall k :: k in DerivedKeys ==> k in AugmentedNames(names)
  {
    var n3 := WithName(WithName(WithName(names, TempValueKey), TempBalanceKey), TempDateKey);
    var n4 := WithName(n3, LtvKey);
    var n5 := WithName(n4, EquityKey);
    var n6 := WithName(n5, DollarsKey);
    var n7 := WithName(n6, AgeKey);
    var n8 := WithName(n7, ScoreKey);
    var n9 := WithName(n8, TierKey);
    var n10 := WithName(n9, CciKey);
    assert AugmentedNames(names) == n10;
    assert LtvKey in n4 && EquityKey in n5 && DollarsKey in n6 && AgeKey in n7;
    assert LtvKey in n7 && EquityKey in n7 && DollarsKey in n7 && AgeKey in n7;
    assert ScoreKey in n8 && TierKey in n9;
    assert LtvKey in n10 && EquityKey in n10 && DollarsKey in n10 && AgeKey in n10;
    assert ScoreKey in n10 && TierKey in n10 && CciKey in n10;
  }

  /** The returned column list names every derived column. */
  lemma NormalizedNamesHaveDerived(names: seq<string>)
    ensures forall k :: k in DerivedKeys ==> k in NormalizedNames(names)
  {
    AugmentedNamesHaveDerived(names);
    KeysDistinct();
  }

  /** The returned column list is also a fixed point of a second run. */
  lemma {:induction false} NormalizedNamesIdempotent(names: seq<string>)
    ensures NormalizedNames(NormalizedNames(names)) == NormalizedNames(names)
  {
    var once := NormalizedNames(names);
    NormalizedNamesHaveDerived(names);
    forall k | k in once ensures k !in TempKeys {
    }
    NormalizedNamesOfScored(once);
  }

  /** A column list that already has every derived name and no working name is returned unchanged. */
  lemma {:induction false} NormalizedNamesOfScored(names: seq<string>)
    requires forall k :: k in DerivedKeys ==> k in names
    requires forall k :: k in names ==> k !in TempKeys
    ensures NormalizedNames(names) == names
  {
    AugmentedNamesOfScored(names);
    WithoutTemps(names);
  }

  /** Dropping the working names from a list without them, followed by them, leaves the list. */
  lemma {:induction false} WithoutTemps(names: seq<string>)
    requires forall k :: k in names ==> k !in TempKeys
    ensures Without(names + [TempValueKey, TempBalanceKey, TempDateKey], TempKeys) == names
  {
    var temps := [TempValueKey, TempBalanceKey, TempDateKey];
    if names == [] {
      assert names + temps == temps;
      assert temps[1..] == [TempBalanceKey, TempDateKey];
      assert temps[1..][1..] == [TempDateKey];
      assert Without([TempDateKey], TempKeys) == Without([], TempKeys) == [];
    } else {
      assert (names + temps)[1..] == names[1..] + temps;
      assert names[0] in names;
      WithoutTemps(names[1..]);
    }
  }

  /** A record whose balance is written out as half its written-out value. */
  lemma {:induction false} HalfEquitySources(r: Row, b: nat, parse: string -> Option<Date>)
    requires r == map[EstValueKey := Text(NatText(2 * b)), TotalLoanBalKey := Text(NatText(b))]
    ensures Value(r) == Some((2 * b) as real) && Balance(r) == Some(b as real) && LoanDate(r, parse) == None
  {
    KeysDistinct();
    WrittenValue(r, 2 * b);
    WrittenBalance(r, b);
    assert LastLoanDateKey !in r && LoanDateKey !in r;
  }

  /** A value column holding a plain written-out number reads as that number. */
  lemma {:induction false} WrittenValue(r: Row, v: nat)
    requires EstValueKey in r && r[EstValueKey] == Text(NatText(v))
    ensures Value(r) == Some(v as real)
  {
    MoneyOfPlainNumber(v);
    assert ValueSource(r) == MoneyCell(Text(NatText(v)));
  }

  /** A balance column holding a plain written-out number reads as that number. */
  lemma {:induction false} WrittenBalance(r: Row, b: nat)
    requires TotalLoanBalKey in r && r[TotalLoanBalKey] == Text(NatText(b))
    ensures Balance(r) == Some(b as real)
  {
    MoneyOfPlainNumber(b);
    assert BalanceSource(r) == MoneyCell(Text(NatText(b)));
  }

  /**
   * Money written the way exports format it, with a dollar sign and thousands
   * commas ("$300,000"), or with the commas alone, reads as the whole number.
   */
  lemma {:induction false} FormattedMoneyCell(n: nat)
    ensures MoneyCell(Text("$" + Grouped(n))) == Num(n as real)
    ensures MoneyCell(Text(Grouped(n))) == Num(n as real)
  {
    MoneyOfGrouped(n);
  }

  /** A value column holding a formatted amount ("$300,000") resolves to that amount. */
  lemma {:induction false} FormattedValue(r: Row, v: nat)
    requires EstValueKey in r && r[EstValueKey] == Text("$" + Grouped(v))
    ensures Value(r) == Some(v as real)
  {
    FormattedMoneyCell(v);
    assert ValueSource(r) == MoneyCell(Text("$" + Grouped(v)));
  }

  /** A balance column holding a formatted amount ("$150,000") resolves to that amount. */
  lemma {:induction false} FormattedBalance(r: Row, b: nat)
    requires TotalLoanBalKey in r && r[TotalLoanBalKey] == Text("$" + Grouped(b))
    ensures Balance(r) == Some(b as real)
  {
    FormattedMoneyCell(b);
    assert BalanceSource(r) == MoneyCell(Text("$" + Grouped(b)));
  }

  /**
   * A record of text cells, as the callers read them, whose loan balance is
   * half its value (say $300000 over $150000): 50% LTV, 50% equity, equity
   * dollars equal to the balance, and no loan date, so age 0.
   */
  lemma {:induction false} HalfEquityExample(r: Row, b: nat, today: Date, parse: string -> Option<Date>)
    requires b > 0
    requires r == map[EstValueKey := Text(NatText(2 * b)), TotalLoanBalKey := Text(NatText(b))]
    ensures Derive(r, today, parse).ltv == 50.0
    ensures Derive(r, today, parse).equity == 50.0
    ensures Derive(r, today, parse).dollars == Some(b as real)
    ensures LoanDate(r, parse) == None && Derive(r, today, parse).age == 0
  {
    HalfEquitySources(r, b, parse);
    HalfLtv(b);
    HalfDollars(b);
  }

  lemma {:induction false} HalfLtv(b: nat)
    requires b > 0
    ensures LtvPct(Some(b as real), Some((2 * b) as real)) == 50.0
    ensures EquityPct(50.0) == 50.0
  {
    var v := (2 * b) as real;
    assert (b as real) / v * 100.0 == 50.0;
    Rounding.IntegerOnGrid(50, 2);
    Rounding.RoundOnGrid(50.0, 2);
  }

  lemma {:induction false} HalfDollars(b: nat)
    ensures EquityDollars(Some((2 * b) as real), 50.0) == Some(b as real)
  {
    assert ((2 * b) as real) * (50.0 / 100.0) == b as real;
    Rounding.IntegerOnGrid(b, 0);
    Rounding.RoundOnGrid(b as real, 0);
  }
}
