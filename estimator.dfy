/**
 * The cost estimator inside the forecast route: select the historical rows
 * whose six categorical fields equal the submitted profile, average the twelve
 * numeric columns over that selection (or over the whole table when nothing
 * matches), and merge those averages with the profile into the single input
 * row handed to the regression model.
 *
 * Means are taken over `real`, which is exact; pandas computes them in
 * floating point.
 */
module Estimator {
  import opened Wrappers

  /** The submitted form: the six categorical fields, as free strings. */
  datatype Profile = Profile(
    gender: string,
    year: string,
    lifestyle: string,
    accommodationType: string,
    financeSources: string,
    earnIncome: string)

  /** One row of the historical table: six categorical and twelve numeric columns. */
  datatype Row = Row(
    gender: string,
    year: string,
    lifestyle: string,
    accommodationType: string,
    financeSources: string,
    earnIncome: string,
    age: real,
    rent: real,
    feeding: real,
    transportCost: real,
    textbooks: real,
    insurance: real,
    medical: real,
    subCost: real,
    social: real,
    otherExpenses: real,
    yearlyIncome: real,
    aidAmount: real)

  /** The twelve averaged columns, `numeric_cols`. */
  datatype Measure =
    | Age | Rent | Feeding | TransportCost | Textbooks | Insurance
    | Medical | SubCost | Social | OtherExpenses | YearlyIncome | AidAmount

  /** The six categorical columns, the keys of the submitted form. */
  datatype Category = Gender | Year | Lifestyle | AccommodationType | FinanceSources | EarnIncome

  /** A column of the model's input row. */
  datatype Key = Numeric(measure: Measure) | Categorical(category: Category)

  /** A cell of the model's input row: a mean (NaN when taken over no rows) or a profile string. */
  datatype Value = Num(x: real) | NaN | Str(s: string)

  /** The model's input: one cell per column, as the dict built by the route. */
  type Input = map<Key, Value>

  /** The keys of `numeric_cols`. */
  const NumericKeys: set<Key> :=
    {Numeric(Age), Numeric(Rent), Numeric(Feeding), Numeric(TransportCost),
     Numeric(Textbooks), Numeric(Insurance), Numeric(Medical), Numeric(SubCost),
     Numeric(Social), Numeric(OtherExpenses), Numeric(YearlyIncome), Numeric(AidAmount)}

  /** The keys of the form dict. */
  const ProfileKeys: set<Key> :=
    {Categorical(Gender), Categorical(Year), Categorical(Lifestyle),
     Categorical(AccommodationType), Categorical(FinanceSources), Categorical(EarnIncome)}

  /** The dataframe column name of a numeric column. */
  function MeasureName(m: Measure): string {
    match m
    case Age => "Age"
    case Rent => "Rent"
    case Feeding => "Feeding"
    case TransportCost => "TransportCost"
    case Textbooks => "Textbooks"
    case Insurance => "Insurance"
    case Medical => "Medical"
    case SubCost => "SubCost"
    case Social => "Social"
    case OtherExpenses => "OtherExpenses"
    case YearlyIncome => "YearlyIncome"
    case AidAmount => "AidAmount"
  }

  /** The dataframe column name (and form dict key) of a categorical column. */
  function CategoryName(c: Category): string {
    match c
    case Gender => "Gender"
    case Year => "Year"
    case Lifestyle => "Lifestyle"
    case AccommodationType => "AccommodationType"
    case FinanceSources => "FinanceSources"
    case EarnIncome => "EarnIncome"
  }

  /** The dict key under which a column reaches the model. */
  function KeyName(k: Key): string {
    match k
    case Numeric(m) => MeasureName(m)
    case Categorical(c) => CategoryName(c)
  }

  /** The form field stored under a profile key. */
  function ProfileField(p: Profile, c: Category): string {
    match c
    case Gender => p.gender
    case Year => p.year
    case Lifestyle => p.lifestyle
    case AccommodationType => p.accommodationType
    case FinanceSources => p.financeSources
    case EarnIncome => p.earnIncome
  }

  /** A row's categorical cell. */
  function RowCategory(r: Row, c: Category): string {
    match c
    case Gender => r.gender
    case Year => r.year
    case Lifestyle => r.lifestyle
    case AccommodationType => r.accommodationType
    case FinanceSources => r.financeSources
    case EarnIncome => r.earnIncome
  }

  /** A row's numeric cell. */
  function Measured(r: Row, m: Measure): real {
    match m
    case Age => r.age
    case Rent => r.rent
    case Feeding => r.feeding
    case TransportCost => r.transportCost
    case Textbooks => r.textbooks
    case Insurance => r.insurance
    case Medical => r.medical
    case SubCost => r.subCost
    case Social => r.social
    case OtherExpenses => r.otherExpenses
    case YearlyIncome => r.yearlyIncome
    case AidAmount => r.aidAmount
  }

  /** The boolean mask of the filter: six equalities, all of them required. */
  predicate MatchesProfile(r: Row, p: Profile) {
    && r.gender == p.gender
    && r.year == p.year
    && r.lifestyle == p.lifestyle
    && r.accommodationType == p.accommodationType
    && r.financeSources == p.financeSources
    && r.earnIncome == p.earnIncome
  }

  /** The rows of `table` selected by the mask, in table order and with repetitions. */
  function Matches(table: seq<Row>, p: Profile): (m: seq<Row>)
    ensures |m| <= |table|
  {
    if table == [] then []
    else
      var rest := Matches(table[1..], p);
      if MatchesProfile(table[0], p) then [table[0]] + rest else rest
  }

  /** The column total over `rows`. */
  function Sum(rows: seq<Row>, m: Measure): real {
    if rows == [] then 0.0 else Measured(rows[0], m) + Sum(rows[1..], m)
  }

  /** `rows[col].mean()`: the arithmetic mean, NaN over no rows. */
  function Mean(rows: seq<Row>, m: Measure): Value {
    if rows == [] then NaN else Num(Sum(rows, m) / (|rows| as real))
  }

  /** `rows[numeric_cols].mean().to_dict()`. */
  function ColumnMeans(rows: seq<Row>): map<Key, Value> {
    map k | k in NumericKeys :: Mean(rows, k.measure)
  }

  /** The averages the route feeds the model: over the matching rows, or the whole table when none match. */
  function Averages(table: seq<Row>, p: Profile): map<Key, Value> {
    var m := Matches(table, p);
    if m != [] then ColumnMeans(m) else ColumnMeans(table)
  }

  /** The form dict: each categorical key with the submitted string. */
  function FormData(p: Profile): map<Key, Value> {
    map k | k in ProfileKeys :: Str(ProfileField(p, k.category))
  }

  /** `{**averages, **form_data}`: a union in which the form's entries win. */
  function BuildInput(averages: map<Key, Value>, p: Profile): Input {
    averages + FormData(p)
  }

  /** The single row passed to `model.predict`. */
  function ModelInput(table: seq<Row>, p: Profile): Input {
    BuildInput(Averages(table, p), p)
  }

  /** The forecast: the model applied to the constructed row; `None` when the model raises. */
  function Estimate(table: seq<Row>, p: Profile, predict: Input -> Option<real>): Option<real> {
    predict(ModelInput(table, p))
  }

  // ---------------------------------------------------------------------------
  // The mask

  /** A row matches exactly when every one of the six profile columns agrees; there is no partial match. */
  lemma MatchIffEveryColumnAgrees(r: Row, p: Profile)
    ensures MatchesProfile(r, p) <==> forall c :: RowCategory(r, c) == ProfileField(p, c)
  {
    if forall c :: RowCategory(r, c) == ProfileField(p, c) {
      assert RowCategory(r, Gender) == ProfileField(p, Gender);
      assert RowCategory(r, Year) == ProfileField(p, Year);
      assert RowCategory(r, Lifestyle) == ProfileField(p, Lifestyle);
      assert RowCategory(r, AccommodationType) == ProfileField(p, AccommodationType);
      assert RowCategory(r, FinanceSources) == ProfileField(p, FinanceSources);
      assert RowCategory(r, EarnIncome) == ProfileField(p, EarnIncome);
    }
  }

  /** Each matching row is kept as often as it occurs in the table, every other row not at all. */
  lemma {:induction false} MatchesMultiplicity(table: seq<Row>, p: Profile)
    ensures forall r :: multiset(Matches(table, p))[r] == if MatchesProfile(r, p) then multiset(table)[r] else 0
  {
    if table != [] {
      MatchesMultiplicity(table[1..], p);
      assert table == [table[0]] + table[1..];
    }
  }

  /** The matches are exactly the table's rows that the mask selects. */
  lemma MatchesMembers(table: seq<Row>, p: Profile)
    ensures forall r :: r in Matches(table, p) <==> r in table && MatchesProfile(r, p)
    ensures Matches(table, p) == [] <==> forall r :: r in table ==> !MatchesProfile(r, p)
  {
    MatchesMultiplicity(table, p);
    var m := Matches(table, p);
    if m != [] {
      assert m[0] in m;
    }
  }

  /** One step of the filter: a row in front is kept exactly when it matches. */
  lemma MatchesCons(x: Row, rest: seq<Row>, p: Profile)
    ensures Matches([x] + rest, p) == if MatchesProfile(x, p) then [x] + Matches(rest, p) else Matches(rest, p)
  {
    var s := [x] + rest;
    assert s[0] == x;
    assert s[1..] == rest;
  }

  /** Filtering a concatenation filters each part, keeping their order. */
  lemma {:induction false} MatchesAppend(a: seq<Row>, b: seq<Row>, p: Profile)
    ensures Matches(a + b, p) == Matches(a, p) + Matches(b, p)
  {
    if a == [] {
      assert a + b == b;
    } else {
      var x, tail := a[0], a[1..];
      assert a == [x] + tail;
      assert a + b == [x] + (tail + b);
      MatchesAppend(tail, b, p);
      MatchesCons(x, tail + b, p);
      MatchesCons(x, tail, p);
      if MatchesProfile(x, p) {
        assert [x] + (Matches(tail, p) + Matches(b, p)) == ([x] + Matches(tail, p)) + Matches(b, p);
      }
    }
  }

  // ---------------------------------------------------------------------------
  // The averages

  /** Every column key is listed, numeric ones in `NumericKeys` and categorical ones in `ProfileKeys`. */
  lemma KeyListed(k: Key)
    ensures k.Numeric? <==> k in NumericKeys
    ensures k.Categorical? <==> k in ProfileKeys
  {
    match k
    case Numeric(m) =>
      match m {
        case Age => case Rent => case Feeding => case TransportCost => case Textbooks => case Insurance =>
        case Medical => case SubCost => case Social => case OtherExpenses => case YearlyIncome => case AidAmount =>
      }
    case Categorical(c) =>
      match c {
        case Gender => case Year => case Lifestyle => case AccommodationType => case FinanceSources => case EarnIncome =>
      }
  }

  /** Which rows the averages are taken over: the matches if any row matches, else the whole table. */
  lemma AveragesSelection(table: seq<Row>, p: Profile)
    ensures (exists r :: r in table && MatchesProfile(r, p)) ==> Averages(table, p) == ColumnMeans(Matches(table, p))
    ensures (forall r :: r in table ==> !MatchesProfile(r, p)) ==> Averages(table, p) == ColumnMeans(table)
  {
    MatchesMembers(table, p);
  }

  /** The averages have exactly the twelve numeric keys; over a non-empty table none of them is NaN, over an empty one all are. */
  lemma AveragesKeysAndDefinedness(table: seq<Row>, p: Profile)
    ensures Averages(table, p).Keys == NumericKeys
    ensures table != [] ==> forall k :: k in NumericKeys ==> Averages(table, p)[k].Num?
    ensures table == [] ==> forall k :: k in NumericKeys ==> Averages(table, p)[k] == NaN
  {
  }

  /** With at least one matching row, each mean is the matching rows' total over their count. */
  lemma AverageOverMatches(table: seq<Row>, p: Profile, m: Measure)
    requires exists r :: r in table && MatchesProfile(r, p)
    ensures var rows := Matches(table, p);
      |rows| > 0 && Averages(table, p)[Numeric(m)] == Num(Sum(rows, m) / (|rows| as real))
  {
    AveragesSelection(table, p);
    MatchesMembers(table, p);
    KeyListed(Numeric(m));
  }

  /** With no matching row, each mean is the whole table's total over its count. */
  lemma AverageFallback(table: seq<Row>, p: Profile, m: Measure)
    requires table != []
    requires forall r :: r in table ==> !MatchesProfile(r, p)
    ensures Averages(table, p)[Numeric(m)] == Num(Sum(table, m) / (|table| as real))
  {
    AveragesSelection(table, p);
    KeyListed(Numeric(m));
  }

  /** One more row whose value is at least `lo` keeps the total at least count times `lo`. */
  lemma StepLower(k: nat, x: real, s: real, lo: real)
    requires (k as real) * lo <= s && lo <= x
    ensures ((k + 1) as real) * lo <= x + s
  {
  }

  /** One more row whose value is at most `hi` keeps the total at most count times `hi`. */
  lemma StepUpper(k: nat, x: real, s: real, hi: real)
    requires s <= (k as real) * hi && x <= hi
    ensures x + s <= ((k + 1) as real) * hi
  {
  }

  /** A column total stays within count times the column's bounds. */
  lemma {:induction false} SumBounds(rows: seq<Row>, m: Measure, lo: real, hi: real)
    requires forall i :: 0 <= i < |rows| ==> lo <= Measured(rows[i], m) <= hi
    ensures (|rows| as real) * lo <= Sum(rows, m) <= (|rows| as real) * hi
  {
    if rows != [] {
      var rest := rows[1..];
      var x := Measured(rows[0], m);
      assert lo <= x <= hi;
      SumBounds(rest, m, lo, hi);
      var s := Sum(rest, m);
      assert Sum(rows, m) == x + s;
      assert |rows| == |rest| + 1;
      StepLower(|rest|, x, s, lo);
      StepUpper(|rest|, x, s, hi);
    }
  }

  /** Dividing a total bounded by `n * lo` and `n * hi` by `n > 0` lands between `lo` and `hi`. */
  lemma DivideBounds(s: real, n: real, lo: real, hi: real)
    requires n > 0.0
    requires n * lo <= s <= n * hi
    ensures lo <= s / n <= hi
  {
    assert s / n * n == s;
  }

  /** A mean over some rows lies between bounds that every one of those rows respects. */
  lemma MeanWithinBounds(rows: seq<Row>, m: Measure, lo: real, hi: real)
    requires rows != []
    requires forall i :: 0 <= i < |rows| ==> lo <= Measured(rows[i], m) <= hi
    ensures Mean(rows, m).Num? && lo <= Mean(rows, m).x <= hi
  {
    SumBounds(rows, m, lo, hi);
    DivideBounds(Sum(rows, m), |rows| as real, lo, hi);
  }

  /** Every average lies between the least and greatest value of the table's column. */
  lemma AverageWithinBounds(table: seq<Row>, p: Profile, m: Measure, lo: real, hi: real)
    requires table != []
    requires forall r :: r in table ==> lo <= Measured(r, m) <= hi
    ensures Averages(table, p)[Numeric(m)].Num?
    ensures lo <= Averages(table, p)[Numeric(m)].x <= hi
  {
    AveragesSelection(table, p);
    KeyListed(Numeric(m));
    var sel := Matches(table, p);
    MatchesMembers(table, p);
    if sel != [] {
      assert forall i :: 0 <= i < |sel| ==> sel[i] in sel;
      MeanWithinBounds(sel, m, lo, hi);
    } else {
      assert forall i :: 0 <= i < |table| ==> table[i] in table;
      MeanWithinBounds(table, m, lo, hi);
    }
  }

  /** When every matching row has value `v` in a column, that column's average is `v`, whatever the other rows hold. */
  lemma UniformGroupAverage(table: seq<Row>, p: Profile, m: Measure, v: real)
    requires exists r :: r in table && MatchesProfile(r, p)
    requires forall r :: r in table && MatchesProfile(r, p) ==> Measured(r, m) == v
    ensures Averages(table, p)[Numeric(m)] == Num(v)
  {
    var rows := Matches(table, p);
    MatchesMembers(table, p);
    assert forall i :: 0 <= i < |rows| ==> rows[i] in rows;
    AveragesSelection(table, p);
    KeyListed(Numeric(m));
    MeanWithinBounds(rows, m, v, v);
  }

  /** Rows of other profiles change nothing once the profile has matches of its own. */
  lemma OtherProfilesIgnored(table: seq<Row>, extra: seq<Row>, p: Profile)
    requires exists r :: r in table && MatchesProfile(r, p)
    requires forall r :: r in extra ==> !MatchesProfile(r, p)
    ensures Averages(table + extra, p) == Averages(table, p)
  {
    MatchesAppend(table, extra, p);
    MatchesMembers(extra, p);
    assert Matches(table + extra, p) == Matches(table, p);
    MatchesMembers(table, p);
  }

  // ---------------------------------------------------------------------------
  // The merged input row

  /** The eighteen column names under which the cells reach the model are pairwise distinct. */
  lemma KeyNamesDistinct(k1: Key, k2: Key)
    ensures KeyName(k1) == KeyName(k2) ==> k1 == k2
  {
    var s1, s2 := KeyName(k1), KeyName(k2);
    if s1 == s2 {
      assert |s1| == |s2| && s1[0] == s2[0];
      if |s1| > 2 { assert s1[2] == s2[2]; }
    }
  }

  /** The numeric and the categorical keys are disjoint, eighteen in all. */
  lemma KeyCount()
    ensures NumericKeys !! ProfileKeys
    ensures |NumericKeys| == 12 && |ProfileKeys| == 6 && |NumericKeys + ProfileKeys| == 18
  {
  }

  /** The merged keys are the union of both key sets. */
  lemma MergedKeys(averages: map<Key, Value>, p: Profile)
    requires averages.Keys == NumericKeys
    ensures BuildInput(averages, p).Keys == NumericKeys + ProfileKeys
  {
    assert FormData(p).Keys == ProfileKeys;
  }

  /** Neither side of the merge overwrites the other. */
  lemma MergedValues(averages: map<Key, Value>, p: Profile)
    requires averages.Keys == NumericKeys
    ensures forall k :: k in NumericKeys ==> BuildInput(averages, p)[k] == averages[k]
    ensures forall k :: k in ProfileKeys ==> BuildInput(averages, p)[k] == Str(ProfileField(p, k.category))
  {
    assert FormData(p).Keys == ProfileKeys;
    KeyCount();
  }

  /** The row passed to the model: every column present, the selected means under the numeric keys, the profile under the form keys. */
  lemma ModelInputContents(table: seq<Row>, p: Profile)
    ensures forall k :: k in ModelInput(table, p)
    ensures forall m :: ModelInput(table, p)[Numeric(m)] == Averages(table, p)[Numeric(m)]
    ensures forall c :: ModelInput(table, p)[Categorical(c)] == Str(ProfileField(p, c))
  {
    var averages := Averages(table, p);
    var input := ModelInput(table, p);
    assert input == BuildInput(averages, p);
    AveragesKeysAndDefinedness(table, p);
    MergedKeys(averages, p);
    MergedValues(averages, p);
    forall k ensures k in input && (k.Numeric? ==> input[k] == averages[k]) {
      KeyListed(k);
    }
    forall c ensures input[Categorical(c)] == Str(ProfileField(p, c)) {
      KeyListed(Categorical(c));
    }
  }
}
