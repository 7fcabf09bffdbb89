/** Construction of the single-row feature table handed to the classifier
    (backend/main.py:101-121): the five raw fields, four engineered ratios,
    zero for every further column the classifier expects, and the columns
    taken in the classifier's declared order. */
module Features {
  import opened CreditTypes
  import opened RuleGates

  const AMT_INCOME_TOTAL := "AMT_INCOME_TOTAL"
  const AMT_CREDIT := "AMT_CREDIT"
  const AMT_ANNUITY := "AMT_ANNUITY"
  const DAYS_BIRTH := "DAYS_BIRTH"
  const DAYS_EMPLOYED := "DAYS_EMPLOYED"
  const CREDIT_INCOME_PERCENT := "CREDIT_INCOME_PERCENT"
  const ANNUITY_INCOME_PERCENT := "ANNUITY_INCOME_PERCENT"
  const CREDIT_TERM := "CREDIT_TERM"
  const DAYS_EMPLOYED_PERCENT := "DAYS_EMPLOYED_PERCENT"

  /** Floating-point division of two finite numbers: the exact quotient,
      or an infinity / NaN for a zero divisor (the table never raises). */
  function Div(n: real, d: real): Value {
    if d != 0.0 then Num(n / d)
    else if n > 0.0 then PosInf
    else if n < 0.0 then NegInf
    else NaN
  }

  /** The freshly built table: the five raw fields. */
  function RawCells(a: Application): map<string, Value> {
    map[AMT_INCOME_TOTAL := Num(a.income), AMT_CREDIT := Num(a.credit),
        AMT_ANNUITY := Num(a.annuity), DAYS_BIRTH := Num(a.daysBirth as real),
        DAYS_EMPLOYED := Num(a.daysEmployed as real)]
  }

  /** Every column the pipeline itself computes, with its value. */
  function ComputedCells(a: Application): map<string, Value> {
    RawCells(a)[CREDIT_INCOME_PERCENT := Div(a.credit, a.income)]
               [ANNUITY_INCOME_PERCENT := Div(a.annuity, a.income / 12.0)]
               [CREDIT_TERM := Div(a.credit, a.annuity)]
               [DAYS_EMPLOYED_PERCENT := Div(a.daysEmployed as real, a.daysBirth as real)]
  }

  /** The value a column of the finished table holds: its computed value,
      or 0 when the pipeline did not compute it. */
  function ColumnValue(a: Application, name: string): Value {
    if name in ComputedCells(a) then ComputedCells(a)[name] else Num(0.0)
  }

  /** The vector handed to the classifier: one feature per expected name,
      in the expected order. */
  function FeatureVector(a: Application, expected: seq<string>): (fv: seq<Feature>)
    ensures |fv| == |expected|
    ensures forall i :: 0 <= i < |fv| ==> fv[i] == Feature(expected[i], ColumnValue(a, expected[i]))
  {
    if expected == [] then []
    else [Feature(expected[0], ColumnValue(a, expected[0]))] + FeatureVector(a, expected[1..])
  }

  function Names(fv: seq<Feature>): (ns: seq<string>)
    ensures |ns| == |fv|
    ensures forall i :: 0 <= i < |fv| ==> ns[i] == fv[i].name
  {
    if fv == [] then [] else [fv[0].name] + Names(fv[1..])
  }

  /** The vector carries exactly the expected names, in that order. */
  lemma FeatureNamesAreExpected(a: Application, expected: seq<string>)
    ensures Names(FeatureVector(a, expected)) == expected
  {
    var ns := Names(FeatureVector(a, expected));
    assert |ns| == |expected|;
    assert forall i :: 0 <= i < |ns| ==> ns[i] == expected[i];
  }

  /** The nine columns the pipeline computes; every other expected column is
      filled with 0. */
  lemma ComputedColumnNames(a: Application)
    ensures ComputedCells(a).Keys ==
              {AMT_INCOME_TOTAL, AMT_CREDIT, AMT_ANNUITY, DAYS_BIRTH, DAYS_EMPLOYED,
               CREDIT_INCOME_PERCENT, ANNUITY_INCOME_PERCENT, CREDIT_TERM, DAYS_EMPLOYED_PERCENT}
  {
  }

  /** Column filling: an expected column the pipeline computed keeps its
      computed value; any other expected column is 0. */
  lemma ColumnFilling(a: Application, expected: seq<string>, i: int)
    requires 0 <= i < |expected|
    ensures expected[i] in ComputedCells(a) ==>
              FeatureVector(a, expected)[i].value == ComputedCells(a)[expected[i]]
    ensures expected[i] !in ComputedCells(a) ==> FeatureVector(a, expected)[i].value == Num(0.0)
  {
  }

  /** After the gates pass, the four engineered ratios are the business
      quotients; only the credit term can meet a zero divisor (a zero
      annuity passes the burden gate), and then it is not a number. */
  lemma EngineeredRatiosAfterGates(a: Application)
    requires FirstViolation(a) == None
    ensures ColumnValue(a, CREDIT_INCOME_PERCENT) == Num(a.credit / a.income)
    ensures ColumnValue(a, ANNUITY_INCOME_PERCENT) == Num(a.annuity / (a.income / 12.0))
    ensures ColumnValue(a, DAYS_EMPLOYED_PERCENT) == Num(a.daysEmployed as real / a.daysBirth as real)
    ensures ColumnValue(a, CREDIT_TERM).Num? <==> a.annuity != 0.0
    ensures a.annuity != 0.0 ==> ColumnValue(a, CREDIT_TERM) == Num(a.credit / a.annuity)
  {
    AgeWindowInDays(a);
    assert a.daysBirth != 0;
  }

  /** The pandas table, restricted to its single row: the value under each
      column name. Selection by a list of names fixes the order the
      classifier sees, so the insertion order of the columns is not kept. */
  class Frame {
    var cells: map<string, Value>

    /** The table built from the five raw fields. */
    constructor (a: Application)
      ensures cells == RawCells(a)
    {
      cells := RawCells(a);
    }

    /** Column assignment: overwrites an existing column or adds a new one. */
    method SetColumn(name: string, v: Value)
      modifies this
      ensures cells == old(cells)[name := v]
    {
      cells := cells[name := v];
    }

    /** Column selection by a list of names: None when a name is missing
        (a KeyError), else the named values in the order of the list. */
    method Select(names: seq<string>) returns (r: Option<seq<Feature>>)
      ensures r.Some? <==> forall n :: n in names ==> n in cells
      ensures r.Some? ==> |r.value| == |names|
      ensures r.Some? ==> forall i :: 0 <= i < |names| ==> r.value[i] == Feature(names[i], cells[names[i]])
    {
      var out: seq<Feature> := [];
      var i := 0;
      while i < |names|
        invariant 0 <= i <= |names|
        invariant |out| == i
        invariant forall k :: 0 <= k < i ==> names[k] in cells && out[k] == Feature(names[k], cells[names[k]])
      {
        if names[i] !in cells {
          return None;
        }
        out := out + [Feature(names[i], cells[names[i]])];
        i := i + 1;
      }
      r := Some(out);
    }
  }

  /** Builds the table from the raw fields and adds the four engineered
      ratios. */
  method EngineeredFrame(a: Application) returns (frame: Frame)
    ensures fresh(frame)
    ensures frame.cells == ComputedCells(a)
  {
    frame := new Frame(a);
    frame.SetColumn(CREDIT_INCOME_PERCENT, Div(a.credit, a.income));
    frame.SetColumn(ANNUITY_INCOME_PERCENT, Div(a.annuity, a.income / 12.0));
    frame.SetColumn(CREDIT_TERM, Div(a.credit, a.annuity));
    frame.SetColumn(DAYS_EMPLOYED_PERCENT, Div(a.daysEmployed as real, a.daysBirth as real));
  }

  /** Builds the table with its engineered ratios, fills every missing
      expected column with 0 and selects the expected columns. */
  method BuildFeatures(a: Application, expected: seq<string>) returns (fv: seq<Feature>)
    ensures fv == FeatureVector(a, expected)
  {
    var frame := EngineeredFrame(a);

    var i := 0;
    while i < |expected|
      invariant 0 <= i <= |expected|
      invariant ComputedCells(a).Keys <= frame.cells.Keys
      invariant forall c :: c in frame.cells ==> frame.cells[c] == ColumnValue(a, c)
      invariant forall k :: 0 <= k < i ==> expected[k] in frame.cells
    {
      var col := expected[i];
      if col !in frame.cells {
        frame.SetColumn(col, Num(0.0));
      }
      i := i + 1;
    }

    var selected := frame.Select(expected);
    match selected {
      case None =>
        assert false;
      case Some(s) =>
        fv := s;
    }
  }
}
