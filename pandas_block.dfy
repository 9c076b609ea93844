/** The accessor of a tabular block held as a pandas DataFrame: its row and column views, its
    schema, the null handling around aggregations, and the zip of two blocks with its
    de-duplication of column names. */
module PandasBlock {
  import opened Faults
  import opened Text

  /** A column label: a string, or a label of another type, known by its `str`. */
  datatype Label = StrLabel(s: string) | OtherLabel(text: string)

  /** The dtype of a column; only whether it is `object` matters here. */
  datatype DType = ObjectDType | TypedDType(name: string)

  /** A column: its dtype and one value per row, `None` for a null. */
  datatype Column<V> = Column(dtype: DType, values: seq<Option<V>>)

  /** A DataFrame: its number of rows, its column labels and its columns, in order. */
  datatype Block<V> = Block(numRows: nat, labels: seq<Label>, columns: seq<Column<V>>)

  /** One label per column, and every column as long as the block. */
  predicate WellFormed<V>(b: Block<V>) {
    && |b.labels| == |b.columns|
    && forall k :: 0 <= k < |b.columns| ==> |b.columns[k].values| == b.numRows
  }

  predicate Distinct(s: seq<Label>) {
    forall i, j :: 0 <= i < j < |s| ==> s[i] != s[j]
  }

  /** `str(label)`. */
  function LabelText(l: Label): string {
    match l
    case StrLabel(s) => s
    case OtherLabel(t) => t
  }

  function LabelRepr(l: Label): string {
    match l
    case StrLabel(s) => ReprStr(s)
    case OtherLabel(t) => t
  }

  function JoinReprs(ls: seq<Label>): string {
    if ls == [] then ""
    else if |ls| == 1 then LabelRepr(ls[0])
    else LabelRepr(ls[0]) + ", " + JoinReprs(ls[1..])
  }

  /** `repr` of a list of labels. */
  function LabelsRepr(ls: seq<Label>): string {
    "[" + JoinReprs(ls) + "]"
  }

  /** The position of the first column with the given label. */
  function FirstIndex(labels: seq<Label>, l: Label): (k: nat)
    requires l in labels
    ensures k < |labels| && labels[k] == l
    ensures forall j :: 0 <= j < k ==> labels[j] != l
  {
    if labels[0] == l then 0 else 1 + FirstIndex(labels[1..], l)
  }

  // ---------------------------------------------------------------------------------------
  // Rows

  /** `num_rows`: the number of rows of the block. */
  function NumRows<V>(b: Block<V>): (n: nat)
    ensures WellFormed(b) ==> forall k :: 0 <= k < |b.columns| ==> |b.columns[k].values| == n
  {
    b.numRows
  }

  /** A bound of a Python slice `[start:end]` over `n` items: a negative bound counts from
      the end, and bounds are clamped to `0..n`. */
  function SliceBound(i: int, n: nat): (r: nat)
    ensures r <= n
    ensures 0 <= i <= n ==> r == i
    ensures i < 0 && n + i >= 0 ==> r == n + i
    ensures i > n ==> r == n
    ensures n + i < 0 ==> r == 0
  {
    if i < 0 then (if n + i < 0 then 0 else n + i)
    else if i > n then n
    else i
  }

  /** `slice(start, end, copy)`: the rows `start..end` of every column, as Python slices
      them; `copy` only decides whether the result shares memory with the block. */
  function Slice<V>(b: Block<V>, start: int, end: int, copy: bool): (r: Block<V>)
    requires WellFormed(b)
    ensures WellFormed(r) && r.labels == b.labels && |r.columns| == |b.columns|
    ensures forall k :: 0 <= k < |b.columns| ==> r.columns[k].dtype == b.columns[k].dtype
    ensures
      var lo := SliceBound(start, b.numRows);
      var hi := SliceBound(end, b.numRows);
      && NumRows(r) == (if hi < lo then 0 else hi - lo)
      && forall k, i :: 0 <= k < |b.columns| && 0 <= i < NumRows(r) ==>
           r.columns[k].values[i] == b.columns[k].values[lo + i]
  {
    var lo := SliceBound(start, b.numRows);
    var hi := SliceBound(end, b.numRows);
    var top := if hi < lo then lo else hi;
    Block(top - lo, b.labels,
          seq(|b.columns|, k requires 0 <= k < |b.columns| => Column(b.columns[k].dtype, b.columns[k].values[lo..top])))
  }

  /** For bounds inside the block, a slice holds exactly the rows `start..end`. */
  lemma SliceInside<V>(b: Block<V>, start: int, end: int, copy: bool)
    requires WellFormed(b) && 0 <= start <= end <= b.numRows
    ensures NumRows(Slice(b, start, end, copy)) == end - start
    ensures forall k :: 0 <= k < |b.columns| ==>
      Slice(b, start, end, copy).columns[k] == Column(b.columns[k].dtype, b.columns[k].values[start..end])
  {
    var r := Slice(b, start, end, copy);
    forall k | 0 <= k < |b.columns|
      ensures r.columns[k] == Column(b.columns[k].dtype, b.columns[k].values[start..end])
    {
      assert r.columns[k].values == b.columns[k].values[start..end];
    }
  }

  // ---------------------------------------------------------------------------------------
  // Schema and column access

  /** The names and dtypes of the columns, in order. */
  datatype Schema = Schema(names: seq<Label>, types: seq<DType>)

  function DTypes<V>(b: Block<V>): (ts: seq<DType>)
    ensures |ts| == |b.columns| && forall k :: 0 <= k < |b.columns| ==> ts[k] == b.columns[k].dtype
  {
    seq(|b.columns|, k requires 0 <= k < |b.columns| => b.columns[k].dtype)
  }

  /** `schema`: the column names and dtypes; a column name that is not a string is refused. */
  function SchemaOf<V>(b: Block<V>): (r: Raises<Schema>)
    ensures r.Raised? <==> exists k :: 0 <= k < |b.labels| && b.labels[k].OtherLabel?
    ensures r.Raised? ==> r.fault.ValueError?
    ensures r.Returned? ==>
      && r.value.names == b.labels
      && |r.value.types| == |b.columns|
      && (WellFormed(b) ==> |r.value.types| == |r.value.names|)
      && forall k :: 0 <= k < |b.columns| ==> r.value.types[k] == b.columns[k].dtype
  {
    if exists k :: 0 <= k < |b.labels| && b.labels[k].OtherLabel? then
      Raised(ValueError(
        "A Pandas DataFrame with column names of non-str types is not supported by Ray Dataset."
        + " Column names of this DataFrame: " + LabelsRepr(b.labels) + "."))
    else
      Returned(Schema(b.labels, DTypes(b)))
  }

  const TO_NUMPY_NO_COLUMN: string :=
    "`column` must be specified when calling .to_numpy() on Pandas blocks."

  /** `to_numpy(column)`: the values of the named column; no column (missing or empty) and a
      column the block does not have are refused. */
  function ToNumpy<V>(b: Block<V>, column: Option<string>): (r: Raises<seq<Option<V>>>)
    requires WellFormed(b)
    ensures column.None? || column.value == "" ==> r == Raised(ValueError(TO_NUMPY_NO_COLUMN))
    ensures r.Returned? <==> column.Some? && column.value != "" && StrLabel(column.value) in b.labels
    ensures r.Returned? ==>
      exists k :: 0 <= k < |b.labels| && b.labels[k] == StrLabel(column.value) && r.value == b.columns[k].values
  {
    if column.None? || column.value == "" then
      Raised(ValueError(TO_NUMPY_NO_COLUMN))
    else if StrLabel(column.value) !in b.labels then
      Raised(ValueError("Cannot find column " + column.value + ", available columns: " + LabelsRepr(b.labels)))
    else
      Returned(b.columns[FirstIndex(b.labels, StrLabel(column.value))].values)
  }

  // ---------------------------------------------------------------------------------------
  // Aggregations

  /** The column argument `on` of an aggregation: `None`, a string, or a value of another
      type (known by `repr(type(on))`). */
  datatype Key = NoKey | StrKey(name: string) | OtherKey(typeRepr: string)

  /** The label `self._table[on]` looks up. */
  function KeyLabel(on: Key): Label
    requires !on.OtherKey?
  {
    if on.NoKey? then OtherLabel("None") else StrLabel(on.name)
  }

  function KeyRepr(on: Key): string
    requires !on.OtherKey?
  {
    if on.NoKey? then "None" else ReprStr(on.name)
  }

  function OnTypeMessage(typeRepr: string): string {
    "on must be a string or None when aggregating on Pandas blocks, but got: " + typeRepr + "."
  }

  /** `col.isnull().all()`: every value is null (so also when there are none). */
  predicate AllNull<V>(values: seq<Option<V>>) {
    forall i :: 0 <= i < |values| ==> values[i].None?
  }

  /** `self._table[on]` after the check of `on`'s type. */
  function ColumnAt<V>(b: Block<V>, on: Key): (r: Raises<Column<V>>)
    requires WellFormed(b)
    requires !on.OtherKey?
    ensures r.Returned? <==> KeyLabel(on) in b.labels
    ensures r.Raised? ==> r.fault == KeyError(KeyRepr(on))
    ensures r.Returned? ==> exists k :: 0 <= k < |b.labels| && b.labels[k] == KeyLabel(on) && r.value == b.columns[k]
  {
    if KeyLabel(on) in b.labels then Returned(b.columns[FirstIndex(b.labels, KeyLabel(on))])
    else Raised(KeyError(KeyRepr(on)))
  }

  /** `_apply_agg`: apply an aggregation to the column `on`; a TypeError of the aggregation
      becomes a null result only on an all-null column of dtype `object`. */
  function ApplyAgg<V, U>(b: Block<V>, aggFn: Column<V> -> Raises<U>, on: Key): (r: Raises<Option<U>>)
    requires WellFormed(b)
    ensures on.OtherKey? ==> r == Raised(ValueError(OnTypeMessage(on.typeRepr)))
    ensures !on.OtherKey? && KeyLabel(on) !in b.labels ==> r == Raised(KeyError(KeyRepr(on)))
    ensures !on.OtherKey? && KeyLabel(on) in b.labels ==>
      var col := ColumnAt(b, on).value;
      var call := aggFn(col);
      && (call.Returned? ==> r == Returned(Some(call.value)))
      && (call.Raised? ==>
            && (r == Returned(None) <==> call.fault.TypeError? && col.dtype == ObjectDType && AllNull(col.values))
            && (r != Returned(None) ==> r == Raised(call.fault)))
  {
    if on.OtherKey? then Raised(ValueError(OnTypeMessage(on.typeRepr)))
    else
      match ColumnAt(b, on)
      case Raised(e) => Raised(e)
      case Returned(col) =>
        match aggFn(col)
        case Returned(u) => Returned(Some(u))
        case Raised(e) =>
          if e.TypeError? && col.dtype == ObjectDType && AllNull(col.values) then Returned(None)
          else Raised(e)
  }

  /** `sum`: null on an all-null column (whether or not nulls are ignored), otherwise the
      column's sum as pandas computes it, which is the collaborator `colSum` here. */
  function Sum<V>(b: Block<V>, on: Key, ignoreNulls: bool, colSum: (Column<V>, bool) -> Raises<V>): (r: Raises<Option<V>>)
    requires WellFormed(b)
    ensures on.OtherKey? ==> r == Raised(ValueError(OnTypeMessage(on.typeRepr)))
    ensures !on.OtherKey? && KeyLabel(on) !in b.labels ==> r == Raised(KeyError(KeyRepr(on)))
    ensures !on.OtherKey? && KeyLabel(on) in b.labels ==>
      var col := ColumnAt(b, on).value;
      && (r == Returned(None) <==> AllNull(col.values))
      && (!AllNull(col.values) ==>
            match colSum(col, ignoreNulls)
            case Returned(v) => r == Returned(Some(v))
            case Raised(e) => r == Raised(e))
  {
    if on.OtherKey? then Raised(ValueError(OnTypeMessage(on.typeRepr)))
    else
      match ColumnAt(b, on)
      case Raised(e) => Raised(e)
      case Returned(col) =>
        if AllNull(col.values) then Returned(None)
        else
          match colSum(col, ignoreNulls)
          case Returned(v) => Returned(Some(v))
          case Raised(e) => Raised(e)
  }

  /** On an all-null column `sum` is null whether or not nulls are ignored, and pandas' own
      sum is never consulted. */
  lemma SumOfAllNullColumn<V>(b: Block<V>, on: Key, f: (Column<V>, bool) -> Raises<V>, g: (Column<V>, bool) -> Raises<V>)
    requires WellFormed(b) && !on.OtherKey? && KeyLabel(on) in b.labels
    requires AllNull(ColumnAt(b, on).value.values)
    ensures Sum(b, on, true, f) == Sum(b, on, false, g) == Returned(None)
  {
  }

  // ---------------------------------------------------------------------------------------
  // Zip

  /** The name `_zip` tries `j`-th for a right-hand column labelled `c`: `c` itself, then
      `"{c}_1"`, `"{c}_2"`, and so on. */
  function Candidate(c: Label, j: nat): Label {
    if j == 0 then c else StrLabel(LabelText(c) + "_" + NatToString(j))
  }

  /** The name a right-hand column `c` is added under, given the names already taken: the
      first candidate that is not taken. */
  ghost predicate IsChosenName(taken: seq<Label>, c: Label, name: Label) {
    exists j: nat :: name == Candidate(c, j) && name !in taken && forall m :: 0 <= m < j ==> Candidate(c, m) in taken
  }

  lemma CandidateIsNew(c: Label, j: nat)
    requires j > 0
    ensures Candidate(c, j) != c
  {
    if c.StrLabel? {
      assert |LabelText(Candidate(c, j))| > |LabelText(c)|;
    }
  }

  /** Different tries give different names. */
  lemma CandidateInjective(c: Label, j1: nat, j2: nat)
    ensures Candidate(c, j1) == Candidate(c, j2) ==> j1 == j2
  {
    if j1 > 0 && j2 > 0 && Candidate(c, j1) == Candidate(c, j2) {
      var p := LabelText(c) + "_";
      assert NatToString(j1) == (p + NatToString(j1))[|p|..];
      assert NatToString(j2) == (p + NatToString(j2))[|p|..];
      NatToStringInjective(j1, j2);
    } else if j1 == 0 && j2 > 0 {
      CandidateIsNew(c, j2);
    } else if j1 > 0 && j2 == 0 {
      CandidateIsNew(c, j1);
    }
  }

  /** The first `j` candidates, as a set. */
  ghost function Tried(c: Label, j: nat): set<Label> {
    if j == 0 then {} else Tried(c, j - 1) + {Candidate(c, j - 1)}
  }

  lemma {:induction false} NotYetTried(c: Label, j: nat, m: nat)
    requires j <= m
    ensures Candidate(c, m) !in Tried(c, j)
  {
    if j > 0 {
      NotYetTried(c, j - 1, m);
      CandidateInjective(c, j - 1, m);
    }
  }

  lemma {:induction false} TriedSize(c: Label, j: nat)
    ensures |Tried(c, j)| == j
  {
    if j > 0 {
      TriedSize(c, j - 1);
      NotYetTried(c, j - 1, j - 1);
    }
  }

  lemma SubsetSize<T>(a: set<T>, b: set<T>)
    requires a <= b
    ensures |a| <= |b|
    decreases a
  {
    if a != {} {
      var x :| x in a;
      SubsetSize(a - {x}, b - {x});
    }
  }

  /** A name that is not taken is kept, and then it is the only possible choice. */
  lemma FreeNameKept(taken: seq<Label>, c: Label, name: Label)
    requires c !in taken
    ensures IsChosenName(taken, c, c)
    ensures IsChosenName(taken, c, name) ==> name == c
  {
    assert Candidate(c, 0) == c;
    if IsChosenName(taken, c, name) {
      var j: nat :| name == Candidate(c, j) && name !in taken && forall m :: 0 <= m < j ==> Candidate(c, m) in taken;
    }
  }

  /** The choice is determined: there is one chosen name for a column and a set of taken
      names, and it is not taken. */
  lemma ChosenNameUnique(taken: seq<Label>, c: Label, n1: Label, n2: Label)
    requires IsChosenName(taken, c, n1) && IsChosenName(taken, c, n2)
    ensures n1 == n2 && n1 !in taken
  {
    var j1: nat :| n1 == Candidate(c, j1) && n1 !in taken && forall m :: 0 <= m < j1 ==> Candidate(c, m) in taken;
    var j2: nat :| n2 == Candidate(c, j2) && n2 !in taken && forall m :: 0 <= m < j2 ==> Candidate(c, m) in taken;
  }

  /** `r[col_name] = col`: replaces the column of that name, or appends a new one. */
  function SetColumn<V>(b: Block<V>, name: Label, col: Column<V>): (r: Block<V>)
    requires |b.labels| == |b.columns|
    ensures |r.labels| == |r.columns| && r.numRows == b.numRows
    ensures name !in b.labels ==> r.labels == b.labels + [name] && r.columns == b.columns + [col]
    ensures name in b.labels ==>
      && r.labels == b.labels && |r.columns| == |b.columns|
      && r.columns[FirstIndex(b.labels, name)] == col
      && forall k :: 0 <= k < |b.columns| && k != FirstIndex(b.labels, name) ==> r.columns[k] == b.columns[k]
  {
    if name in b.labels then
      var k := FirstIndex(b.labels, name);
      Block(b.numRows, b.labels, b.columns[k := col])
    else
      Block(b.numRows, b.labels + [name], b.columns + [col])
  }

  /** The inner search of `_zip` for a right-hand column labelled `colName`: keep the name
      when it is free, otherwise try `"{colName}_1"`, `"{colName}_2"`, ... until one is free. */
  method ChooseName(columnNames: seq<Label>, colName: Label) returns (name: Label)
    ensures IsChosenName(columnNames, colName, name)
    ensures name !in columnNames
    ensures colName !in columnNames ==> name == colName
  {
    name := colName;
    if colName in columnNames {
      var i := 1;
      var newName := colName;
      ghost var taken := set x | x in columnNames;
      while newName in columnNames
        invariant i >= 1 && newName == Candidate(colName, i - 1)
        invariant forall m :: 0 <= m < i - 1 ==> Candidate(colName, m) in columnNames
        invariant Tried(colName, i - 1) <= taken
        decreases |taken| - (i - 1)
      {
        assert Tried(colName, i) <= taken;
        TriedSize(colName, i);
        SubsetSize(Tried(colName, i), taken);
        newName := StrLabel(LabelText(colName) + "_" + NatToString(i));
        i := i + 1;
      }
      name := newName;
      assert IsChosenName(columnNames, colName, name);
    } else {
      assert Candidate(colName, 0) == colName;
    }
  }

  /** `_zip`: the left block's columns, under their names, followed by the right block's
      columns; a right-hand name already present (among the left names or those added before
      it) is replaced by `"{name}_{i}"` for the least `i` that makes it new. */
  method Zip<V>(left: Block<V>, acc: Block<V>) returns (r: Block<V>)
    requires |left.labels| == |left.columns| && |acc.labels| == |acc.columns|
    ensures r.numRows == left.numRows
    ensures |r.labels| == |left.labels| + |acc.labels|
    ensures r.labels[..|left.labels|] == left.labels
    ensures r.columns == left.columns + acc.columns
    ensures forall j :: 0 <= j < |acc.labels| ==>
      IsChosenName(r.labels[..|left.labels| + j], acc.labels[j], r.labels[|left.labels| + j])
    ensures Distinct(left.labels) ==> Distinct(r.labels)
    ensures WellFormed(left) && WellFormed(acc) && left.numRows == acc.numRows ==> WellFormed(r)
  {
    // `copy(deep=False)`: the block is a value, so the left block stays as it is
    r := left;
    var s := acc;
    var n := |left.labels|;
    for k := 0 to |s.labels|
      invariant r.numRows == left.numRows
      invariant |r.labels| == n + k && |r.columns| == n + k
      invariant r.labels[..n] == left.labels
      invariant r.columns == left.columns + s.columns[..k]
      invariant forall j :: 0 <= j < k ==> IsChosenName(r.labels[..n + j], s.labels[j], r.labels[n + j])
      invariant Distinct(left.labels) ==> Distinct(r.labels)
    {
      var col := s.columns[k];
      var columnNames := r.labels;
      var colName := ChooseName(columnNames, s.labels[k]);
      r := SetColumn(r, colName, col);
      assert r.labels == columnNames + [colName];
      assert s.columns[..k + 1] == s.columns[..k] + [col];
      forall j | 0 <= j < k + 1
        ensures IsChosenName(r.labels[..n + j], s.labels[j], r.labels[n + j])
      {
        if j < k {
          assert r.labels[..n + j] == columnNames[..n + j];
        } else {
          assert r.labels[..n + j] == columnNames;
        }
      }
    }
    assert s.columns[..|s.labels|] == s.columns;
  }
}
