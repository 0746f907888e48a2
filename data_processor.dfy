/** The CSV validator of the backend: a parsed table passes when it is non-empty and every
    column has at most DiscreteThreshold distinct values; it then yields, per column, the
    sorted distinct values as strings (the states of that column's variable). */
module Data {
  import opened Wrappers
  import opened Text

  /** A cell value as pandas reads it from a CSV: an integer or a string. */
  datatype Value = Int(i: int) | Str(s: string)

  /** A cell: missing (NaN) or present. */
  datatype Cell = Missing | Present(v: Value)

  /** A parsed table, row by row. */
  datatype Frame = Frame(columns: seq<string>, rows: seq<seq<Cell>>)

  /** Distinct-value count above which a column counts as continuous. */
  const DiscreteThreshold: nat := 15

  /** Rows shown by get_preview when no count is given. */
  const DefaultPreviewRows: int := 10

  const ParseFailurePrefix := "CSV 解析失败: "
  const EmptyMessage := "CSV 文件为空"
  const TooManyValuesPrefix := "以下列包含过多唯一值 (>15)，请预处理为离散数据: "

  /** What read_csv guarantees: rectangular, with unique column names, and every column typed
      as pandas types it. */
  predicate WellFormed(f: Frame) {
    && (forall k :: 0 <= k < |f.rows| ==> |f.rows[k]| == |f.columns|)
    && (forall a, b :: 0 <= a < b < |f.columns| ==> f.columns[a] != f.columns[b])
    && (forall j :: 0 <= j < |f.columns| ==> ColumnAsRead(f, j))
  }

  /** One column as read_csv types it: its present cells are all integers or all strings (a column
      mixing the two is read as strings), and an integer column has no missing cell (one with a
      gap is read as floats, which this model does not hold). */
  predicate ColumnAsRead(f: Frame, j: nat)
    requires forall k :: 0 <= k < |f.rows| ==> |f.rows[k]| == |f.columns|
    requires j < |f.columns|
  {
    (forall k :: 0 <= k < |f.rows| && f.rows[k][j].Present? ==> f.rows[k][j].v.Str?) ||
    (forall k :: 0 <= k < |f.rows| ==> f.rows[k][j].Present? && f.rows[k][j].v.Int?)
  }

  /** pandas' DataFrame.empty: no rows or no columns. */
  predicate IsEmpty(f: Frame) {
    |f.rows| == 0 || |f.columns| == 0
  }

  /** Python's str(v). */
  function ValueToString(v: Value): string {
    match v
    case Int(i) => IntToString(i)
    case Str(s) => s
  }

  /** Python's < on str: code-point lexicographic order. */
  predicate StrLess(a: string, b: string) {
    if |a| == 0 then |b| > 0
    else if |b| == 0 then false
    else a[0] < b[0] || (a[0] == b[0] && StrLess(a[1..], b[1..]))
  }

  /** The order sorted() uses: numbers by value, strings lexicographically. A CSV column is read
      either as numbers or as strings, so the placing of numbers before strings never decides. */
  predicate Less(a: Value, b: Value) {
    match (a, b)
    case (Int(x), Int(y)) => x < y
    case (Str(x), Str(y)) => StrLess(x, y)
    case (Int(_), Str(_)) => true
    case (Str(_), Int(_)) => false
  }

  lemma {:induction false} StrLessIrreflexive(a: string)
    ensures !StrLess(a, a)
  {
    if |a| > 0 { StrLessIrreflexive(a[1..]); }
  }

  lemma {:induction false} StrLessTransitive(a: string, b: string, c: string)
    requires StrLess(a, b) && StrLess(b, c)
    ensures StrLess(a, c)
  {
    if |a| > 0 && |b| > 0 && |c| > 0 && a[0] == b[0] == c[0] {
      StrLessTransitive(a[1..], b[1..], c[1..]);
    }
  }

  lemma {:induction false} StrLessTotal(a: string, b: string)
    requires a != b
    ensures StrLess(a, b) || StrLess(b, a)
  {
    if |a| > 0 && |b| > 0 && a[0] == b[0] {
      assert a == [a[0]] + a[1..] && b == [b[0]] + b[1..];
      StrLessTotal(a[1..], b[1..]);
    }
  }

  /** Less is a strict total order on values. */
  lemma LessIsStrictTotalOrder()
    ensures forall a :: !Less(a, a)
    ensures forall a, b, c :: Less(a, b) && Less(b, c) ==> Less(a, c)
    ensures forall a, b :: a != b ==> Less(a, b) || Less(b, a)
  {
    forall a ensures !Less(a, a) {
      if a.Str? { StrLessIrreflexive(a.s); }
    }
    forall a, b, c | Less(a, b) && Less(b, c) ensures Less(a, c) {
      if a.Str? && b.Str? && c.Str? { StrLessTransitive(a.s, b.s, c.s); }
    }
    forall a, b | a != b ensures Less(a, b) || Less(b, a) {
      if a.Str? && b.Str? { StrLessTotal(a.s, b.s); }
    }
  }

  predicate StrictlySorted(s: seq<Value>) {
    forall i, j :: 0 <= i < j < |s| ==> Less(s[i], s[j])
  }

  /** Inserts x into a strictly sorted sequence unless it is already there. */
  function InsertSorted(x: Value, s: seq<Value>): (r: seq<Value>)
    requires StrictlySorted(s)
    ensures StrictlySorted(r)
    ensures forall v :: v in r <==> v == x || v in s
  {
    LessIsStrictTotalOrder();
    if s == [] then [x]
    else if x == s[0] then s
    else if Less(x, s[0]) then [x] + s
    else
      var t := InsertSorted(x, s[1..]);
      assert forall v :: v in t ==> Less(s[0], v);
      [s[0]] + t
  }

  /** sorted(set(xs)): the distinct values of xs in increasing order. */
  function SortDistinct(xs: seq<Value>): (r: seq<Value>)
    ensures StrictlySorted(r)
    ensures forall v :: v in r <==> v in xs
  {
    if xs == [] then []
    else InsertSorted(xs[0], SortDistinct(xs[1..]))
  }

  /** The cells of column j, top to bottom. */
  function Column(f: Frame, j: nat): (col: seq<Cell>)
    requires WellFormed(f) && j < |f.columns|
    ensures |col| == |f.rows|
  {
    seq(|f.rows|, k requires 0 <= k < |f.rows| => f.rows[k][j])
  }

  /** dropna(): the present values, in order. */
  function PresentValues(col: seq<Cell>): (vs: seq<Value>)
    ensures forall v :: v in vs <==> Present(v) in col
  {
    if col == [] then []
    else (if col[0].Present? then [col[0].v] else []) + PresentValues(col[1..])
  }

  /** nunique(): the number of distinct present values. */
  function NUnique(col: seq<Cell>): nat {
    |set v | v in PresentValues(col)|
  }

  predicate IsInvalidColumn(f: Frame, j: nat)
    requires WellFormed(f) && j < |f.columns|
  {
    NUnique(Column(f, j)) > DiscreteThreshold
  }

  /** The names of the invalid columns among the first n, in column order. */
  function InvalidPrefix(f: Frame, n: nat): seq<string>
    requires WellFormed(f) && n <= |f.columns|
  {
    if n == 0 then []
    else InvalidPrefix(f, n - 1) + (if IsInvalidColumn(f, n - 1) then [f.columns[n - 1]] else [])
  }

  function InvalidColumns(f: Frame): seq<string>
    requires WellFormed(f)
  {
    InvalidPrefix(f, |f.columns|)
  }

  /** The reported names are exactly the names of the columns with too many values. */
  lemma {:induction false} InvalidPrefixMembers(f: Frame, n: nat)
    requires WellFormed(f) && n <= |f.columns|
    ensures forall c :: c in InvalidPrefix(f, n) <==>
      exists j :: 0 <= j < n && f.columns[j] == c && IsInvalidColumn(f, j)
  {
    if n > 0 {
      InvalidPrefixMembers(f, n - 1);
    }
  }

  /** A column is invalid exactly when it has more than 15 distinct values: 15 passes. */
  lemma InvalidColumnBoundary(f: Frame, j: nat)
    requires WellFormed(f) && j < |f.columns|
    ensures f.columns[j] in InvalidColumns(f) <==> NUnique(Column(f, j)) >= 16
  {
    InvalidPrefixMembers(f, |f.columns|);
    if f.columns[j] in InvalidColumns(f) {
      var k :| 0 <= k < |f.columns| && f.columns[k] == f.columns[j] && IsInvalidColumn(f, k);
      assert k == j;
    }
  }

  /** The states of column j: its distinct present values, sorted, then made strings. */
  function ColumnStates(f: Frame, j: nat): (states: seq<string>)
    requires WellFormed(f) && j < |f.columns|
    ensures |states| == |SortDistinct(PresentValues(Column(f, j)))|
  {
    var vs := SortDistinct(PresentValues(Column(f, j)));
    seq(|vs|, i requires 0 <= i < |vs| => ValueToString(vs[i]))
  }

  /** The meta information of the first n columns. */
  function MetaPrefix(f: Frame, n: nat): map<string, seq<string>>
    requires WellFormed(f) && n <= |f.columns|
  {
    if n == 0 then map[]
    else MetaPrefix(f, n - 1)[f.columns[n - 1] := ColumnStates(f, n - 1)]
  }

  function MetaInfo(f: Frame): map<string, seq<string>>
    requires WellFormed(f)
  {
    MetaPrefix(f, |f.columns|)
  }

  /** Updating a merged map is updating its right-hand part. */
  lemma MergeUpdate<K, V>(a: map<K, V>, b: map<K, V>, k: K, v: V)
    ensures (a + b)[k := v] == a + b[k := v]
  {
  }

  /** The meta information has one key per column. */
  lemma {:induction false} MetaPrefixKeys(f: Frame, n: nat)
    requires WellFormed(f) && n <= |f.columns|
    ensures forall c :: c in MetaPrefix(f, n) <==> c in f.columns[..n]
  {
    if n > 0 {
      MetaPrefixKeys(f, n - 1);
      assert f.columns[..n] == f.columns[..n - 1] + [f.columns[n - 1]];
    }
  }

  /** The entry of column j holds that column's states. */
  lemma {:induction false} MetaPrefixAt(f: Frame, n: nat, j: nat)
    requires WellFormed(f) && j < n <= |f.columns|
    ensures f.columns[j] in MetaPrefix(f, n)
    ensures MetaPrefix(f, n)[f.columns[j]] == ColumnStates(f, j)
  {
    if j < n - 1 {
      MetaPrefixAt(f, n - 1, j);
      assert f.columns[j] != f.columns[n - 1];
    }
  }

  /** The states of a column list each distinct present value once, in increasing order. */
  lemma ColumnStatesSorted(f: Frame, j: nat)
    requires WellFormed(f) && j < |f.columns|
    ensures var vs := SortDistinct(PresentValues(Column(f, j)));
      && StrictlySorted(vs)
      && (forall v :: v in vs <==> Present(v) in Column(f, j))
      && (forall i :: 0 <= i < |vs| ==> ColumnStates(f, j)[i] == ValueToString(vs[i]))
  {
  }

  /** pandas' head(n) on the row list: the first n rows, or for negative n all but the last -n. */
  function Head(rows: seq<seq<Cell>>, n: int): (r: seq<seq<Cell>>)
    ensures n >= 0 ==> |r| == if n < |rows| then n else |rows|
    ensures n < 0 ==> |r| == if |rows| + n > 0 then |rows| + n else 0
    ensures r == rows[..|r|]
  {
    if n >= 0 then (if n < |rows| then rows[..n] else rows)
    else (if |rows| + n > 0 then rows[..|rows| + n] else [])
  }

  /** A row as a record from column name to cell. */
  function Record(columns: seq<string>, row: seq<Cell>): map<string, Cell>
    requires |row| == |columns|
  {
    if columns == [] then map[]
    else Record(columns[..|columns| - 1], row[..|row| - 1])[columns[|columns| - 1] := row[|row| - 1]]
  }

  class DataProcessor {
    const csvContent: string
    var df: Option<Frame>
    var metaInfo: map<string, seq<string>>
    var invalidColumns: seq<string>

    constructor (csvContent: string)
      ensures this.csvContent == csvContent
      ensures df == None && metaInfo == map[] && invalidColumns == []
    {
      this.csvContent := csvContent;
      df := None;
      metaInfo := map[];
      invalidColumns := [];
    }

    /** validate_and_process. `parsed` is what read_csv makes of csvContent: the table, or the
        text of the exception it raises. */
    method ValidateAndProcess(parsed: Result<Frame, string>) returns (ok: bool, message: string)
      requires parsed.Ok? ==> WellFormed(parsed.value)
      modifies this
      ensures parsed.Err? ==> !ok && message == ParseFailurePrefix + parsed.error
      ensures parsed.Err? ==> df == old(df) && invalidColumns == old(invalidColumns)
      ensures parsed.Ok? ==> df == Some(parsed.value)
      ensures parsed.Ok? && IsEmpty(parsed.value) ==>
        !ok && message == EmptyMessage && invalidColumns == old(invalidColumns)
      ensures parsed.Ok? && !IsEmpty(parsed.value) ==> invalidColumns == InvalidColumns(parsed.value)
      ensures parsed.Ok? && !IsEmpty(parsed.value) && invalidColumns != [] ==>
        !ok && message == TooManyValuesPrefix + Join(invalidColumns, ", ")
      ensures ok <==> parsed.Ok? && !IsEmpty(parsed.value) && invalidColumns == []
      ensures ok ==> message == "" && metaInfo == old(metaInfo) + MetaInfo(parsed.value)
      ensures !ok ==> metaInfo == old(metaInfo)
    {
      if parsed.Err? {
        return false, ParseFailurePrefix + parsed.error;
      }
      var f := parsed.value;
      df := Some(f);
      // DataFrame.empty already holds when there are no columns, so that check decides first.
      if IsEmpty(f) {
        return false, EmptyMessage;
      }
      invalidColumns := [];
      var j := 0;
      while j < |f.columns|
        invariant 0 <= j <= |f.columns|
        invariant invalidColumns == InvalidPrefix(f, j)
        invariant metaInfo == old(metaInfo) && df == Some(f)
      {
        if NUnique(Column(f, j)) > DiscreteThreshold {
          invalidColumns := invalidColumns + [f.columns[j]];
        }
        j := j + 1;
      }
      if invalidColumns != [] {
        return false, TooManyValuesPrefix + Join(invalidColumns, ", ");
      }
      ExtractMetaInfo();
      return true, "";
    }

    /** _extract_meta_info: one entry per column of df, added to what metaInfo held. */
    method ExtractMetaInfo()
      requires df.Some? && WellFormed(df.value)
      modifies this`metaInfo
      ensures metaInfo == old(metaInfo) + MetaInfo(df.value)
    {
      var f := df.value;
      var j := 0;
      while j < |f.columns|
        invariant 0 <= j <= |f.columns|
        invariant metaInfo == old(metaInfo) + MetaPrefix(f, j)
      {
        MergeUpdate(old(metaInfo), MetaPrefix(f, j), f.columns[j], ColumnStates(f, j));
        metaInfo := metaInfo[f.columns[j] := ColumnStates(f, j)];
        j := j + 1;
      }
    }

    function Columns(): (cols: seq<string>)
      reads this
      requires df.Some?
      ensures cols == df.value.columns
    {
      df.value.columns
    }

    function ColumnCount(): (n: nat)
      reads this
      requires df.Some?
      ensures n == |Columns()|
    {
      |df.value.columns|
    }

    function RowCount(): (n: nat)
      reads this
      requires df.Some?
      ensures n == |df.value.rows|
    {
      |df.value.rows|
    }

    /** get_preview(rows): the leading rows as records; at most `rows` of them. */
    function Preview(rows: int): (r: seq<map<string, Cell>>)
      reads this
      requires df.Some? && WellFormed(df.value)
      ensures rows >= 0 ==> |r| == if rows < RowCount() then rows else RowCount()
      ensures rows < 0 ==> |r| == if RowCount() + rows > 0 then RowCount() + rows else 0
      ensures forall i :: 0 <= i < |r| ==> r[i] == Record(df.value.columns, df.value.rows[i])
    {
      var f := df.value;
      var head := Head(f.rows, rows);
      seq(|head|, i requires 0 <= i < |head| => Record(f.columns, head[i]))
    }
  }
}
