/**
 * The generic adaptive table (`SmartTableComponent`): column metadata, value resolution,
 * the free-text filter shared by the grid and the card list, the canonical sort state
 * and the card list's rows, which are a sorted copy of the grid's filtered rows.
 */
module SmartTable {
  import opened Wrappers
  import opened Text
  import opened Seqs
  import opened Sorting
  import opened JsValue
  import opened Widgets

  // ---------------------------------------------------------------------------
  // Column and action metadata
  // ---------------------------------------------------------------------------

  /** `ColumnType` (`'text' | 'chip' | 'actions'`), with `Untyped` for a column that gives none. */
  datatype ColumnType = Untyped | TextCell | Chip | Actions

  /** A column's `value`: absent, a dotted property path, or a function of the row. */
  datatype Accessor = Default | Path(path: string) | Compute(fn: Row -> Value)

  /** `ColumnDef<T>`; an optional boolean is `None` when the definition leaves it out. */
  datatype Column = Column(
    key: string,
    header: string,
    value: Accessor,
    sortable: Option<bool>,
    mobile: Option<bool>,
    kind: ColumnType)

  /** A row action's visibility test. */
  type RowTest = Row -> bool

  /** `RowAction<T>` without its click handler (`label` is `caption` here, `label` being a Dafny keyword); `show` is the optional visibility test. */
  datatype RowAction = RowAction(key: string, caption: string, icon: string, show: Option<RowTest>)

  /** The card list's sort direction: `'asc' | 'desc'`. */
  type Dir = d: SortDirection | d != Unsorted witness Asc

  /** `sortState`: the one sort both presentations follow; `field` is a column key or `''`. */
  datatype SortState = SortState(field: string, dir: Dir)

  /** `columns.map(c => c.key)`. */
  function Keys(columns: seq<Column>): (r: seq<string>)
    ensures |r| == |columns|
    ensures forall i :: 0 <= i < |columns| ==> r[i] == columns[i].key
  {
    seq(|columns|, i requires 0 <= i < |columns| => columns[i].key)
  }

  // ---------------------------------------------------------------------------
  // getValue
  // ---------------------------------------------------------------------------

  /** `getValue(col, row)`: the column's raw cell value. */
  function GetValue(col: Column, row: Row): Value {
    match col.value
    case Default => Prop(Obj(row), col.key)
    case Compute(fn) => fn(row)
    case Path(p) => if p == [] then Prop(Obj(row), col.key) else Walk(Obj(row), Split(p, '.'))
  }

  /** A single-segment path reads that property of the row, `undefined` when it is missing. */
  lemma GetValueField(col: Column, row: Row)
    requires col.value.Path? && col.value.path != [] && '.' !in col.value.path
    ensures GetValue(col, row) == if col.value.path in row then row[col.value.path] else Undefined
  {
    var p := col.value.path;
    SplitNoSeparator(p, '.');
    assert [p][1..] == [];
    assert Walk(Obj(row), [p]) == Walk(Prop(Obj(row), p), []);
  }

  /** A path `first.rest` reads `rest` inside the row's property `first`. */
  lemma GetValueNested(col: Column, row: Row, first: string, rest: string)
    requires col.value == Path(first + ['.'] + rest) && '.' !in first
    ensures GetValue(col, row) == Walk(Prop(Obj(row), first), Split(rest, '.'))
  {
    SplitAtSeparator(first, rest, '.');
    var segs := [first] + Split(rest, '.');
    assert segs[0] == first && segs[1..] == Split(rest, '.');
  }

  /**
   * Resolution never fails: once a path segment is missing, the cell value is
   * `undefined` whatever the remaining segments are.
   */
  lemma GetValueMissing(col: Column, row: Row, i: nat)
    requires col.value.Path? && col.value.path != []
    requires i < |Split(col.value.path, '.')|
    requires Prop(Walk(Obj(row), Split(col.value.path, '.')[..i]), Split(col.value.path, '.')[i]) == Undefined
    ensures GetValue(col, row) == Undefined
  {
    WalkMissing(Obj(row), Split(col.value.path, '.'), i);
  }

  /** `String(getValue(c, row) ?? '')`: the text filtering and sorting look at. */
  function CellText(col: Column, row: Row): string {
    Display(GetValue(col, row))
  }

  // ---------------------------------------------------------------------------
  // Filtering
  // ---------------------------------------------------------------------------

  /** Free-text search looks at every column except the actions column. */
  predicate Filterable(c: Column) {
    c.kind != Actions
  }

  /** The cell's lower-cased text contains `q`. */
  predicate CellMatches(c: Column, row: Row, q: string) {
    Contains(Lower(CellText(c, row)), q)
  }

  /** The `filterPredicate` installed on the data source. */
  predicate FilterPredicate(columns: seq<Column>, row: Row, filter: string) {
    var q := Lower(filter);
    Any(Filter(columns, Filterable), (c: Column) => CellMatches(c, row, q))
  }

  /**
   * A row passes exactly when some non-action column's lower-cased text contains the
   * lower-cased filter; action columns are never consulted.
   */
  lemma FilterPredicateIff(columns: seq<Column>, row: Row, filter: string)
    ensures FilterPredicate(columns, row, filter)
        <==> exists i :: 0 <= i < |columns| && columns[i].kind != Actions
                       && Contains(Lower(CellText(columns[i], row)), Lower(filter))
  {
    var q := Lower(filter);
    AnyFilter(columns, Filterable, (c: Column) => CellMatches(c, row, q));
  }

  /** `dataSource.filteredData`: every row for an empty filter, else the rows the predicate accepts. */
  function FilteredData(data: seq<Row>, columns: seq<Column>, filter: string): seq<Row> {
    if filter == [] then data else Filter(data, (row: Row) => FilterPredicate(columns, row, filter))
  }

  /**
   * The filtered rows are the data rows kept in data order, and for a non-empty filter
   * every one of them passes the predicate.
   */
  lemma FilteredDataSound(data: seq<Row>, columns: seq<Column>, filter: string)
    ensures IsSubsequence(FilteredData(data, columns, filter), data)
    ensures var r := FilteredData(data, columns, filter);
      filter != [] ==> forall i :: 0 <= i < |r| ==> FilterPredicate(columns, r[i], filter)
  {
    if filter == [] {
      SubsequenceOfItself(data);
    } else {
      FilterIsSubsequence(data, (r: Row) => FilterPredicate(columns, r, filter));
    }
  }

  /** A row that passes a non-empty filter is kept as often as it occurs in the data. */
  lemma FilteredDataMultiplicity(data: seq<Row>, columns: seq<Column>, filter: string, row: Row)
    requires filter != [] && FilterPredicate(columns, row, filter)
    ensures multiset(FilteredData(data, columns, filter))[row] == multiset(data)[row]
  {
    FilterMultiplicity(data, (r: Row) => FilterPredicate(columns, r, filter), row);
  }

  /** An empty filter keeps every row, in order. */
  lemma FilteredDataEmpty(data: seq<Row>, columns: seq<Column>)
    ensures FilteredData(data, columns, []) == data
  {
  }

  // ---------------------------------------------------------------------------
  // The card list's order
  // ---------------------------------------------------------------------------

  /** The comparator `buildMobileData` hands to `sort` for column `col`. */
  function RowCompare(col: Column, dir: Dir): (Row, Row) -> int {
    (a: Row, b: Row) =>
      if dir == Asc then Compare(CellText(col, a), CellText(col, b))
      else Compare(CellText(col, b), CellText(col, a))
  }

  /** The comparator is consistent in both directions. */
  lemma RowCompareConsistent(col: Column, dir: Dir)
    ensures TotalPreorder(RowCompare(col, dir))
  {
    var cmp := RowCompare(col, dir);
    forall a: Row, b: Row
      ensures Precedes(cmp, a, b) || Precedes(cmp, b, a)
    {
      CompareAntisymmetric(CellText(col, a), CellText(col, b));
    }
    forall a: Row, b: Row, c: Row | Precedes(cmp, a, b) && Precedes(cmp, b, c)
      ensures Precedes(cmp, a, c)
    {
      if dir == Asc {
        CompareTransitive(CellText(col, a), CellText(col, b), CellText(col, c));
      } else {
        CompareTransitive(CellText(col, c), CellText(col, b), CellText(col, a));
      }
    }
  }

  /** `columns.find(c => c.key === field)`, as an index. */
  function SortColumn(columns: seq<Column>, field: string): Option<nat> {
    FirstIndex(columns, (c: Column) => c.key == field)
  }

  /** The card list built from the filtered rows: sorted by the sort field's column if there is one. */
  function MobileRows(filtered: seq<Row>, columns: seq<Column>, state: SortState): seq<Row> {
    match SortColumn(columns, state.field)
    case None => filtered
    case Some(i) => SortBy(filtered, RowCompare(columns[i], state.dir))
  }

  /** The card list holds exactly the filtered rows, each as often: it is a permutation. */
  lemma MobileRowsPermutation(filtered: seq<Row>, columns: seq<Column>, state: SortState)
    ensures multiset(MobileRows(filtered, columns, state)) == multiset(filtered)
  {
    match SortColumn(columns, state.field)
    case None =>
    case Some(i) => SortByPermutation(filtered, RowCompare(columns[i], state.dir));
  }

  /**
   * When a column has the sort field as key, the first such column orders the cards:
   * ascending by its cell text for `'asc'`, descending for `'desc'`.
   */
  lemma MobileRowsOrdered(filtered: seq<Row>, columns: seq<Column>, state: SortState, k: nat)
    requires k < |columns| && columns[k].key == state.field
    requires forall m :: 0 <= m < k ==> columns[m].key != state.field
    ensures var r := MobileRows(filtered, columns, state);
      forall i, j :: 0 <= i < j < |r| ==>
        if state.dir == Asc then Compare(CellText(columns[k], r[i]), CellText(columns[k], r[j])) <= 0
        else Compare(CellText(columns[k], r[j]), CellText(columns[k], r[i])) <= 0
  {
    var cmp := RowCompare(columns[k], state.dir);
    assert SortColumn(columns, state.field) == Some(k);
    RowCompareConsistent(columns[k], state.dir);
    SortBySorted(filtered, cmp);
  }

  /** Rows whose cell text in `col` is that of `k`. */
  function SameText(col: Column, k: Row): Row -> bool {
    (x: Row) => CellText(col, x) == CellText(col, k)
  }

  /** Cards with equal sort text keep the order they have in the filtered rows. */
  lemma MobileRowsStable(filtered: seq<Row>, columns: seq<Column>, state: SortState, k: nat, row: Row)
    requires k < |columns| && columns[k].key == state.field
    requires forall m :: 0 <= m < k ==> columns[m].key != state.field
    ensures Filter(MobileRows(filtered, columns, state), SameText(columns[k], row))
         == Filter(filtered, SameText(columns[k], row))
  {
    var col := columns[k];
    var cmp := RowCompare(col, state.dir);
    assert SortColumn(columns, state.field) == Some(k);
    RowCompareConsistent(col, state.dir);
    SortByStable(filtered, cmp, row);
    forall x: Row
      ensures TiedWith(cmp, row)(x) == SameText(col, row)(x)
    {
      CompareZero(CellText(col, row), CellText(col, x));
      CompareZero(CellText(col, x), CellText(col, row));
      CompareAntisymmetric(CellText(col, row), CellText(col, x));
    }
    var sorted := SortBy(filtered, cmp);
    FilterCongruent(sorted, TiedWith(cmp, row), SameText(col, row));
    FilterCongruent(filtered, TiedWith(cmp, row), SameText(col, row));
  }

  /** With no column keyed by the sort field (an empty field included), the filtered order is kept. */
  lemma MobileRowsUnsorted(filtered: seq<Row>, columns: seq<Column>, state: SortState)
    requires forall m :: 0 <= m < |columns| ==> columns[m].key != state.field
    ensures MobileRows(filtered, columns, state) == filtered
  {
  }

  // ---------------------------------------------------------------------------
  // Default sort
  // ---------------------------------------------------------------------------

  /** A column the default sort may pick: `sortable !== false` and not the actions column. */
  predicate Sortable(c: Column) {
    c.sortable != Some(false) && c.kind != Actions
  }

  /**
   * The sort state after `ensureDefaultSort`: a chosen field is kept; otherwise the
   * first sortable column is picked, ascending, and nothing changes when there is none.
   */
  function DefaultSort(state: SortState, columns: seq<Column>): (r: SortState)
    ensures state.field != [] ==> r == state
    ensures state.field == [] && (forall i :: 0 <= i < |columns| ==> !Sortable(columns[i])) ==> r == state
    ensures forall i :: (0 <= i < |columns| && Sortable(columns[i]) && state.field == []
                         && (forall m :: 0 <= m < i ==> !Sortable(columns[m])))
                        ==> r == SortState(columns[i].key, Asc)
  {
    if state.field != [] then state
    else match FirstIndex(columns, Sortable)
      case None => state
      case Some(i) => SortState(columns[i].key, Asc)
  }

  /** Seeding the default sort twice is seeding it once. */
  lemma DefaultSortIdempotent(state: SortState, columns: seq<Column>)
    ensures DefaultSort(DefaultSort(state, columns), columns) == DefaultSort(state, columns)
  {
  }

  // ---------------------------------------------------------------------------
  // Card layout helpers
  // ---------------------------------------------------------------------------

  /** The keys of `columns[0]` and `columns[1]` that are present and non-empty. */
  function HeaderKeys(columns: seq<Column>): set<string> {
    (if |columns| > 0 && columns[0].key != [] then {columns[0].key} else {})
    + (if |columns| > 1 && columns[1].key != [] then {columns[1].key} else {})
  }

  /** A column listed in a card's detail section. */
  predicate InCardDetails(c: Column, skip: set<string>) {
    c.mobile == Some(true) && c.kind != Actions && c.key !in skip
  }

  /** `mobileColumns()`. */
  function MobileColumns(columns: seq<Column>): (r: seq<Column>)
    ensures forall i :: 0 <= i < |r| ==> r[i].mobile == Some(true) && r[i].kind != Actions
    ensures forall i :: 0 <= i < |r| ==> (|columns| > 0 ==> r[i].key != columns[0].key || columns[0].key == [])
    ensures forall i :: 0 <= i < |r| ==> (|columns| > 1 ==> r[i].key != columns[1].key || columns[1].key == [])
    ensures IsSubsequence(r, columns)
  {
    var skip := HeaderKeys(columns);
    var p := (c: Column) => InCardDetails(c, skip);
    FilterIsSubsequence(columns, p);
    Filter(columns, p)
  }

  /** The detail columns keep the definition order and every occurrence of each qualifying column. */
  lemma MobileColumnsComplete(columns: seq<Column>, i: nat)
    requires i < |columns| && InCardDetails(columns[i], HeaderKeys(columns))
    ensures IsSubsequence(MobileColumns(columns), columns)
    ensures multiset(MobileColumns(columns))[columns[i]] == multiset(columns)[columns[i]]
  {
    var p := (c: Column) => InCardDetails(c, HeaderKeys(columns));
    FilterIsSubsequence(columns, p);
    FilterMultiplicity(columns, p, columns[i]);
  }

  /** An action is shown when it has no `show` test or its test accepts the row. */
  predicate Shows(a: RowAction, row: Row) {
    a.show.None? || a.show.value(row)
  }

  /** `visibleActions(row)`. */
  function VisibleActions(actions: seq<RowAction>, row: Row): (r: seq<RowAction>)
    ensures forall i :: 0 <= i < |r| ==> Shows(r[i], row)
    ensures IsSubsequence(r, actions)
  {
    var p := (a: RowAction) => Shows(a, row);
    FilterIsSubsequence(actions, p);
    Filter(actions, p)
  }

  /** The visible actions keep their order and every occurrence of each action shown for the row. */
  lemma VisibleActionsComplete(actions: seq<RowAction>, row: Row, i: nat)
    requires i < |actions| && Shows(actions[i], row)
    ensures IsSubsequence(VisibleActions(actions, row), actions)
    ensures multiset(VisibleActions(actions, row))[actions[i]] == multiset(actions)[actions[i]]
  {
    var p := (a: RowAction) => Shows(a, row);
    FilterIsSubsequence(actions, p);
    FilterMultiplicity(actions, p, actions[i]);
  }

  /** `sortLabel()`: the header of the sort column, or the raw field when no column has that key. */
  function SortLabel(columns: seq<Column>, state: SortState): (r: string)
    ensures (forall i :: 0 <= i < |columns| ==> columns[i].key != state.field) ==> r == state.field
    ensures forall i :: (0 <= i < |columns| && columns[i].key == state.field
                         && (forall m :: 0 <= m < i ==> columns[m].key != state.field))
                        ==> r == columns[i].header
  {
    match SortColumn(columns, state.field)
    case Some(i) => columns[i].header
    case None => state.field
  }

  // ---------------------------------------------------------------------------
  // initials
  // ---------------------------------------------------------------------------

  /**
   * `parts.map(p => p[0]).join('')`: the first character of every non-empty part
   * (`p[0]` of an empty part is `undefined`, which `join` renders as nothing).
   */
  function Heads(parts: seq<string>): (r: string)
    ensures |r| <= |parts|
    decreases |parts|
  {
    if parts == [] then []
    else (if parts[0] == [] then [] else [parts[0][0]]) + Heads(parts[1..])
  }

  /** `initials(text)`: at most two upper-cased characters, none for a missing text. */
  function Initials(text: Option<string>): (r: string)
    ensures |r| <= 2
    ensures text.None? ==> r == []
  {
    var heads := Heads(Split(text.GetOr([]), ' '));
    Upper(heads[..if |heads| < 2 then |heads| else 2])
  }

  // ---------------------------------------------------------------------------
  // The component's state
  // ---------------------------------------------------------------------------

  class SmartTableComponent {
    /** `@Input() data`, `@Input() columns`, `@Input() rowActions`. */
    var data: seq<Row>
    var columns: seq<Column>
    var rowActions: seq<RowAction>
    /** `dataSource.data` and `dataSource.filter`. */
    var dataSourceData: seq<Row>
    var dataSourceFilter: string
    var displayedColumns: seq<string>
    var isMobile: bool
    var query: string
    var mobileData: seq<Row>
    var sortState: SortState

    /**
     * After every public operation the derived fields are what the inputs, the query
     * and the sort state make them: the grid's column list, its data and filter, and
     * the card list.
     */
    ghost predicate Valid()
      reads this`displayedColumns, this`columns, this`dataSourceData, this`data
      reads this`dataSourceFilter, this`query, this`mobileData, this`sortState
    {
      && displayedColumns == Keys(columns)
      && dataSourceData == data
      && dataSourceFilter == Normalize(query)
      && mobileData == MobileRows(FilteredRows(), columns, sortState)
    }

    /** `dataSource.filteredData`. */
    function FilteredRows(): seq<Row>
      reads this`dataSourceData, this`columns, this`dataSourceFilter
    {
      FilteredData(dataSourceData, columns, dataSourceFilter)
    }

    /** The field initialisers. */
    constructor ()
      ensures Valid()
      ensures data == [] && columns == [] && rowActions == [] && mobileData == []
      ensures query == [] && !isMobile && sortState == SortState([], Asc)
    {
      data, columns, rowActions := [], [], [];
      dataSourceData, dataSourceFilter := [], [];
      displayedColumns := [];
      isMobile := false;
      query := [];
      mobileData := [];
      sortState := SortState([], Asc);
      NormalizeEmpty();
      assert FilteredData([], [], []) == [];
      assert MobileRows([], [], SortState([], Asc)) == [];
    }

    /** `buildMobileData()`: sorts a copy of the filtered rows; the filtered rows themselves stay as they are. */
    method BuildMobileData()
      modifies this`mobileData
      ensures mobileData == MobileRows(FilteredRows(), columns, sortState)
    {
      var filtered := FilteredData(dataSourceData, columns, dataSourceFilter);
      var rows := new Row[|filtered|](i requires 0 <= i < |filtered| => filtered[i]);
      assert rows[..] == filtered;
      var col := SortColumn(columns, sortState.field);
      if col.Some? {
        SortInPlace(rows, RowCompare(columns[col.value], sortState.dir));
      }
      mobileData := rows[..];
    }

    /** `ensureDefaultSort()`. */
    method EnsureDefaultSort()
      modifies this`sortState
      ensures sortState == DefaultSort(old(sortState), columns)
    {
      if sortState.field != [] {
        return;
      }
      var first := FirstIndex(columns, Sortable);
      if first.Some? {
        sortState := SortState(columns[first.value].key, Asc);
      }
    }

    /** `applyFilter(value)`. */
    method ApplyFilter(value: string)
      modifies this`query, this`dataSourceFilter, this`mobileData
      ensures query == value && dataSourceFilter == Normalize(value)
      ensures mobileData == MobileRows(FilteredRows(), columns, sortState)
      ensures displayedColumns == Keys(columns) && dataSourceData == data ==> Valid()
    {
      query := value;
      dataSourceFilter := Normalize(value);
      BuildMobileData();
    }

    /** `refresh()`. */
    method Refresh()
      modifies this`displayedColumns, this`dataSourceData, this`sortState
      modifies this`query, this`dataSourceFilter, this`mobileData
      ensures sortState == DefaultSort(old(sortState), columns)
      ensures query == old(query)
      ensures Valid()
    {
      displayedColumns := Keys(columns);
      dataSourceData := data;
      EnsureDefaultSort();
      ApplyFilter(query);
      BuildMobileData();
      assert displayedColumns == Keys(columns) && dataSourceData == data;
      assert dataSourceFilter == Normalize(query);
    }

    /** `ngOnChanges()` once new inputs are bound. */
    method OnChanges(newData: seq<Row>, newColumns: seq<Column>, newActions: seq<RowAction>)
      modifies this`data, this`columns, this`rowActions
      modifies this`displayedColumns, this`dataSourceData, this`sortState
      modifies this`query, this`dataSourceFilter, this`mobileData
      ensures data == newData && columns == newColumns && rowActions == newActions
      ensures sortState == DefaultSort(old(sortState), newColumns)
      ensures query == old(query)
      ensures Valid()
    {
      data, columns, rowActions := newData, newColumns, newActions;
      Refresh();
    }

    /** `ngAfterViewInit()`, apart from wiring the paginator, the sort header and the predicate. */
    method AfterViewInit()
      modifies this`displayedColumns, this`dataSourceData, this`sortState
      modifies this`query, this`dataSourceFilter, this`mobileData
      ensures sortState == DefaultSort(old(sortState), columns)
      ensures query == old(query)
      ensures Valid()
    {
      EnsureDefaultSort();
      Refresh();
      DefaultSortIdempotent(old(sortState), columns);
    }

    /** `onDesktopSort(sort)`: a header event with no direction is ignored. */
    method OnDesktopSort(sort: HeaderSort)
      requires Valid()
      modifies this`sortState, this`mobileData
      ensures sort.direction == Unsorted ==> sortState == old(sortState)
      ensures sort.direction != Unsorted ==> sortState == SortState(sort.active, sort.direction)
      ensures Valid()
    {
      if sort.direction == Unsorted {
        return;
      }
      sortState := SortState(sort.active, sort.direction);
      BuildMobileData();
    }

    /** `setMobileSort(field, dir)`. */
    method SetMobileSort(field: string, dir: Dir)
      requires Valid()
      modifies this`sortState, this`mobileData
      ensures sortState == SortState(field, dir)
      ensures Valid()
    {
      sortState := SortState(field, dir);
      BuildMobileData();
    }

    /** The breakpoint subscription: record the mode and rebuild the card list. */
    method OnBreakpoint(matches: bool)
      requires Valid()
      modifies this`isMobile, this`mobileData
      ensures isMobile == matches
      ensures Valid()
    {
      isMobile := matches;
      BuildMobileData();
    }
  }

  // ---------------------------------------------------------------------------
  // A worked example
  // ---------------------------------------------------------------------------

  /** Three user rows and a name column and a role column, both searchable and sortable. */
  function ExampleRows(): seq<Row> {
    [ map["id" := Num(1), "name" := Str("Ana"), "role" := Str("ADMIN")],
      map["id" := Num(2), "name" := Str("Luis"), "role" := Str("USER")],
      map["id" := Num(3), "name" := Str("Carla"), "role" := Str("GUEST")] ]
  }

  function ExampleColumns(): seq<Column> {
    [ Column("name", "Name", Default, None, None, Untyped),
      Column("role", "Role", Default, None, None, Chip) ]
  }

  /**
   * Sorting the rows by name ascending puts `Ana` before `Carla` and `Luis`: the
   * comparator is `a.localeCompare(b)` on the names.
   */
  lemma ExampleSortedByName()
    ensures MobileRows(ExampleRows(), ExampleColumns(), SortState("name", Asc))
         == [ExampleRows()[0], ExampleRows()[2], ExampleRows()[1]]
  {
    var rows := ExampleRows();
    var cmp := RowCompare(ExampleColumns()[0], Asc);
    assert SortColumn(ExampleColumns(), "name") == Some(0);
    assert CellText(ExampleColumns()[0], rows[0]) == "Ana";
    assert CellText(ExampleColumns()[0], rows[1]) == "Luis";
    assert CellText(ExampleColumns()[0], rows[2]) == "Carla";
    assert Compare("Carla", "Luis") == -1;
    assert Compare("Ana", "Luis") == -1;
    assert Compare("Ana", "Carla") == -1;
    assert Compare("Luis", "Carla") == 1;
    assert rows[1..][1..] == [rows[2]];
    assert SortBy([rows[2]], cmp) == [rows[2]];
    assert Insert(rows[1], [rows[2]], cmp) == [rows[2], rows[1]];
    assert SortBy(rows[1..], cmp) == [rows[2], rows[1]];
  }

  lemma ExampleNameMatches(k: nat)
    requires k == 0 || k == 2
    ensures FilterPredicate(ExampleColumns(), ExampleRows()[k], "a")
  {
    var cols := ExampleColumns();
    var row := ExampleRows()[k];
    assert Lower("a") == "a";
    if k == 0 {
      assert CellText(cols[0], row) == "Ana" && Lower("Ana") == "ana";
      assert OccursAt(Lower(CellText(cols[0], row)), "a", 0);
    } else {
      assert CellText(cols[0], row) == "Carla" && Lower("Carla") == "carla";
      assert OccursAt(Lower(CellText(cols[0], row)), "a", 1);
    }
    FilterPredicateIff(cols, row, "a");
  }

  lemma ExampleLuisMisses()
    ensures !FilterPredicate(ExampleColumns(), ExampleRows()[1], "a")
  {
    var cols := ExampleColumns();
    var row := ExampleRows()[1];
    assert Lower("a") == "a";
    assert CellText(cols[0], row) == "Luis" && Lower("Luis") == "luis";
    assert CellText(cols[1], row) == "USER" && Lower("USER") == "user";
    AbsentLetter("luis", 'a');
    AbsentLetter("user", 'a');
    FilterPredicateIff(cols, row, "a");
  }

  /** The query `"a"` keeps `Ana` and `Carla`, found by name, and drops `Luis`. */
  lemma ExampleFilteredByA()
    ensures FilteredData(ExampleRows(), ExampleColumns(), "a") == [ExampleRows()[0], ExampleRows()[2]]
  {
    var rows := ExampleRows();
    ExampleNameMatches(0);
    ExampleLuisMisses();
    ExampleNameMatches(2);
    assert rows[1..][1..] == [rows[2]];
  }

  /** With the query `"a"` and the sort `{name, asc}` the cards are Ana, then Carla. */
  lemma ExampleCardsForA()
    ensures MobileRows(FilteredData(ExampleRows(), ExampleColumns(), "a"), ExampleColumns(), SortState("name", Asc))
         == [ExampleRows()[0], ExampleRows()[2]]
  {
    var rows := ExampleRows();
    var cmp := RowCompare(ExampleColumns()[0], Asc);
    ExampleFilteredByA();
    assert SortColumn(ExampleColumns(), "name") == Some(0);
    assert CellText(ExampleColumns()[0], rows[0]) == "Ana";
    assert CellText(ExampleColumns()[0], rows[2]) == "Carla";
    assert Compare("Ana", "Carla") == -1;
    assert [rows[0], rows[2]][1..] == [rows[2]];
    assert SortBy([rows[2]], cmp) == [rows[2]];
  }
}
