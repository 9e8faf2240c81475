/**
 * The users page that shows one list two ways (`UsersTransposedComponent`): a grid whose
 * data source filters the sample users, and a card list computed on demand from the
 * untouched sample data with the same filter and the canonical sort state. The sort
 * state is carried across switches between the two layouts.
 */
module UsersTransposed {
  import opened Wrappers
  import opened Text
  import opened Seqs
  import opened Sorting
  import opened Widgets

  // ---------------------------------------------------------------------------
  // Users
  // ---------------------------------------------------------------------------

  /** `Role`: `'Admin' | 'User' | 'Auditor'` (`'User'` is `Member` here, `User` naming the record). */
  datatype Role = Admin | Member | Auditor

  /** `Status`: `'Active' | 'Blocked'`. */
  datatype Status = Active | Blocked

  datatype User = User(id: int, name: string, email: string, role: Role, status: Status)

  /** The string a role is. */
  function RoleName(r: Role): string {
    match r
    case Admin => "Admin"
    case Member => "User"
    case Auditor => "Auditor"
  }

  /** The string a status is. */
  function StatusName(s: Status): string {
    match s
    case Active => "Active"
    case Blocked => "Blocked"
  }

  /** The three users the page starts with (`rawData`). */
  function SampleUsers(): seq<User> {
    [ User(1, "Ana P\U{E9}rez", "ana@demo.cl", Admin, Active),
      User(2, "Jorge Gacitua", "jorge@demo.cl", Member, Active),
      User(3, "Mario Soto", "mario@demo.cl", Auditor, Blocked) ]
  }

  // ---------------------------------------------------------------------------
  // Filtering
  // ---------------------------------------------------------------------------

  /**
   * `matchesFilter(row, filterRaw)`: a blank filter accepts every user; otherwise the
   * normalised filter must occur in the lower-cased name, e-mail, role or status.
   * The id is never searched.
   */
  predicate MatchesFilter(u: User, filterRaw: string) {
    var f := Normalize(filterRaw);
    || f == []
    || Contains(Lower(u.name), f)
    || Contains(Lower(u.email), f)
    || Contains(Lower(RoleName(u.role)), f)
    || Contains(Lower(StatusName(u.status)), f)
  }

  /** The filter as a function of the user. */
  function MatchesQuery(filter: string): User -> bool {
    (u: User) => MatchesFilter(u, filter)
  }

  /**
   * The filter normalises its argument itself, so handing it an already normalised
   * filter (as both the grid and the card list do) decides the same.
   */
  lemma MatchesFilterNormalized(u: User, q: string)
    ensures MatchesFilter(u, Normalize(q)) == MatchesFilter(u, q)
  {
    NormalizeIdempotent(q);
  }

  /** A filter made only of white space accepts every user. */
  lemma MatchesFilterBlank(u: User, q: string)
    requires forall k :: 0 <= k < |q| ==> IsSpace(q[k])
    ensures MatchesFilter(u, q)
  {
    TrimBlank(q);
  }

  /** The filter ignores the case of the query. */
  lemma MatchesFilterCaseInsensitive(u: User, q: string)
    ensures MatchesFilter(u, Lower(q)) == MatchesFilter(u, q)
  {
    TrimLower(q);
    LowerIdempotent(Trim(q));
  }

  /**
   * `dataSource.filteredData`: `MatTableDataSource` keeps every row for an empty
   * filter and applies the installed predicate otherwise.
   */
  function DesktopRows(raw: seq<User>, filter: string): seq<User> {
    if filter == [] then raw else Filter(raw, MatchesQuery(filter))
  }

  // ---------------------------------------------------------------------------
  // The card list's order
  // ---------------------------------------------------------------------------

  /** `sortState`: a property name and a direction (`''` sorts like `'asc'`). */
  datatype SortState = SortState(field: string, dir: SortDirection)

  /**
   * `a[field]`: the id is a number, the other properties strings; any other name reads
   * the same value from every user (`undefined`, or an inherited member such as `toString`).
   */
  datatype FieldValue = NumberField(n: int) | StringField(s: string) | NoField

  function FieldOf(u: User, field: string): FieldValue {
    if field == "id" then NumberField(u.id)
    else if field == "name" then StringField(u.name)
    else if field == "email" then StringField(u.email)
    else if field == "role" then StringField(RoleName(u.role))
    else if field == "status" then StringField(StatusName(u.status))
    else NoField
  }

  /** `String(v)`. */
  function FieldText(v: FieldValue): string {
    match v
    case NumberField(n) => IntToString(n)
    case StringField(s) => s
    case NoField => "undefined"
  }

  /** What strings are compared by: `String(a[field]).toLowerCase()`. */
  function SortKey(u: User, field: string): string {
    Lower(FieldText(FieldOf(u, field)))
  }

  /** `mult`: `-1` for `'desc'`, `1` otherwise. */
  function Mult(dir: SortDirection): int {
    if dir == Desc then -1 else 1
  }

  /** The comparator the `mobileData` getter sorts with. */
  function CompareUsers(field: string, dir: SortDirection): (User, User) -> int {
    (a: User, b: User) =>
      var av := FieldOf(a, field);
      var bv := FieldOf(b, field);
      if av.NumberField? && bv.NumberField? then (av.n - bv.n) * Mult(dir)
      else Compare(Lower(FieldText(av)), Lower(FieldText(bv))) * Mult(dir)
  }

  /** The comparator is consistent for every field and direction. */
  lemma CompareUsersConsistent(field: string, dir: SortDirection)
    ensures TotalPreorder(CompareUsers(field, dir))
  {
    var cmp := CompareUsers(field, dir);
    forall a: User, b: User
      ensures Precedes(cmp, a, b) || Precedes(cmp, b, a)
    {
      CompareAntisymmetric(SortKey(a, field), SortKey(b, field));
    }
    forall a: User, b: User, c: User | Precedes(cmp, a, b) && Precedes(cmp, b, c)
      ensures Precedes(cmp, a, c)
    {
      var ka, kb, kc := SortKey(a, field), SortKey(b, field), SortKey(c, field);
      if field != "id" {
        if dir == Desc {
          CompareAntisymmetric(ka, kb);
          CompareAntisymmetric(kb, kc);
          CompareAntisymmetric(ka, kc);
          CompareTransitive(kc, kb, ka);
        } else {
          CompareTransitive(ka, kb, kc);
        }
      }
    }
  }

  /** Two users tie under the comparator: equal ids for `'id'`, equal sort keys otherwise. */
  predicate SameKey(field: string, k: User, x: User) {
    if field == "id" then x.id == k.id else SortKey(x, field) == SortKey(k, field)
  }

  function SameKeyAs(field: string, k: User): User -> bool {
    (x: User) => SameKey(field, k, x)
  }

  lemma TiedIffSameKey(field: string, dir: SortDirection, k: User, x: User)
    ensures Tied(CompareUsers(field, dir), k, x) <==> SameKey(field, k, x)
  {
    CompareZero(SortKey(k, field), SortKey(x, field));
    CompareAntisymmetric(SortKey(k, field), SortKey(x, field));
  }

  /** The filtered users, as both views compute them from a normalised filter. */
  function Matching(raw: seq<User>, query: string): seq<User> {
    Filter(raw, MatchesQuery(Normalize(query)))
  }

  /** The `mobileData` getter: the matching users, sorted by a copy. */
  function MobileRows(raw: seq<User>, query: string, state: SortState): seq<User> {
    SortBy(Matching(raw, query), CompareUsers(state.field, state.dir))
  }

  /**
   * The card list holds exactly the users that pass the filter, each as often as in
   * the source data: sorting adds, drops and duplicates nothing.
   */
  lemma MobileRowsContents(raw: seq<User>, query: string, state: SortState, u: User)
    ensures multiset(MobileRows(raw, query, state)) == multiset(Matching(raw, query))
    ensures MatchesFilter(u, query) ==> multiset(MobileRows(raw, query, state))[u] == multiset(raw)[u]
    ensures var r := MobileRows(raw, query, state); forall i :: 0 <= i < |r| ==> MatchesFilter(r[i], query)
  {
    var filtered := Matching(raw, query);
    var r := MobileRows(raw, query, state);
    SortByPermutation(filtered, CompareUsers(state.field, state.dir));
    MatchesFilterNormalized(u, query);
    if MatchesFilter(u, query) {
      FilterMultiplicity(raw, MatchesQuery(Normalize(query)), u);
    }
    forall i | 0 <= i < |r|
      ensures MatchesFilter(r[i], query)
    {
      assert r[i] in multiset(filtered);
      var k :| 0 <= k < |filtered| && filtered[k] == r[i];
      assert MatchesQuery(Normalize(query))(filtered[k]);
      MatchesFilterNormalized(r[i], query);
    }
  }

  /** What the comparator placing `a` no later than `b` says about the two users. */
  predicate InOrder(field: string, dir: SortDirection, a: User, b: User) {
    if field == "id" then (if dir == Desc then a.id >= b.id else a.id <= b.id)
    else if dir == Desc then Compare(SortKey(a, field), SortKey(b, field)) >= 0
    else Compare(SortKey(a, field), SortKey(b, field)) <= 0
  }

  lemma PrecedesInOrder(field: string, dir: SortDirection, a: User, b: User)
    requires Precedes(CompareUsers(field, dir), a, b)
    ensures InOrder(field, dir, a, b)
  {
  }

  /**
   * The card list is ordered by the sort field: ids numerically, the other properties
   * by their lower-cased text; ascending for `'asc'` and `''`, descending for `'desc'`.
   */
  lemma MobileRowsOrdered(raw: seq<User>, query: string, state: SortState)
    ensures var r := MobileRows(raw, query, state);
      forall i, j :: 0 <= i < j < |r| ==> InOrder(state.field, state.dir, r[i], r[j])
  {
    var cmp := CompareUsers(state.field, state.dir);
    CompareUsersConsistent(state.field, state.dir);
    SortBySorted(Matching(raw, query), cmp);
    var r := MobileRows(raw, query, state);
    forall i, j | 0 <= i < j < |r|
      ensures InOrder(state.field, state.dir, r[i], r[j])
    {
      PrecedesInOrder(state.field, state.dir, r[i], r[j]);
    }
  }

  /**
   * Users that tie on the sort key (equal ids, or texts equal up to case) keep the
   * order they have in the source data.
   */
  lemma MobileRowsStable(raw: seq<User>, query: string, state: SortState, k: User)
    ensures Filter(MobileRows(raw, query, state), SameKeyAs(state.field, k))
         == Filter(Matching(raw, query), SameKeyAs(state.field, k))
  {
    var cmp := CompareUsers(state.field, state.dir);
    var filtered := Matching(raw, query);
    CompareUsersConsistent(state.field, state.dir);
    SortByStable(filtered, cmp, k);
    forall x: User
      ensures TiedWith(cmp, k)(x) == SameKeyAs(state.field, k)(x)
    {
      TiedIffSameKey(state.field, state.dir, k, x);
    }
    FilterCongruent(SortBy(filtered, cmp), TiedWith(cmp, k), SameKeyAs(state.field, k));
    FilterCongruent(filtered, TiedWith(cmp, k), SameKeyAs(state.field, k));
  }

  /** Sorting by a name that is not a property of `User` compares equal texts and keeps the data order. */
  lemma MobileRowsUnknownField(raw: seq<User>, query: string, state: SortState)
    requires state.field !in {"id", "name", "email", "role", "status"}
    ensures MobileRows(raw, query, state) == Matching(raw, query)
  {
    var filtered := Matching(raw, query);
    var cmp := CompareUsers(state.field, state.dir);
    forall i, j | 0 <= i < |filtered| && 0 <= j < |filtered|
      ensures cmp(filtered[i], filtered[j]) == 0
    {
      UnknownFieldTies(state.field, state.dir, filtered[i], filtered[j]);
    }
    SortByAllTied(filtered, cmp);
  }

  lemma UnknownFieldTies(field: string, dir: SortDirection, a: User, b: User)
    requires field !in {"id", "name", "email", "role", "status"}
    ensures CompareUsers(field, dir)(a, b) == 0
  {
    assert FieldOf(a, field) == NoField && FieldOf(b, field) == NoField;
    CompareZero(Lower("undefined"), Lower("undefined"));
  }

  /**
   * The card list shows the same users as the grid's filtered data, whenever the grid's
   * filter is the normalised query.
   */
  lemma MobileMatchesDesktop(raw: seq<User>, query: string, state: SortState)
    ensures multiset(MobileRows(raw, query, state)) == multiset(DesktopRows(raw, Normalize(query)))
  {
    var filtered := Matching(raw, query);
    SortByPermutation(filtered, CompareUsers(state.field, state.dir));
    if Normalize(query) == [] {
      forall i | 0 <= i < |raw|
        ensures MatchesQuery(Normalize(query))(raw[i])
      {
        NormalizeIdempotent(query);
      }
      FilterAll(raw, MatchesQuery(Normalize(query)));
    }
  }

  // ---------------------------------------------------------------------------
  // Sort state and the sort header
  // ---------------------------------------------------------------------------

  /** The state `onDesktopSortChange(s)` records: `'name'` for no column, `'asc'` for no direction. */
  function FromHeaderEvent(s: HeaderSort): (r: SortState)
    ensures r.field != [] && r.dir != Unsorted
    ensures s.active != [] ==> r.field == s.active
    ensures s.direction != Unsorted ==> r.dir == s.direction
    ensures s.active == [] ==> r.field == "name"
    ensures s.direction == Unsorted ==> r.dir == Asc
  {
    SortState(if s.active == [] then "name" else s.active,
              if s.direction == Unsorted then Asc else s.direction)
  }

  /** What `applySortStateToDesktop` writes into the sort header. */
  function HeaderFor(state: SortState): HeaderSort {
    HeaderSort(state.field, state.dir)
  }

  /** The state after `syncSortBetweenModes` on entering the card layout. */
  function Captured(sort: Option<HeaderSort>, state: SortState): SortState {
    if sort.Some? && sort.value.active != []
    then SortState(sort.value.active, if sort.value.direction == Unsorted then Asc else sort.value.direction)
    else state
  }

  /**
   * Going to the cards and back keeps the sort: capturing a header that shows the
   * state gives the state back exactly when it has a direction or no field; a state
   * with a field and the empty direction comes back as `'asc'`.
   */
  lemma CaptureApplied(state: SortState)
    ensures Captured(Some(HeaderFor(state)), state) == state <==> (state.dir != Unsorted || state.field == [])
    ensures state.field != [] && state.dir == Unsorted ==> Captured(Some(HeaderFor(state)), state) == SortState(state.field, Asc)
  {
  }

  // ---------------------------------------------------------------------------
  // UI helpers
  // ---------------------------------------------------------------------------

  /** Material's chip palette. */
  datatype ChipColor = Primary | Accent | Warn

  /** `roleChipColor(role)`: one colour per role. */
  function RoleChipColor(role: Role): (r: ChipColor)
    ensures r == Warn <==> role == Admin
    ensures r == Accent <==> role == Auditor
    ensures r == Primary <==> role == Member
  {
    match role
    case Admin => Warn
    case Auditor => Accent
    case Member => Primary
  }

  /** `statusChipColor(status)`: active users in the primary colour, blocked ones in the warning colour. */
  function StatusChipColor(status: Status): (r: ChipColor)
    ensures r == Primary <==> status == Active
    ensures r == Warn <==> status == Blocked
  {
    match status
    case Active => Primary
    case Blocked => Warn
  }

  /** `name.split(' ').filter(Boolean)`. */
  function Words(name: string): (r: seq<string>)
    ensures forall i :: 0 <= i < |r| ==> r[i] != [] && ' ' !in r[i]
  {
    FilterMembers(Split(name, ' '), NonEmpty);
    Filter(Split(name, ' '), NonEmpty)
  }

  /** The words of space-joined non-empty, space-free words are those words, in order. */
  lemma WordsOfJoin(parts: seq<string>)
    requires |parts| >= 1
    requires forall i :: 0 <= i < |parts| ==> parts[i] != [] && ' ' !in parts[i]
    ensures Words(Join(parts, ' ')) == parts
  {
    SplitJoin(parts, ' ');
    FilterAll(parts, NonEmpty);
  }

  /** `initials(name)`: the upper-cased first letters of the first two words. */
  function Initials(name: string): (r: string)
    ensures |r| <= 2 && |r| <= |Words(name)|
    ensures |r| == 2 || |r| == |Words(name)|
    ensures forall i :: 0 <= i < |r| ==> r[i] == UpperChar(Words(name)[i][0])
  {
    var w := Words(name);
    var n := if |w| < 2 then |w| else 2;
    seq(n, i requires 0 <= i < n => UpperChar(w[i][0]))
  }

  /** The initials of space-joined words are the upper-cased first letters of the first two words. */
  lemma InitialsOfJoin(parts: seq<string>)
    requires |parts| >= 1
    requires forall i :: 0 <= i < |parts| ==> parts[i] != [] && ' ' !in parts[i]
    ensures |Initials(Join(parts, ' '))| == if |parts| < 2 then |parts| else 2
    ensures forall i :: 0 <= i < |Initials(Join(parts, ' '))| ==> Initials(Join(parts, ' '))[i] == UpperChar(parts[i][0])
  {
    WordsOfJoin(parts);
  }

  /** Two words separated by any run of spaces give the two upper-cased first letters. */
  lemma InitialsOfTwoWords(first: string, gap: nat, last: string)
    requires first != [] && ' ' !in first && last != [] && ' ' !in last
    ensures Initials(first + seq(gap + 1, _ => ' ') + last) == [UpperChar(first[0]), UpperChar(last[0])]
  {
    var name := first + seq(gap + 1, _ => ' ') + last;
    WordsAfterSpaces(first, gap, last);
    var blanks := seq<string>(gap, _ => []);
    FilterAppend([first] + blanks, [last], NonEmpty);
    FilterAppend([first], blanks, NonEmpty);
    FilterNone(blanks, NonEmpty);
    assert Words(name) == [first, last];
  }

  lemma {:induction false} WordsAfterSpaces(first: string, gap: nat, last: string)
    requires ' ' !in first && ' ' !in last && last != []
    ensures Split(first + seq(gap + 1, _ => ' ') + last, ' ') == [first] + seq<string>(gap, _ => []) + [last]
    decreases gap
  {
    var spaces := seq(gap + 1, _ => ' ');
    assert first + spaces + last == first + [' '] + (spaces[1..] + last);
    SplitAtSeparator(first, spaces[1..] + last, ' ');
    if gap == 0 {
      assert spaces[1..] + last == last;
      SplitNoSeparator(last, ' ');
    } else {
      assert spaces[1..] == seq(gap, _ => ' ');
      WordsAfterSpaces([], gap - 1, last);
      assert [] + seq(gap, _ => ' ') + last == spaces[1..] + last;
      assert [[]] + seq<string>(gap - 1, _ => []) == seq<string>(gap, _ => []);
    }
  }

  // ---------------------------------------------------------------------------
  // The component's state
  // ---------------------------------------------------------------------------

  class UsersTransposedComponent {
    /** `rawData` and `displayedColumns`, never reassigned. */
    const rawData: seq<User>
    const displayedColumns: seq<string>
    /** `dataSource.filter`. */
    var dataSourceFilter: string
    var isMobile: bool
    var query: string
    var sortState: SortState
    /** The sort header (`MatSort`), absent until the view is initialised. */
    var sort: Option<HeaderSort>
    /** The paginator's page index, absent until the view is initialised. */
    var paginator: Option<nat>

    /** The grid's filter is the normalised query. */
    ghost predicate Valid()
      reads this`dataSourceFilter, this`query
    {
      dataSourceFilter == Normalize(query)
    }

    /** The `mobileData` getter. */
    function MobileData(): seq<User>
      reads this`query, this`sortState
    {
      MobileRows(rawData, query, sortState)
    }

    /** `dataSource.filteredData`. */
    function FilteredData(): seq<User>
      reads this`dataSourceFilter
    {
      DesktopRows(rawData, dataSourceFilter)
    }

    /** Both layouts list the same users. */
    lemma ViewsAgree()
      requires Valid()
      ensures multiset(MobileData()) == multiset(FilteredData())
    {
      MobileMatchesDesktop(rawData, query, sortState);
    }

    /** The field initialisers; the constructor's filter predicate is `MatchesFilter`. */
    constructor ()
      ensures Valid()
      ensures rawData == SampleUsers()
      ensures displayedColumns == ["name", "email", "role", "status", "actions"]
      ensures !isMobile && query == [] && dataSourceFilter == []
      ensures sortState == SortState("name", Asc)
      ensures sort == None && paginator == None
    {
      rawData := SampleUsers();
      displayedColumns := ["name", "email", "role", "status", "actions"];
      dataSourceFilter := [];
      isMobile := false;
      query := [];
      sortState := SortState("name", Asc);
      sort := None;
      paginator := None;
    }

    /** `applyFilter(value)`: a missing value is the empty query; the grid goes back to its first page. */
    method ApplyFilter(value: Option<string>)
      modifies this`query, this`dataSourceFilter, this`paginator
      ensures query == value.GetOr([])
      ensures dataSourceFilter == Normalize(query)
      ensures paginator == if old(paginator).Some? then Some(0) else None
      ensures Valid()
    {
      query := value.GetOr([]);
      dataSourceFilter := Normalize(query);
      if paginator.Some? {
        paginator := Some(0);
      }
    }

    /** `onDesktopSortChange(s)`. */
    method OnDesktopSortChange(s: HeaderSort)
      modifies this`sortState
      ensures sortState == FromHeaderEvent(s)
    {
      var active := if s.active == [] then "name" else s.active;
      var dir := if s.direction == Unsorted then Asc else s.direction;
      sortState := SortState(active, dir);
    }

    /**
     * A click on a grid column header: the sort header takes the new column and
     * direction and then emits them, which `onDesktopSortChange` receives.
     */
    method HeaderClick(s: HeaderSort)
      requires sort.Some?
      modifies this`sort, this`sortState
      ensures sort == Some(s)
      ensures sortState == FromHeaderEvent(s)
    {
      sort := Some(s);
      OnDesktopSortChange(s);
    }

    /** `applySortStateToDesktop()`: shows the state in the sort header, if there is one. */
    method ApplySortStateToDesktop()
      modifies this`sort
      ensures sort == if old(sort).Some? then Some(HeaderFor(sortState)) else None
    {
      if sort.None? {
        return;
      }
      sort := Some(HeaderSort(sortState.field, sortState.dir));
    }

    /** `setMobileSort(field, dir)`: the grid's header follows when the grid is on screen. */
    method SetMobileSort(field: string, dir: SortDirection)
      modifies this`sortState, this`sort
      ensures sortState == SortState(field, dir)
      ensures sort == if !isMobile && old(sort).Some? then Some(HeaderFor(sortState)) else old(sort)
    {
      sortState := SortState(field, dir);
      if !isMobile {
        ApplySortStateToDesktop();
      }
    }

    /** `syncSortBetweenModes()`. */
    method SyncSortBetweenModes()
      modifies this`sortState, this`sort
      ensures !isMobile ==> sortState == old(sortState)
      ensures !isMobile ==> sort == if old(sort).Some? then Some(HeaderFor(sortState)) else None
      ensures isMobile ==> sort == old(sort) && sortState == Captured(sort, old(sortState))
    {
      if !isMobile {
        ApplySortStateToDesktop();
        return;
      }
      if sort.Some? && sort.value.active != [] {
        var dir := if sort.value.direction == Unsorted then Asc else sort.value.direction;
        sortState := SortState(sort.value.active, dir);
      }
    }

    /** The breakpoint subscription: on a change of layout the sort is carried across. */
    method OnBreakpoint(matches: bool)
      modifies this`isMobile, this`sortState, this`sort
      ensures isMobile == matches
      ensures matches == old(isMobile) ==> sortState == old(sortState) && sort == old(sort)
      ensures !matches && old(isMobile) ==> sortState == old(sortState)
      ensures !matches && old(isMobile) ==> sort == if old(sort).Some? then Some(HeaderFor(sortState)) else None
      ensures matches && !old(isMobile) ==> sort == old(sort) && sortState == Captured(old(sort), old(sortState))
    {
      var prev := isMobile;
      isMobile := matches;
      if prev != isMobile {
        SyncSortBetweenModes();
      }
    }

    /** `ngAfterViewInit()`: attaches the header and the paginator, and shows the state on a desktop. */
    method AfterViewInit(header: Option<HeaderSort>, pageIndex: Option<nat>)
      modifies this`sort, this`paginator
      ensures paginator == pageIndex
      ensures sort == if !isMobile && header.Some? then Some(HeaderFor(sortState)) else header
    {
      sort := header;
      paginator := pageIndex;
      if !isMobile {
        ApplySortStateToDesktop();
      }
    }
  }

  /**
   * A desktop session: the page opens, `setMobileSort` picks e-mail descending while
   * the grid is on screen, and the device turns to the card layout and back. The
   * header and the cards follow the sort.
   */
  method ModeRoundTrip() returns (header: Option<HeaderSort>, state: SortState)
    ensures header == Some(HeaderSort("email", Desc))
    ensures state == SortState("email", Desc)
  {
    var page := new UsersTransposedComponent();
    page.OnBreakpoint(false);
    page.AfterViewInit(Some(HeaderSort([], Unsorted)), Some(0));
    page.SetMobileSort("email", Desc);
    page.OnBreakpoint(true);
    page.OnBreakpoint(false);
    header, state := page.sort, page.sortState;
  }

  /**
   * A desktop session: the page opens, the device turns to the card layout, the user
   * sorts by e-mail descending from the card menu and turns back. The header then
   * shows the sort chosen on the cards.
   */
  method CardSortRoundTrip() returns (header: Option<HeaderSort>, state: SortState)
    ensures header == Some(HeaderSort("email", Desc))
    ensures state == SortState("email", Desc)
  {
    var page := new UsersTransposedComponent();
    page.OnBreakpoint(false);
    page.AfterViewInit(Some(HeaderSort([], Unsorted)), Some(0));
    page.OnBreakpoint(true);
    page.SetMobileSort("email", Desc);
    page.OnBreakpoint(false);
    header, state := page.sort, page.sortState;
  }

  /**
   * A desktop session: the page opens, the user sorts the grid by e-mail descending
   * from its column header, turns the device to the card layout and back. The cards
   * take the header's sort, and the header still shows it afterwards.
   */
  method HeaderSortRoundTrip() returns (onCards: SortState, header: Option<HeaderSort>)
    ensures onCards == SortState("email", Desc)
    ensures header == Some(HeaderSort("email", Desc))
  {
    var page := new UsersTransposedComponent();
    page.OnBreakpoint(false);
    page.AfterViewInit(Some(HeaderSort([], Unsorted)), Some(0));
    page.HeaderClick(HeaderSort("email", Desc));
    page.OnBreakpoint(true);
    onCards := page.sortState;
    page.OnBreakpoint(false);
    header := page.sort;
  }
}
