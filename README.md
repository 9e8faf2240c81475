# Dual-mode table state: a Dafny model

The web template shows lists two ways: a paginated, header-sortable grid on wide
screens and an unpaginated list of cards on handsets. Two controllers keep the state
behind that switch:

- `SmartTableComponent`, the generic table. It resolves a column's cell value (the
  row's own property, a dotted property path or an accessor function), filters rows
  by free text over every non-action column, seeds a default sort from the first
  sortable column, keeps one canonical `sortState` that both the grid header and the
  card menu write, and rebuilds the card list as a sorted copy of the grid's filtered
  rows. It also picks the card's detail columns, the actions visible for a row, the
  sort label and a name's initials.
- `UsersTransposedComponent`, the same idea written out for a fixed `User` record
  (id, name, e-mail, role, status). Its card list is a getter that filters the
  untouched source users with a four-field search and sorts a fresh copy: ids
  numerically, the other fields by their lower-cased text, reversed for `'desc'`. A
  small state machine carries `sortState` into the grid's sort header and back when
  the viewport crosses the handset breakpoint.

The project is organised like the program:

| file | module | what it holds |
|---|---|---|
| `wrappers.dfy` | `Wrappers` | `Option` |
| `text.dfy` | `Text` | `toLowerCase`/`toUpperCase` (ASCII), `trim`, `includes`, `split`/`join`, the string order that stands for `localeCompare`, `String(n)` for integers |
| `seqs.dfy` | `Seqs` | `filter`, `some`, `find` on sequences |
| `sorting.dfy` | `Sorting` | `Array.prototype.sort`: a stable insertion sort, as a function and in place on an array |
| `widgets.dfy` | `Widgets` | the sort header's `{active, direction}` |
| `js_value.dfy` | `JsValue` | untyped row values, `o?.[k]`, a path walk, `String(v ?? '')` |
| `smart_table.dfy` | `SmartTable` | the generic table, its pure helpers and `SmartTableComponent` |
| `users_transposed.dfy` | `UsersTransposed` | the users page, its pure helpers and `UsersTransposedComponent` |
| `shared.dfy` | `Shared` | a property relating the two controllers |

Stateful operations are methods of a class per controller, with the controller's
fields as class fields. Each method's postcondition gives the new state in terms of
specification functions (`MobileRows`, `FilteredData`, `DefaultSort`, `Captured`,
`HeaderFor`, ...), and the properties the source relies on are proved as lemmas about
those functions. `SmartTableComponent.BuildMobileData` copies the filtered rows into a
fresh array and sorts that array in place with `Sorting.SortInPlace`, which is proved
to leave exactly the stable sorted copy `SortBy`.

Behaviour worth noting:

- The generic table's card comparator compares `String(getValue(...) ?? '')` as is;
  it does not fold case (only the users page lower-cases before comparing).
- The generic table's `applyFilter` does not send the paginator back to the first
  page; only the users page does.
- `mobileColumns` leaves out the columns keyed like `columns[0]` and `columns[1]`,
  whatever their `mobile` flag, and an empty key is never skipped.
- For the rows Ana, Luis and Carla, the query `"a"` and the sort `{name, asc}`, the
  card list is `[Ana, Carla]` (`SmartTable.ExampleCardsForA`).
- `buildMobileData` tests `if (this.sortState)`, which always holds, so the model has
  no branch for it.

## Model

| member | source | states |
|---|---|---|
| `Text.TrimStartSpec` | app/src/app/pages/users-transposed/users-transposed.component.ts:116 | what the leading-space strip removes is a run of white space, and what it keeps is a suffix of the input that does not start with white space |
| `Text.TrimEndSpec` | app/src/app/pages/users-transposed/users-transposed.component.ts:116 | what the trailing-space strip removes is a run of white space, and what it keeps is a prefix of the input that does not end with white space |
| `Text.Trim` | app/src/app/pages/users-transposed/users-transposed.component.ts:116 | `trim()` is no longer than its input and neither starts nor ends with white space |
| `Text.TrimSlice` | app/src/app/pages/users-transposed/users-transposed.component.ts:116 | `trim()` is a contiguous slice of its input with only white space before and after it |
| `Text.TrimBlank` | app/src/app/pages/users-transposed/users-transposed.component.ts:114-124 | `trim()` yields the empty string exactly for an all-white-space input |
| `Text.TrimIdempotent` | app/src/app/pages/users-transposed/users-transposed.component.ts:116 | trimming twice is trimming once |
| `Text.NormalizeIdempotent` | app/src/app/pages/users-transposed/users-transposed.component.ts:123 | trimming and lower-casing an already normalised filter changes nothing |
| `Text.TrimLower` | app/src/app/pages/users-transposed/users-transposed.component.ts:116 | trimming commutes with lower-casing |
| `Text.JoinSplit` | app/src/app/shared/components/smart-table/smart-table.component.ts:164 | joining the pieces of `split(sep)` with `sep` gives the string back |
| `Text.SplitJoin` | app/src/app/shared/components/smart-table/smart-table.component.ts:164 | splitting a join of separator-free pieces gives the pieces back |
| `Text.CompareZero` | app/src/app/shared/components/smart-table/smart-table.component.ts:152-153 | the string order ties exactly equal strings |
| `Text.CompareAntisymmetric` | app/src/app/shared/components/smart-table/smart-table.component.ts:152-153 | swapping the operands negates the comparison, which is what the `'desc'` branch relies on |
| `Text.CompareTransitive` | app/src/app/shared/components/smart-table/smart-table.component.ts:152-153 | the string order is transitive |
| `Text.NatToStringValue` | app/src/app/shared/components/smart-table/smart-table.component.ts:149 | the decimal digits of `String(n)` denote `n` |
| `Text.NatToStringInjective` | app/src/app/shared/components/smart-table/smart-table.component.ts:149 | different naturals render as different digit strings |
| `Text.IntToStringInjective` | app/src/app/shared/components/smart-table/smart-table.component.ts:149 | different integers render as different strings |
| `Seqs.FilterIsSubsequence` | app/src/app/shared/components/smart-table/smart-table.component.ts:173-177 | `filter` keeps an order-preserving subsequence |
| `Seqs.FilterMultiplicity` | app/src/app/shared/components/smart-table/smart-table.component.ts:173-177 | `filter` keeps every occurrence of every accepted element |
| `Seqs.AnyFilter` | app/src/app/shared/components/smart-table/smart-table.component.ts:100-106 | `filter(p).some(q)` holds exactly when some element satisfies both |
| `Seqs.FirstIndex` | app/src/app/shared/components/smart-table/smart-table.component.ts:146 | `find` reports the first satisfying element, and nothing exactly when none satisfies |
| `Sorting.SortByPermutation` | app/src/app/shared/components/smart-table/smart-table.component.ts:148 | a sorted copy is a permutation of its input |
| `Sorting.SortBySorted` | app/src/app/shared/components/smart-table/smart-table.component.ts:148 | under a consistent comparator a sorted copy is in order |
| `Sorting.SortByStable` | app/src/app/pages/users-transposed/users-transposed.component.ts:145 | elements the comparator ties keep their relative order |
| `Sorting.SortByAllTied` | app/src/app/pages/users-transposed/users-transposed.component.ts:145 | a comparator that ties everything leaves the order as it was |
| `Sorting.ShiftPast` | app/src/app/shared/components/smart-table/smart-table.component.ts:148 | the shifting loop moves exactly the run of elements the inserted one does not precede one place left, stopping at the first it precedes or at the end |
| `Sorting.InsertByShifting` | app/src/app/shared/components/smart-table/smart-table.component.ts:148 | a shifted run with the element dropped into the gap is the functional insertion of that element into the rest |
| `Sorting.InsertInPlace` | app/src/app/shared/components/smart-table/smart-table.component.ts:148 | shifting one element over a sorted run inserts it where the functional insertion does and leaves the prefix alone |
| `Sorting.SortInPlace` | app/src/app/shared/components/smart-table/smart-table.component.ts:148-154 | sorting the array in place leaves it holding the stable sorted copy of its old contents |
| `JsValue.WalkAppend` | app/src/app/shared/components/smart-table/smart-table.component.ts:164 | reducing over `p + q` is reducing over `p`, then over `q` |
| `JsValue.WalkMissing` | app/src/app/shared/components/smart-table/smart-table.component.ts:164 | a missing segment makes the whole walk `undefined` |
| `SmartTable.GetValueField` | app/src/app/shared/components/smart-table/smart-table.component.ts:162-164 | a one-segment path reads that property of the row, `undefined` when absent |
| `SmartTable.GetValueNested` | app/src/app/shared/components/smart-table/smart-table.component.ts:164 | a path `first.rest` reads `rest` inside the row's `first` |
| `SmartTable.GetValueMissing` | app/src/app/shared/components/smart-table/smart-table.component.ts:161-165 | `GetValue` (`getValue`) never fails on a path: it yields `undefined` from the first missing segment on |
| `SmartTable.FilterPredicateIff` | app/src/app/shared/components/smart-table/smart-table.component.ts:98-107 | `FilterPredicate`, the installed `filterPredicate`, accepts a row exactly when some non-action column's lower-cased cell text contains the lower-cased filter |
| `SmartTable.FilteredDataEmpty` | app/src/app/shared/components/smart-table/smart-table.component.ts:119-127 | with an empty filter the grid keeps every row in order |
| `SmartTable.FilteredDataSound` | app/src/app/shared/components/smart-table/smart-table.component.ts:119-127 | for any filter the filtered rows are a subsequence of the data, and for a non-empty filter every one of them passes the predicate |
| `SmartTable.FilteredDataMultiplicity` | app/src/app/shared/components/smart-table/smart-table.component.ts:98-107 | a row that passes a non-empty filter is kept exactly as often as it occurs in the data |
| `SmartTable.RowCompareConsistent` | app/src/app/shared/components/smart-table/smart-table.component.ts:148-154 | `RowCompare`, the comparator `buildMobileData` sorts with, is a total preorder in both directions |
| `SmartTable.MobileRowsPermutation` | app/src/app/shared/components/smart-table/smart-table.component.ts:142-158 | `MobileRows`, the card list `buildMobileData` builds, is a permutation of the filtered rows |
| `SmartTable.MobileRowsOrdered` | app/src/app/shared/components/smart-table/smart-table.component.ts:145-156 | with a column keyed by the sort field, the first such column orders the cards ascending by its text, or descending for `'desc'` |
| `SmartTable.MobileRowsStable` | app/src/app/shared/components/smart-table/smart-table.component.ts:148-154 | cards with equal sort text keep their filtered order |
| `SmartTable.MobileRowsUnsorted` | app/src/app/shared/components/smart-table/smart-table.component.ts:146-147 | with no column keyed by the sort field the filtered order is kept |
| `SmartTable.DefaultSort` | app/src/app/shared/components/smart-table/smart-table.component.ts:193-205 | a chosen field is kept; else the first column with `sortable !== false` and no `'actions'` type is chosen ascending; else nothing changes |
| `SmartTable.DefaultSortIdempotent` | app/src/app/shared/components/smart-table/smart-table.component.ts:193-205 | seeding twice equals seeding once |
| `SmartTable.MobileColumns` | app/src/app/shared/components/smart-table/smart-table.component.ts:167-178 | the detail columns are an order-preserving subsequence of the columns, each mobile, not an action column, and keyed unlike the non-empty keys of the first two columns |
| `SmartTable.MobileColumnsComplete` | app/src/app/shared/components/smart-table/smart-table.component.ts:167-178 | the detail columns keep definition order and every occurrence of each qualifying column |
| `SmartTable.VisibleActions` | app/src/app/shared/components/smart-table/smart-table.component.ts:180-182 | the visible actions are an order-preserving subsequence of the actions, each with no `show` test or one the row passes |
| `SmartTable.VisibleActionsComplete` | app/src/app/shared/components/smart-table/smart-table.component.ts:180-182 | visible actions keep their order and every occurrence of each action shown for the row |
| `SmartTable.SortLabel` | app/src/app/shared/components/smart-table/smart-table.component.ts:207-210 | the label is the first matching column's header, or the raw field when no column matches |
| `SmartTable.Heads` | app/src/app/shared/components/smart-table/smart-table.component.ts:187-188 | at most one letter per word |
| `SmartTable.Initials` | app/src/app/shared/components/smart-table/smart-table.component.ts:184-191 | at most two letters, none for a missing text |
| `SmartTable.SmartTableComponent.constructor` | app/src/app/shared/components/smart-table/smart-table.component.ts:68-81 | empty inputs, empty query, desktop mode, sort `{'', asc}`, consistent derived state |
| `SmartTable.SmartTableComponent.BuildMobileData` | app/src/app/shared/components/smart-table/smart-table.component.ts:142-159 | the card list becomes the sorted copy of the filtered rows and nothing else changes |
| `SmartTable.SmartTableComponent.EnsureDefaultSort` | app/src/app/shared/components/smart-table/smart-table.component.ts:193-205 | the sort state becomes `DefaultSort` of the old one |
| `SmartTable.SmartTableComponent.ApplyFilter` | app/src/app/shared/components/smart-table/smart-table.component.ts:125-129 | the query is stored, the grid filter is its trimmed lower-case form, and the cards are rebuilt |
| `SmartTable.SmartTableComponent.Refresh` | app/src/app/shared/components/smart-table/smart-table.component.ts:117-123 | column keys, grid data, default sort, filter and cards are all brought up to date; the query is kept |
| `SmartTable.SmartTableComponent.OnChanges` | app/src/app/shared/components/smart-table/smart-table.component.ts:113-115 | new inputs are taken and the derived state refreshed |
| `SmartTable.SmartTableComponent.AfterViewInit` | app/src/app/shared/components/smart-table/smart-table.component.ts:109-110 | seeding and refreshing leave the once-seeded sort and consistent derived state |
| `SmartTable.SmartTableComponent.OnDesktopSort` | app/src/app/shared/components/smart-table/smart-table.component.ts:131-135 | an event without direction is ignored; otherwise it becomes the sort state and the cards follow |
| `SmartTable.SmartTableComponent.SetMobileSort` | app/src/app/shared/components/smart-table/smart-table.component.ts:137-140 | the sort state becomes exactly `(field, dir)` and the cards follow |
| `SmartTable.SmartTableComponent.OnBreakpoint` | app/src/app/shared/components/smart-table/smart-table.component.ts:88-91 | the mode is recorded and the cards rebuilt |
| `SmartTable.ExampleSortedByName` | app/src/app/shared/components/smart-table/smart-table.component.ts:148-154 | Ana, Luis, Carla sorted by name ascending give Ana, Carla, Luis |
| `SmartTable.ExampleFilteredByA` | app/src/app/shared/components/smart-table/smart-table.component.ts:98-107 | the query `"a"` keeps Ana and Carla and drops Luis |
| `SmartTable.ExampleCardsForA` | app/src/app/shared/components/smart-table/smart-table.component.ts:142-158 | with the query `"a"` and the sort `{name, asc}` the cards are Ana, then Carla |
| `UsersTransposed.MatchesFilterBlank` | app/src/app/pages/users-transposed/users-transposed.component.ts:122-132 | `MatchesFilter` (`matchesFilter`) accepts every user for an empty or all-white-space filter |
| `UsersTransposed.MatchesFilterNormalized` | app/src/app/pages/users-transposed/users-transposed.component.ts:123 | passing the already normalised filter decides the same as the raw one |
| `UsersTransposed.MatchesFilterCaseInsensitive` | app/src/app/pages/users-transposed/users-transposed.component.ts:122-131 | the filter ignores the query's case |
| `UsersTransposed.CompareUsersConsistent` | app/src/app/pages/users-transposed/users-transposed.component.ts:145-154 | `CompareUsers`, the getter's comparator with its multiplier, is a total preorder for every field and direction |
| `UsersTransposed.TiedIffSameKey` | app/src/app/pages/users-transposed/users-transposed.component.ts:150-153 | two users tie exactly when their ids (for `id`) or lower-cased texts are equal |
| `UsersTransposed.MobileRowsContents` | app/src/app/pages/users-transposed/users-transposed.component.ts:135-145 | `MobileRows`, the `mobileData` getter, holds a permutation of the matching users: every card matches, and a matching user appears as often as in the source data |
| `UsersTransposed.MobileRowsOrdered` | app/src/app/pages/users-transposed/users-transposed.component.ts:142-154 | cards are ordered by id numerically or by lower-cased text, ascending, or descending for `'desc'` |
| `UsersTransposed.MobileRowsStable` | app/src/app/pages/users-transposed/users-transposed.component.ts:145-154 | users tied on the sort key keep their source order |
| `UsersTransposed.MobileRowsUnknownField` | app/src/app/pages/users-transposed/users-transposed.component.ts:146-153 | sorting by a name that is no `User` property keeps the filtered order |
| `UsersTransposed.MobileMatchesDesktop` | app/src/app/pages/users-transposed/users-transposed.component.ts:135-139 | the cards hold the same users as the grid's filtered data for the normalised query |
| `UsersTransposed.FromHeaderEvent` | app/src/app/pages/users-transposed/users-transposed.component.ts:164-167 | a header event's column and direction are taken, `'name'` standing in for an empty column and `'asc'` for an empty direction |
| `UsersTransposed.CaptureApplied` | app/src/app/pages/users-transposed/users-transposed.component.ts:210-215 | `Captured`, what `syncSortBetweenModes` reads back from the header, gives back the state the header shows exactly when it has a direction or no field; an empty direction comes back `'asc'` |
| `UsersTransposed.RoleChipColor` | app/src/app/pages/users-transposed/users-transposed.component.ts:221-225 | warn exactly for admins, accent exactly for auditors, primary exactly for plain users |
| `UsersTransposed.StatusChipColor` | app/src/app/pages/users-transposed/users-transposed.component.ts:227-229 | primary exactly for active users, warn exactly for blocked ones |
| `UsersTransposed.Words` | app/src/app/pages/users-transposed/users-transposed.component.ts:242-244 | the words are non-empty and contain no space |
| `UsersTransposed.WordsOfJoin` | app/src/app/pages/users-transposed/users-transposed.component.ts:242-244 | the words of non-empty, space-free words joined by single spaces are exactly those words, in order |
| `UsersTransposed.InitialsOfJoin` | app/src/app/pages/users-transposed/users-transposed.component.ts:241-248 | for words joined by single spaces, the initials are the upper-cased first letters of the first two words, or of the only one |
| `UsersTransposed.InitialsOfTwoWords` | app/src/app/pages/users-transposed/users-transposed.component.ts:241-248 | two words separated by any run of spaces give their two upper-cased first letters |
| `UsersTransposed.UsersTransposedComponent.ViewsAgree` | app/src/app/pages/users-transposed/users-transposed.component.ts:135-139 | in every consistent state both layouts list the same users |
| `UsersTransposed.UsersTransposedComponent.constructor` | app/src/app/pages/users-transposed/users-transposed.component.ts:59-74 | the three sample users, the five grid columns, empty query, desktop mode, sort `{name, asc}`, no header or paginator yet |
| `UsersTransposed.UsersTransposedComponent.ApplyFilter` | app/src/app/pages/users-transposed/users-transposed.component.ts:114-120 | the query is the value or empty, the grid filter its normal form, and an attached paginator goes to page 0 |
| `UsersTransposed.UsersTransposedComponent.OnDesktopSortChange` | app/src/app/pages/users-transposed/users-transposed.component.ts:163-171 | the sort state becomes the header event, `'name'` and `'asc'` standing in for an empty column and direction |
| `UsersTransposed.UsersTransposedComponent.HeaderClick` | app/src/app/pages/users-transposed/users-transposed.component.ts:162-171 | a header click leaves the header showing the clicked column and direction and the sort state following it |
| `UsersTransposed.UsersTransposedComponent.ApplySortStateToDesktop` | app/src/app/pages/users-transposed/users-transposed.component.ts:173-184 | an attached header shows the sort state; without a header nothing changes |
| `UsersTransposed.UsersTransposedComponent.SetMobileSort` | app/src/app/pages/users-transposed/users-transposed.component.ts:190-198 | the sort state becomes exactly `(field, dir)`, and on a desktop the attached header shows it |
| `UsersTransposed.UsersTransposedComponent.SyncSortBetweenModes` | app/src/app/pages/users-transposed/users-transposed.component.ts:203-216 | on a desktop the header shows the state; on a handset an active header's column and direction are captured |
| `UsersTransposed.UsersTransposedComponent.OnBreakpoint` | app/src/app/pages/users-transposed/users-transposed.component.ts:84-93 | the sort is synchronised only when the mode actually changes, in the direction of the new mode |
| `UsersTransposed.UsersTransposedComponent.AfterViewInit` | app/src/app/pages/users-transposed/users-transposed.component.ts:96-104 | header and paginator are attached, and on a desktop the header shows the sort state |
| `UsersTransposed.ModeRoundTrip` | app/src/app/pages/users-transposed/users-transposed.component.ts:190-216 | calling `setMobileSort` with e-mail descending while the grid is on screen, then switching to a handset and back, leaves the header at `{email, desc}` |
| `UsersTransposed.HeaderSortRoundTrip` | app/src/app/pages/users-transposed/users-transposed.component.ts:84-216 | sorting the grid by e-mail descending from its header, the cards take `{email, desc}` on a handset and the header still shows it after turning back |
| `UsersTransposed.CardSortRoundTrip` | app/src/app/pages/users-transposed/users-transposed.component.ts:84-216 | turning to the card layout, sorting by e-mail descending from the card menu and turning back leaves the header at `{email, desc}` |
| `Shared.InitialsAgree` | app/src/app/shared/components/smart-table/smart-table.component.ts:184-191 | the generic table's initials of a present name equal the users page's initials of it |

## Left out

- Angular decorators, templates, `@Input`/`@ViewChild` binding and lifecycle scheduling: inputs arrive as method parameters, the sort header and the paginator as optional values handed to `AfterViewInit`.
- The breakpoint observer and the `destroy$` teardown: a change of viewport is a call to `OnBreakpoint` with the new boolean.
- `MatTableDataSource`'s own sorting and pagination of the grid, and the listeners of `sortChange.emit`: the grid's visible order and page slice are library code outside this model; `paginator.firstPage()` is a page index set to 0.
- The generic table's filter predicate before `ngAfterViewInit` installs its own: the library's default predicate is not part of this model.
- `title`, `searchPlaceholder`, `chipColor` and `monospace`: display-only inputs with no behaviour.
- Row action `onClick` handlers and the users page's `view`/`edit`/`remove`: they only log.
- app/src/app/pages/users/users.component.ts, app/src/app/core/models/user.interface.ts and the component test: configuration, a type declaration and a creation test; `SmartTable.ExampleRows` borrows the shape of their rows.
- `Text.Compare`: `localeCompare` is modelled by the lexicographic order on character codes, one fixed total order; locale collation (accents, case tiers) is not modelled.
- `UsersTransposed.UsersTransposedComponent.HeaderClick`: how `MatSort` picks the next direction on a click (ascending, descending, none) is library code; the click is handed the header's new column and direction.
- `Text`: strings are sequences of Unicode scalar values, while JavaScript strings are sequences of UTF-16 code units; `p[0]` in both `initials` helpers, `includes` and `localeCompare` act on code units, so a name starting with a character outside the Basic Multilingual Plane yields a lone surrogate there and the whole character here.
- `Text.Lower` and `Text.Upper`: only ASCII letters are folded; Unicode case mapping (including one character becoming several) is not modelled.
- `UsersTransposed.CompareUsers`: ids are unbounded integers, so the floating-point subtraction `av - bv` is exact here.
- `JsValue.Value`: a cell value is `undefined`, `null`, a boolean, an integer, a string or a plain object; non-integer, NaN and infinite numbers (`"1.5"`, `"NaN"`, `"1e+21"`) and `Date` values returned by an accessor are not modelled, so their `String(...)` texts in filtering and sorting are not either; the filtering and ordering lemmas hold for any cell text.
- `JsValue.Prop`: reading a property of a primitive or an inherited property yields `undefined`; array values and `String` of an array are not modelled.
- `SmartTable.Heads`: its contract bounds the length only; what the letters are is stated by `Shared.InitialsAgree` together with `UsersTransposed.Initials` and `UsersTransposed.InitialsOfJoin`.
- `SmartTable.Initials`: its contract states the bound and the missing-text case; the letters themselves are given by `Shared.InitialsAgree`.
