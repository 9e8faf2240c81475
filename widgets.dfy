/**
 * The Angular Material widgets the controllers talk to, reduced to the state they expose:
 * the sort header (`MatSort`: an active column id and a direction) and the sort event it
 * emits (`Sort`, the same pair). The paginator is reduced to its page index inside each
 * controller.
 */
module Widgets {

  /** `SortDirection`: `'asc' | 'desc' | ''`, the last meaning "not sorted". */
  datatype SortDirection = Asc | Desc | Unsorted

  /** `Sort` / the visible state of `MatSort`: `{ active, direction }`; `''` stands for no active column. */
  datatype HeaderSort = HeaderSort(active: string, direction: SortDirection)
}
