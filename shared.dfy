/**
 * What the generic table and the hand-written users page do alike, stated across the
 * two modules.
 */
module Shared {
  import opened Wrappers
  import opened Text
  import opened Seqs
  import SmartTable
  import UsersTransposed

  /** The first characters of the parts are those of the non-empty parts, in order. */
  lemma {:induction false} HeadsAreFirstChars(parts: seq<string>)
    ensures |SmartTable.Heads(parts)| == |Filter(parts, NonEmpty)|
    ensures forall i :: 0 <= i < |SmartTable.Heads(parts)|
                     ==> SmartTable.Heads(parts)[i] == Filter(parts, NonEmpty)[i][0]
    decreases |parts|
  {
    if parts != [] {
      HeadsAreFirstChars(parts[1..]);
    }
  }

  /**
   * Both `initials` helpers give the same letters for a present name, although one
   * drops empty words before taking two and the other takes two characters after
   * joining the first letters.
   */
  lemma InitialsAgree(name: string)
    ensures SmartTable.Initials(Some(name)) == UsersTransposed.Initials(name)
  {
    HeadsAreFirstChars(Split(name, ' '));
  }
}
