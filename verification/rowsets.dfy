/** The value ExecPrefetch hands back: the bare rowset when the statement
    produced one result set, the whole sequence of rowsets otherwise. */
module Rowsets {
  import opened Driver

  datatype Fetched = Single(rows: seq<Row>) | Multi(sets: seq<seq<Row>>)

  /** Collapses the collected rowsets: exactly one set is returned bare. */
  function Collapse(sets: seq<seq<Row>>): (r: Fetched)
    requires 1 <= |sets|
    ensures r.Single? <==> |sets| == 1
    ensures r.Multi? ==> 2 <= |r.sets|
  {
    if |sets| == 1 then Single(sets[0]) else Multi(sets)
  }

  /** The rowsets a caller sees behind a result, whichever shape it has. */
  function Expand(r: Fetched): seq<seq<Row>>
  {
    match r
    case Single(rows) => [rows]
    case Multi(sets) => sets
  }

  /** Collapsing loses nothing: every non-empty sequence of rowsets is
      recovered from its collapsed form. */
  lemma ExpandCollapse(sets: seq<seq<Row>>)
    requires 1 <= |sets|
    ensures Expand(Collapse(sets)) == sets
  {
  }
}
