/** What an action may observe of the file system (source/core/dag/types.h:28-38), and how its rows are
    divided (source/core/dag/store.c:433-456, source/core/dag/dag.c:303-321). */
module Observations {
  import opened Paths

  datatype ObsKind = ObsFile | ObsAbsent | ObsEnumeration

  datatype Obs = Obs(kind: ObsKind, path: Path, filter: string)

  /** The rows outside the pinned roots. */
  function Unpinned(pinned: set<nat>, rows: seq<Obs>): seq<Obs> {
    if rows == [] then []
    else
      var rest := Unpinned(pinned, rows[..|rows| - 1]);
      if rows[|rows| - 1].path.root in pinned then rest else rest + [rows[|rows| - 1]]
  }

  /** The rows under the pinned roots. */
  function PinnedRows(pinned: set<nat>, rows: seq<Obs>): seq<Obs> {
    if rows == [] then []
    else
      var rest := PinnedRows(pinned, rows[..|rows| - 1]);
      if rows[|rows| - 1].path.root in pinned then rest + [rows[|rows| - 1]] else rest
  }

  lemma {:induction false} RowsPartition(pinned: set<nat>, rows: seq<Obs>, o: Obs)
    ensures o in Unpinned(pinned, rows) <==> o in rows && o.path.root !in pinned
    ensures o in PinnedRows(pinned, rows) <==> o in rows && o.path.root in pinned
  {
    if rows != [] {
      RowsPartition(pinned, rows[..|rows| - 1], o);
      assert rows == rows[..|rows| - 1] + [rows[|rows| - 1]];
    }
  }
}
