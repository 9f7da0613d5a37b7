/** The canonical form of a set of observations (source/core/dag/run.c:497-529) and the part of it that
    is recorded (source/core/dag/store.c:433-456). */
module Canonical {
  import opened Paths
  import opened Observations

  // ---------------------------------------------------------------- the order

  /** `sp_str_compare_alphabetical`: negative, zero or positive. */
  function CompareStrings(a: string, b: string): int {
    if a == "" && b == "" then 0
    else if a == "" then -1
    else if b == "" then 1
    else if a[0] != b[0] then (if a[0] < b[0] then -1 else 1)
    else CompareStrings(a[1..], b[1..])
  }

  function KindRank(kind: ObsKind): int {
    match kind
    case ObsFile => 0
    case ObsAbsent => 1
    case ObsEnumeration => 2
  }

  /** `obs_order`. */
  function CompareObs(a: Obs, b: Obs): int {
    if a.path.root != b.path.root then a.path.root - b.path.root
    else
      var order := CompareStrings(a.path.sub, b.path.sub);
      if order != 0 then order
      else if a.kind != b.kind then KindRank(a.kind) - KindRank(b.kind)
      else CompareStrings(a.filter, b.filter)
  }

  predicate Before(a: Obs, b: Obs) {
    CompareObs(a, b) < 0
  }

  lemma {:induction false} StringsOrdered(a: string, b: string)
    ensures CompareStrings(a, b) == 0 <==> a == b
    ensures CompareStrings(a, b) == -CompareStrings(b, a)
  {
    if a != "" && b != "" && a[0] == b[0] {
      StringsOrdered(a[1..], b[1..]);
      assert a == [a[0]] + a[1..] && b == [b[0]] + b[1..];
    }
  }

  lemma {:induction false} StringsTransitive(a: string, b: string, c: string)
    requires CompareStrings(a, b) <= 0 && CompareStrings(b, c) <= 0
    ensures CompareStrings(a, c) <= 0
    ensures CompareStrings(a, b) < 0 || CompareStrings(b, c) < 0 ==> CompareStrings(a, c) < 0
  {
    if a != "" && b != "" && c != "" && a[0] == b[0] == c[0] {
      StringsTransitive(a[1..], b[1..], c[1..]);
    }
  }

  /** One string comes before another exactly when it is a proper beginning of it, or has the smaller character
      where they first differ. */
  lemma {:induction false} StringsMean(a: string, b: string)
    ensures CompareStrings(a, b) < 0 <==>
      (a < b || exists k :: 0 <= k < |a| && k < |b| && a[..k] == b[..k] && a[k] < b[k])
  {
    if a != "" && b != "" {
      if a[0] == b[0] {
        StringsMean(a[1..], b[1..]);
        assert a < b <==> a[1..] < b[1..] by {
          assert a == [a[0]] + a[1..] && b == [b[0]] + b[1..];
        }
        if k :| 0 <= k < |a[1..]| && k < |b[1..]| && a[1..][..k] == b[1..][..k] && a[1..][k] < b[1..][k] {
          assert a[..k + 1] == [a[0]] + a[1..][..k] && b[..k + 1] == [b[0]] + b[1..][..k];
          assert a[..k + 1] == b[..k + 1] && a[k + 1] < b[k + 1];
        }
        if k :| 0 <= k < |a| && k < |b| && a[..k] == b[..k] && a[k] < b[k] {
          assert a[1..][..k - 1] == a[..k][1..] && b[1..][..k - 1] == b[..k][1..];
        }
      } else {
        assert a[..0] == b[..0];
        if k :| 0 <= k < |a| && k < |b| && a[..k] == b[..k] && a[k] < b[k] && k > 0 {
          FirstAgrees(a, b, k);
          assert false;
        }
      }
    }
  }

  lemma FirstAgrees(a: string, b: string, k: nat)
    requires 0 < k <= |a| && k <= |b| && a[..k] == b[..k]
    ensures a[0] == b[0]
  {
    assert a[0] == a[..k][0];
  }

  /** Rows are ordered by root, then by path, then by kind (files, absences, enumerations), then by filter. */
  lemma RowsMean(a: Obs, b: Obs)
    ensures Before(a, b) <==>
      || a.path.root < b.path.root
      || (a.path.root == b.path.root && CompareStrings(a.path.sub, b.path.sub) < 0)
      || (a.path == b.path && ((a.kind.ObsFile? && !b.kind.ObsFile?) || (a.kind.ObsAbsent? && b.kind.ObsEnumeration?)))
      || (a.path == b.path && a.kind == b.kind && CompareStrings(a.filter, b.filter) < 0)
  {
    StringsOrdered(a.path.sub, b.path.sub);
  }

  /** Rows compare equal exactly when they are equal, and one of two different rows comes first. */
  lemma ObsOrdered(a: Obs, b: Obs)
    ensures CompareObs(a, b) == 0 <==> a == b
    ensures Before(a, b) <==> CompareObs(b, a) > 0
  {
    StringsOrdered(a.path.sub, b.path.sub);
    StringsOrdered(a.filter, b.filter);
  }

  lemma ObsTransitive(a: Obs, b: Obs, c: Obs)
    requires CompareObs(a, b) <= 0 && CompareObs(b, c) <= 0
    ensures CompareObs(a, c) <= 0
    ensures Before(a, b) || Before(b, c) ==> Before(a, c)
  {
    ObsOrdered(a, b);
    ObsOrdered(b, c);
    if a.path.root == b.path.root == c.path.root {
      if CompareStrings(a.path.sub, b.path.sub) <= 0 && CompareStrings(b.path.sub, c.path.sub) <= 0 {
        StringsTransitive(a.path.sub, b.path.sub, c.path.sub);
        StringsOrdered(a.path.sub, b.path.sub);
        StringsOrdered(b.path.sub, c.path.sub);
        StringsOrdered(a.path.sub, c.path.sub);
        if a.path.sub == b.path.sub == c.path.sub && a.kind == b.kind == c.kind {
          StringsTransitive(a.filter, b.filter, c.filter);
        }
      }
    }
  }

  // ---------------------------------------------------------------- canonical form

  ghost predicate Ascending(rows: seq<Obs>) {
    forall i, j :: 0 <= i < j < |rows| ==> CompareObs(rows[i], rows[j]) <= 0
  }

  ghost predicate StrictlyAscending(rows: seq<Obs>) {
    forall i, j :: 0 <= i < j < |rows| ==> Before(rows[i], rows[j])
  }

  ghost predicate SameMembers(a: seq<Obs>, b: seq<Obs>) {
    forall o :: o in a <==> o in b
  }

  /** The first row comes before every row it does not equal. */
  lemma FirstIsLeast(a: seq<Obs>, o: Obs)
    requires StrictlyAscending(a) && o in a
    ensures o == a[0] || Before(a[0], o)
  {
    var i :| 0 <= i < |a| && a[i] == o;
  }

  /** A strictly ascending sequence is determined by its members. */
  lemma {:induction false} CanonicalIsUnique(a: seq<Obs>, b: seq<Obs>)
    requires StrictlyAscending(a) && StrictlyAscending(b) && SameMembers(a, b)
    ensures a == b
  {
    assert forall i :: 0 <= i < |a| ==> a[i] in b;
    assert forall i :: 0 <= i < |b| ==> b[i] in a;
    if a != [] && b != [] {
      FirstIsLeast(a, b[0]);
      FirstIsLeast(b, a[0]);
      ObsOrdered(a[0], b[0]);
      TailMembers(a, b);
      TailMembers(b, a);
      CanonicalIsUnique(a[1..], b[1..]);
    }
  }

  lemma TailMembers(a: seq<Obs>, b: seq<Obs>)
    requires StrictlyAscending(a) && a != [] && b != [] && a[0] == b[0] && SameMembers(a, b)
    ensures forall o :: o in a[1..] ==> o in b[1..]
  {
    forall o | o in a[1..] ensures o in b[1..] {
      var i :| 1 <= i < |a| && a[i] == o;
      ObsOrdered(a[0], a[i]);
      assert a[i] in a;
      var j :| 0 <= j < |b| && b[j] == o;
      assert b[1..][j - 1] == o;
    }
  }

  /** Stands for the library's sort: one row put into sorted rows. */
  function Insert(o: Obs, rows: seq<Obs>): seq<Obs> {
    if rows == [] then [o]
    else if CompareObs(o, rows[0]) <= 0 then [o] + rows
    else [rows[0]] + Insert(o, rows[1..])
  }

  function Sorted(rows: seq<Obs>): seq<Obs> {
    if rows == [] then [] else Insert(rows[0], Sorted(rows[1..]))
  }

  lemma {:induction false} InsertKeeps(o: Obs, rows: seq<Obs>)
    requires Ascending(rows)
    ensures Ascending(Insert(o, rows)) && |Insert(o, rows)| == |rows| + 1
    ensures forall x :: x in Insert(o, rows) <==> x == o || x in rows
  {
    if rows != [] {
      assert rows == [rows[0]] + rows[1..];
      if CompareObs(o, rows[0]) <= 0 {
        forall j | 0 <= j < |rows| ensures CompareObs(o, rows[j]) <= 0 {
          if j > 0 {
            ObsTransitive(o, rows[0], rows[j]);
          }
        }
      } else {
        ObsOrdered(o, rows[0]);
        ObsOrdered(rows[0], o);
        InsertKeeps(o, rows[1..]);
        var rest := Insert(o, rows[1..]);
        forall j | 0 <= j < |rest| ensures CompareObs(rows[0], rest[j]) <= 0 {
          assert rest[j] in rest;
        }
      }
    }
  }

  lemma {:induction false} SortedKeeps(rows: seq<Obs>)
    ensures Ascending(Sorted(rows)) && |Sorted(rows)| == |rows| && SameMembers(Sorted(rows), rows)
  {
    if rows != [] {
      SortedKeeps(rows[1..]);
      InsertKeeps(rows[0], Sorted(rows[1..]));
      assert rows == [rows[0]] + rows[1..];
    }
  }

  /** The compaction of the source: `w` rows are kept in place, the last of them equal to the row
      before `r`. */
  lemma CompactStep(kept: seq<Obs>, sorted: seq<Obs>, r: nat)
    requires 0 < r < |sorted| && kept != [] && Ascending(sorted) && StrictlyAscending(kept)
    requires SameMembers(kept, sorted[..r]) && kept[|kept| - 1] == sorted[r - 1]
    ensures var kept' := if sorted[r] == sorted[r - 1] then kept else kept + [sorted[r]];
      StrictlyAscending(kept') && SameMembers(kept', sorted[..r + 1]) && kept'[|kept'| - 1] == sorted[r]
  {
    var last, next := sorted[r - 1], sorted[r];
    assert sorted[..r + 1] == sorted[..r] + [next];
    ObsOrdered(last, next);
    if next == last {
      assert next in kept;
    } else {
      forall i | 0 <= i < |kept| ensures Before(kept[i], next) {
        if i < |kept| - 1 {
          ObsTransitive(kept[i], last, next);
        }
      }
    }
  }

  method SortInPlace(obs: array<Obs>)
    modifies obs
    ensures obs[..] == Sorted(old(obs[..]))
  {
    SortedKeeps(obs[..]);
    var sorted := Sorted(obs[..]);
    forall i | 0 <= i < obs.Length {
      obs[i] := sorted[i];
    }
  }

  /** One turn of the compaction loop. */
  method KeepNext(obs: array<Obs>, w: nat, r: nat, ghost sorted: seq<Obs>) returns (w': nat)
    requires 0 < w <= r < obs.Length == |sorted| && Ascending(sorted)
    requires obs[r..] == sorted[r..]
    requires StrictlyAscending(obs[..w]) && SameMembers(obs[..w], sorted[..r]) && obs[w - 1] == sorted[r - 1]
    modifies obs
    ensures 0 < w' <= r + 1 && obs[r + 1..] == sorted[r + 1..]
    ensures StrictlyAscending(obs[..w']) && SameMembers(obs[..w'], sorted[..r + 1]) && obs[w' - 1] == sorted[r]
  {
    ghost var kept := obs[..w];
    CompactStep(kept, sorted, r);
    assert obs[r] == obs[r..][0] == sorted[r];
    assert obs[r + 1..] == obs[r..][1..] && sorted[r + 1..] == sorted[r..][1..];
    w' := w;
    if obs[r] != obs[w - 1] {
      obs[w] := obs[r];
      w' := w + 1;
      assert obs[..w'] == kept + [sorted[r]];
    }
  }

  /** `spn_dag_obs_canonicalize`: the first `size` elements become the canonical form. */
  method Canonicalize(obs: array<Obs>) returns (size: nat)
    modifies obs
    ensures size <= obs.Length && StrictlyAscending(obs[..size]) && SameMembers(obs[..size], old(obs[..]))
  {
    if obs.Length == 0 {
      return 0;
    }
    SortedKeeps(obs[..]);
    SortInPlace(obs);
    ghost var sorted := obs[..];
    var w, r := 1, 1;
    assert obs[..1] == sorted[..1] == [sorted[0]];
    while r < obs.Length
      invariant 1 <= w <= r <= obs.Length && obs[r..] == sorted[r..]
      invariant StrictlyAscending(obs[..w]) && SameMembers(obs[..w], sorted[..r]) && obs[w - 1] == sorted[r - 1]
    {
      w := KeepNext(obs, w, r, sorted);
      r := r + 1;
    }
    assert sorted[..obs.Length] == sorted;
    size := w;
  }

  /** Two executions that observe the same set, in any order and with any repetition, get the same rows. */
  lemma SameObservationsSameRows(a: seq<Obs>, b: seq<Obs>, c: seq<Obs>, d: seq<Obs>)
    requires SameMembers(a, b)
    requires StrictlyAscending(c) && SameMembers(c, a)
    requires StrictlyAscending(d) && SameMembers(d, b)
    ensures c == d
  {
    CanonicalIsUnique(c, d);
  }

  // ---------------------------------------------------------------- the recorded part

  /** What is recorded of a canonical form is canonical. */
  lemma {:induction false} UnpinnedStaysCanonical(pinned: set<nat>, rows: seq<Obs>)
    requires StrictlyAscending(rows)
    ensures StrictlyAscending(Unpinned(pinned, rows))
  {
    if rows != [] {
      var front, last := rows[..|rows| - 1], rows[|rows| - 1];
      UnpinnedStaysCanonical(pinned, front);
      var rest := Unpinned(pinned, front);
      forall i | 0 <= i < |rest| ensures Before(rest[i], last) {
        assert rest[i] in rest;
        RowsPartition(pinned, front, rest[i]);
        var k :| 0 <= k < |front| && front[k] == rest[i];
        assert Before(rows[k], rows[|rows| - 1]);
      }
    }
  }

  /** The in-place filter of `spn_dag_obs_set_put`: pinned rows are dropped, the others keep their order. */
  method DropPinned(pinned: set<nat>, rows: array<Obs>) returns (kept: nat)
    modifies rows
    ensures kept <= rows.Length && rows[..kept] == Unpinned(pinned, old(rows[..]))
  {
    ghost var all := rows[..];
    kept := 0;
    for it := 0 to rows.Length
      invariant kept <= it
      invariant rows[it..] == all[it..]
      invariant rows[..kept] == Unpinned(pinned, all[..it])
    {
      assert all[..it + 1][..it] == all[..it];
      assert rows[it] == rows[it..][0] == all[it];
      ghost var front := rows[..kept];
      if rows[it].path.root !in pinned {
        rows[kept] := rows[it];
        kept := kept + 1;
        assert rows[..kept] == front + [all[it]];
      }
      assert rows[it + 1..] == all[it..][1..];
    }
    assert all[..rows.Length] == all;
  }
}
