/** How the four bus handlers of the mapper (`read_byte`, `read_word`, `write_byte`,
    `write_word`) decide who serves an access. Each handler tests the primary ranges
    of some soft regions in a fixed order, then, for each mirror table index 0 .. 31,
    the mirror entries of its regions in a fixed order. The first range that holds the
    address wins; an address no range holds goes to the mapper's own registers. A test
    is enabled only when its start is above 0, so an unused (zero) entry never wins. */
module Routing {
  import opened Bits
  import opened Mirrors
  import opened Layout
  import opened Options

  // ---------------------------------------------------------------------------
  // Range tests

  /** One range test of a handler: the region it belongs to, the range, and whether the
      test is enabled. */
  datatype Probe = Probe(kind: RegionKind, span: Span, live: bool)

  /** `start > 0`, unsigned. */
  predicate Live(start: bv32)
  {
    start > 0
  }

  /** The test passes for address `a`. */
  predicate Hits(p: Probe, a: bv32)
  {
    p.live && Contains(p.span, a)
  }

  /** The test of a region's primary range. */
  function PrimaryProbe(s: Snapshot, kind: RegionKind): Probe
    requires Shaped(s)
  {
    var k := KindIndex(kind);
    Probe(kind, Span(s.starts[k], s.ends[k]), Live(s.starts[k]))
  }

  /** The test of entry `i` of a region's mirror table. */
  function MirrorProbe(s: Snapshot, kind: RegionKind, i: nat): Probe
    requires Shaped(s) && i < 32
  {
    var k := KindIndex(kind);
    Probe(kind, Span(s.mirrorStarts[k][i], s.mirrorEnds[k][i]), Live(s.mirrorStarts[k][i]))
  }

  /** A test that is enabled only on a positive start, as every test built from its own
      range is. */
  predicate Guarded(p: Probe)
  {
    p.live ==> p.span.start > 0
  }

  predicate AllGuarded(ps: seq<Probe>)
  {
    forall j :: 0 <= j < |ps| ==> Guarded(ps[j])
  }

  /** The primary tests of a handler, in its order. */
  function Primaries(s: Snapshot, kinds: seq<RegionKind>): (r: seq<Probe>)
    requires Shaped(s)
    ensures |r| == |kinds|
    ensures forall j :: 0 <= j < |kinds| ==> r[j] == PrimaryProbe(s, kinds[j])
  {
    seq(|kinds|, j requires 0 <= j < |kinds| => PrimaryProbe(s, kinds[j]))
  }

  /** The tests of mirror index `i`, in the handler's order. */
  function MirrorRow(s: Snapshot, kinds: seq<RegionKind>, i: nat): (r: seq<Probe>)
    requires Shaped(s) && i < 32
    ensures |r| == |kinds|
    ensures forall m :: 0 <= m < |kinds| ==> r[m] == MirrorProbe(s, kinds[m], i)
  {
    seq(|kinds|, m requires 0 <= m < |kinds| => MirrorProbe(s, kinds[m], i))
  }

  /** The tests of the mirror loop, one row per index 0 .. 31. */
  function MirrorRows(s: Snapshot, kinds: seq<RegionKind>): (r: seq<seq<Probe>>)
    requires Shaped(s)
    ensures |r| == 32
    ensures forall i :: 0 <= i < 32 ==> r[i] == MirrorRow(s, kinds, i)
  {
    seq(32, i requires 0 <= i < 32 => MirrorRow(s, kinds, i))
  }

  // ---------------------------------------------------------------------------
  // The first test that passes

  /** The first test of the list that passes for `a`. */
  function FirstHit(ps: seq<Probe>, a: bv32): (r: Option<Probe>)
    ensures r.Some? ==> exists j :: (0 <= j < |ps| && ps[j] == r.value && Hits(ps[j], a)
                                     && forall k :: 0 <= k < j ==> !Hits(ps[k], a))
    ensures r.None? <==> forall j :: 0 <= j < |ps| ==> !Hits(ps[j], a)
    decreases |ps|
  {
    if |ps| == 0 then None
    else if Hits(ps[0], a) then Some(ps[0])
    else
      var r := FirstHit(ps[1..], a);
      assert forall j :: 1 <= j < |ps| ==> ps[j] == ps[1..][j - 1];
      r
  }

  /** The first of two results that is present. */
  function OrElse(x: Option<Probe>, y: Option<Probe>): Option<Probe>
  {
    if x.Some? then x else y
  }

  /** The mirror loop: the first row with a passing test, and its first passing test. */
  function FirstRowHit(rows: seq<seq<Probe>>, a: bv32): (r: Option<Probe>)
    ensures r.None? <==> forall i, j :: 0 <= i < |rows| && 0 <= j < |rows[i]| ==> !Hits(rows[i][j], a)
    decreases |rows|
  {
    if |rows| == 0 then None
    else
      var r := OrElse(FirstHit(rows[0], a), FirstRowHit(rows[1..], a));
      assert forall i :: 1 <= i < |rows| ==> rows[i] == rows[1..][i - 1];
      r
  }

  /** A handler: its primary tests first, then its mirror loop. */
  function Route(prims: seq<Probe>, rows: seq<seq<Probe>>, a: bv32): Option<Probe>
  {
    OrElse(FirstHit(prims, a), FirstRowHit(rows, a))
  }

  /** The mirror loop's tests laid end to end, row after row. */
  function Flatten(rows: seq<seq<Probe>>): seq<Probe>
    decreases |rows|
  {
    if |rows| == 0 then [] else rows[0] + Flatten(rows[1..])
  }

  /** Searching two lists one after the other is searching their concatenation. */
  lemma {:induction false} FirstHitAppend(x: seq<Probe>, y: seq<Probe>, a: bv32)
    ensures FirstHit(x + y, a) == OrElse(FirstHit(x, a), FirstHit(y, a))
    decreases |x|
  {
    if |x| > 0 {
      assert (x + y)[0] == x[0];
      assert (x + y)[1..] == x[1..] + y;
      FirstHitAppend(x[1..], y, a);
    } else {
      assert x + y == y;
    }
  }

  lemma {:induction false} RowsFlatten(rows: seq<seq<Probe>>, a: bv32)
    ensures FirstRowHit(rows, a) == FirstHit(Flatten(rows), a)
    decreases |rows|
  {
    if |rows| > 0 {
      RowsFlatten(rows[1..], a);
      FirstHitAppend(rows[0], Flatten(rows[1..]), a);
    }
  }

  /** A handler picks the first passing test of its whole sequence of tests: the
      primaries, then mirror index 0, 1, ... 31. */
  lemma RouteIsFirstHit(prims: seq<Probe>, rows: seq<seq<Probe>>, a: bv32)
    ensures Route(prims, rows, a) == FirstHit(prims + Flatten(rows), a)
  {
    RowsFlatten(rows, a);
    FirstHitAppend(prims, Flatten(rows), a);
  }

  /** The winning test passes and belongs to the handler's list or to one of its rows. */
  lemma RouteHits(prims: seq<Probe>, rows: seq<seq<Probe>>, a: bv32)
    ensures var r := Route(prims, rows, a);
      r.Some? ==> (Hits(r.value, a)
                   && (r.value in prims || exists i :: 0 <= i < |rows| && r.value in rows[i]))
  {
    var r := Route(prims, rows, a);
    if r.Some? && FirstHit(prims, a).None? {
      RowHitFound(rows, a);
    }
  }

  lemma {:induction false} RowHitFound(rows: seq<seq<Probe>>, a: bv32)
    ensures var r := FirstRowHit(rows, a);
      r.Some? ==> Hits(r.value, a) && exists i :: 0 <= i < |rows| && r.value in rows[i]
    decreases |rows|
  {
    if |rows| > 0 && FirstHit(rows[0], a).None? {
      RowHitFound(rows[1..], a);
      var r := FirstRowHit(rows[1..], a);
      if r.Some? {
        var i :| 0 <= i < |rows[1..]| && r.value in rows[1..][i];
        assert rows[1..][i] == rows[i + 1];
      }
    }
  }

  /** No enabled guarded test holds address 0. */
  lemma {:induction false} GuardedMissZero(ps: seq<Probe>)
    requires AllGuarded(ps)
    ensures FirstHit(ps, 0) == None
  {
  }

  // ---------------------------------------------------------------------------
  // The four handlers

  /** read_byte tests only the I/O region. */
  const ReadByteKinds: seq<RegionKind> := [Io]

  /** read_word tests the I/O region and both 315-5797 windows, primaries and mirrors
      in the same order. */
  const ReadWordKinds: seq<RegionKind> := [Io, Math1, Math2]

  /** write_byte tests tile RAM first among the primaries but I/O first in each mirror
      row. */
  const WriteBytePrimaryKinds: seq<RegionKind> := [Tiles, Io, Bank5704, KoreanSound, Math1, Math2]
  const WriteByteMirrorKinds: seq<RegionKind> := [Io, Tiles, Bank5704, KoreanSound, Math1, Math2]

  /** write_word has the same order without the YM2413 region. */
  const WriteWordPrimaryKinds: seq<RegionKind> := [Tiles, Io, Bank5704, Math1, Math2]
  const WriteWordMirrorKinds: seq<RegionKind> := [Io, Tiles, Bank5704, Math1, Math2]

  /** The route of a handler with the given orders: the test that passes, which is
      one of the handler's, or none when no test passes. */
  function HandlerRoute(s: Snapshot, primaryKinds: seq<RegionKind>, mirrorKinds: seq<RegionKind>, a: bv32): (r: Option<Probe>)
    requires Shaped(s)
    ensures r.Some? ==> Hits(r.value, a) && (r.value.kind in primaryKinds || r.value.kind in mirrorKinds)
    ensures r.None? <==>
      (forall j :: 0 <= j < |primaryKinds| ==> !Hits(PrimaryProbe(s, primaryKinds[j]), a))
      && (forall i, m :: 0 <= i < 32 && 0 <= m < |mirrorKinds| ==> !Hits(MirrorProbe(s, mirrorKinds[m], i), a))
  {
    HandlerRouteFacts(s, primaryKinds, mirrorKinds, a);
    Route(Primaries(s, primaryKinds), MirrorRows(s, mirrorKinds), a)
  }

  lemma HandlerRouteFacts(s: Snapshot, primaryKinds: seq<RegionKind>, mirrorKinds: seq<RegionKind>, a: bv32)
    requires Shaped(s)
    ensures var r := Route(Primaries(s, primaryKinds), MirrorRows(s, mirrorKinds), a);
      (r.Some? ==> Hits(r.value, a) && (r.value.kind in primaryKinds || r.value.kind in mirrorKinds))
      && (r.None? <==>
        (forall j :: 0 <= j < |primaryKinds| ==> !Hits(PrimaryProbe(s, primaryKinds[j]), a))
        && (forall i, m :: 0 <= i < 32 && 0 <= m < |mirrorKinds| ==> !Hits(MirrorProbe(s, mirrorKinds[m], i), a)))
  {
    var prims, rows := Primaries(s, primaryKinds), MirrorRows(s, mirrorKinds);
    RouteHits(prims, rows, a);
    var r := Route(prims, rows, a);
    if r.Some? && r.value !in prims {
      var i :| 0 <= i < |rows| && r.value in rows[i];
      assert rows[i] == MirrorRow(s, mirrorKinds, i);
    }
    if r.None? {
      forall i, m | 0 <= i < 32 && 0 <= m < |mirrorKinds|
        ensures !Hits(MirrorProbe(s, mirrorKinds[m], i), a)
      {
        assert rows[i][m] == MirrorProbe(s, mirrorKinds[m], i);
      }
    } else if FirstHit(prims, a).None? {
      var i, m :| 0 <= i < |rows| && 0 <= m < |rows[i]| && Hits(rows[i][m], a);
      assert rows[i][m] == MirrorProbe(s, mirrorKinds[m], i);
    }
  }

  /** A handler whose primary test `j` is the first to pass routes to it. */
  lemma PrimaryHitFirst(s: Snapshot, primaryKinds: seq<RegionKind>, mirrorKinds: seq<RegionKind>, a: bv32, j: nat)
    requires Shaped(s) && j < |primaryKinds|
    requires Hits(PrimaryProbe(s, primaryKinds[j]), a)
    requires forall q :: 0 <= q < j ==> !Hits(PrimaryProbe(s, primaryKinds[q]), a)
    ensures HandlerRoute(s, primaryKinds, mirrorKinds, a) == Some(PrimaryProbe(s, primaryKinds[j]))
  {
    FirstHitAt(Primaries(s, primaryKinds), a, j);
  }

  /** A handler whose primaries all miss, and whose first passing mirror test is test
      `m` of row `i`, routes to that test. */
  lemma MirrorHitFirst(s: Snapshot, primaryKinds: seq<RegionKind>, mirrorKinds: seq<RegionKind>, a: bv32, i: nat, m: nat)
    requires Shaped(s) && i < 32 && m < |mirrorKinds|
    requires forall q :: 0 <= q < |primaryKinds| ==> !Hits(PrimaryProbe(s, primaryKinds[q]), a)
    requires forall i', m' :: 0 <= i' < i && 0 <= m' < |mirrorKinds| ==> !Hits(MirrorProbe(s, mirrorKinds[m'], i'), a)
    requires forall m' :: 0 <= m' < m ==> !Hits(MirrorProbe(s, mirrorKinds[m'], i), a)
    requires Hits(MirrorProbe(s, mirrorKinds[m], i), a)
    ensures HandlerRoute(s, primaryKinds, mirrorKinds, a) == Some(MirrorProbe(s, mirrorKinds[m], i))
  {
    var prims, rows := Primaries(s, primaryKinds), MirrorRows(s, mirrorKinds);
    assert FirstHit(prims, a) == None;
    forall i', m' | 0 <= i' < i && 0 <= m' < |rows[i']|
      ensures !Hits(rows[i'][m'], a)
    {
      assert rows[i'][m'] == MirrorProbe(s, mirrorKinds[m'], i');
    }
    FirstRowHitAt(rows, a, i, m);
  }

  /** The mirror loop stops at test `m` of row `i` when it passes, every earlier row
      misses, and so does every earlier test of row `i`. */
  lemma {:induction false} FirstRowHitAt(rows: seq<seq<Probe>>, a: bv32, i: nat, m: nat)
    requires i < |rows| && m < |rows[i]| && Hits(rows[i][m], a)
    requires forall i', m' :: 0 <= i' < i && 0 <= m' < |rows[i']| ==> !Hits(rows[i'][m'], a)
    requires forall m' :: 0 <= m' < m ==> !Hits(rows[i][m'], a)
    ensures FirstRowHit(rows, a) == Some(rows[i][m])
    decreases i
  {
    if i == 0 {
      FirstHitAt(rows[0], a, m);
    } else {
      assert FirstHit(rows[0], a) == None;
      assert forall i' :: 0 <= i' < |rows| - 1 ==> rows[1..][i'] == rows[i' + 1];
      FirstRowHitAt(rows[1..], a, i - 1, m);
    }
  }

  function ReadByteRoute(s: Snapshot, a: bv32): Option<Probe>
    requires Shaped(s)
  {
    HandlerRoute(s, ReadByteKinds, ReadByteKinds, a)
  }

  function ReadWordRoute(s: Snapshot, a: bv32): Option<Probe>
    requires Shaped(s)
  {
    HandlerRoute(s, ReadWordKinds, ReadWordKinds, a)
  }

  function WriteByteRoute(s: Snapshot, a: bv32): Option<Probe>
    requires Shaped(s)
  {
    HandlerRoute(s, WriteBytePrimaryKinds, WriteByteMirrorKinds, a)
  }

  function WriteWordRoute(s: Snapshot, a: bv32): Option<Probe>
    requires Shaped(s)
  {
    HandlerRoute(s, WriteWordPrimaryKinds, WriteWordMirrorKinds, a)
  }

  /** Every handler's tests are guarded ... */
  lemma HandlerGuarded(s: Snapshot, primaryKinds: seq<RegionKind>, mirrorKinds: seq<RegionKind>, i: nat)
    requires Shaped(s) && i < 32
    ensures AllGuarded(Primaries(s, primaryKinds)) && AllGuarded(MirrorRow(s, mirrorKinds, i))
  {
  }

  /** ... so address 0 never reaches a soft region: each handler passes it to the
      registers. */
  lemma HandlerMissesZero(s: Snapshot, primaryKinds: seq<RegionKind>, mirrorKinds: seq<RegionKind>)
    requires Shaped(s)
    ensures HandlerRoute(s, primaryKinds, mirrorKinds, 0) == None
  {
    forall i, m | 0 <= i < 32 && 0 <= m < |mirrorKinds|
      ensures !Hits(MirrorProbe(s, mirrorKinds[m], i), 0)
    {
      HandlerGuarded(s, primaryKinds, mirrorKinds, i);
      assert MirrorRow(s, mirrorKinds, i)[m] == MirrorProbe(s, mirrorKinds[m], i);
    }
    HandlerGuarded(s, primaryKinds, mirrorKinds, 0);
    GuardedMissZero(Primaries(s, primaryKinds));
  }

  // ---------------------------------------------------------------------------
  // The YM2413 mirror test of write_byte as written

  /** The YM2413 mirror test as write_byte writes it: enabled by the primary start
      (`korean_sound_start > 0`) rather than by the entry's own start. */
  function KoreanMirrorAsWritten(s: Snapshot, i: nat): Probe
    requires Shaped(s) && i < 32
  {
    var k := KindIndex(KoreanSound);
    Probe(KoreanSound, Span(s.mirrorStarts[k][i], s.mirrorEnds[k][i]), Live(s.starts[k]))
  }

  /** The test of entry `i` of a mirror table inside a handler's mirror loop. With
      `primaryGuard` (write_byte) the YM2413 test is the one written above; every other
      test is enabled by its own entry's start. */
  function LoopProbe(s: Snapshot, kind: RegionKind, i: nat, primaryGuard: bool): Probe
    requires Shaped(s) && i < 32
  {
    if primaryGuard && kind == KoreanSound then KoreanMirrorAsWritten(s, i) else MirrorProbe(s, kind, i)
  }

  /** Row `i` of a mirror loop: the entry-`i` test of each region, in the handler's
      order. Only the YM2413 test of write_byte differs from `MirrorRow`. */
  function LoopRow(s: Snapshot, kinds: seq<RegionKind>, i: nat, primaryGuard: bool): (r: seq<Probe>)
    requires Shaped(s) && i < 32
    ensures |r| == |kinds|
    ensures forall m :: 0 <= m < |kinds| && !(primaryGuard && kinds[m] == KoreanSound) ==>
      r[m] == MirrorProbe(s, kinds[m], i)
    ensures forall m :: 0 <= m < |kinds| && primaryGuard && kinds[m] == KoreanSound ==>
      r[m].span == MirrorProbe(s, KoreanSound, i).span && r[m].live == Live(s.starts[KindIndex(KoreanSound)])
  {
    seq(|kinds|, m requires 0 <= m < |kinds| => LoopProbe(s, kinds[m], i, primaryGuard))
  }

  /** The rows of a mirror loop, for the indices 0 .. 31. */
  function LoopRows(s: Snapshot, kinds: seq<RegionKind>, primaryGuard: bool): (r: seq<seq<Probe>>)
    requires Shaped(s)
    ensures |r| == 32
    ensures forall i :: 0 <= i < 32 ==> r[i] == LoopRow(s, kinds, i, primaryGuard)
  {
    seq(32, i requires 0 <= i < 32 => LoopRow(s, kinds, i, primaryGuard))
  }

  /** Without the primary guard a mirror loop is the one `HandlerRoute` describes. */
  lemma LoopRowsOwnGuard(s: Snapshot, kinds: seq<RegionKind>)
    requires Shaped(s)
    ensures LoopRows(s, kinds, false) == MirrorRows(s, kinds)
  {
    forall i | 0 <= i < 32
      ensures LoopRows(s, kinds, false)[i] == MirrorRows(s, kinds)[i]
    {
      assert LoopRow(s, kinds, i, false) == MirrorRow(s, kinds, i);
    }
  }

  /** write_byte's route as written, with the YM2413 mirror test guarded by the
      primary start. */
  function WriteByteRouteAsWritten(s: Snapshot, a: bv32): Option<Probe>
    requires Shaped(s)
  {
    Route(Primaries(s, WriteBytePrimaryKinds), LoopRows(s, WriteByteMirrorKinds, true), a)
  }

  /** The written YM2413 test and the intended one agree on a board where every mirror
      entry of the YM2413 region is in use exactly when its primary range is; there
      write_byte as written routes as the corrected handler does. */
  lemma AsWrittenAgrees(s: Snapshot, a: bv32)
    requires Shaped(s)
    ensures (forall i :: 0 <= i < 32 ==>
               Live(s.mirrorStarts[KindIndex(KoreanSound)][i]) == Live(s.starts[KindIndex(KoreanSound)]))
      ==> WriteByteRouteAsWritten(s, a) == WriteByteRoute(s, a)
  {
    var k := KindIndex(KoreanSound);
    if forall i :: 0 <= i < 32 ==> Live(s.mirrorStarts[k][i]) == Live(s.starts[k]) {
      forall i | 0 <= i < 32
        ensures LoopRows(s, WriteByteMirrorKinds, true)[i] == MirrorRows(s, WriteByteMirrorKinds)[i]
      {
        assert LoopRow(s, WriteByteMirrorKinds, i, true) == MirrorRow(s, WriteByteMirrorKinds, i);
      }
      assert LoopRows(s, WriteByteMirrorKinds, true) == MirrorRows(s, WriteByteMirrorKinds);
    }
  }

  /** A board whose only soft region is the YM2413 window at `start` .. `end`, with an
      unused mirror table (its mirror mask is 0 in a 64 KB window). */
  function KoreanOnly(records: seq<MapRecord>, start: bv32, end: bv32): (s: Snapshot)
    ensures Shaped(s)
  {
    var c := Cleared(records);
    c.(starts := c.starts[KindIndex(KoreanSound) := start], ends := c.ends[KindIndex(KoreanSound) := end])
  }

  /** As written, a byte write to address 0 on such a board passes the YM2413 test of
      the unused mirror entry 0 (range 0 .. 0), and so is sent to the YM2413 instead of
      the register file; with the entry's own start as the guard it reaches the
      registers. */
  lemma KoreanMirrorAtZero(records: seq<MapRecord>, start: bv32, end: bv32)
    requires start > 0
    ensures WriteByteRouteAsWritten(KoreanOnly(records, start, end), 0)
      == Some(Probe(KoreanSound, Span(0, 0), true))
    ensures WriteByteRoute(KoreanOnly(records, start, end), 0) == None
  {
    var s := KoreanOnly(records, start, end);
    var prims := Primaries(s, WriteBytePrimaryKinds);
    var rows := LoopRows(s, WriteByteMirrorKinds, true);
    assert !Contains(Span(start, end), 0);
    assert forall j :: 0 <= j < |prims| ==> !Hits(prims[j], 0);
    var row := rows[0];
    assert row[0] == MirrorProbe(s, Io, 0) && !Hits(row[0], 0);
    assert row[1] == MirrorProbe(s, Tiles, 0) && !Hits(row[1], 0);
    assert row[2] == MirrorProbe(s, Bank5704, 0) && !Hits(row[2], 0);
    assert row[3] == KoreanMirrorAsWritten(s, 0) == Probe(KoreanSound, Span(0, 0), true);
    assert FirstHit(row, 0) == Some(row[3]) by {
      FirstHitAt(row, 0, 3);
    }
    HandlerMissesZero(s, WriteBytePrimaryKinds, WriteByteMirrorKinds);
  }

  /** The mirror loop from row `i` on: row `i`'s first passing test, or else the loop
      from row `i + 1` on. */
  lemma FirstRowHitStep(rows: seq<seq<Probe>>, a: bv32, i: nat)
    requires i < |rows|
    ensures FirstRowHit(rows[i..], a) == OrElse(FirstHit(rows[i], a), FirstRowHit(rows[i + 1..], a))
  {
    assert rows[i..][1..] == rows[i + 1..];
  }

  /** The first test of a list is at `j` when it passes and none before it does. */
  lemma {:induction false} FirstHitAt(ps: seq<Probe>, a: bv32, j: nat)
    requires j < |ps| && Hits(ps[j], a)
    requires forall k :: 0 <= k < j ==> !Hits(ps[k], a)
    ensures FirstHit(ps, a) == Some(ps[j])
  {
    if j > 0 {
      FirstHitAt(ps[1..], a, j - 1);
    }
  }
}
