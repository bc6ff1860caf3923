/**
 * One owner's vectors, flat in one buffer: inserting at the end, removing by
 * moving the last row into the gap.
 */
module Arena {
  import opened Base

  type Id = nat
  type Vector = seq<real>

  /** What an arena is to its users: ids in scan order, and a vector for each. */
  datatype Arena = Arena(ids: seq<Id>, rows: map<Id, Vector>, dim: nat)

  const EMPTY := Arena([], map[], 0)

  ghost predicate WellFormed(a: Arena) {
    && (forall i, k :: 0 <= i < k < |a.ids| ==> a.ids[i] != a.ids[k])
    && (forall id :: id in a.ids <==> id in a.rows)
    && (forall id :: id in a.rows ==> |a.rows[id]| == a.dim)
  }

  /** A vector is taken if it is not empty, has the arena's width, and its id is new. */
  predicate Takes(a: Arena, id: Id, v: Vector) {
    v != [] && (a.dim == 0 || |v| == a.dim) && id !in a.rows
  }

  /** `v` is already normalized. */
  function Pushed(a: Arena, id: Id, v: Vector): Arena {
    if Takes(a, id, v) then Arena(a.ids + [id], a.rows[id := v], |v|) else a
  }

  /** The last id takes the place of the removed one. */
  function Removed(a: Arena, id: Id): Arena {
    if id !in a.rows then a
    else
      var n := |a.ids|;
      Arena(if n == 0 then [] else SwapRemove(a.ids, id), a.rows - {id}, a.dim)
  }

  function SwapRemove(ids: seq<Id>, id: Id): seq<Id>
    requires ids != []
  {
    var last := ids[|ids| - 1];
    var rest := ids[..|ids| - 1];
    if last == id then rest else Replaced(rest, id, last)
  }

  function Replaced(ids: seq<Id>, id: Id, by': Id): (r: seq<Id>)
    ensures |r| == |ids|
    ensures forall i :: 0 <= i < |ids| ==> r[i] == if ids[i] == id then by' else ids[i]
  {
    if ids == [] then [] else [if ids[0] == id then by' else ids[0]] + Replaced(ids[1..], id, by')
  }

  lemma PushedWellFormed(a: Arena, id: Id, v: Vector)
    requires WellFormed(a) && (a.dim == 0 ==> a.ids == [])
    ensures WellFormed(Pushed(a, id, v)) && (Pushed(a, id, v).dim == 0 ==> Pushed(a, id, v).ids == [])
  {
    if Takes(a, id, v) {
      assert forall k :: k in a.rows ==> k in a.ids;
    }
  }

  lemma RemovedWellFormed(a: Arena, id: Id)
    requires WellFormed(a)
    ensures WellFormed(Removed(a, id))
    ensures id !in Removed(a, id).rows
  {
    if id in a.rows {
      assert id in a.ids;
      var n := |a.ids| - 1;
      var p :| 0 <= p <= n && a.ids[p] == id;
      var r := SwapRemove(a.ids, id);
      assert |r| == n && forall i :: 0 <= i < n ==> r[i] == if i == p then a.ids[n] else a.ids[i];
      forall k ensures k in r <==> k in a.rows && k != id {
        if k in r {
          var i :| 0 <= i < n && r[i] == k;
          assert k == a.ids[if i == p then n else i];
        }
        if k in a.rows && k != id {
          assert k in a.ids;
          var i :| 0 <= i <= n && a.ids[i] == k;
          assert r[if i == n then p else i] == k;
        }
      }
    }
  }

  // ------------------------------------------------------------ rows in a flat buffer

  /** Rows one behind the other. */
  ghost function Flat(rows: seq<Vector>): seq<real> {
    if rows == [] then [] else Flat(rows[..|rows| - 1]) + rows[|rows| - 1]
  }

  ghost predicate Wide(rows: seq<Vector>, d: nat) {
    forall i :: 0 <= i < |rows| ==> |rows[i]| == d
  }

  lemma {:induction false} FlatLength(rows: seq<Vector>, d: nat)
    requires Wide(rows, d)
    ensures |Flat(rows)| == |rows| * d
    decreases |rows|
  {
    if rows != [] {
      FlatLength(rows[..|rows| - 1], d);
      assert (|rows| - 1) * d + d == |rows| * d;
    }
  }

  lemma FlatSnoc(rows: seq<Vector>, v: Vector)
    ensures Flat(rows + [v]) == Flat(rows) + v
  {
    assert (rows + [v])[..|rows|] == rows;
  }

  lemma WideSnoc(rows: seq<Vector>, d: nat, v: Vector)
    requires Wide(rows, d) && (d == 0 ==> rows == []) && (d == 0 || |v| == d)
    ensures Wide(rows + [v], |v|)
  {
  }

  lemma {:induction false} FlatAppend(a: seq<Vector>, b: seq<Vector>)
    ensures Flat(a + b) == Flat(a) + Flat(b)
    decreases |b|
  {
    if b == [] {
      assert a + b == a && Flat(a) + [] == Flat(a);
    } else {
      var n := |b| - 1;
      assert a + b == (a + b[..n]) + [b[n]];
      FlatSnoc(a + b[..n], b[n]);
      FlatAppend(a, b[..n]);
      assert Flat(a) + Flat(b[..n]) + b[n] == Flat(a) + (Flat(b[..n]) + b[n]);
    }
  }

  lemma FlatParts(a: seq<Vector>, x: Vector, b: seq<Vector>, y: Vector)
    ensures Flat(a + [x] + b + [y]) == Flat(a) + x + Flat(b) + y
    ensures Flat(a + [y] + b) == Flat(a) + y + Flat(b)
  {
    FlatSnoc(a + [x] + b, y);
    FlatAppend(a + [x], b);
    FlatSnoc(a, x);
    FlatAppend(a + [y], b);
    FlatSnoc(a, y);
  }

  lemma PartsMove(a: seq<real>, x: seq<real>, b: seq<real>, y: seq<real>)
    requires |x| == |y|
    ensures var s := a + x + b + y; var l := |a| + |x| + |b|;
      && s[..|a|] == a && s[l..l + |y|] == y && s[|a| + |x|..] == b + y
      && (a + y + (b + y))[..l] == a + y + b
  {
  }

  /** Copying the last row over row `p`, then truncating by a row. */
  lemma FlatMove(rows: seq<Vector>, d: nat, p: nat)
    requires Wide(rows, d) && p < |rows| - 1
    ensures var vecs, last := Flat(rows), |rows| - 1;
      && RowsInside(|vecs|, d, p, last)
      && LastOver(vecs, d, p, last) == Flat(rows[p := rows[last]][..last])
  {
    hide Flat, Wide;
    var last := |rows| - 1;
    var a, x, b, y := rows[..p], rows[p], rows[p + 1..last], rows[last];
    RowsSplit(rows, d, p);
    FlatParts(a, x, b, y);
    FlatLength(a, d);
    FlatLength(b, d);
    RowCounts(p, last, d);
    MoveSlices(Flat(a), x, Flat(b), y, Flat(rows), p * d, last * d, d);
  }

  lemma RowsSplit(rows: seq<Vector>, d: nat, p: nat)
    requires Wide(rows, d) && p < |rows| - 1
    ensures var last := |rows| - 1; var a, x, b, y := rows[..p], rows[p], rows[p + 1..last], rows[last];
      && rows == a + [x] + b + [y] && rows[p := y][..last] == a + [y] + b
      && Wide(a, d) && Wide(b, d) && |x| == d && |y| == d && |a| == p && |b| == last - p - 1
  {
  }

  /** Row `p` and, behind it, the last row are within a buffer of this length. */
  predicate RowsInside(length: nat, d: nat, p: nat, last: nat) {
    0 <= p * d <= (p + 1) * d <= last * d <= (last + 1) * d == length
  }

  /** Copy the last row over row `p`, and cut the last row off. */
  function LastOver(vecs: seq<real>, d: nat, p: nat, last: nat): seq<real>
    requires RowsInside(|vecs|, d, p, last)
  {
    (vecs[..p * d] + vecs[last * d..(last + 1) * d] + vecs[(p + 1) * d..])[..last * d]
  }

  lemma MoveSlices(a: seq<real>, x: seq<real>, b: seq<real>, y: seq<real>, vecs: seq<real>, pd: nat, ld: nat, d: nat)
    requires vecs == a + x + b + y && |x| == |y| == d && |a| == pd && |a| + d + |b| == ld
    ensures (vecs[..pd] + vecs[ld..ld + d] + vecs[pd + d..])[..ld] == a + y + b
  {
    PartsMove(a, x, b, y);
  }

  lemma RowCounts(p: nat, last: nat, d: nat)
    requires p < last
    ensures (p + 1) * d == p * d + d && last * d == (p + 1) * d + (last - p - 1) * d && (last + 1) * d == last * d + d
    ensures 0 <= p * d && 0 <= (last - p - 1) * d
  {
    var m := last - p - 1;
    assert last == p + 1 + m;
    assert (p + 1 + m) * d == (p + 1) * d + m * d;
  }

  lemma FlatCut(rows: seq<Vector>, d: nat)
    requires Wide(rows, d) && rows != []
    ensures (|rows| - 1) * d <= |Flat(rows)|
    ensures Flat(rows)[..(|rows| - 1) * d] == Flat(rows[..|rows| - 1])
  {
    FlatLength(rows[..|rows| - 1], d);
  }

  /** Row `i` is where a scan looks for it. */
  lemma {:induction false} RowAt(rows: seq<Vector>, d: nat, i: nat)
    requires Wide(rows, d) && i < |rows|
    ensures 0 <= i * d <= (i + 1) * d <= |Flat(rows)| && Flat(rows)[i * d..(i + 1) * d] == rows[i]
    decreases |rows|
  {
    var n := |rows| - 1;
    var front := rows[..n];
    FlatLength(front, d);
    assert (i + 1) * d == i * d + d;
    if i < n {
      RowAt(front, d, i);
      assert (Flat(front) + rows[n])[i * d..(i + 1) * d] == Flat(front)[i * d..(i + 1) * d];
    }
  }

  // ------------------------------------------------------------ the concrete arena

  class ScopeArena {
    var ids: seq<Id>
    var pos: map<Id, nat>
    var vecs: seq<real>
    var dim: nat
    /** The buffer cut into rows. */
    ghost var rows: seq<Vector>
    /** Scaling to unit length. */
    const unit: Vector -> Vector

    ghost predicate Valid()
      reads this
    {
      && (forall v :: |unit(v)| == |v|)
      && |rows| == |ids| && Wide(rows, dim) && vecs == Flat(rows)
      && (dim == 0 ==> ids == [])
      && Positions(ids, pos)
    }

    /** What the flat buffer and the position table stand for. */
    ghost function View(): Arena
      requires Valid()
      reads this
    {
      Shown(ids, pos, rows, dim)
    }

    constructor (unit: Vector -> Vector)
      requires forall v :: |unit(v)| == |v|
      ensures Valid() && View() == EMPTY && this.unit == unit
    {
      ids, pos, vecs, dim, rows := [], map[], [], 0, [];
      this.unit := unit;
    }

    /** The flat buffer holds exactly one row an id. */
    lemma BufferFits()
      requires Valid()
      ensures |vecs| == |ids| * dim
    {
      FlatLength(rows, dim);
    }

    /** The slice of the flat buffer a scan compares with the query. */
    method Row(i: nat) returns (v: Vector)
      requires Valid() && i < |ids|
      ensures i < |rows| && v == rows[i]
    {
      hide Flat, Wide, Positions, Shown;
      RowAt(rows, dim, i);
      v := vecs[i * dim..(i + 1) * dim];
    }

    /** The whole arena, row by row. */
    method Read() returns (a: Arena)
      requires Valid()
      ensures a == View()
    {
      hide Flat, Wide, Positions;
      var m: map<Id, Vector> := map[];
      for i := 0 to |ids|
        invariant m == ShownTo(ids, pos, rows, i)
      {
        ShownNext(ids, pos, rows, i);
        var v := Row(i);
        m := m[ids[i] := v];
      }
      TablesAgree(ids, pos);
      a := Arena(ids, m, dim);
    }

    method Push(id: Id, v: Vector)
      requires Valid()
      modifies this
      ensures Valid() && View() == Pushed(old(View()), id, unit(v))
    {
      hide Flat, Wide, Shown, Pushed, Positions;
      var u := unit(v);
      assert |u| == |v|;
      PushShows(ids, pos, rows, dim, id, u);
      if v == [] || (dim != 0 && |v| != dim) || id in pos {
        return;
      }
      FlatSnoc(rows, u);
      WideSnoc(rows, dim, u);
      dim := |v|;
      pos := pos[id := |ids|];
      ids := ids + [id];
      vecs := vecs + u;
      rows := rows + [u];
    }

    method Remove(id: Id)
      requires Valid()
      modifies this
      ensures Valid() && View() == Removed(old(View()), id)
    {
      hide Flat, Positions, Wide, Shown, Removed, CutPos, LastOver, RowsInside;
      TablesAgree(ids, pos);
      RemoveShows(ids, pos, rows, dim, id);
      if id !in pos {
        return;
      }
      var i := pos[id];
      var last := |ids| - 1;
      WideAfter(rows, dim, i);
      CutPosIs(pos, ids, id, i);
      pos := pos - {id};
      if i != last {
        var moved := ids[last];
        ids := ids[i := moved];
        pos := pos[moved := i];
        FlatMove(rows, dim, i);
        vecs := LastOver(vecs, dim, i, last);
        rows := rows[i := rows[last]];
      } else {
        FlatCut(rows, dim);
        vecs := vecs[..last * dim];
      }
      ids := ids[..last];
      rows := rows[..last];
    }
  }

  /** The arena that ids, position table and rows stand for. */
  /** The first `n` rows of it. */
  ghost function ShownTo(ids: seq<Id>, pos: map<Id, nat>, rows: seq<Vector>, n: nat): map<Id, Vector> {
    map id | id in pos && pos[id] < n && pos[id] < |rows| :: rows[pos[id]]
  }

  lemma ShownNext(ids: seq<Id>, pos: map<Id, nat>, rows: seq<Vector>, n: nat)
    requires Positions(ids, pos) && |rows| == |ids| && n < |ids|
    ensures ShownTo(ids, pos, rows, n + 1) == ShownTo(ids, pos, rows, n)[ids[n] := rows[n]]
  {
  }

  ghost function Shown(ids: seq<Id>, pos: map<Id, nat>, rows: seq<Vector>, dim: nat): Arena {
    Arena(ids, map id | id in pos && pos[id] < |rows| :: rows[pos[id]], dim)
  }

  lemma PushShows(ids: seq<Id>, pos: map<Id, nat>, rows: seq<Vector>, dim: nat, id: Id, u: Vector)
    requires Positions(ids, pos) && |rows| == |ids| && Wide(rows, dim) && (dim == 0 ==> ids == [])
    ensures
      if u == [] || (dim != 0 && |u| != dim) || id in pos then
        Pushed(Shown(ids, pos, rows, dim), id, u) == Shown(ids, pos, rows, dim)
      else
        && Positions(ids + [id], pos[id := |ids|])
        && Shown(ids + [id], pos[id := |ids|], rows + [u], |u|) == Pushed(Shown(ids, pos, rows, dim), id, u)
  {
    hide Wide;
    var a := Shown(ids, pos, rows, dim);
    assert forall k :: k in pos ==> k in a.rows;
    if !(u == [] || (dim != 0 && |u| != dim) || id in pos) {
      assert Shown(ids + [id], pos[id := |ids|], rows + [u], |u|).rows == a.rows[id := u];
    }
  }

  lemma RemoveShows(ids: seq<Id>, pos: map<Id, nat>, rows: seq<Vector>, dim: nat, id: Id)
    requires Positions(ids, pos) && |rows| == |ids|
    ensures if id !in pos then Removed(Shown(ids, pos, rows, dim), id) == Shown(ids, pos, rows, dim)
      else
        && pos[id] < |ids| && Positions(Cut(ids, pos[id]), CutPos(pos, ids, id, pos[id]))
        && Shown(Cut(ids, pos[id]), CutPos(pos, ids, id, pos[id]), Cut(rows, pos[id]), dim)
             == Removed(Shown(ids, pos, rows, dim), id)
  {
    TablesAgree(ids, pos);
    assert forall k :: k in pos <==> k in Shown(ids, pos, rows, dim).rows;
    if id in pos {
      RemoveIds(ids, pos, id);
      PositionsAfter(ids, pos, id);
      hide Cut, CutPos, SwapRemove;
      TablesAgree(Cut(ids, pos[id]), CutPos(pos, ids, id, pos[id]));
      hide Positions;
      CutAt(ids, pos[id]);
      CutAt(rows, pos[id]);
      RowsAfter(rows, pos, id, Cut(rows, pos[id]), CutPos(pos, ids, id, pos[id]));
    }
  }

  lemma CutPosIs(pos: map<Id, nat>, ids: seq<Id>, id: Id, p: nat)
    requires p < |ids|
    ensures CutPos(pos, ids, id, p) == if p == |ids| - 1 then pos - {id} else (pos - {id})[ids[|ids| - 1] := p]
  {
  }

  lemma WideAfter(rows: seq<Vector>, d: nat, p: nat)
    requires Wide(rows, d) && p < |rows|
    ensures Wide(Cut(rows, p), d)
  {
  }

  /** Move the last element over element `p`, and drop the last place. */
  function Cut<T>(s: seq<T>, p: nat): seq<T>
    requires p < |s|
  {
    (if p == |s| - 1 then s else s[p := s[|s| - 1]])[..|s| - 1]
  }

  /** The position table after that. */
  function CutPos(pos: map<Id, nat>, ids: seq<Id>, id: Id, p: nat): map<Id, nat>
    requires p < |ids|
  {
    if p == |ids| - 1 then pos - {id} else (pos - {id})[ids[|ids| - 1] := p]
  }

  /** The position table is the inverse of the id list. */
  ghost predicate Positions(ids: seq<Id>, pos: map<Id, nat>) {
    && (forall id :: id in pos <==> id in ids)
    && (forall id :: id in pos ==> pos[id] < |ids| && ids[pos[id]] == id)
    && (forall i :: 0 <= i < |ids| ==> pos[ids[i]] == i)
  }

  lemma TablesAgree(ids: seq<Id>, pos: map<Id, nat>)
    requires Positions(ids, pos)
    ensures forall id :: id in pos ==> pos[id] < |ids| && ids[pos[id]] == id
  {
  }

  lemma CutAt<T>(s: seq<T>, p: nat)
    requires p < |s|
    ensures |Cut(s, p)| == |s| - 1
    ensures forall i :: 0 <= i < |s| - 1 ==> Cut(s, p)[i] == if i == p then s[|s| - 1] else s[i]
  {
  }

  /** The tables stay inverse, and the ids are those left by the swap. */
  lemma RemoveIds(was: seq<Id>, wasPos: map<Id, nat>, id: Id)
    requires Positions(was, wasPos) && id in wasPos
    ensures wasPos[id] < |was| && Positions(Cut(was, wasPos[id]), CutPos(wasPos, was, id, wasPos[id]))
    ensures Cut(was, wasPos[id]) == SwapRemove(was, id)
  {
    hide Positions, Cut, CutPos, SwapRemove;
    var p := wasPos[id];
    CutKeys(was, wasPos, id);
    PositionsAfter(was, wasPos, id);
    CutAt(was, p);
    IdOnlyAt(was, wasPos, id);
    SwapIs(was, id, p);
    var now, pos := Cut(was, p), CutPos(wasPos, was, id, p);
    forall i | 0 <= i < |now| ensures now[i] in pos && pos[now[i]] == i {
      IdAt(was, wasPos, if i == p then |was| - 1 else i);
      assert now[i] in now;
    }
    InverseFrom(now, pos);
  }

  lemma IdAt(was: seq<Id>, wasPos: map<Id, nat>, i: nat)
    requires Positions(was, wasPos) && i < |was|
    ensures was[i] in wasPos && wasPos[was[i]] == i
  {
    assert was[i] in was;
  }

  lemma IdOnlyAt(was: seq<Id>, wasPos: map<Id, nat>, id: Id)
    requires Positions(was, wasPos) && id in wasPos
    ensures wasPos[id] < |was| && was[wasPos[id]] == id
    ensures forall i :: 0 <= i < |was| && i != wasPos[id] ==> was[i] != id
  {
  }

  lemma InverseFrom(now: seq<Id>, pos: map<Id, nat>)
    requires forall i :: 0 <= i < |now| ==> now[i] in pos && pos[now[i]] == i
    requires forall k :: k in pos <==> k in now
    ensures Positions(now, pos)
  {
    forall k | k in pos ensures pos[k] < |now| && now[pos[k]] == k {
      var i :| 0 <= i < |now| && now[i] == k;
    }
  }

  lemma CutKeys(was: seq<Id>, wasPos: map<Id, nat>, id: Id)
    requires Positions(was, wasPos) && id in wasPos
    ensures wasPos[id] < |was|
    ensures forall k :: k in CutPos(wasPos, was, id, wasPos[id]) <==> k in Cut(was, wasPos[id])
  {
    var p, last := wasPos[id], |was| - 1;
    CutAt(was, p);
    PositionsAfter(was, wasPos, id);
    var now, pos := Cut(was, p), CutPos(wasPos, was, id, p);
    hide Cut, CutPos;
    forall k ensures k in pos <==> k in now {
      if k in now {
        var i :| 0 <= i < |now| && now[i] == k;
        assert was[if i == p then last else i] in was;
      }
      if k in pos {
        assert now[if wasPos[k] == last then p else wasPos[k]] == k;
      }
    }
  }

  lemma SwapIs(was: seq<Id>, id: Id, p: nat)
    requires p < |was| && was[p] == id && forall i :: 0 <= i < |was| && i != p ==> was[i] != id
    ensures SwapRemove(was, id) == Cut(was, p)
  {
  }

  /** Every remaining id keeps its row. */
  lemma RowsAfter(wasRows: seq<Vector>, wasPos: map<Id, nat>, id: Id, rows: seq<Vector>, pos: map<Id, nat>)
    requires id in wasPos && wasPos[id] < |wasRows| && rows == Cut(wasRows, wasPos[id])
    requires forall k :: k in wasPos ==> wasPos[k] < |wasRows|
    requires forall k :: k in pos ==> pos[k] < |rows|
    requires pos.Keys == wasPos.Keys - {id}
    requires forall k :: k in pos ==> wasPos[k] == if pos[k] == wasPos[id] then |wasRows| - 1 else pos[k]
    ensures (map k | k in pos && pos[k] < |rows| :: rows[pos[k]])
         == (map k | k in wasPos && wasPos[k] < |wasRows| :: wasRows[wasPos[k]]) - {id}
  {
    CutAt(wasRows, wasPos[id]);
  }

  lemma PositionsAfter(was: seq<Id>, wasPos: map<Id, nat>, id: Id)
    requires Positions(was, wasPos) && id in wasPos
    ensures wasPos[id] < |was|
    ensures var pos := CutPos(wasPos, was, id, wasPos[id]);
      && pos.Keys == wasPos.Keys - {id}
      && (forall k :: k in pos ==> pos[k] == if wasPos[k] == |was| - 1 then wasPos[id] else wasPos[k])
      && (forall k :: k in pos ==> wasPos[k] == if pos[k] == wasPos[id] then |was| - 1 else pos[k])
  {
    assert forall i :: 0 <= i < |was| ==> was[i] in was;
  }
}
