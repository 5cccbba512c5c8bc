/**
 A public data map with the diff and the dirty flag kept beside it, as lobbies and peers carry them.
 A reader who holds a copy applies the broadcast diffs, where null deletes a key.
 */
module SharedData {
  import opened AnyTypes
  import opened JsonRoundTrip

  type Dict = map<string, AnyElement>

  datatype Tracked = Tracked(data: Dict, diff: Dict, dirty: bool)

  function Clean(data: Dict): Tracked
  {
    Tracked(data, map[], false)
  }

  predicate IsClean(t: Tracked)
  {
    t.diff == map[] && !t.dirty
  }

  /** Null read as absent. */
  function Strip(d: Dict): Dict
  {
    map k | k in d && !d[k].Null? :: d[k]
  }

  /** A reader's copy after one diff. */
  function Patch(base: Dict, diff: Dict): Dict
  {
    map k | k in base.Keys + diff.Keys && !(k in diff && diff[k].Null?) :: if k in diff then diff[k] else base[k]
  }

  /** `now` is `base` with the keys of `patch` set, or gone where it says null. */
  ghost predicate Overlaid(base: Dict, patch: Dict, now: Dict)
  {
    forall k ::
      && (k in now <==> if k in patch then !patch[k].Null? else k in base)
      && (k in now ==> now[k] == if k in patch then patch[k] else base[k])
  }

  lemma PatchOverlays(base: Dict, patch: Dict)
    ensures Overlaid(base, patch, Patch(base, patch))
  {
  }

  /** `operator==` on the data maps. */
  predicate DictEq(a: Dict, b: Dict)
  {
    a.Keys == b.Keys && forall k :: k in a ==> Eq(a[k], b[k])
  }

  /** Maps the comparison finds equal hold the same values, up to the signs of zeros. */
  lemma DictEqIsSame(a: Dict, b: Dict)
    ensures DictEq(a, b) <==> a.Keys == b.Keys && forall k :: k in a ==> Unsigned(a[k]) == Unsigned(b[k]) && NoNaN(a[k])
  {
    if a.Keys == b.Keys {
      forall k | k in a ensures Eq(a[k], b[k]) <==> Unsigned(a[k]) == Unsigned(b[k]) && NoNaN(a[k]) {
        EqIsSame(a[k], b[k]);
      }
    }
  }

  // ----- relay commands: a JSON object is merged, null erases -----

  function MergeKey(t: Tracked, k: string, v: AnyElement): Tracked
  {
    Tracked(if v.Null? then t.data - {k} else t.data[k := v], t.diff[k := v], true)
  }

  function Merge(t: Tracked, patch: Dict): Tracked
  {
    Tracked(Patch(t.data, patch), t.diff + patch, t.dirty || patch != map[])
  }

  /** A copy after a diff with one more key. */
  lemma PatchKey(base: Dict, diff: Dict, k: string, v: AnyElement)
    ensures Patch(base, diff[k := v]) == if v.Null? then Patch(base, diff) - {k} else Patch(base, diff)[k := v]
  {
    var p, q := Patch(base, diff), Patch(base, diff[k := v]);
    if v.Null? {
      assert q.Keys == p.Keys - {k};
      assert q == p - {k};
    } else {
      assert q.Keys == p.Keys + {k};
      assert q == p[k := v];
    }
  }

  /** One more pair of the command's object. */
  lemma MergeStep(t: Tracked, patch: Dict, k: string, v: AnyElement)
    ensures MergeKey(Merge(t, patch), k, v) == Merge(t, patch[k := v])
  {
    PatchKey(t.data, patch, k, v);
    assert k in patch[k := v];
    assert (t.diff + patch)[k := v] == t.diff + patch[k := v];
  }

  // ----- script writes: a key, or the whole table -----

  // A script's numbers come through `decode_luavalue`, which makes an integer of every whole one, -0.0 included; so the
  // values it writes hold no negative zero.

  datatype Write = Key(key: string, value: AnyElement) | Table(table: Dict)

  /** `lobby_newindex` on `public_data[key]` and on `public_data`. */
  function ApplyWrite(t: Tracked, w: Write): Tracked
  {
    match w
    case Key(k, v) => Tracked(t.data[k := v], t.diff[k := v], true)
    case Table(m) => if t.dirty || !DictEq(t.data, m) then Tracked(m, m, true) else t
  }

  function ApplyWrites(t: Tracked, ws: seq<Write>): Tracked
  {
    if ws == [] then t else ApplyWrite(ApplyWrites(t, ws[..|ws| - 1]), ws[|ws| - 1])
  }

  datatype Coverage = NoTable | Since(keys: set<string>)

  /** The keys named by the last whole-table assignment or written after it. */
  function Covered(ws: seq<Write>): Coverage
  {
    if ws == [] then NoTable
    else
      match ws[|ws| - 1]
      case Table(m) => Since(m.Keys)
      case Key(k, _) =>
        match Covered(ws[..|ws| - 1])
        case NoTable => NoTable
        case Since(keys) => Since(keys + {k})
  }

  /** Checkable before the call: the last whole table and the writes after it name every key readers see. */
  predicate DropsNoKey(data: Dict, ws: seq<Write>)
  {
    match Covered(ws)
    case NoTable => true
    case Since(keys) => Strip(data).Keys <= keys
  }

  lemma StripKey(d: Dict, k: string, v: AnyElement)
    ensures Strip(d[k := v]) == if v.Null? then Strip(d) - {k} else Strip(d)[k := v]
  {
    var p, q := Strip(d), Strip(d[k := v]);
    if v.Null? {
      assert q.Keys == p.Keys - {k};
      assert q == p - {k};
    } else {
      assert q.Keys == p.Keys + {k};
      assert q == p[k := v];
    }
  }

  /** A key write keeps a reader's copy exact. */
  lemma KeyWriteExact(base: Dict, p: Tracked, k: string, v: AnyElement)
    requires Patch(base, p.diff) == Strip(p.data)
    ensures var r := ApplyWrite(p, Key(k, v)); Patch(base, r.diff) == Strip(r.data)
  {
    PatchKey(base, p.diff, k, v);
    StripKey(p.data, k, v);
  }

  lemma {:induction false} WritesInvariant(t: Tracked, ws: seq<Write>)
    requires IsClean(t)
    ensures var r := ApplyWrites(t, ws);
            || (r.dirty && Covered(ws) == Since(r.diff.Keys) && r.data == r.diff)
            || (Patch(Strip(t.data), r.diff) == Strip(r.data) && DropsNoKey(t.data, ws) && (!r.dirty ==> r == t))
  {
    if ws == [] {
      assert Patch(Strip(t.data), map[]) == Strip(t.data);
    } else {
      var n := |ws| - 1;
      WritesInvariant(t, ws[..n]);
      var p, r := ApplyWrites(t, ws[..n]), ApplyWrites(t, ws);
      match ws[n]
      case Key(k, v) => {
        if p.dirty && Covered(ws[..n]) == Since(p.diff.Keys) && p.data == p.diff {
          assert r.diff.Keys == p.diff.Keys + {k};
        } else {
          KeyWriteExact(Strip(t.data), p, k, v);
        }
      }
      case Table(m) => {}
    }
  }

  /**
   For any writes in one script call, a reader who applies the diff broadcast at its end holds the new public data
   exactly when no key it saw is dropped by a whole-table assignment.  Nothing is broadcast when nothing was written.
   */
  lemma ScriptDiffExact(t: Tracked, ws: seq<Write>)
    requires IsClean(t)
    ensures var r := ApplyWrites(t, ws);
            && (Patch(Strip(t.data), r.diff) == Strip(r.data) <==> DropsNoKey(t.data, ws))
            && (!r.dirty ==> r == t)
  {
    WritesInvariant(t, ws);
    var r := ApplyWrites(t, ws);
    var p := Patch(Strip(t.data), r.diff);
    if r.dirty && Covered(ws) == Since(r.diff.Keys) && r.data == r.diff {
      if Strip(t.data).Keys <= r.diff.Keys {
        assert p == Strip(r.data);
      } else {
        var k :| k in Strip(t.data) && k !in r.diff;
        assert k in p && k !in Strip(r.data);
      }
    }
  }

  /** The value of the last write to `k`, if any. */
  function LastWrite(ws: seq<Write>, k: string): Decoded<AnyElement>
  {
    if ws == [] then Err("unwritten")
    else
      var n := |ws| - 1;
      match ws[n]
      case Key(key, v) => if key == k then Ok(v) else LastWrite(ws[..n], k)
      case Table(m) => if k in m then Ok(m[k]) else Ok(Null)
  }

  /** Last write per key wins, null read as absent; the skipped write of an equal table may keep the sign of a zero. */
  lemma {:induction false} LastWriteWins(t: Tracked, ws: seq<Write>, k: string)
    requires IsClean(t)
    ensures var now := Strip(ApplyWrites(t, ws).data);
            match LastWrite(ws, k)
            case Err(_) => (k in now <==> k in Strip(t.data)) && (k in now ==> now[k] == t.data[k])
            case Ok(v) => if v.Null? then k !in now else k in now && Unsigned(now[k]) == Unsigned(v)
  {
    if ws != [] {
      var n := |ws| - 1;
      LastWriteWins(t, ws[..n], k);
      var p := ApplyWrites(t, ws[..n]);
      if ws[n].Table? && !p.dirty && DictEq(p.data, ws[n].table) {
        DictEqIsSame(p.data, ws[n].table);
      }
    }
  }

  /** Relay: the diff of one command takes readers from the old data to the new. */
  lemma MergeExact(t: Tracked, patch: Dict)
    requires IsClean(t)
    ensures Patch(Strip(t.data), Merge(t, patch).diff) == Strip(Merge(t, patch).data)
  {
    assert map[] + patch == patch;
    assert Patch(Strip(t.data), patch) == Strip(Patch(t.data, patch));
  }
}
