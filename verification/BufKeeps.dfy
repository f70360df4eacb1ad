/** The operations of a buffer pool keep its counts and its free list. */
module BufKeeps {
  import opened Prelude
  import opened BufSpec

  /** Chaining buffer `j` to another fragment moves it between two sets of predecessors. */
  lemma PredsUpdate(bufs: seq<Buf>, j: nat, b: Buf, i: nat)
    requires j < |bufs|
    ensures |Preds(bufs[j := b], i)| + (if bufs[j].frags == Some(i) then 1 else 0)
            == |Preds(bufs, i)| + if b.frags == Some(i) then 1 else 0
  {
    var old', new' := Preds(bufs, i), Preds(bufs[j := b], i);
    assert new' == old' - {j} + if b.frags == Some(i) then {j} else {};
    if bufs[j].frags == Some(i) {
      assert old' == (old' - {j}) + {j};
    } else {
      assert old' - {j} == old';
    }
  }

  lemma PredsSame(bufs: seq<Buf>, j: nat, b: Buf)
    requires j < |bufs| && b.frags == bufs[j].frags
    ensures forall i :: Preds(bufs[j := b], i) == Preds(bufs, i)
  {}

  /** What Next promises: a buffer no reference is on and no chain leads to. */
  lemma NextIsUnused(p: Pool)
    requires Inv(p)
    ensures Next(p) == None <==> p.uninit == 0 && p.free == []
    ensures Next(p) != None ==>
              var n := Next(p).value;
              n < |p.bufs| && p.bufs[n].ref == 0 && p.holders[n] == 0 && Preds(p.bufs, n) == {} && p.bufs[n].frags == None
  {
    var n := Next(p);
    if n != None {
      assert Counted(p, n.value);
    }
  }

  lemma AllocKeeps(p: Pool, size: nat)
    requires Inv(p)
    ensures Inv(Alloc(p, size))
  {
    var n, u := Next(p), Alloc(p, size);
    NextIsUnused(p);
    if n != None {
      PredsSame(p.bufs, n.value, u.bufs[n.value]);
      forall i | 0 <= i < |u.bufs| ensures Counted(u, i) { assert Counted(p, i); }
      AllocSplit(p, size);
    }
  }

  lemma AllocSplit(p: Pool, size: nat)
    requires Split(p) && |p.holders| == |p.bufs| && Next(p) != None && Next(p).value < |p.bufs|
    ensures Split(Alloc(p, size))
  {
    var u := Alloc(p, size);
    if p.free != [] && u.free != p.free {
      assert forall i :: i in p.free <==> i == p.free[0] || i in u.free;
    }
  }

  /** A further reference keeps the pool in order exactly unless the buffer has 255: then
      the count wraps to zero, and a buffer that is held is no longer live. */
  lemma RefKeepsExactly(p: Pool, b: nat)
    requires Inv(p) && Live(p, b)
    ensures Inv(Ref(p, b)) <==> p.bufs[b].ref < 255
    ensures p.bufs[b].ref == 255 ==> Ref(p, b).bufs[b].ref == 0 && Ref(p, b).holders[b] > 0
  {
    var u := Ref(p, b);
    if p.bufs[b].ref < 255 {
      PredsSame(p.bufs, b, u.bufs[b]);
      forall i | 0 <= i < |u.bufs| ensures Counted(u, i) { assert Counted(p, i); }
    } else {
      assert !Counted(u, b);
    }
  }

  function Refs(p: Pool, b: nat, n: nat): (u: Pool)
    requires b < |p.bufs| == |p.holders|
    ensures |u.bufs| == |p.bufs| == |u.holders|
  {
    if n == 0 then p else Ref(Refs(p, b, n - 1), b)
  }

  lemma {:induction false} RefsCount(p: Pool, b: nat, n: nat)
    requires b < |p.bufs| == |p.holders|
    ensures Refs(p, b, n).bufs[b].ref == (p.bufs[b].ref + n) % 256 && Refs(p, b, n).holders[b] == p.holders[b] + n
  {
    if n > 0 { RefsCount(p, b, n - 1); }
  }

  /** The only buffer of a pool, allocated and referenced 255 times more, is held by 256
      and counts as free. */
  lemma CountCanWrap()
    ensures
      var p := Pool(0, [Unused], 1, [], [], [0]);
      var u := Refs(Alloc(p, 0), 0, 255);
      Inv(p) && Next(p) == Some(0) && u.holders[0] == 256 && !Live(u, 0)
  {
    var p := Pool(0, [Unused], 1, [], [], [0]);
    assert Preds(p.bufs, 0) == {};
    RefsCount(Alloc(p, 0), 0, 255);
  }

  lemma DropKeeps(p: Pool, b: nat)
    requires Inv(p) && Live(p, b) && p.holders[b] > 0
    ensures Inv(Drop(p, b))
    ensures p.bufs[b].ref == 1 && p.bufs[b].frags != None ==>
              Live(Drop(p, b), p.bufs[b].frags.value) && Drop(p, b).holders[p.bufs[b].frags.value] > 0
  {
    var u, x := Drop(p, b), p.bufs[b];
    assert Counted(p, b);
    if x.ref > 1 {
      PredsSame(p.bufs, b, u.bufs[b]);
      forall i | 0 <= i < |u.bufs| ensures Counted(u, i) { assert Counted(p, i); }
    } else {
      assert Preds(p.bufs, b) == {};
      if x.frags != None { assert b in Preds(p.bufs, x.frags.value); assert Counted(p, x.frags.value); }
      forall i | 0 <= i < |u.bufs| ensures Counted(u, i) {
        assert Counted(p, i);
        PredsUpdate(p.bufs, b, Unused, i);
      }
      assert forall i :: i in u.free <==> i == b || i in p.free;
    }
  }

  // ---- unref ----

  /** Chains do not see counts. */
  lemma {:induction false} LeadsFrame(bufs: seq<Buf>, other: seq<Buf>, b: Option<nat>, path: seq<nat>, end: Option<nat>)
    requires Leads(bufs, b, path, end) && |bufs| == |other|
    requires forall i :: 0 <= i < |path| ==> path[i] < |bufs| && bufs[path[i]].frags == other[path[i]].frags
    ensures Leads(other, b, path, end)
    decreases |path|
  {
    if path != [] {
      assert bufs[path[0]].frags == other[path[0]].frags;
      forall i | 0 <= i < |path[1..]|
        ensures path[1..][i] < |bufs| && bufs[path[1..][i]].frags == other[path[1..][i]].frags
      {
        assert path[1..][i] == path[i + 1];
      }
      LeadsFrame(bufs, other, bufs[path[0]].frags, path[1..], end);
    }
  }

  lemma {:induction false} LeadsInside(bufs: seq<Buf>, b: Option<nat>, path: seq<nat>, end: Option<nat>)
    requires Leads(bufs, b, path, end)
    ensures forall i :: 0 <= i < |path| ==> path[i] < |bufs|
    ensures forall i, j :: 0 <= i < j < |path| ==> path[i] != path[j]
    decreases |path|
  {
    if path != [] {
      LeadsInside(bufs, bufs[path[0]].frags, path[1..], end);
      forall i, j | 0 <= i < j < |path| ensures path[i] != path[j] {
        assert path[j] == path[1..][j - 1];
        if i > 0 { assert path[i] == path[1..][i - 1]; }
      }
    }
  }

  lemma ChainTail(bufs: seq<Buf>, path: seq<nat>)
    requires path != [] && IsChain(bufs, path[0], path)
    ensures path[0] < |bufs| && bufs[path[0]].frags == if |path| > 1 then Some(path[1]) else None
    ensures |path| > 1 ==> IsChain(bufs, path[1], path[1..])
  {
    var b, rest := bufs[path[0]].frags, path[1..];
    assert Leads(bufs, b, rest, None);
  }

  /** What is known of the chain when the first buffer has gone back to the pool. */
  lemma DropChain(p: Pool, path: seq<nat>)
    requires Inv(p) && path != [] && IsChain(p.bufs, path[0], path) && Live(p, path[0]) && p.holders[path[0]] > 0
    requires p.bufs[path[0]].ref == 1
    ensures var u, rest := Drop(p, path[0]), path[1..];
            && Inv(u)
            && (rest != [] ==> IsChain(u.bufs, rest[0], rest) && Live(u, rest[0]) && u.holders[rest[0]] > 0)
  {
    DropKeeps(p, path[0]);
    ChainTail(p.bufs, path);
    var u, rest := Drop(p, path[0]), path[1..];
    LeadsInside(p.bufs, Some(path[0]), path, None);
    if rest != [] {
      forall i | 0 <= i < |rest| ensures rest[i] < |u.bufs| && p.bufs[rest[i]].frags == u.bufs[rest[i]].frags {
        assert rest[i] == path[i + 1];
      }
      LeadsFrame(p.bufs, u.bufs, Some(rest[0]), rest, None);
    }
  }

  lemma {:induction false} UnrefKeeps(p: Pool, path: seq<nat>)
    requires Inv(p) && path != [] && IsChain(p.bufs, path[0], path) && Live(p, path[0]) && p.holders[path[0]] > 0
    ensures Inv(Unref(p, path))
    decreases |path|
  {
    DropKeeps(p, path[0]);
    if p.bufs[path[0]].ref == 1 {
      DropChain(p, path);
      if |path| > 1 { UnrefKeeps(Drop(p, path[0]), path[1..]); }
    }
  }

  /** What becomes of buffer `i` when a chain with `r` leading single references is released. */
  function Released(bufs: seq<Buf>, path: seq<nat>, r: nat, i: nat): Buf
    requires i < |bufs| && r <= |path|
  {
    if i in path[..r] then Unused
    else if r < |path| && i == path[r] then bufs[i].(ref := if bufs[i].ref > 0 then bufs[i].ref - 1 else 0)
    else bufs[i]
  }

  predicate FreesRun(p: Pool, u: Pool, path: seq<nat>)
    requires path != [] && path[0] < |p.holders| && p.holders[path[0]] > 0
  {
    var r := Run(p.bufs, path);
    && |u.bufs| == |p.bufs| && u.mem == p.mem && u.uninit == p.uninit && u.size == p.size
    && u.free == Reverse(path[..r]) + p.free
    && u.holders == p.holders[path[0] := p.holders[path[0]] - 1]
    && (forall i :: 0 <= i < |p.bufs| ==> u.bufs[i] == Released(p.bufs, path, r, i))
  }

  /** Releasing a chain frees exactly its leading run of buffers with a single reference,
      takes one reference from the buffer after the run, and touches nothing else; the
      freed buffers come to the front of the free list, the last freed first. */
  lemma {:induction false} UnrefFreesRun(p: Pool, path: seq<nat>)
    requires Inv(p) && path != [] && IsChain(p.bufs, path[0], path) && Live(p, path[0]) && p.holders[path[0]] > 0
    ensures FreesRun(p, Unref(p, path), path)
    decreases |path|
  {
    if p.bufs[path[0]].ref > 1 {
      assert path[..0] == [];
    } else {
      var d, rest := Drop(p, path[0]), path[1..];
      DropChain(p, path);
      ChainTail(p.bufs, path);
      if rest == [] {
        assert path[..1] == [path[0]];
        assert Reverse(path[..1]) == [path[0]];
      } else {
        UnrefFreesRun(d, rest);
        FreesOneMore(p, Unref(d, rest), path);
      }
    }
  }

  lemma FreesOneMore(p: Pool, u: Pool, path: seq<nat>)
    requires Inv(p) && |path| > 1 && IsChain(p.bufs, path[0], path) && Live(p, path[0]) && p.holders[path[0]] > 0
    requires p.bufs[path[0]].ref == 1
    requires var d, rest := Drop(p, path[0]), path[1..];
             rest[0] < |d.holders| && d.holders[rest[0]] > 0 && FreesRun(d, u, rest)
    ensures FreesRun(p, u, path)
  {
    var d, rest, r := Drop(p, path[0]), path[1..], Run(p.bufs, path);
    LeadsInside(p.bufs, Some(path[0]), path, None);
    ChainTail(p.bufs, path);
    forall i | 0 <= i < |rest| ensures rest[i] < |p.bufs| && rest[i] != path[0] && p.bufs[rest[i]] == d.bufs[rest[i]] {
      assert rest[i] == path[i + 1];
    }
    RunSame(p.bufs, d.bufs, rest);
    RunTail(p, path, r);
    forall i | 0 <= i < |p.bufs| ensures u.bufs[i] == Released(p.bufs, path, r, i) {
      assert u.bufs[i] == Released(d.bufs, rest, r - 1, i);
    }
  }

  lemma RunTail(p: Pool, path: seq<nat>, r: nat)
    requires path != [] && 0 < r <= |path|
    ensures var rest := path[1..];
            && path[..r] == [path[0]] + rest[..r - 1]
            && Reverse(path[..r]) + p.free == Reverse(rest[..r - 1]) + ([path[0]] + p.free)
            && (r < |path| ==> path[r] == rest[r - 1])
            && forall i :: i in path[..r] <==> i == path[0] || i in rest[..r - 1]
  {
    var rest := path[1..];
    assert path[..r] == [path[0]] + rest[..r - 1];
    assert Reverse(path[..r]) == Reverse(rest[..r - 1]) + [path[0]];
    assert Reverse(path[..r]) + p.free == Reverse(rest[..r - 1]) + ([path[0]] + p.free);
  }

  lemma {:induction false} RunSame(bufs: seq<Buf>, other: seq<Buf>, path: seq<nat>)
    requires |bufs| == |other| && forall i :: 0 <= i < |path| ==> path[i] < |bufs| && bufs[path[i]] == other[path[i]]
    ensures Run(bufs, path) == Run(other, path)
  {
    if path != [] {
      assert bufs[path[0]] == other[path[0]];
      forall i | 0 <= i < |path[1..]| ensures path[1..][i] < |bufs| && bufs[path[1..][i]] == other[path[1..][i]] {
        assert path[1..][i] == path[i + 1];
      }
      RunSame(bufs, other, path[1..]);
    }
  }
}
