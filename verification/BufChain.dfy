/** Chains of buffers and the bytes they hold. */
module BufChain {
  import opened Prelude
  import opened BufSpec
  import opened BufKeeps

  // ---- linking ----

  lemma {:induction false} LeadsConcat(bufs: seq<Buf>, b: Option<nat>, front: seq<nat>, mid: Option<nat>, back: seq<nat>, end: Option<nat>)
    requires Leads(bufs, b, front, mid) && Leads(bufs, mid, back, end)
    requires forall i, j :: 0 <= i < |front| && 0 <= j < |back| ==> front[i] != back[j]
    ensures Leads(bufs, b, front + back, end)
    decreases |front|
  {
    if front == [] {
      assert front + back == back;
    } else {
      assert (front + back)[1..] == front[1..] + back;
      forall i, j | 0 <= i < |front[1..]| && 0 <= j < |back| ensures front[1..][i] != back[j] { assert front[1..][i] == front[i + 1]; }
      forall j | 0 <= j < |back| ensures front[0] != back[j] {}
      LeadsConcat(bufs, bufs[front[0]].frags, front[1..], mid, back, end);
    }
  }

  /** Changing where the last buffer of a chain points. */
  lemma {:induction false} LeadsRelink(bufs: seq<Buf>, b: Option<nat>, path: seq<nat>, end: Option<nat>, x: Buf)
    requires path != [] && Leads(bufs, b, path, end)
    ensures path[|path| - 1] < |bufs| && Leads(bufs[path[|path| - 1] := x], b, path, x.frags)
    decreases |path|
  {
    var tail := path[1..];
    if tail != [] {
      assert tail[|tail| - 1] == path[|path| - 1];
      LeadsRelink(bufs, bufs[path[0]].frags, tail, end, x);
    }
  }

  ghost predicate Disjoint(a: seq<nat>, b: seq<nat>) {
    forall i, j :: 0 <= i < |a| && 0 <= j < |b| ==> a[i] != b[j]
  }

  /** bt_buf_frag_add: the chain of `frag` comes behind the last buffer of the head's. */
  lemma AddChain(p: Pool, head: nat, path: seq<nat>, frag: nat, fpath: seq<nat>)
    requires |p.holders| == |p.bufs| && IsChain(p.bufs, head, path) && IsChain(p.bufs, frag, fpath) && Disjoint(path, fpath)
    requires frag < |p.bufs| && p.holders[frag] > 0 && path[|path| - 1] < |p.bufs| && fpath[|fpath| - 1] < |p.bufs|
    requires p.bufs[path[|path| - 1]].frags == None
    ensures IsChain(Insert(p, path[|path| - 1], frag, fpath[|fpath| - 1]).bufs, head, path + fpath)
  {
    var parent := path[|path| - 1];
    var u := Insert(p, parent, frag, fpath[|fpath| - 1]);
    var x := p.bufs[parent].(frags := Some(frag));
    LeadsInside(p.bufs, Some(frag), fpath, None);
    LeadsRelink(p.bufs, Some(head), path, None, x);
    forall i | 0 <= i < |fpath| ensures fpath[i] < |p.bufs| && p.bufs[fpath[i]].frags == u.bufs[fpath[i]].frags {}
    LeadsFrame(p.bufs, u.bufs, Some(frag), fpath, None);
    LeadsConcat(u.bufs, Some(head), path, Some(frag), fpath, None);
  }

  /** bt_buf_frag_insert in general: between the parent and what follows it. */
  lemma InsertChain(p: Pool, parent: nat, rest: seq<nat>, frag: nat, fpath: seq<nat>)
    requires |p.holders| == |p.bufs| && IsChain(p.bufs, parent, [parent] + rest) && IsChain(p.bufs, frag, fpath)
    requires parent !in fpath && Disjoint(fpath, rest)
    requires frag < |p.bufs| && p.holders[frag] > 0 && parent < |p.bufs| && fpath[|fpath| - 1] < |p.bufs|
    ensures IsChain(Insert(p, parent, frag, fpath[|fpath| - 1]).bufs, parent, [parent] + fpath + rest)
  {
    var last, next := fpath[|fpath| - 1], p.bufs[parent].frags;
    var u := Insert(p, parent, frag, last);
    assert ([parent] + rest)[1..] == rest;
    assert Leads(p.bufs, next, rest, None) && parent !in rest;
    InsertRest(p, parent, rest, frag, last);
    InsertFront(p, parent, frag, fpath);
    LeadsConcat(u.bufs, Some(frag), fpath, next, rest, None);
    assert ([parent] + fpath + rest)[1..] == fpath + rest;
  }

  lemma InsertRest(p: Pool, parent: nat, rest: seq<nat>, frag: nat, last: nat)
    requires |p.holders| == |p.bufs| && frag < |p.bufs| && p.holders[frag] > 0 && parent < |p.bufs| && last < |p.bufs|
    requires Leads(p.bufs, p.bufs[parent].frags, rest, None) && parent !in rest && last !in rest
    ensures Leads(Insert(p, parent, frag, last).bufs, p.bufs[parent].frags, rest, None)
  {
    var u := Insert(p, parent, frag, last);
    LeadsInside(p.bufs, p.bufs[parent].frags, rest, None);
    forall i | 0 <= i < |rest| ensures rest[i] < |p.bufs| && p.bufs[rest[i]].frags == u.bufs[rest[i]].frags {}
    LeadsFrame(p.bufs, u.bufs, p.bufs[parent].frags, rest, None);
  }

  lemma InsertFront(p: Pool, parent: nat, frag: nat, fpath: seq<nat>)
    requires |p.holders| == |p.bufs| && IsChain(p.bufs, frag, fpath) && parent !in fpath
    requires frag < |p.bufs| && p.holders[frag] > 0 && parent < |p.bufs| && fpath[|fpath| - 1] < |p.bufs|
    ensures Leads(Insert(p, parent, frag, fpath[|fpath| - 1]).bufs, Some(frag), fpath, p.bufs[parent].frags)
  {
    var last, next := fpath[|fpath| - 1], p.bufs[parent].frags;
    var u := Insert(p, parent, frag, last);
    var x := p.bufs[last].(frags := next);
    LeadsRelink(p.bufs, Some(frag), fpath, None, x);
    var linked := p.bufs[last := x];
    LeadsInside(linked, Some(frag), fpath, next);
    LastEnds(p.bufs, Some(frag), fpath, None);
    forall i | 0 <= i < |fpath| ensures fpath[i] < |linked| && linked[fpath[i]].frags == u.bufs[fpath[i]].frags {}
    LeadsFrame(linked, u.bufs, Some(frag), fpath, next);
  }

  lemma {:induction false} LastEnds(bufs: seq<Buf>, b: Option<nat>, path: seq<nat>, end: Option<nat>)
    requires path != [] && Leads(bufs, b, path, end)
    ensures path[|path| - 1] < |bufs| && bufs[path[|path| - 1]].frags == end
    decreases |path|
  {
    if |path| > 1 {
      assert path[1..][|path| - 2] == path[|path| - 1];
      LastEnds(bufs, bufs[path[0]].frags, path[1..], end);
    } else {
      assert Leads(bufs, bufs[path[0]].frags, path[1..], end);
    }
  }

  lemma InsertCounted(p: Pool, parent: nat, frag: nat, last: nat, i: nat)
    requires |p.holders| == |p.bufs| && parent < |p.bufs| && frag < |p.bufs| && last < |p.bufs| && i < |p.bufs|
    requires p.holders[frag] > 0 && parent != last && p.bufs[last].frags == None
    requires p.bufs[parent].ref > 0 && p.bufs[last].ref > 0
    requires Counted(p, i) && Counted(p, parent)
    ensures Counted(Insert(p, parent, frag, last), i)
  {
    var next := p.bufs[parent].frags;
    var x := p.bufs[last].(frags := next);
    var linked := if next != None then p.bufs[last := x] else p.bufs;
    if next != None { PredsUpdate(p.bufs, last, x, i); }
    PredsUpdate(linked, parent, linked[parent].(frags := Some(frag)), i);
  }

  lemma InsertKeeps(p: Pool, parent: nat, frag: nat, fpath: seq<nat>)
    requires Inv(p) && Live(p, parent) && Live(p, frag) && p.holders[frag] > 0
    requires IsChain(p.bufs, frag, fpath) && parent !in fpath && Live(p, fpath[|fpath| - 1])
    ensures Inv(Insert(p, parent, frag, fpath[|fpath| - 1]))
  {
    var last := fpath[|fpath| - 1];
    var u := Insert(p, parent, frag, last);
    LastEnds(p.bufs, Some(frag), fpath, None);
    assert last in fpath;
    forall i | 0 <= i < |u.bufs| ensures Counted(u, i) {
      assert Counted(p, i) && Counted(p, parent);
      InsertCounted(p, parent, frag, last, i);
    }
  }

  /** bt_buf_frag_del up to its call of bt_buf_unref */
  lemma DetachKeeps(p: Pool, parent: Option<nat>, frag: nat)
    requires Inv(p) && Live(p, frag)
    requires parent != None ==> Live(p, parent.value) && p.bufs[parent.value].frags == Some(frag) && parent.value != frag
    requires parent == None ==> p.holders[frag] > 0
    requires p.bufs[frag].frags != Some(frag)
    ensures var u := Detach(p, parent, frag);
            Inv(u) && IsChain(u.bufs, frag, [frag]) && Live(u, frag) && u.holders[frag] > 0
  {
    var u, next := Detach(p, parent, frag), p.bufs[frag].frags;
    assert Counted(p, frag);
    forall i | 0 <= i < |u.bufs| ensures Counted(u, i) {
      assert Counted(p, i);
      DetachCounted(p, parent, frag, i);
    }
    assert [frag][1..] == [] && Leads(u.bufs, None, [], None);
  }

  lemma DetachCounted(p: Pool, parent: Option<nat>, frag: nat, i: nat)
    requires |p.holders| == |p.bufs| && frag < |p.bufs| && i < |p.bufs| && Counted(p, i) && Counted(p, frag)
    requires p.bufs[frag].ref > 0 && p.bufs[frag].frags != Some(frag)
    requires parent != None ==>
               parent.value < |p.bufs| && p.bufs[parent.value].frags == Some(frag) && parent.value != frag
               && p.bufs[parent.value].ref > 0
    ensures Counted(Detach(p, parent, frag), i)
  {
    var next := p.bufs[frag].frags;
    var bufs := p.bufs;
    if parent != None {
      bufs := p.bufs[parent.value := p.bufs[parent.value].(frags := next)];
      PredsUpdate(p.bufs, parent.value, bufs[parent.value], i);
    }
    PredsUpdate(bufs, frag, bufs[frag].(frags := None), i);
  }

  // ---- allocating ----

  /** bt_buf_alloc_len takes the buffer freed last, or else the first one never used, with one
      reference, no fragments, no headroom and no bytes; it has a data block unless nothing
      is asked for.  No other buffer changes. */
  lemma AllocEffect(p: Pool, size: nat)
    requires Inv(p)
    ensures
      var u := Alloc(p, size);
      if p.free == [] && p.uninit == 0 then u == p && Next(p) == None else
      var n := if p.free != [] then p.free[0] else |p.bufs| - p.uninit;
      && Next(p) == Some(n) && n < |p.bufs|
      && u == p.(bufs := p.bufs[n := Buf(1, None, 0, 0, if size == 0 then 0 else p.size)], holders := p.holders[n := 1],
                 free := if p.free != [] then p.free[1..] else [],
                 uninit := if p.free != [] then p.uninit else p.uninit - 1)
  {
    if p.free != [] { assert p.free[0] < |p.bufs| - p.uninit; }
  }

  // ---- taking a fragment out ----

  lemma {:induction false} LeadsSplit(bufs: seq<Buf>, b: Option<nat>, front: seq<nat>, back: seq<nat>, end: Option<nat>)
    requires back != [] && Leads(bufs, b, front + back, end)
    ensures Leads(bufs, b, front, Some(back[0])) && Leads(bufs, Some(back[0]), back, end) && Disjoint(front, back)
    decreases |front|
  {
    if front == [] {
      assert front + back == back;
    } else {
      var all := front + back;
      assert all[1..] == front[1..] + back;
      LeadsSplit(bufs, bufs[front[0]].frags, front[1..], back, end);
      forall i | 0 <= i < |front[1..]| ensures front[1..][i] in all[1..] { assert all[1..][i] == front[1..][i]; }
      forall j | 0 <= j < |back| ensures back[j] in all[1..] { assert all[1..][|front| - 1 + j] == back[j]; }
      forall i, j | 0 <= i < |front| && 0 <= j < |back| ensures front[i] != back[j] { if i > 0 { assert front[i] == front[1..][i - 1]; } }
    }
  }

  /** A chain with `parent` behind `front`, then `frag`, then `rest`. */
  predicate Around(p: Pool, head: nat, front: seq<nat>, parent: nat, frag: nat, rest: seq<nat>) {
    IsChain(p.bufs, head, (front + [parent]) + ([frag] + rest))
  }

  /** What of the chain stays when `other` differs only in `frag` and in what follows `parent`. */
  lemma ClosesUp(p: Pool, other: seq<Buf>, head: nat, front: seq<nat>, parent: nat, frag: nat, rest: seq<nat>)
    requires Around(p, head, front, parent, frag, rest) && |other| == |p.bufs| && frag < |p.bufs|
    requires forall i :: 0 <= i < |other| && i != parent && i != frag ==> other[i].frags == p.bufs[i].frags
    requires parent < |p.bufs| && other[parent].frags == p.bufs[frag].frags
    ensures IsChain(other, head, (front + [parent]) + rest)
  {
    var a := front + [parent];
    LeadsSplit(p.bufs, Some(head), a, [frag] + rest, None);
    assert ([frag] + rest)[1..] == rest;
    var x := p.bufs[parent].(frags := p.bufs[frag].frags);
    LeadsRelink(p.bufs, Some(head), a, Some(frag), x);
    LeadsInside(p.bufs[parent := x], Some(head), a, x.frags);
    LeadsInside(p.bufs, p.bufs[frag].frags, rest, None);
    forall i | 0 <= i < |a| ensures a[i] != frag { assert a[i] != ([frag] + rest)[0]; }
    forall i | 0 <= i < |rest| ensures rest[i] != parent && rest[i] != frag && other[rest[i]].frags == p.bufs[rest[i]].frags {
      assert a[|front|] != ([frag] + rest)[i + 1];
    }
    LeadsFrame(p.bufs[parent := x], other, Some(head), a, x.frags);
    LeadsFrame(p.bufs, other, x.frags, rest, None);
    forall i, j | 0 <= i < |a| && 0 <= j < |rest| ensures a[i] != rest[j] { assert a[i] != ([frag] + rest)[j + 1]; }
    LeadsConcat(other, Some(head), a, x.frags, rest, None);
  }

  /** bt_buf_frag_del behind a parent: the chain closes up around the fragment, which loses the
      reference of the parent, and is given back if that was the last. */
  lemma FragDelChain(p: Pool, head: nat, front: seq<nat>, parent: nat, frag: nat, rest: seq<nat>)
    requires Inv(p) && Live(p, parent) && Live(p, frag) && Around(p, head, front, parent, frag, rest)
    ensures parent != frag && p.bufs[parent].frags == Some(frag) && p.bufs[frag].frags != Some(frag)
    ensures
      var u, b := Unref(Detach(p, Some(parent), frag), [frag]), p.bufs[frag];
      && Inv(u) && IsChain(u.bufs, head, (front + [parent]) + rest) && u.holders == p.holders && u.mem == p.mem
      && u.bufs == p.bufs[parent := p.bufs[parent].(frags := b.frags)]
                         [frag := if b.ref == 1 then Unused else b.(ref := b.ref - 1, frags := None)]
      && u.free == if b.ref == 1 then [frag] + p.free else p.free
  {
    hide Inv, Unref, IsChain, Around, Detach, Live;
    ParentOf(p, head, front, parent, frag, rest);
    IsDetached(p, parent, frag);
    DetachKeeps(p, Some(parent), frag);
    var d := Detach(p, Some(parent), frag);
    UnrefKeeps(d, [frag]);
    UnrefFreesRun(d, [frag]);
    OneFreed(d, Unref(d, [frag]), frag);
    ClosesUp(p, Unref(d, [frag]).bufs, head, front, parent, frag, rest);
  }

  lemma ParentOf(p: Pool, head: nat, front: seq<nat>, parent: nat, frag: nat, rest: seq<nat>)
    requires Around(p, head, front, parent, frag, rest)
    ensures parent < |p.bufs| && frag < |p.bufs| && parent != frag
    ensures p.bufs[parent].frags == Some(frag) && p.bufs[frag].frags != Some(frag)
  {
    var a := front + [parent];
    LeadsSplit(p.bufs, Some(head), a, [frag] + rest, None);
    assert a[|a| - 1] == parent && a[|front|] != ([frag] + rest)[0];
    LastEnds(p.bufs, Some(head), a, Some(frag));
    NotItself(p.bufs, frag, rest);
  }

  lemma IsDetached(p: Pool, parent: nat, frag: nat)
    requires Inv(p) && parent < |p.bufs| && Live(p, frag) && parent != frag
    ensures
      var d, b := Detach(p, Some(parent), frag), p.bufs[frag];
      && |d.bufs| == |p.bufs| == |p.holders| && frag < |p.bufs| && b.ref > 0 && d.free == p.free && d.mem == p.mem
      && d.bufs == p.bufs[parent := p.bufs[parent].(frags := b.frags)][frag := b.(frags := None)]
      && d.holders == p.holders[frag := p.holders[frag] + 1]
  {}

  lemma NotItself(bufs: seq<Buf>, frag: nat, rest: seq<nat>)
    requires Leads(bufs, Some(frag), [frag] + rest, None)
    ensures frag < |bufs| && bufs[frag].frags != Some(frag)
  {
    assert ([frag] + rest)[1..] == rest;
  }

  lemma OneFreed(d: Pool, u: Pool, frag: nat)
    requires frag < |d.bufs| == |d.holders| && d.holders[frag] > 0 && d.bufs[frag].ref > 0 && FreesRun(d, u, [frag])
    ensures u.bufs == d.bufs[frag := if d.bufs[frag].ref == 1 then Unused else d.bufs[frag].(ref := d.bufs[frag].ref - 1)]
    ensures u.holders == d.holders[frag := d.holders[frag] - 1] && u.mem == d.mem
    ensures u.free == if d.bufs[frag].ref == 1 then [frag] + d.free else d.free
  {
    var r := Run(d.bufs, [frag]);
    assert [frag][..0] == [] && [frag][..1] == [frag] && [frag][1..] == [];
    assert Reverse([frag]) == Reverse([frag][1..]) + [frag];
    assert r == if d.bufs[frag].ref == 1 then 1 else 0;
  }

  /** And without a parent: what followed it is the caller's. */
  lemma FragDelHead(p: Pool, frag: nat, rest: seq<nat>)
    requires Inv(p) && Live(p, frag) && p.holders[frag] > 0 && IsChain(p.bufs, frag, [frag] + rest)
    ensures p.bufs[frag].frags != Some(frag)
    ensures
      var u, b := Unref(Detach(p, None, frag), [frag]), p.bufs[frag];
      && Inv(u) && u.mem == p.mem && (rest != [] ==> rest[0] < |p.holders| && IsChain(u.bufs, rest[0], rest))
      && u.holders == (if rest == [] then p.holders else p.holders[rest[0] := p.holders[rest[0]] + 1])[frag := p.holders[frag] - 1]
      && u.bufs == p.bufs[frag := if b.ref == 1 then Unused else b.(ref := b.ref - 1, frags := None)]
      && u.free == if b.ref == 1 then [frag] + p.free else p.free
  {
    NotItself(p.bufs, frag, rest);
    assert ([frag] + rest)[1..] == rest;
    DetachKeeps(p, None, frag);
    var d := Detach(p, None, frag);
    UnrefKeeps(d, [frag]);
    UnrefFreesRun(d, [frag]);
    var u := Unref(d, [frag]);
    OneFreed(d, u, frag);
    LeadsInside(p.bufs, p.bufs[frag].frags, rest, None);
    LeadsFrame(p.bufs, u.bufs, p.bufs[frag].frags, rest, None);
  }

  // ---- bytes ----

  predicate Inside(p: Pool, path: seq<nat>) { forall i :: 0 <= i < |path| ==> path[i] < |p.bufs| }

  lemma AddMemKeeps(p: Pool, i: nat, v: seq<Byte>)
    requires Inv(p) && i < |p.bufs| && |v| <= Tailroom(p.bufs[i])
    ensures Inv(AddMem(p, i, v))
  {
    var u := AddMem(p, i, v);
    BlockFits(|p.bufs|, i, p.size);
    PredsSame(p.bufs, i, u.bufs[i]);
    forall j | 0 <= j < |u.bufs| ensures Counted(u, j) { assert Counted(p, j); }
  }

  /** Splicing `v` into memory leaves what is in front and behind. */
  lemma SplicedOut(mem: seq<Byte>, at: nat, v: seq<Byte>, from: nat, to: nat)
    requires at + |v| <= |mem| && from <= to <= |mem| && (to <= at || at + |v| <= from)
    ensures var u := mem[..at] + v + mem[at + |v|..];
            |u| == |mem| && u[from..to] == mem[from..to] == mem[from..to] + []
  {}

  lemma SplicedIn(mem: seq<Byte>, at: nat, v: seq<Byte>, from: nat)
    requires at + |v| <= |mem| && from <= at
    ensures var u := mem[..at] + v + mem[at + |v|..];
            |u| == |mem| && u[from..at + |v|] == mem[from..at] + v
  {}

  lemma AddMemShape(p: Pool, i: nat, v: seq<Byte>)
    requires Shape(p) && i < |p.bufs| && |v| <= Tailroom(p.bufs[i])
    ensures Shape(AddMem(p, i, v))
  {
    BlockFits(|p.bufs|, i, p.size);
  }

  /** Where the data of buffer `j` begins, which other buffers' data do not reach into. */
  lemma Blocks(p: Pool, i: nat, j: nat, bi: nat, bj: nat)
    requires Shape(p) && i < |p.bufs| && j < |p.bufs| && bi == i * p.size && bj == j * p.size
    ensures bi + p.size <= |p.mem| && bj + p.size <= |p.mem|
    ensures i < j ==> bi + p.size <= bj
    ensures j < i ==> bj + p.size <= bi
  {
    BlockFits(|p.bufs|, i, p.size);
    BlockFits(|p.bufs|, j, p.size);
    if i < j { BlocksDisjoint(i, j, p.size); } else if j < i { BlocksDisjoint(j, i, p.size); }
  }

  /** Added bytes come behind the content of their buffer; no other buffer's change. */
  lemma AddMemContent(p: Pool, i: nat, v: seq<Byte>, j: nat)
    requires Shape(p) && i < |p.bufs| && j < |p.bufs| && |v| <= Tailroom(p.bufs[i])
    ensures Shape(AddMem(p, i, v))
    ensures Content(AddMem(p, i, v), j) == Content(p, j) + if j == i then v else []
  {
    hide Shape, Content, AddMem;
    AddMemShape(p, i, v);
    var u, bi, bj := AddMem(p, i, v), i * p.size, j * p.size;
    var at, from, to := bi + p.bufs[i].start + p.bufs[i].len, bj + p.bufs[j].start, bj + p.bufs[j].start + p.bufs[j].len;
    var end := if j == i then to + |v| else to;
    Blocks(p, i, j, bi, bj);
    AddMemIs(p, i, v, at);
    ContentIs(p, j, from, to);
    ContentIs(u, j, from, end);
    Fits(p, i);
    Fits(p, j);
    if j == i { SplicedIn(p.mem, at, v, from); } else { SplicedOut(p.mem, at, v, from, to); }
  }

  lemma Fits(p: Pool, i: nat)
    requires Shape(p) && i < |p.bufs|
    ensures p.bufs[i].start + p.bufs[i].len <= p.bufs[i].size <= p.size
  {}

  lemma ContentIs(p: Pool, i: nat, from: nat, to: nat)
    requires Shape(p) && i < |p.bufs| && from == i * p.size + p.bufs[i].start && to == from + p.bufs[i].len
    ensures to <= |p.mem| && Content(p, i) == p.mem[from..to]
  {
    BlockFits(|p.bufs|, i, p.size);
  }

  lemma AddMemIs(p: Pool, i: nat, v: seq<Byte>, at: nat)
    requires Shape(p) && i < |p.bufs| && |v| <= Tailroom(p.bufs[i]) && at == i * p.size + p.bufs[i].start + p.bufs[i].len
    ensures
      var u, b := AddMem(p, i, v), p.bufs[i];
      && at + |v| <= |p.mem| && u.mem == p.mem[..at] + v + p.mem[at + |v|..]
      && u.bufs == p.bufs[i := b.(len := b.len + |v|)] && u.size == p.size
  {
    BlockFits(|p.bufs|, i, p.size);
  }

  lemma {:induction false} FlattenFrame(p: Pool, u: Pool, path: seq<nat>)
    requires Shape(p) && Shape(u) && Inside(p, path) && Inside(u, path)
    requires forall i :: 0 <= i < |path| ==> Content(p, path[i]) == Content(u, path[i])
    ensures Flatten(p, path) == Flatten(u, path)
  {
    if path != [] {
      assert Content(p, path[0]) == Content(u, path[0]);
      forall i | 0 <= i < |path[1..]| ensures path[1..][i] < |p.bufs| && path[1..][i] < |u.bufs| && Content(p, path[1..][i]) == Content(u, path[1..][i]) {
        assert path[1..][i] == path[i + 1];
      }
      FlattenFrame(p, u, path[1..]);
    }
  }

  lemma {:induction false} FlattenConcat(p: Pool, a: seq<nat>, b: seq<nat>)
    requires Shape(p) && Inside(p, a) && Inside(p, b)
    ensures Inside(p, a + b) && Flatten(p, a + b) == Flatten(p, a) + Flatten(p, b)
  {
    if a == [] {
      assert a + b == b;
    } else {
      assert (a + b)[1..] == a[1..] + b;
      FlattenConcat(p, a[1..], b);
    }
  }

  /** The buffers in front of the last keep their bytes when some are added to it. */
  lemma AddMemFront(p: Pool, path: seq<nat>, v: seq<Byte>)
    requires Shape(p) && path != [] && Inside(p, path) && |v| <= Tailroom(p.bufs[path[|path| - 1]])
    requires forall i, j :: 0 <= i < j < |path| ==> path[i] != path[j]
    ensures
      var n := |path| - 1;
      var u := AddMem(p, path[n], v);
      && Shape(u) && Inside(u, path) && Flatten(u, path[..n]) == Flatten(p, path[..n])
      && Content(u, path[n]) == Content(p, path[n]) + v
  {
    hide Content, Flatten, Tailroom;
    var n := |path| - 1;
    var front, u := path[..n], AddMem(p, path[n], v);
    AddMemContent(p, path[n], v, path[n]);
    forall i | 0 <= i < n ensures Content(u, front[i]) == Content(p, front[i]) {
      AddMemContent(p, path[n], v, front[i]);
    }
    FlattenFrame(p, u, front);
  }

  /** Adding to the last buffer of a chain adds to the end of its bytes. */
  lemma AddMemFlatten(p: Pool, path: seq<nat>, v: seq<Byte>)
    requires Shape(p) && path != [] && Inside(p, path) && |v| <= Tailroom(p.bufs[path[|path| - 1]])
    requires forall i, j :: 0 <= i < j < |path| ==> path[i] != path[j]
    ensures var u := AddMem(p, path[|path| - 1], v);
            Shape(u) && Inside(u, path) && Flatten(u, path) == Flatten(p, path) + v
  {
    AddMemFront(p, path, v);
    FlattenLast(p, path);
    FlattenLast(AddMem(p, path[|path| - 1], v), path);
  }

  lemma FlattenLast(p: Pool, path: seq<nat>)
    requires Shape(p) && path != [] && Inside(p, path)
    ensures Inside(p, path[..|path| - 1]) && Flatten(p, path) == Flatten(p, path[..|path| - 1]) + Content(p, path[|path| - 1])
  {
    hide Content, Flatten, Shape;
    var n := |path| - 1;
    assert path == path[..n] + [path[n]];
    FlattenConcat(p, path[..n], [path[n]]);
    FlattenOne(p, path[n]);
  }

  lemma FlattenOne(p: Pool, i: nat)
    requires Shape(p) && i < |p.bufs|
    ensures Flatten(p, [i]) == Content(p, i)
  {
    hide Content;
    assert Content(p, i) + [] == Content(p, i);
  }

  lemma PartOfPart(mem: seq<Byte>, at: nat, len: nat, offset: nat, n: nat)
    requires at + len <= |mem| && offset + n <= len
    ensures mem[at..at + len][offset..offset + n] == mem[at + offset..at + offset + n]
  {
    var from := at + offset;
    var a, b := mem[at..at + len][offset..offset + n], mem[from..from + n];
    assert forall k :: 0 <= k < n ==> a[k] == b[k];
  }

  /** Where the data of a buffer is. */
  lemma ContentPart(p: Pool, i: nat, offset: nat, n: nat, from: nat)
    requires Shape(p) && i < |p.bufs| && offset + n <= p.bufs[i].len && from == i * p.size + p.bufs[i].start + offset
    ensures from + n <= |p.mem| && Content(p, i)[offset..offset + n] == p.mem[from..from + n]
  {
    BlockFits(|p.bufs|, i, p.size);
    PartOfPart(p.mem, i * p.size + p.bufs[i].start, p.bufs[i].len, offset, n);
  }

  // ---- growing a chain ----

  predicate AllLive(p: Pool, path: seq<nat>) { forall i :: 0 <= i < |path| ==> Live(p, path[i]) }

  /** Buffers in use that are not in `path` are as before, and so is their data. */
  predicate OthersSame(p: Pool, u: Pool, path: seq<nat>) {
    && Shape(p) && Shape(u) && |u.bufs| == |p.bufs|
    && forall i :: 0 <= i < |p.bufs| && Live(p, i) && i !in path ==>
         u.bufs[i] == p.bufs[i] && Content(u, i) == Content(p, i)
  }

  /** Nothing but buffer `f` changed, which is in the chain or was not in use. */
  lemma OtherUse(before: Pool, p: Pool, u: Pool, path: seq<nat>, f: nat)
    requires OthersSame(before, p, path) && Shape(u) && |u.bufs| == |p.bufs|
    requires f in path || !Live(before, f)
    requires forall i :: 0 <= i < |p.bufs| && i != f ==> u.bufs[i] == p.bufs[i] && Content(u, i) == Content(p, i)
    ensures OthersSame(before, u, path)
  {}

  /** The chain `path` of `buf` has grown to `grown` by buffers that were not in use. */
  predicate Grown(before: Pool, p: Pool, buf: nat, path: seq<nat>, grown: seq<nat>) {
    && Inv(p) && IsChain(p.bufs, buf, grown) && Inside(p, grown) && AllLive(p, grown) && path <= grown
    && OthersSame(before, p, path)
    && forall i :: i in grown && i !in path ==> !Live(before, i)
  }

  /** The bytes of a chain of buffers of the pool. */
  function Bytes(p: Pool, path: seq<nat>): seq<Byte> {
    if Shape(p) && Inside(p, path) then Flatten(p, path) else []
  }

  lemma AddedPart(before: Pool, p: Pool, buf: nat, path: seq<nat>, grown: seq<nat>, part: seq<Byte>)
    requires Grown(before, p, buf, path, grown) && |part| <= Tailroom(p.bufs[grown[|grown| - 1]])
    ensures
      var u := AddMem(p, grown[|grown| - 1], part);
      Grown(before, u, buf, path, grown) && Bytes(u, grown) == Bytes(p, grown) + part
  {
    var f := grown[|grown| - 1];
    var u := AddMem(p, f, part);
    LeadsInside(p.bufs, Some(buf), grown, None);
    AddMemKeeps(p, f, part);
    AddMemFlatten(p, grown, part);
    LeadsFrame(p.bufs, u.bufs, Some(buf), grown, None);
    forall i | 0 <= i < |p.bufs| && i != f ensures u.bufs[i] == p.bufs[i] && Content(u, i) == Content(p, i) {
      AddMemContent(p, f, part, i);
    }
    OtherUse(before, p, u, path, f);
  }

  lemma AllocBeside(before: Pool, p: Pool, buf: nat, path: seq<nat>, grown: seq<nat>, len: nat)
    requires Grown(before, p, buf, path, grown) && Next(p) != None && Next(p).value < |p.bufs|
    ensures
      var n, a := Next(p).value, Alloc(p, len);
      && Grown(before, a, buf, path, grown) && n !in grown && !Live(before, n)
      && Live(a, n) && a.holders[n] > 0 && IsChain(a.bufs, n, [n])
      && Bytes(a, grown) == Bytes(p, grown) && Content(a, n) == []
  {
    var n, a := Next(p).value, Alloc(p, len);
    NextIsUnused(p);
    AllocKeeps(p, len);
    LeadsInside(p.bufs, Some(buf), grown, None);
    LeadsFrame(p.bufs, a.bufs, Some(buf), grown, None);
    assert [n][1..] == [] && Leads(a.bufs, None, [], None);
    SameBytes(p, a, n);
    FlattenFrame(p, a, grown);
    OtherUse(before, p, a, path, n);
  }

  /** A chain with an empty buffer behind it has the same bytes. */
  lemma LinkedBehind(before: Pool, a: Pool, buf: nat, path: seq<nat>, grown: seq<nat>, n: nat)
    requires Grown(before, a, buf, path, grown) && n !in grown && !Live(before, n)
    requires Live(a, n) && a.holders[n] > 0 && IsChain(a.bufs, n, [n]) && Content(a, n) == []
    ensures
      var u := Insert(a, grown[|grown| - 1], n, n);
      && Grown(before, u, buf, path, grown + [n]) && u.bufs[n].frags == None
      && Bytes(u, grown + [n]) == Bytes(a, grown)
  {
    hide Content, Flatten;
    var f := grown[|grown| - 1];
    var u := Insert(a, f, n, n);
    LeadsInside(a.bufs, Some(buf), grown, None);
    LastEnds(a.bufs, Some(buf), grown, None);
    LastEnds(a.bufs, Some(n), [n], None);
    AddChain(a, buf, grown, n, [n]);
    InsertKeeps(a, f, n, [n]);
    SameBytes(a, u, |a.bufs|);
    FlattenFrame(a, u, grown);
    FlattenConcat(u, grown, [n]);
    FlattenOne(u, n);
    OtherUse(before, a, u, path, f);
  }

  /** Neither allocating nor linking moves bytes. */
  lemma SameBytes(p: Pool, u: Pool, n: nat)
    requires Shape(p) && Shape(u) && u.mem == p.mem && u.size == p.size && |u.bufs| == |p.bufs|
    requires forall i :: 0 <= i < |p.bufs| && i != n ==> u.bufs[i].start == p.bufs[i].start && u.bufs[i].len == p.bufs[i].len
    ensures forall i :: 0 <= i < |p.bufs| && i != n ==> Content(u, i) == Content(p, i)
  {}

  // ---- reading a chain ----

  /** `s` from `offset` on. */
  function From(s: seq<Byte>, offset: nat): seq<Byte> { if offset >= |s| then [] else s[offset..] }

  /** At most `len` of `s` from `offset` on. */
  function Slice(s: seq<Byte>, offset: nat, len: nat): seq<Byte> {
    var t := From(s, offset);
    if len <= |t| then t[..len] else t
  }

  /** `cur` points to the rest of a chain. */
  predicate At(p: Pool, cur: Option<nat>, rest: seq<nat>) {
    && Inside(p, rest)
    && if rest == [] then cur == None else cur == Some(rest[0]) && IsChain(p.bufs, rest[0], rest)
  }

  /** A step along a chain, and the bytes it passes. */
  lemma StepOn(p: Pool, cur: Option<nat>, rest: seq<nat>)
    requires Shape(p) && At(p, cur, rest) && cur != None
    ensures cur.value < |p.bufs| && At(p, p.bufs[cur.value].frags, rest[1..])
    ensures Flatten(p, rest) == Content(p, cur.value) + Flatten(p, rest[1..])
  {
    ChainTail(p.bufs, rest);
    forall i | 0 <= i < |rest[1..]| ensures rest[1..][i] < |p.bufs| { assert rest[1..][i] == rest[i + 1]; }
  }

  /** Skipping a buffer that ends before the offset. */
  lemma SkipOver(c: seq<Byte>, t: seq<Byte>, offset: nat)
    requires offset >= |c|
    ensures From(c + t, offset) == From(t, offset - |c|)
  {}

  /** Taking `n` bytes out of the buffer at hand. */
  lemma TakeOut(c: seq<Byte>, t: seq<Byte>, offset: nat, n: nat)
    requires offset <= |c| && n <= |c| - offset
    ensures |From(c + t, offset)| >= n && From(c + t, offset)[..n] == c[offset..offset + n]
    ensures n == |c| - offset ==> From(From(c + t, offset), n) == t
  {
    if offset < |c + t| { assert (c + t)[offset..][..n] == c[offset..offset + n]; }
  }

  /** Length of the longest common prefix. */
  function Match(a: seq<Byte>, b: seq<Byte>): (n: nat)
    ensures n <= |a| && n <= |b| && a[..n] == b[..n]
    ensures n < |a| && n < |b| ==> a[n] != b[n]
  {
    if a == [] || b == [] || a[0] != b[0] then 0 else
    var n := Match(a[1..], b[1..]);
    assert a[..n + 1] == [a[0]] + a[1..][..n] && b[..n + 1] == [b[0]] + b[1..][..n];
    n + 1
  }

  lemma MatchUnique(a: seq<Byte>, b: seq<Byte>, n: nat)
    requires n <= |a| && n <= |b| && a[..n] == b[..n]
    requires n < |a| && n < |b| ==> a[n] != b[n]
    ensures n == Match(a, b)
  {
    var m := Match(a, b);
    forall k | 0 <= k < n ensures a[k] == b[k] { assert a[..n][k] == b[..n][k]; }
    forall k | 0 <= k < m ensures a[k] == b[k] { assert a[..m][k] == b[..m][k]; }
  }

  /** Behind what a chain held, its bytes are what was appended. */
  lemma Appended(held: seq<Byte>, value: seq<Byte>, n: nat, len: nat)
    requires n <= |value|
    ensures Slice(held + value[..n], |held|, len) == value[..if len < n then len else n]
    ensures Match(From(held + value[..n], |held|), value) == n
  {
    var tail := From(held + value[..n], |held|);
    assert tail == value[..n];
    MatchUnique(tail, value, n);
  }

  // ---- nothing is wasted ----

  predicate Full(p: Pool, i: nat) { i < |p.bufs| && p.bufs[i].start + p.bufs[i].len == p.bufs[i].size }

  /** The last buffer of `path` and the fragments behind it in `grown` are filled one after the
      other, and the fragments have a whole data block each. */
  predicate Packed(p: Pool, path: seq<nat>, grown: seq<nat>) {
    && (forall i :: |path| <= i < |grown| ==> grown[i] < |p.bufs| && p.bufs[grown[i]].start == 0 && p.bufs[grown[i]].size == p.size)
    && (forall i :: 0 <= i && |path| - 1 <= i < |grown| - 1 ==> Full(p, grown[i]))
  }

  lemma FillPacked(p: Pool, path: seq<nat>, grown: seq<nat>, part: seq<Byte>)
    requires Shape(p) && grown != [] && Inside(p, grown) && (forall i, j :: 0 <= i < j < |grown| ==> grown[i] != grown[j])
    requires Packed(p, path, grown) && |part| <= Tailroom(p.bufs[grown[|grown| - 1]])
    ensures Packed(AddMem(p, grown[|grown| - 1], part), path, grown)
  {}

  lemma SameCount(p: Pool)
    requires Inv(p)
    ensures |p.holders| == |p.bufs|
  {}

  lemma ExtendPacked(p: Pool, path: seq<nat>, grown: seq<nat>, len: nat)
    requires Inv(p) && path != [] && path <= grown && Inside(p, grown) && AllLive(p, grown) && Packed(p, path, grown)
    requires Next(p) != None && len > 0 && Full(p, grown[|grown| - 1])
    ensures
      var n, a := Next(p).value, Alloc(p, len);
      && n < |a.bufs| == |a.holders| && a.holders[n] > 0
      && Packed(Insert(a, grown[|grown| - 1], n, n), path, grown + [n])
  {
    hide Inv, Alloc, Next;
    AllocEffect(p, len);
    NextIsUnused(p);
    var n := Next(p).value;
    SameCount(p);
    forall i | 0 <= i < |grown| ensures grown[i] != n { assert Live(p, grown[i]); }
  }
}
