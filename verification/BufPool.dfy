/** base/bt_buf.c itself: the buffers and their data as arrays, updated in place. */
module BufPool {
  import opened Prelude
  import opened BufSpec
  import opened BufKeeps
  import opened BufChain

  /** The chain `rest` can be released: a reference to its first buffer is held. */
  ghost predicate Releasable(p: Pool, rest: seq<nat>) {
    rest != [] && Inv(p) && IsChain(p.bufs, rest[0], rest) && Live(p, rest[0]) && p.holders[rest[0]] > 0
  }

  lemma ReleaseStep(p: Pool, rest: seq<nat>)
    requires Releasable(p, rest)
    ensures
      var b := rest[0];
      && b < |p.bufs| == |p.holders| && p.bufs[b].ref > 0 && p.holders[b] > 0
      && p.bufs[b].frags == (if |rest| > 1 then Some(rest[1]) else None)
      && Unref(p, rest) == (if p.bufs[b].ref > 1 then Drop(p, b) else Unref(Drop(p, b), rest[1..]))
      && (p.bufs[b].ref == 1 && |rest| > 1 ==> Releasable(Drop(p, b), rest[1..]))
  {
    ChainTail(p.bufs, rest);
    if p.bufs[rest[0]].ref == 1 { DropChain(p, rest); }
  }

  lemma TakeMore(bytes: seq<Byte>, value: seq<Byte>, a: nat, c: nat)
    requires a + c <= |value|
    ensures bytes + value[..a] + value[a..a + c] == bytes + value[..a + c]
  {
    assert value[..a] + value[a..a + c] == value[..a + c];
  }

  /** `added` bytes of `value` are in the chain behind what it held. */
  ghost predicate Appending(before: Pool, p: Pool, buf: nat, path: seq<nat>, grown: seq<nat>, bytes: seq<Byte>,
                            value: seq<Byte>, added: nat) {
    Grown(before, p, buf, path, grown) && grown != [] && added <= |value| && Bytes(p, grown) == bytes + value[..added]
  }

  lemma GrownFits(before: Pool, p: Pool, buf: nat, path: seq<nat>, grown: seq<nat>)
    requires Grown(before, p, buf, path, grown)
    ensures grown != [] && grown[|grown| - 1] < |p.bufs| && 0 <= Tailroom(p.bufs[grown[|grown| - 1]])
  {}

  lemma CopiedMore(tail: seq<Byte>, was: seq<Byte>, copied: nat, n: nat, part: seq<Byte>)
    requires copied <= |tail| && copied + n <= |was| && |part| == n
    requires |From(tail, copied)| >= n && From(tail, copied)[..n] == part
    ensures copied + n <= |tail|
    ensures (tail[..copied] + was[copied..])[..copied] + part + (tail[..copied] + was[copied..])[copied + n..]
            == tail[..copied + n] + was[copied + n..]
    ensures From(From(tail, copied), n) == From(tail, copied + n)
  {
    if n > 0 { assert tail[copied..][..n] == part; }
    assert tail[..copied + n] == tail[..copied] + part;
  }

  /** Comparing a part of the chain's bytes with the data. */
  lemma MatchedMore(tail: seq<Byte>, data: seq<Byte>, at: nat, n: nat, same: nat, part: seq<Byte>)
    requires at <= |tail| && at + n <= |data| && same <= n == |part| && tail[..at] == data[..at]
    requires |From(tail, at)| >= n && From(tail, at)[..n] == part
    requires part[..same] == data[at..at + same] && (same < n ==> part[same] != data[at + same])
    ensures at + n <= |tail| && tail[..at + same] == data[..at + same] && From(From(tail, at), n) == From(tail, at + n)
    ensures same < n ==> at + same == Match(tail, data)
  {
    hide Match;
    if n > 0 { assert tail[at..][..n] == part; }
    forall k | 0 <= k < n ensures tail[at + k] == part[k] { assert tail[at..][..n][k] == part[k]; }
    forall k | 0 <= k < same ensures part[k] == data[at + k] { assert part[..same][k] == data[at..at + same][k]; }
    forall k | 0 <= k < at ensures tail[k] == data[k] { assert tail[..at][k] == data[..at][k]; }
    assert tail[..at + same] == data[..at + same];
    if same < n { MatchUnique(tail, data, at + same); }
  }

  /** `copied` bytes of `tail` are read; the rest of the chain holds those still to be read. */
  ghost predicate Reads(p: Pool, cur: Option<nat>, left: nat, rest: seq<nat>, tail: seq<Byte>, copied: nat, all: nat) {
    && Shape(p) && At(p, cur, rest) && (cur != None ==> cur.value < |p.bufs| && left <= p.bufs[cur.value].len)
    && copied <= all && copied <= |tail|
    && (copied < all ==> From(tail, copied) == From(Flatten(p, rest), left))
  }

  lemma ReadsAll(p: Pool, cur: Option<nat>, left: nat, rest: seq<nat>, tail: seq<Byte>, copied: nat, all: nat)
    requires Reads(p, cur, left, rest, tail, copied, all) && (cur == None || copied == all)
    ensures tail[..copied] == if all <= |tail| then tail[..all] else tail
    ensures copied == if all <= |tail| then all else |tail|
  {}

  lemma ReadsOn(p: Pool, cur: nat, left: nat, rest: seq<nat>, tail: seq<Byte>, copied: nat, all: nat, n: nat)
    requires Reads(p, Some(cur), left, rest, tail, copied, all) && copied < all
    requires n == if all - copied < p.bufs[cur].len - left then all - copied else p.bufs[cur].len - left
    requires copied + n <= |tail|
    requires left + n == p.bufs[cur].len ==> From(tail, copied + n) == From(Flatten(p, rest[1..]), 0)
    ensures Reads(p, p.bufs[cur].frags, 0, rest[1..], tail, copied + n, all) && |rest[1..]| < |rest|
  {
    StepOn(p, Some(cur), rest);
  }

  /** A fragment of at least one byte allocated and chained behind `grown`. */
  ghost predicate Joined(p: Pool, u: Pool, grown: seq<nat>, len: nat) {
    && grown != [] && Next(p) != None
    && var n, a := Next(p).value, Alloc(p, len);
       && n < |a.bufs| == |a.holders| && a.holders[n] > 0 && grown[|grown| - 1] < |a.bufs|
       && u == Insert(a, grown[|grown| - 1], n, n)
  }

  lemma NotGrownYet(p: Pool, path: seq<nat>)
    ensures Packed(p, path, path)
  {}

  lemma FilledPart(before: Pool, p: Pool, buf: nat, path: seq<nat>, grown: seq<nat>, part: seq<Byte>)
    requires Grown(before, p, buf, path, grown) && grown != [] && Packed(p, path, grown)
    requires grown[|grown| - 1] < |p.bufs| && |part| <= Tailroom(p.bufs[grown[|grown| - 1]])
    ensures
      var last := grown[|grown| - 1];
      Shape(p) && var u := AddMem(p, last, part);
      Packed(u, path, grown) && (|part| == Tailroom(p.bufs[last]) ==> Full(u, last))
  {
    LeadsInside(p.bufs, Some(buf), grown, None);
    FillPacked(p, path, grown, part);
  }

  lemma GrownJoins(before: Pool, p: Pool, buf: nat, path: seq<nat>, grown: seq<nat>, len: nat)
    requires Grown(before, p, buf, path, grown) && path != [] && Packed(p, path, grown) && len > 0 && Full(p, grown[|grown| - 1])
    ensures forall u :: Joined(p, u, grown, len) ==> Packed(u, path, grown + [Next(p).value])
  {
    if Next(p) != None { ExtendPacked(p, path, grown, len); }
  }

  class BufferPool {
    const size: nat
    const bufs: array<Buf>
    const mem: array<Byte>
    var uninit: nat
    var free: seq<nat>
    ghost var holders: seq<nat>

    /** A pool as BT_BUF_POOL_FIXED_DEFINE lays it out. */
    constructor (count: nat, size: nat)
      ensures fresh(bufs) && fresh(mem) && bufs.Length == count && this.size == size
      ensures Inv(Abs()) && uninit == count && free == []
    {
      this.size := size;
      bufs := new Buf[count](_ => Unused);
      mem := new Byte[count * size](_ => 0);
      uninit, free := count, [];
      holders := seq(count, _ => 0);
      new;
      assert forall i :: 0 <= i < count ==> Preds(bufs[..], i) == {};
    }

    ghost function Abs(): Pool
      reads this, bufs, mem
    {
      Pool(size, bufs[..], uninit, free, mem[..], holders)
    }

    // ---- references ----

    /** bt_buf_alloc_len; the buffer it returns was not in use. */
    method AllocLen(len: nat) returns (buf: Option<nat>)
      requires Inv(Abs())
      modifies this, bufs
      ensures Abs() == Alloc(old(Abs()), len) && Inv(Abs())
      ensures buf == Next(old(Abs()))
      ensures buf == None <==> old(uninit == 0 && free == [])
      ensures buf != None ==> buf.value < bufs.Length && !Live(old(Abs()), buf.value) && Live(Abs(), buf.value)
    {
      ghost var before := Abs();
      NextIsUnused(before);
      AllocKeeps(before, len);
      var n: nat;
      if uninit > 0 {
        if uninit < bufs.Length && free != [] {
          n := free[0];
          free := free[1..];
        } else {
          n := bufs.Length - uninit;
          uninit := uninit - 1;
        }
      } else if free != [] {
        n := free[0];
        free := free[1..];
      } else {
        return None;
      }
      bufs[n] := Buf(1, None, 0, 0, if len > 0 then size else 0);
      holders := holders[n := 1];
      buf := Some(n);
    }

    /** bt_buf_ref */
    method RefBuf(buf: nat)
      requires Inv(Abs()) && Live(Abs(), buf)
      modifies this, bufs
      ensures Abs() == Ref(old(Abs()), buf)
      ensures Inv(Abs()) <==> old(bufs[buf].ref) < 255
    {
      RefKeepsExactly(Abs(), buf);
      bufs[buf] := bufs[buf].(ref := (bufs[buf].ref + 1) % 256);
      holders := holders[buf := holders[buf] + 1];
    }

    /** One round of the loop of bt_buf_unref: whether it goes on. */
    method DropOne(b: nat) returns (freed: bool)
      requires b < bufs.Length && |holders| == bufs.Length && bufs[b].ref > 0 && holders[b] > 0
      modifies this, bufs
      ensures Abs() == Drop(old(Abs()), b)
      ensures freed <==> old(bufs[b].ref) == 1
    {
      var frags := bufs[b].frags;
      freed := bufs[b].ref == 1;
      if !freed {
        bufs[b] := bufs[b].(ref := bufs[b].ref - 1);
        holders := holders[b := holders[b] - 1];
      } else {
        bufs[b] := Unused;
        free := [b] + free;
        holders := holders[b := holders[b] - 1];
        if frags != None && frags.value < bufs.Length {
          holders := holders[frags.value := holders[frags.value] + 1];
        }
      }
    }

    /** bt_buf_unref; `path` is the chain of `buf`. */
    method UnrefBuf(buf: nat, ghost path: seq<nat>)
      requires Inv(Abs()) && Live(Abs(), buf) && holders[buf] > 0 && IsChain(bufs[..], buf, path)
      modifies this, bufs
      ensures Abs() == Unref(old(Abs()), path) && Inv(Abs()) && FreesRun(old(Abs()), Abs(), path)
    {
      ghost var before := Abs();
      UnrefKeeps(before, path);
      UnrefFreesRun(before, path);
      var cur, going := Some(buf), true;
      ghost var rest := path;
      while cur != None && going
        invariant if going then cur == (if rest == [] then None else Some(rest[0])) && Unref(Abs(), rest) == Unref(before, path)
                  else Abs() == Unref(before, path)
        invariant going && rest != [] ==> Releasable(Abs(), rest)
        decreases |rest|, going
      {
        var b := cur.value;
        ghost var was := Abs();
        ReleaseStep(was, rest);
        var frags := bufs[b].frags;
        going := DropOne(b);
        cur := frags;
        rest := rest[1..];
      }
    }

    // ---- fragments ----

    /** bt_buf_frag_last */
    method FragLast(buf: nat, ghost path: seq<nat>) returns (last: nat)
      requires IsChain(bufs[..], buf, path)
      ensures last == path[|path| - 1] && last < bufs.Length && bufs[last].frags == None
    {
      last := buf;
      ghost var rest := path;
      ChainTail(bufs[..], rest);
      while bufs[last].frags != None
        invariant rest != [] && IsChain(bufs[..], last, rest) && rest[|rest| - 1] == path[|path| - 1]
        invariant last < bufs.Length
        decreases |rest|
      {
        ChainTail(bufs[..], rest);
        last := bufs[last].frags.value;
        rest := rest[1..];
        ChainTail(bufs[..], rest);
      }
      ChainTail(bufs[..], rest);
    }

    /** bt_buf_frag_insert */
    method FragInsert(parent: nat, frag: nat, ghost fpath: seq<nat>)
      requires Inv(Abs()) && Live(Abs(), parent) && Live(Abs(), frag) && holders[frag] > 0
      requires IsChain(bufs[..], frag, fpath) && parent !in fpath && Live(Abs(), fpath[|fpath| - 1])
      modifies this, bufs
      ensures Abs() == Insert(old(Abs()), parent, frag, fpath[|fpath| - 1]) && Inv(Abs())
    {
      InsertKeeps(Abs(), parent, frag, fpath);
      if bufs[parent].frags != None {
        var last := FragLast(frag, fpath);
        bufs[last] := bufs[last].(frags := bufs[parent].frags);
      }
      bufs[parent] := bufs[parent].(frags := Some(frag));
      holders := holders[frag := holders[frag] - 1];
    }

    /** bt_buf_frag_add */
    method FragAdd(head: Option<nat>, frag: nat, ghost path: seq<nat>, ghost fpath: seq<nat>) returns (first: nat)
      requires Inv(Abs()) && Live(Abs(), frag) && holders[frag] > 0
      requires IsChain(bufs[..], frag, fpath) && Live(Abs(), fpath[|fpath| - 1])
      requires head != None ==>
                 IsChain(bufs[..], head.value, path) && Live(Abs(), path[|path| - 1]) && path[|path| - 1] !in fpath
      modifies this, bufs
      ensures Inv(Abs()) <==> head != None || old(bufs[frag].ref) < 255
      ensures head == None ==> first == frag && Abs() == Ref(old(Abs()), frag)
      ensures head != None ==> first == head.value && Abs() == Insert(old(Abs()), path[|path| - 1], frag, fpath[|fpath| - 1])
    {
      if head == None {
        RefBuf(frag);
        return frag;
      }
      var last := FragLast(head.value, path);
      FragInsert(last, frag, fpath);
      first := head.value;
    }

    /** bt_buf_frag_del; returns what followed the fragment. */
    method FragDel(parent: Option<nat>, frag: nat) returns (next: Option<nat>)
      requires Inv(Abs()) && Live(Abs(), frag) && bufs[frag].frags != Some(frag)
      requires parent != None ==> Live(Abs(), parent.value) && bufs[parent.value].frags == Some(frag) && parent.value != frag
      requires parent == None ==> holders[frag] > 0
      modifies this, bufs
      ensures Abs() == Unref(Detach(old(Abs()), parent, frag), [frag]) && Inv(Abs())
      ensures next == old(bufs[frag].frags)
    {
      ghost var before := Abs();
      DetachKeeps(before, parent, frag);
      next := bufs[frag].frags;
      if parent != None {
        bufs[parent.value] := bufs[parent.value].(frags := bufs[frag].frags);
        holders := holders[frag := holders[frag] + 1];
      } else if next != None {
        assert Counted(before, frag);
        holders := holders[next.value := holders[next.value] + 1];
      }
      bufs[frag] := bufs[frag].(frags := None);
      assert Abs() == Detach(before, parent, frag);
      UnrefBuf(frag, [frag]);
    }

    // ---- data ----

    /** bt_buf_add_mem */
    method AddMemory(i: nat, v: seq<Byte>)
      requires Inv(Abs()) && i < bufs.Length && |v| <= Tailroom(bufs[i])
      modifies bufs, mem
      ensures Abs() == AddMem(old(Abs()), i, v) && Inv(Abs())
    {
      AddMemKeeps(Abs(), i, v);
      BlockFits(bufs.Length, i, size);
      var at := i * size + bufs[i].start + bufs[i].len;
      Store(at, v);
      bufs[i] := bufs[i].(len := bufs[i].len + |v|);
    }

    /** memcpy into the data of the pool */
    method Store(at: nat, v: seq<Byte>)
      requires at + |v| <= mem.Length
      modifies mem
      ensures mem[..] == old(mem[..at]) + v + old(mem[at + |v|..])
    {
      var k := 0;
      while k < |v|
        invariant k <= |v|
        invariant forall j :: 0 <= j < at || at + k <= j < mem.Length ==> mem[j] == old(mem[j])
        invariant forall j :: at <= j < at + k ==> mem[j] == v[j - at]
      {
        mem[at + k] := v[k];
        k := k + 1;
      }
    }

    /** Bytes for the last fragment of a chain. */
    method FillLast(buf: nat, frag: nat, part: seq<Byte>, ghost before: Pool, ghost path: seq<nat>, ghost grown: seq<nat>)
      requires Grown(before, Abs(), buf, path, grown) && frag == grown[|grown| - 1] && |part| <= Tailroom(bufs[frag])
      modifies bufs, mem
      ensures Grown(before, Abs(), buf, path, grown) && Bytes(Abs(), grown) == old(Bytes(Abs(), grown)) + part
      ensures Abs() == AddMem(old(Abs()), frag, part)
    {
      AddedPart(before, Abs(), buf, path, grown, part);
      AddMemory(frag, part);
    }

    /** A new last fragment, if the pool has one. */
    method Extend(buf: nat, len: nat, ghost before: Pool, ghost path: seq<nat>, ghost grown: seq<nat>)
      returns (next: Option<nat>, ghost longer: seq<nat>)
      requires Grown(before, Abs(), buf, path, grown)
      modifies this, bufs
      ensures Grown(before, Abs(), buf, path, longer) && Bytes(Abs(), longer) == old(Bytes(Abs(), grown))
      ensures next == None ==> uninit == 0 && free == [] && longer == grown
      ensures next != None ==> longer == grown + [next.value] && uninit + |free| < old(uninit + |free|)
      ensures next == None ==> Abs() == old(Abs())
      ensures next != None ==> next == Next(old(Abs())) && Joined(old(Abs()), Abs(), grown, len)
    {
      ghost var full := Abs();
      longer := grown;
      next := AllocLen(len);
      if next != None {
        AllocBeside(before, full, buf, path, grown, len);
        LinkedBehind(before, Abs(), buf, path, grown, next.value);
        var _ := FragAdd(Some(buf), next.value, grown, [next.value]);
        longer := grown + [next.value];
      }
    }

    /** One round of the loop of bt_buf_append_bytes; `next` is None when it is the last. */
    method AppendRound(buf: nat, frag: nat, value: seq<Byte>, added: nat, ghost before: Pool,
                       ghost path: seq<nat>, ghost grown: seq<nat>, ghost bytes: seq<Byte>)
      returns (next: Option<nat>, total: nat, ghost longer: seq<nat>)
      requires Appending(before, Abs(), buf, path, grown, bytes, value, added) && frag == grown[|grown| - 1] && size > 0
      requires path != [] && Packed(Abs(), path, grown)
      modifies this, bufs, mem
      ensures Appending(before, Abs(), buf, path, longer, bytes, value, total) && Packed(Abs(), path, longer)
      ensures next == None ==> total == |value| || (uninit == 0 && free == [] && Full(Abs(), longer[|longer| - 1]))
      ensures next != None ==> next.value == longer[|longer| - 1] && uninit + |free| < old(uninit + |free|)
    {
      hide Packed, Alloc, Next, Insert, AddMem, Joined, Full, Grown, Bytes, Inv;
      GrownFits(before, Abs(), buf, path, grown);
      var room := bufs[frag].size - bufs[frag].start - bufs[frag].len;
      var count := if |value| - added < room then |value| - added else room;
      TakeMore(bytes, value, added, count);
      FilledPart(before, Abs(), buf, path, grown, value[added..added + count]);
      FillLast(buf, frag, value[added..added + count], before, path, grown);
      total, next, longer := added + count, None, grown;
      if total < |value| {
        ghost var full := Abs();
        GrownJoins(before, full, buf, path, grown, if |value| - total < size then |value| - total else size);
        next, longer := Extend(buf, if |value| - total < size then |value| - total else size, before, path, grown);
      }
    }

    /** bt_buf_append_bytes, allocating from the pool.  `path` is the chain of `buf`;
        it grows to `grown`. */
    method AppendBytes(buf: nat, value: seq<Byte>, ghost path: seq<nat>) returns (added: nat, ghost grown: seq<nat>)
      requires Inv(Abs()) && IsChain(bufs[..], buf, path) && Inside(Abs(), path) && AllLive(Abs(), path) && size > 0
      modifies this, bufs, mem
      ensures Grown(old(Abs()), Abs(), buf, path, grown)
      ensures added <= |value| && Bytes(Abs(), grown) == old(Bytes(Abs(), path)) + value[..added]
      ensures added < |value| ==> uninit == 0 && free == [] && Full(Abs(), grown[|grown| - 1])
      ensures Packed(Abs(), path, grown)
    {
      hide Packed;
      ghost var before := Abs();
      ghost var bytes := Bytes(before, path);
      NotGrownYet(before, path);
      var frag := FragLast(buf, path);
      added, grown := 0, path;
      assert value[..0] == [];
      while true
        invariant Appending(before, Abs(), buf, path, grown, bytes, value, added) && frag == grown[|grown| - 1]
        invariant Packed(Abs(), path, grown)
        decreases uninit + |free|
      {
        var next;
        next, added, grown := AppendRound(buf, frag, value, added, before, path, grown, bytes);
        if next == None {
          return;
        }
        frag := next.value;
      }
    }

    // ---- reading a chain ----

    /** bt_buf_frags_len */
    method FragsLen(buf: nat, ghost path: seq<nat>) returns (bytes: nat)
      requires Shape(Abs()) && IsChain(bufs[..], buf, path) && Inside(Abs(), path)
      ensures bytes == |Flatten(Abs(), path)|
    {
      var cur := Some(buf);
      ghost var rest := path;
      bytes := 0;
      while cur != None
        invariant At(Abs(), cur, rest) && bytes + |Flatten(Abs(), rest)| == |Flatten(Abs(), path)|
        decreases |rest|
      {
        StepOn(Abs(), cur, rest);
        bytes := bytes + bufs[cur.value].len;
        cur := bufs[cur.value].frags;
        rest := rest[1..];
      }
    }

    /** The loop with which bt_buf_linearize and bt_buf_data_match find the first fragment. */
    method SkipTo(src: nat, offset: nat, ghost path: seq<nat>) returns (cur: Option<nat>, left: nat, ghost rest: seq<nat>)
      requires Shape(Abs()) && IsChain(bufs[..], src, path) && Inside(Abs(), path)
      ensures At(Abs(), cur, rest) && (cur != None ==> left < bufs[cur.value].len)
      ensures From(Flatten(Abs(), path), offset) == From(Flatten(Abs(), rest), left)
    {
      cur, left, rest := Some(src), offset, path;
      while cur != None && left >= bufs[cur.value].len
        invariant At(Abs(), cur, rest)
        invariant From(Flatten(Abs(), path), offset) == From(Flatten(Abs(), rest), left)
        decreases |rest|
      {
        StepOn(Abs(), cur, rest);
        SkipOver(Content(Abs(), cur.value), Flatten(Abs(), rest[1..]), left);
        left := left - bufs[cur.value].len;
        cur := bufs[cur.value].frags;
        rest := rest[1..];
      }
    }

    /** memcpy out of one buffer */
    method CopyOut(dst: array<Byte>, at: nat, i: nat, offset: nat, n: nat)
      requires Shape(Abs()) && i < bufs.Length && offset + n <= bufs[i].len && at + n <= dst.Length && dst != mem
      modifies dst
      ensures dst[..] == old(dst[..at]) + Content(Abs(), i)[offset..offset + n] + old(dst[at + n..])
    {
      var from := i * size + bufs[i].start + offset;
      ContentPart(Abs(), i, offset, n, from);
      Load(dst, at, from, n);
      ContentPart(Abs(), i, offset, n, from);
    }

    method Load(dst: array<Byte>, at: nat, from: nat, n: nat)
      requires at + n <= dst.Length && from + n <= mem.Length && dst != mem
      modifies dst
      ensures dst[..] == old(dst[..at]) + mem[from..from + n] + old(dst[at + n..])
    {
      var k := 0;
      while k < n
        invariant k <= n
        invariant forall j :: 0 <= j < at || at + k <= j < dst.Length ==> dst[j] == old(dst[j])
        invariant forall j :: at <= j < at + k ==> dst[j] == mem[from + (j - at)]
      {
        dst[at + k] := mem[from + k];
        k := k + 1;
      }
    }

    /** One round of the copying loop of bt_buf_linearize. */
    method CopyRound(dst: array<Byte>, copied: nat, all: nat, cur: nat, left: nat,
                     ghost p: Pool, ghost rest: seq<nat>, ghost tail: seq<Byte>, ghost was: seq<Byte>)
      returns (total: nat, next: Option<nat>)
      requires Abs() == p && Reads(p, Some(cur), left, rest, tail, copied, all) && copied < all <= dst.Length
      requires dst != mem && |was| == dst.Length && dst[..] == tail[..copied] + was[copied..]
      modifies dst
      ensures Abs() == p && Reads(p, next, 0, rest[1..], tail, total, all) && rest != []
      ensures dst[..] == tail[..total] + was[total..]
    {
      var b := bufs[cur];
      var n := if all - copied < b.len - left then all - copied else b.len - left;
      StepOn(p, Some(cur), rest);
      ghost var c, t := Content(p, cur), Flatten(p, rest[1..]);
      TakeOut(c, t, left, n);
      CopyOut(dst, copied, cur, left, n);
      CopiedMore(tail, was, copied, n, c[left..left + n]);
      ReadsOn(p, cur, left, rest, tail, copied, all, n);
      total, next := copied + n, b.frags;
    }

    /** bt_buf_linearize */
    method Linearize(dst: array<Byte>, src: nat, offset: nat, len: nat, ghost path: seq<nat>) returns (copied: nat)
      requires Shape(Abs()) && IsChain(bufs[..], src, path) && Inside(Abs(), path) && dst != mem
      modifies dst
      ensures var out := Slice(Flatten(Abs(), path), offset, if len < dst.Length then len else dst.Length);
              copied == |out| && dst[..] == out + old(dst[..])[|out|..]
    {
      var all := if len < dst.Length then len else dst.Length;
      ghost var p, was := Abs(), dst[..];
      ghost var tail := From(Flatten(p, path), offset);
      var cur: Option<nat>, left: nat;
      ghost var rest: seq<nat>;
      cur, left, rest := SkipTo(src, offset, path);
      copied := 0;
      while cur != None && copied < all
        invariant Abs() == p && Reads(p, cur, left, rest, tail, copied, all)
        invariant dst[..] == tail[..copied] + was[copied..]
        decreases |rest|
      {
        copied, cur := CopyRound(dst, copied, all, cur.value, left, p, rest, tail, was);
        left := 0;
        rest := rest[1..];
      }
      ReadsAll(p, cur, left, rest, tail, copied, all);
    }

    /** The bytes of one buffer from `offset` on against `data`: how many agree. */
    method CompareOne(i: nat, offset: nat, data: seq<Byte>, at: nat, n: nat) returns (same: nat)
      requires Shape(Abs()) && i < bufs.Length && offset + n <= bufs[i].len && at + n <= |data|
      ensures same <= n && Content(Abs(), i)[offset..offset + same] == data[at..at + same]
      ensures same < n ==> Content(Abs(), i)[offset + same] != data[at + same]
    {
      var from := i * size + bufs[i].start + offset;
      ContentPart(Abs(), i, offset, n, from);
      same := Compare(from, data, at, n);
      ContentPart(Abs(), i, offset, same, from);
      if same < n { ContentPart(Abs(), i, offset + same, 1, from + same); }
    }

    method Compare(from: nat, data: seq<Byte>, at: nat, n: nat) returns (same: nat)
      requires from + n <= mem.Length && at + n <= |data|
      ensures same <= n && mem[from..from + same] == data[at..at + same]
      ensures same < n ==> mem[from + same] != data[at + same]
    {
      same := 0;
      while same < n && data[at + same] == mem[from + same]
        invariant same <= n
        invariant mem[from..from + same] == data[at..at + same]
      {
        same := same + 1;
      }
    }

    /** One round of bt_buf_data_match: the part of one fragment. */
    method CompareRound(cur: nat, left: nat, data: seq<Byte>, compared: nat, ghost rest: seq<nat>, ghost tail: seq<Byte>)
      returns (next: nat, differs: bool)
      requires Shape(Abs()) && At(Abs(), Some(cur), rest) && cur < bufs.Length && left <= bufs[cur].len
      requires compared < |data| && compared <= |tail| && tail[..compared] == data[..compared]
      requires From(tail, compared) == From(Flatten(Abs(), rest), left)
      ensures next <= |data| && next <= |tail| && tail[..next] == data[..next]
      ensures differs ==> next == Match(tail, data)
      ensures !differs ==> At(Abs(), bufs[cur].frags, rest[1..])
      ensures !differs && next < |data| ==> From(tail, next) == Flatten(Abs(), rest[1..])
    {
      hide Match, Content, From, Flatten, IsChain;
      var b := bufs[cur];
      var n := if |data| - compared < b.len - left then |data| - compared else b.len - left;
      var same := CompareOne(cur, left, data, compared, n);
      StepOn(Abs(), Some(cur), rest);
      ghost var c, t := Content(Abs(), cur), Flatten(Abs(), rest[1..]);
      TakeOut(c, t, left, n);
      MatchedMore(tail, data, compared, n, same, c[left..left + n]);
      next, differs := compared + same, same < n;
    }

    /** bt_buf_data_match: the length of the longest common prefix. */
    method DataMatch(buf: nat, offset: nat, data: seq<Byte>, ghost path: seq<nat>) returns (compared: nat)
      requires Shape(Abs()) && IsChain(bufs[..], buf, path) && Inside(Abs(), path)
      ensures compared == Match(From(Flatten(Abs(), path), offset), data)
    {
      hide Match, Content;
      ghost var tail := From(Flatten(Abs(), path), offset);
      var cur: Option<nat>, left: nat;
      ghost var rest: seq<nat>;
      cur, left, rest := SkipTo(buf, offset, path);
      compared := 0;
      while cur != None && compared < |data|
        invariant At(Abs(), cur, rest) && (cur != None ==> left <= bufs[cur.value].len)
        invariant compared <= |data| && compared <= |tail| && tail[..compared] == data[..compared]
        invariant compared < |data| ==> From(tail, compared) == From(Flatten(Abs(), rest), left)
        decreases |rest|
      {
        var differs: bool;
        compared, differs := CompareRound(cur.value, left, data, compared, rest, tail);
        if differs {
          return;
        }
        cur := bufs[cur.value].frags;
        rest := rest[1..];
        left := 0;
      }
      MatchUnique(tail, data, compared);
    }

    /** Appending and then reading from where the chain ended: linearize gives back the
        bytes that got in, as far as there is room for them, and comparing finds just
        these to agree. */
    method AppendReadBack(buf: nat, value: seq<Byte>, dst: array<Byte>, ghost path: seq<nat>)
      returns (added: nat, copied: nat, matched: nat, ghost grown: seq<nat>)
      requires Inv(Abs()) && IsChain(bufs[..], buf, path) && Inside(Abs(), path) && AllLive(Abs(), path) && size > 0
      requires dst != mem
      modifies this, bufs, mem, dst
      ensures Grown(old(Abs()), Abs(), buf, path, grown)
      ensures added <= |value| && (added < |value| ==> uninit == 0 && free == [])
      ensures copied == if dst.Length < added then dst.Length else added
      ensures dst[..] == value[..copied] + old(dst[..])[copied..]
      ensures matched == added
    {
      ghost var held := Flatten(Abs(), path);
      var end := FragsLen(buf, path);
      added, grown := AppendBytes(buf, value, path);
      Appended(held, value, added, if |value| < dst.Length then |value| else dst.Length);
      copied := Linearize(dst, buf, end, |value|, grown);
      matched := DataMatch(buf, end, value, grown);
    }
  }
}
