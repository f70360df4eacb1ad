/** A pool of network buffers with fixed-size data (base/bt_buf.c): buffers are indices
    into the pool, as bt_buf_id computes them.  `holders` counts the references held
    outside the chains; no operation reads it. */
module BufSpec {
  import opened Prelude

  /** struct bt_buf: `ref` is one octet; `start` is the headroom, data - __buf; `size` is
      zero for a buffer without a data block. */
  datatype Buf = Buf(ref: Byte, frags: Option<nat>, start: nat, len: nat, size: nat)

  datatype Pool = Pool(size: nat, bufs: seq<Buf>, uninit: nat, free: seq<nat>, mem: seq<Byte>, holders: seq<nat>)

  const Unused := Buf(0, None, 0, 0, 0)

  // ---- what holds of a pool ----

  predicate Live(p: Pool, i: nat) { i < |p.bufs| && p.bufs[i].ref > 0 }

  /** Buffers chained in front of `i`. */
  function Preds(bufs: seq<Buf>, i: nat): set<nat> {
    set j: nat | j < |bufs| && bufs[j].frags == Some(i)
  }

  /** Data stays in the buffer's own block. */
  predicate Shape(p: Pool) {
    && |p.mem| == |p.bufs| * p.size
    && forall i :: 0 <= i < |p.bufs| ==> p.bufs[i].start + p.bufs[i].len <= p.bufs[i].size <= p.size
  }

  /** The count of a buffer is the references held outside and those of the buffers
      chained in front of it; a buffer counted zero has no fragments. */
  predicate Counted(p: Pool, i: nat)
    requires i < |p.bufs| == |p.holders|
  {
    var b := p.bufs[i];
    && b.ref == p.holders[i] + |Preds(p.bufs, i)|
    && (b.ref == 0 ==> b.frags == None)
    && (b.frags != None ==> b.frags.value < |p.bufs|)
  }

  /** The buffers used at least once are split into the free list and the live ones. */
  predicate Split(p: Pool) {
    && p.uninit <= |p.bufs|
    && (forall m, n :: 0 <= m < n < |p.free| ==> p.free[m] != p.free[n])
    && (forall m :: 0 <= m < |p.free| ==> p.free[m] < |p.bufs| - p.uninit)
    && (forall i :: 0 <= i < |p.bufs| ==> (p.bufs[i].ref > 0 <==> i < |p.bufs| - p.uninit && i !in p.free))
  }

  predicate Inv(p: Pool) {
    && |p.holders| == |p.bufs|
    && Shape(p) && Split(p)
    && (forall i :: 0 <= i < |p.bufs| ==> Counted(p, i))
  }

  /** `path` follows the fragments from `b` up to `end`, meeting no buffer twice. */
  predicate Leads(bufs: seq<Buf>, b: Option<nat>, path: seq<nat>, end: Option<nat>)
    decreases |path|
  {
    if path == [] then b == end
    else
      && b == Some(path[0]) && path[0] < |bufs| && path[0] !in path[1..]
      && Leads(bufs, bufs[path[0]].frags, path[1..], end)
  }

  /** `path` is the whole chain of `b`. */
  predicate IsChain(bufs: seq<Buf>, b: nat, path: seq<nat>) {
    path != [] && Leads(bufs, Some(b), path, None)
  }

  // ---- the operations ----

  /** The buffer bt_buf_alloc_len takes: a freed one if there is any and the pool has
      been used, else one never used, else none. */
  function Next(p: Pool): Option<nat> {
    if p.uninit > 0
    then if p.uninit < |p.bufs| && p.free != [] then Some(p.free[0])
         else if p.uninit <= |p.bufs| then Some(|p.bufs| - p.uninit) else None
    else if p.free != [] then Some(p.free[0])
    else None
  }

  /** Without data if `size` is zero. */
  function Alloc(p: Pool, size: nat): Pool {
    var n := Next(p);
    if n == None || n.value >= |p.bufs| || |p.holders| != |p.bufs| then p else
    var fresh' := p.uninit > 0 && !(p.uninit < |p.bufs| && p.free != []);
    p.(bufs := p.bufs[n.value := Buf(1, None, 0, 0, if size > 0 then p.size else 0)],
       uninit := if fresh' then p.uninit - 1 else p.uninit,
       free := if fresh' then p.free else p.free[1..],
       holders := p.holders[n.value := 1])
  }

  /** bt_buf_ref, which does not look whether the count wraps around */
  function Ref(p: Pool, b: nat): Pool
    requires b < |p.bufs| == |p.holders|
  {
    p.(bufs := p.bufs[b := p.bufs[b].(ref := (p.bufs[b].ref + 1) % 256)], holders := p.holders[b := p.holders[b] + 1])
  }

  /** One round of bt_buf_unref: a reference held outside is dropped; a buffer whose
      count reaches zero goes back to the pool, its reference to the next is the caller's. */
  function Drop(p: Pool, b: nat): Pool
    requires b < |p.bufs| == |p.holders| && p.bufs[b].ref > 0 && p.holders[b] > 0
  {
    var x := p.bufs[b];
    if x.ref > 1
    then p.(bufs := p.bufs[b := x.(ref := x.ref - 1)], holders := p.holders[b := p.holders[b] - 1])
    else
      var h := p.holders[b := p.holders[b] - 1];
      p.(bufs := p.bufs[b := Unused], free := [b] + p.free,
         holders := if x.frags != None && x.frags.value < |h| then h[x.frags.value := h[x.frags.value] + 1] else h)
  }

  /** bt_buf_unref along the chain `path` */
  function Unref(p: Pool, path: seq<nat>): Pool
    decreases |path|
  {
    if path == [] || !(path[0] < |p.bufs| == |p.holders|) || p.bufs[path[0]].ref == 0 || p.holders[path[0]] == 0 then p
    else if p.bufs[path[0]].ref > 1 then Drop(p, path[0])
    else Unref(Drop(p, path[0]), path[1..])
  }

  /** Length of the leading run of `path` that has just one reference each. */
  function Run(bufs: seq<Buf>, path: seq<nat>): (r: nat)
    ensures r <= |path|
    ensures forall i :: 0 <= i < r ==> path[i] < |bufs| && bufs[path[i]].ref == 1
    ensures r < |path| && path[r] < |bufs| ==> bufs[path[r]].ref != 1
  {
    if path == [] || path[0] >= |bufs| || bufs[path[0]].ref != 1 then 0 else 1 + Run(bufs, path[1..])
  }

  function Reverse<T>(s: seq<T>): seq<T> { if s == [] then [] else Reverse(s[1..]) + [s[0]] }

  /** Chains `frag` behind `parent`, which takes over a reference held outside; `last` is
      the last buffer of the chain of `frag`. */
  function Insert(p: Pool, parent: nat, frag: nat, last: nat): Pool
    requires parent < |p.bufs| == |p.holders| && frag < |p.bufs| && last < |p.bufs| && p.holders[frag] > 0
  {
    var next := p.bufs[parent].frags;
    var bufs := if next != None then p.bufs[last := p.bufs[last].(frags := next)] else p.bufs;
    p.(bufs := bufs[parent := bufs[parent].(frags := Some(frag))], holders := p.holders[frag := p.holders[frag] - 1])
  }

  // ---- data ----

  lemma BlockFits(n: nat, i: nat, size: nat)
    requires i < n
    ensures 0 <= i * size && i * size + size <= n * size
  {
    assert (i + 1) * size <= n * size;
  }

  /** Data blocks of different buffers do not overlap. */
  lemma BlocksDisjoint(i: nat, j: nat, size: nat)
    requires i < j
    ensures i * size + size <= j * size
  {
    assert (i + 1) * size <= j * size;
  }

  /** The bytes of one buffer. */
  function Content(p: Pool, i: nat): (c: seq<Byte>)
    requires Shape(p) && i < |p.bufs|
    ensures |c| == p.bufs[i].len
  {
    BlockFits(|p.bufs|, i, p.size);
    var at := i * p.size + p.bufs[i].start;
    p.mem[at..at + p.bufs[i].len]
  }

  /** The bytes of a chain. */
  function Flatten(p: Pool, path: seq<nat>): seq<Byte>
    requires Shape(p) && forall i :: 0 <= i < |path| ==> path[i] < |p.bufs|
  {
    if path == [] then [] else Content(p, path[0]) + Flatten(p, path[1..])
  }

  /** bt_buf_tailroom */
  function Tailroom(b: Buf): int { b.size - b.start - b.len }

  /** bt_buf_add_mem: copies behind the data of buffer `i`. */
  function AddMem(p: Pool, i: nat, v: seq<Byte>): (u: Pool)
    requires Shape(p) && i < |p.bufs| && |v| <= Tailroom(p.bufs[i])
  {
    BlockFits(|p.bufs|, i, p.size);
    var b := p.bufs[i];
    var at := i * p.size + b.start + b.len;
    p.(mem := p.mem[..at] + v + p.mem[at + |v|..], bufs := p.bufs[i := b.(len := b.len + |v|)])
  }

  /** `frag` taken out of the chain behind `parent`; the reference to it is the caller's,
      the rest of the chain is the parent's, or the caller's without one. */
  function Detach(p: Pool, parent: Option<nat>, frag: nat): Pool
    requires frag < |p.bufs| == |p.holders|
  {
    var next := p.bufs[frag].frags;
    var bufs := if parent != None && parent.value < |p.bufs|
                then p.bufs[parent.value := p.bufs[parent.value].(frags := next)] else p.bufs;
    var held := if parent != None then p.holders[frag := p.holders[frag] + 1]
                else if next != None && next.value < |p.holders| then p.holders[next.value := p.holders[next.value] + 1]
                else p.holders;
    p.(bufs := bufs[frag := bufs[frag].(frags := None)], holders := held)
  }
}
