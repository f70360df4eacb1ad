/** The ASE Control Point itself (bluetooth/audio/ascs.c): a first pass over a write that
    only measures it, a second that runs it, and the response buffer both share. */
module AscsControlPoint {
  import opened Prelude
  import opened AscsControl
  import opened SimpleBuf

  // ---- measuring ----

  predicate HasTail(op: Op) { op in {Config, Enable, Metadata} }

  lemma {:induction false} SameSize(op: Op, d: seq<Byte>, n: nat, size: nat)
    requires !HasTail(op) && size == Fixed(op)
    ensures PullEntries(op, d, n).Got? <==> |d| >= size * n
    ensures PullEntries(op, d, n).Got? ==> |PullEntries(op, d, n).rest| == |d| - size * n
    decreases n
  {
    if n > 0 {
      assert size * n == size + size * (n - 1);
      if |d| >= size { SameSize(op, PullEntry(op, d).rest, n - 1, size); }
    }
  }

  /** The entries read from `d` are `es`, and nothing is behind them. */
  ghost predicate Holds(op: Op, d: seq<Byte>, n: nat, es: seq<seq<Byte>>) {
    PullEntries(op, d, n) == Got(es, [])
  }

  ghost predicate Whole(op: Op, d: seq<Byte>, n: nat) {
    PullEntries(op, d, n).Got? && PullEntries(op, d, n).rest == []
  }

  lemma NoneWhole(op: Op, d: seq<Byte>)
    ensures Whole(op, d, 0) <==> d == []
  {}

  lemma NextWhole(op: Op, d: seq<Byte>, n: nat)
    requires n > 0
    ensures Whole(op, d, n) <==> PullEntry(op, d).Got? && Whole(op, PullEntry(op, d).rest, n - 1)
  {}

  lemma AcceptIs(op: Op, d: seq<Byte>, lim: Limits)
    requires d != []
    ensures Accept(op, d, lim).Some? <==> NumberTaken(op, d[0], lim) && Whole(op, d[1..], d[0])
    ensures Accept(op, d, lim).Some? ==> Holds(op, d[1..], d[0], Accept(op, d, lim).value)
  {}

  lemma TailReads(d: seq<Byte>, n: nat, m: nat)
    requires |d| >= n + m
    ensures d[..n] + d[n..][..m] == d[..n + m] && d[n..][m..] == d[n + m..]
  {}

  lemma EntryInParts(op: Op, d: seq<Byte>)
    requires HasTail(op) && |d| >= Fixed(op)
    ensures var tail := d[..Fixed(op)][Fixed(op) - 1];
            && (PullEntry(op, d).Got? <==> |d[Fixed(op)..]| >= tail)
            && (PullEntry(op, d).Got? ==> PullEntry(op, d).rest == d[Fixed(op)..][tail..])
  {
    var tail := d[..Fixed(op)][Fixed(op) - 1];
    if |d| >= Fixed(op) + tail { TailReads(d, Fixed(op), tail); }
  }

  /** One round of the loops of is_valid_config_len, is_valid_enable_len and
      is_valid_metadata_len. */
  method MeasureEntry(op: Op, buf: Buffer) returns (ok: bool)
    requires buf.Valid() && HasTail(op)
    modifies buf
    ensures buf.Valid() && (ok <==> PullEntry(op, old(buf.Contents())).Got?)
    ensures ok ==> buf.Contents() == PullEntry(op, old(buf.Contents())).rest
  {
    if buf.len < Fixed(op) {
      return false;
    }
    EntryInParts(op, buf.Contents());
    hide PullEntry;
    var fixed := buf.PullMem(Fixed(op));
    var tail := fixed[Fixed(op) - 1];
    if buf.len < tail {
      return false;
    }
    var rest := buf.PullMem(tail);
    ok := true;
  }

  method MeasureEntries(op: Op, buf: Buffer, n: Byte) returns (ok: bool)
    requires buf.Valid() && HasTail(op)
    modifies buf
    ensures ok <==> Whole(op, old(buf.Contents()), n)
  {
    hide Whole, PullEntry;
    ghost var all, k: nat := Whole(op, buf.Contents(), n), n;
    var i := 0;
    while i < n
      invariant i <= n && k == n - i && buf.Valid() && (all <==> Whole(op, buf.Contents(), k))
    {
      NextWhole(op, buf.Contents(), k);
      ok := MeasureEntry(op, buf);
      if !ok {
        return;
      }
      i, k := i + 1, k - 1;
    }
    NoneWhole(op, buf.Contents());
    ok := !(buf.len > 0);
  }

  /** is_valid_qos_len and, for single octets, the four that compare the length */
  method MeasureAtOnce(op: Op, buf: Buffer, n: Byte) returns (ok: bool)
    requires buf.Valid() && !HasTail(op)
    modifies buf
    ensures ok <==> Whole(op, old(buf.Contents()), n)
  {
    SameSize(op, buf.Contents(), n, Fixed(op));
    if op == Qos {
      if buf.len < 16 * n {
        return false;
      }
      var params := buf.PullMem(16 * n);
      ok := !(buf.len > 0);
    } else {
      ok := buf.len == n;
    }
  }

  /** The is_valid_..._len of an operation: when it lets a write pass, the cursor is
      back where it was. */
  method IsValidLen(op: Op, buf: Buffer, lim: Limits) returns (ok: bool)
    requires buf.Valid()
    modifies buf
    ensures buf.Valid() && (ok <==> Accept(op, old(buf.Contents()), lim).Some?)
    ensures ok ==> buf.Contents() == old(buf.Contents())
  {
    var head, len := buf.head, buf.len;
    if buf.len < 1 {
      return false;
    }
    AcceptIs(op, buf.Contents(), lim);
    var n := buf.PullU8();
    if n < 1 || (op != Stop && (n > lim.Count() || n > lim.fits)) {
      ok := false;
    } else if HasTail(op) {
      ok := MeasureEntries(op, buf, n);
    } else {
      ok := MeasureAtOnce(op, buf, n);
    }
    buf.head, buf.len := head, len;
  }

  // ---- taking ----

  /** What the second pass pulls for one entry; it checks nothing. */
  method TakeEntry(op: Op, buf: Buffer) returns (e: seq<Byte>)
    requires buf.Valid() && PullEntry(op, buf.Contents()).Got?
    modifies buf
    ensures buf.Valid() && Got(e, buf.Contents()) == PullEntry(op, old(buf.Contents()))
    ensures Formed(op, e)
  {
    ghost var d := buf.Contents();
    e := buf.PullMem(Fixed(op));
    if HasTail(op) {
      var tail := e[Fixed(op) - 1];
      var more := buf.PullMem(tail);
      TailReads(d, Fixed(op), tail);
      e := e + more;
    }
    EntryFormed(op, d);
  }

  lemma EntryFormed(op: Op, d: seq<Byte>)
    requires PullEntry(op, d).Got?
    ensures Formed(op, PullEntry(op, d).value)
  {}

  lemma NextHeld(op: Op, d: seq<Byte>, n: nat, es: seq<seq<Byte>>)
    requires n > 0 && Holds(op, d, n, es)
    ensures PullEntry(op, d).Got? && es != [] && PullEntry(op, d).value == es[0] && Formed(op, es[0])
    ensures Holds(op, PullEntry(op, d).rest, n - 1, es[1..])
  {
    EntryFormed(op, d);
    assert es[1..] == PullEntries(op, PullEntry(op, d).rest, n - 1).value;
  }

  lemma HeldFormed(op: Op, d: seq<Byte>, n: nat, es: seq<seq<Byte>>)
    requires Holds(op, d, n, es)
    ensures |es| == n && AllFormed(op, es) && (n == 0 ==> d == [])
  {
    EntriesCanonical(op, d, n);
  }

  class ControlPoint {
    const lim: Limits
    const rsp: Buffer

    constructor (lim: Limits)
      ensures this.lim == lim && fresh(rsp) && fresh(rsp.storage) && rsp.storage.Length == BufferSize(lim)
      ensures rsp.Valid() && rsp.head == 0
    {
      this.lim := lim;
      rsp := new Buffer(BufferSize(lim));
    }

    ghost predicate Valid()
      reads this, rsp
    {
      rsp.Valid() && rsp.head == 0 && rsp.storage.Length == BufferSize(lim)
    }

    /** ascs_cp_rsp_init */
    method Init(op: Byte)
      requires Valid()
      modifies rsp, rsp.storage
      ensures Valid() && rsp.Contents() == [op, 0]
    {
      rsp.Reset();
      rsp.AddU8(op);
      rsp.AddU8(0);
    }

    /** ascs_cp_rsp_add; `fits` is false where the buffer's assertion stops the server. */
    method RspAdd(r: Reply) returns (fits: bool)
      requires Valid() && rsp.len >= 2
      modifies rsp, rsp.storage
      ensures Valid() && rsp.len >= 2
      ensures var n := Add(old(rsp.Contents()), r, BufferSize(lim));
              fits == n.Notice? && (fits ==> rsp.Contents() == n.octets)
    {
      var num := rsp.storage[1];
      if num == ALL_ASES {
        return true;
      }
      if rsp.len + 3 > rsp.storage.Length {
        return false;
      }
      Mark(if Closes(r) then ALL_ASES else num + 1);
      rsp.AddU8(r.id);
      rsp.AddU8(r.code);
      rsp.AddU8(r.reason);
      fits := true;
    }

    method Mark(num: Byte)
      requires Valid() && rsp.len >= 2
      modifies rsp.storage
      ensures rsp.Contents() == old(rsp.Contents())[1 := num]
    {
      rsp.storage[1] := num;
    }

    /** The checks an operation makes on one entry before and around its handler. */
    method ReplyFor(op: Op, e: seq<Byte>, v: Verdict) returns (r: Option<Reply>)
      requires Formed(op, e)
      ensures r == ReplyTo(op, e, v, lim)
    {
      var id := e[0];
      if op == Metadata && e[1] > lim.metadata {
        return Some(Reply(id, NO_MEM, REASON_NONE));
      }
      if !(1 <= id <= lim.Count()) {
        return Some(Reply(id, INVALID_ASE, REASON_NONE));
      }
      if (op == Start || op == Stop) && id <= lim.sinks {
        return Some(Reply(id, INVALID_DIR, REASON_NONE));
      }
      if v.Missing? {
        return Some(Reply(id, if op == Config then NO_MEM else INVALID_ASE_STATE, REASON_NONE));
      }
      if op == Config {
        if !(1 <= e[1] <= 3) {
          return Some(Reply(id, CONF_INVALID, REASON_LATENCY));
        }
        if !(1 <= e[2] <= 3) {
          return Some(Reply(id, CONF_INVALID, REASON_PHY));
        }
        if e[8] > lim.config {
          return None;
        }
      }
      r := Some(Reply(id, v.code, v.reason));
    }

    /** The second pass over a write that was let pass: it takes every octet and adds
        the replies. */
    method Run(op: Op, buf: Buffer, vs: seq<Verdict>) returns (fits: bool)
      requires Valid() && rsp.len >= 2 && buf.Valid() && buf != rsp && buf.storage != rsp.storage
      requires |vs| == 255 && Accept(op, buf.Contents(), lim).Some?
      modifies rsp, rsp.storage, buf
      ensures Valid() && buf.Valid()
      ensures var es := Accept(op, old(buf.Contents()), lim).value;
              |es| < 256 && AllFormed(op, es)
              && var n := AddAll(old(rsp.Contents()), Replies(op, es, vs[..|es|], lim), BufferSize(lim));
                 fits == n.Notice? && (fits ==> rsp.Contents() == n.octets && buf.Contents() == [])
    {
      ghost var es := Accept(op, buf.Contents(), lim).value;
      AcceptIs(op, buf.Contents(), lim);
      var n := buf.PullU8();
      HeldFormed(op, buf.Contents(), n, es);
      fits := RunEntries(op, buf, n, vs[..n], es);
    }

    method RunEntries(op: Op, buf: Buffer, n: Byte, vs: seq<Verdict>, ghost es: seq<seq<Byte>>) returns (fits: bool)
      requires Valid() && rsp.len >= 2 && buf.Valid() && buf != rsp && buf.storage != rsp.storage
      requires |vs| == n == |es| && AllFormed(op, es) && Holds(op, buf.Contents(), n, es)
      modifies rsp, rsp.storage, buf
      ensures Valid() && buf.Valid()
      ensures var n := AddAll(old(rsp.Contents()), Replies(op, es, vs, lim), BufferSize(lim));
              fits == n.Notice? && (fits ==> rsp.Contents() == n.octets && buf.Contents() == [])
    {
      hide Holds, PullEntry, Replies, AddAll;
      ghost var all := AddAll(rsp.Contents(), Replies(op, es, vs, lim), BufferSize(lim));
      ghost var left, k: nat := es, n;
      var i := 0;
      assert vs[0..] == vs;
      while i < n
        invariant i <= n && k == n - i == |left| && AllFormed(op, left)
        invariant Valid() && rsp.len >= 2 && buf.Valid() && Holds(op, buf.Contents(), k, left)
        invariant all == AddAll(rsp.Contents(), Replies(op, left, vs[i..], lim), BufferSize(lim))
      {
        fits, left := RunOne(op, buf, vs[i..], left, k);
        if !fits {
          return;
        }
        assert vs[i..][1..] == vs[i + 1..];
        i, k := i + 1, k - 1;
      }
      RunOut(op, buf.Contents(), left, vs[i..], rsp.Contents(), lim);
      fits := true;
    }

    method RunOne(op: Op, buf: Buffer, vs: seq<Verdict>, ghost es: seq<seq<Byte>>, ghost n: nat)
      returns (fits: bool, ghost left: seq<seq<Byte>>)
      requires Valid() && rsp.len >= 2 && buf.Valid() && buf != rsp && buf.storage != rsp.storage
      requires |vs| == n == |es| && n > 0 && AllFormed(op, es) && Holds(op, buf.Contents(), n, es)
      modifies rsp, rsp.storage, buf
      ensures Valid() && rsp.len >= 2 && buf.Valid() && |left| == n - 1 && AllFormed(op, left)
      ensures Holds(op, buf.Contents(), n - 1, left)
      ensures AddAll(old(rsp.Contents()), Replies(op, es, vs, lim), BufferSize(lim)) ==
              if fits then AddAll(rsp.Contents(), Replies(op, left, vs[1..], lim), BufferSize(lim)) else Overran
    {
      hide Holds, PullEntry;
      NextHeld(op, buf.Contents(), n, es);
      var e := TakeEntry(op, buf);
      left := es[1..];
      var r := ReplyFor(op, e, vs[0]);
      OneMore(op, es, vs, rsp.Contents(), lim);
      fits := true;
      if r.Some? {
        fits := RspAdd(r.value);
      }
    }

    /** ascs_cp_write: the octets handed to the notification, None for a write too short
        to have an opcode. */
    method Write(buf: Buffer, vs: seq<Verdict>) returns (answer: Option<Notice>)
      requires Valid() && buf.Valid() && buf != rsp && buf.storage != rsp.storage && |vs| == 255
      modifies rsp, rsp.storage, buf
      ensures Valid()
      ensures answer == if old(buf.len) == 0 then None else Some(Respond(old(buf.Contents()), vs, lim))
    {
      hide Accept, Replies, AddAll;
      if buf.len < 1 {
        return None;
      }
      AddedOne([buf.Contents()[0], 0], Reply(0, NOT_SUPPORTED, REASON_NONE), BufferSize(lim));
      AddedOne([buf.Contents()[0], 0], Reply(0, INVALID_LENGTH, REASON_NONE), BufferSize(lim));
      var code := buf.PullU8();
      Init(code);
      var fits;
      var op := OpOf(code);
      if op.None? {
        fits := RspAdd(Reply(0, NOT_SUPPORTED, REASON_NONE));
      } else {
        var taken := IsValidLen(op.value, buf, lim);
        if taken {
          fits := Run(op.value, buf, vs);
        } else {
          fits := RspAdd(Reply(0, INVALID_LENGTH, REASON_NONE));
        }
      }
      assert rsp.Contents() == rsp.storage[..rsp.len];
      answer := Some(if fits then Notice(rsp.storage[..rsp.len]) else Overran);
    }
  }

  lemma AddedOne(c: seq<Byte>, r: Reply, size: nat)
    requires |c| >= 2
    ensures AddAll(c, [r], size) == Add(c, r, size)
  {
    assert [r][1..] == [];
  }

  lemma RunOut(op: Op, d: seq<Byte>, es: seq<seq<Byte>>, vs: seq<Verdict>, c: seq<Byte>, lim: Limits)
    requires Holds(op, d, 0, es) && AllFormed(op, es) && |vs| == |es| && |c| >= 2
    ensures d == [] && AddAll(c, Replies(op, es, vs, lim), BufferSize(lim)) == Notice(c)
  {}

  lemma OneMore(op: Op, es: seq<seq<Byte>>, vs: seq<Verdict>, c: seq<Byte>, lim: Limits)
    requires es != [] && AllFormed(op, es) && |vs| == |es| && |c| >= 2
    ensures var r := ReplyTo(op, es[0], vs[0], lim);
            var rest := Replies(op, es[1..], vs[1..], lim);
            AddAll(c, Replies(op, es, vs, lim), BufferSize(lim)) ==
            if r.None? then AddAll(c, rest, BufferSize(lim))
            else var n := Add(c, r.value, BufferSize(lim));
                 if n.Overran? then n else AddAll(n.octets, rest, BufferSize(lim))
  {
    var r := ReplyTo(op, es[0], vs[0], lim);
    var rest := Replies(op, es[1..], vs[1..], lim);
    if r.Some? {
      assert ([r.value] + rest)[1..] == rest;
    } else {
      assert [] + rest == rest;
    }
  }
}
