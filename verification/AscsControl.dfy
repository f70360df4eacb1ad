/** ASE Control operations as octets (bluetooth/audio/ascs.c; section 5 of the Audio
    Stream Control Service v1.0): which writes are taken, what they hold, and what is
    notified in answer to them. */
module AscsControl {
  import opened Prelude

  datatype Op = Config | Qos | Enable | Start | Disable | Stop | Metadata | Release

  function Code(op: Op): Byte {
    match op
    case Config => 1
    case Qos => 2
    case Enable => 3
    case Start => 4
    case Disable => 5
    case Stop => 6
    case Metadata => 7
    case Release => 8
  }

  function OpOf(code: Byte): Option<Op> {
    match code
    case 1 => Some(Config)
    case 2 => Some(Qos)
    case 3 => Some(Enable)
    case 4 => Some(Start)
    case 5 => Some(Disable)
    case 6 => Some(Stop)
    case 7 => Some(Metadata)
    case 8 => Some(Release)
    case _ => None
  }

  /** What a build and the connection set: sink and source endpoints, replies that fit
      a notification, octets of configuration and of metadata kept. */
  datatype Limits = Limits(sinks: nat, sources: nat, fits: nat, config: Byte, metadata: Byte)
  {
    function Count(): nat { sinks + sources }
  }

  const SUCCESS: Byte := 0
  const NOT_SUPPORTED: Byte := 1
  const INVALID_LENGTH: Byte := 2
  const INVALID_ASE: Byte := 3
  const INVALID_ASE_STATE: Byte := 4
  const INVALID_DIR: Byte := 5
  const CONF_INVALID: Byte := 9
  const NO_MEM: Byte := 13
  const REASON_NONE: Byte := 0
  const REASON_PHY: Byte := 5
  const REASON_LATENCY: Byte := 8

  // ---- the entries of an operation ----

  /** Octets of an entry that are always there: the first is the ASE ID. */
  function Fixed(op: Op): nat {
    match op
    case Config => 9
    case Qos => 16
    case Enable => 2
    case Metadata => 2
    case _ => 1
  }

  /** Octets that the last of these announces. */
  function Tail(op: Op, e: seq<Byte>): Byte
    requires |e| >= Fixed(op)
  {
    if op in {Config, Enable, Metadata} then e[Fixed(op) - 1] else 0
  }

  predicate Formed(op: Op, e: seq<Byte>) {
    |e| >= Fixed(op) && |e| == Fixed(op) + Tail(op, e)
  }

  function PullEntry(op: Op, d: seq<Byte>): Pulled<seq<Byte>> {
    if |d| < Fixed(op) || |d| - Fixed(op) < Tail(op, d) then Short
    else Got(d[..Fixed(op) + Tail(op, d)], d[Fixed(op) + Tail(op, d)..])
  }

  function PullEntries(op: Op, d: seq<Byte>, n: nat): Pulled<seq<seq<Byte>>>
    decreases n
  {
    if n == 0 then Got([], d)
    else
      var e := PullEntry(op, d);
      if e.Short? then Short
      else
        var es := PullEntries(op, e.rest, n - 1);
        if es.Short? then Short else Got([e.value] + es.value, es.rest)
  }

  /** Receiver Stop Ready alone is not held to the number of endpoints. */
  predicate NumberTaken(op: Op, n: nat, lim: Limits) {
    n >= 1 && (op == Stop || (n <= lim.Count() && n <= lim.fits))
  }

  /** The length checks: the entries of a write they let pass. */
  function Accept(op: Op, d: seq<Byte>, lim: Limits): Option<seq<seq<Byte>>> {
    if d == [] || !NumberTaken(op, d[0], lim) then None
    else
      var es := PullEntries(op, d[1..], d[0]);
      if es.Short? || es.rest != [] then None else Some(es.value)
  }

  // ---- what a client writes ----

  function Flat(es: seq<seq<Byte>>): seq<Byte> {
    if es == [] then [] else es[0] + Flat(es[1..])
  }

  function Written(es: seq<seq<Byte>>): seq<Byte>
    requires |es| < 256
  {
    [|es| as Byte] + Flat(es)
  }

  predicate AllFormed(op: Op, es: seq<seq<Byte>>) { forall i :: 0 <= i < |es| ==> Formed(op, es[i]) }

  lemma EntryReads(op: Op, e: seq<Byte>, rest: seq<Byte>)
    requires Formed(op, e)
    ensures PullEntry(op, e + rest) == Got(e, rest)
  {
    assert (e + rest)[..|e|] == e && (e + rest)[|e|..] == rest;
  }

  lemma {:induction false} EntriesRead(op: Op, es: seq<seq<Byte>>, rest: seq<Byte>)
    requires AllFormed(op, es)
    ensures PullEntries(op, Flat(es) + rest, |es|) == Got(es, rest)
  {
    if es == [] {
      assert [] + rest == rest;
    } else {
      Glue(es[0], Flat(es[1..]), rest);
      EntryReads(op, es[0], Flat(es[1..]) + rest);
      EntriesRead(op, es[1..], rest);
      assert [es[0]] + es[1..] == es;
    }
  }

  lemma EntryCanonical(op: Op, d: seq<Byte>)
    requires PullEntry(op, d).Got?
    ensures Formed(op, PullEntry(op, d).value) && PullEntry(op, d).value + PullEntry(op, d).rest == d
  {}

  lemma {:induction false} EntriesCanonical(op: Op, d: seq<Byte>, n: nat)
    requires PullEntries(op, d, n).Got?
    ensures var es := PullEntries(op, d, n); |es.value| == n && AllFormed(op, es.value) && Flat(es.value) + es.rest == d
    decreases n
  {
    hide PullEntry, Formed;
    var es := PullEntries(op, d, n);
    if n > 0 {
      var e := PullEntry(op, d);
      EntryCanonical(op, d);
      EntriesCanonical(op, e.rest, n - 1);
      assert es.value[1..] == PullEntries(op, e.rest, n - 1).value;
      assert forall i :: 0 < i < n ==> es.value[i] == es.value[1..][i - 1];
      Glue(e.value, Flat(es.value[1..]), es.rest);
    }
  }

  /** A write is taken, as entries `es`, exactly when it is their number, which may be
      taken, and then the entries, with nothing behind them. */
  lemma AcceptedExactly(op: Op, d: seq<Byte>, lim: Limits, es: seq<seq<Byte>>)
    ensures Accept(op, d, lim) == Some(es) <==>
            |es| < 256 && NumberTaken(op, |es|, lim) && AllFormed(op, es) && d == Written(es)
  {
    if Accept(op, d, lim) == Some(es) {
      EntriesCanonical(op, d[1..], d[0]);
      assert Flat(es) + [] == Flat(es);
      assert d == [d[0]] + d[1..];
    }
    if |es| < 256 && AllFormed(op, es) && d == Written(es) {
      EntriesRead(op, es, []);
      assert d[1..] == Flat(es) + [];
    }
  }

  // ---- replies ----

  datatype Reply = Reply(id: Byte, code: Byte, reason: Byte)

  /** What comes of an entry behind this layer: no endpoint is there (and none can be
      made), or the operation ran and ended with a code. */
  datatype Verdict = Missing | Handled(code: Byte, reason: Byte)

  predicate ValidId(id: Byte, lim: Limits) { 1 <= id <= lim.Count() }

  /** The reply to one entry; ase_config leaves out one for a configuration too long to
      be kept. */
  function ReplyTo(op: Op, e: seq<Byte>, v: Verdict, lim: Limits): (r: Option<Reply>)
    requires Formed(op, e)
    ensures r.Some? ==> r.value.id == e[0]
  {
    var id := e[0];
    if op == Metadata && e[1] > lim.metadata then Some(Reply(id, NO_MEM, REASON_NONE))
    else if !ValidId(id, lim) then Some(Reply(id, INVALID_ASE, REASON_NONE))
    else if op in {Start, Stop} && id <= lim.sinks then Some(Reply(id, INVALID_DIR, REASON_NONE))
    else if v.Missing? then Some(Reply(id, if op == Config then NO_MEM else INVALID_ASE_STATE, REASON_NONE))
    else if op == Config && !(1 <= e[1] <= 3) then Some(Reply(id, CONF_INVALID, REASON_LATENCY))
    else if op == Config && !(1 <= e[2] <= 3) then Some(Reply(id, CONF_INVALID, REASON_PHY))
    else if op == Config && e[8] > lim.config then None
    else Some(Reply(id, v.code, v.reason))
  }

  function Replies(op: Op, es: seq<seq<Byte>>, vs: seq<Verdict>, lim: Limits): seq<Reply>
    requires AllFormed(op, es) && |vs| == |es|
  {
    if es == [] then []
    else
      var r := ReplyTo(op, es[0], vs[0], lim);
      (if r.Some? then [r.value] else []) + Replies(op, es[1..], vs[1..], lim)
  }

  lemma {:induction false} NoMoreReplies(op: Op, es: seq<seq<Byte>>, vs: seq<Verdict>, lim: Limits)
    requires AllFormed(op, es) && |vs| == |es|
    ensures |Replies(op, es, vs, lim)| <= |es|
  {
    if es != [] {
      NoMoreReplies(op, es[1..], vs[1..], lim);
    }
  }

  /** An entry that gets no reply: a good configuration, of an endpoint that is there, of
      more octets than are kept. */
  predicate Silent(op: Op, e: seq<Byte>, v: Verdict, lim: Limits)
    requires Formed(op, e)
  {
    && op == Config && ValidId(e[0], lim) && v.Handled? && 1 <= e[1] <= 3 && 1 <= e[2] <= 3
    && |e| - Fixed(Config) > lim.config
  }

  predicate NoneSilent(op: Op, es: seq<seq<Byte>>, vs: seq<Verdict>, lim: Limits)
    requires AllFormed(op, es) && |vs| == |es|
  {
    forall i :: 0 <= i < |es| ==> !Silent(op, es[i], vs[i], lim)
  }

  lemma NoneSilentTail(op: Op, es: seq<seq<Byte>>, vs: seq<Verdict>, lim: Limits)
    requires AllFormed(op, es) && |vs| == |es| && es != []
    ensures NoneSilent(op, es, vs, lim) <==> !Silent(op, es[0], vs[0], lim) && NoneSilent(op, es[1..], vs[1..], lim)
  {
    assert forall i :: 0 < i < |es| ==> es[i] == es[1..][i - 1] && vs[i] == vs[1..][i - 1];
  }

  /** A write gets one reply for each entry exactly if none of its entries is of that kind,
      and then each in its place. */
  lemma {:induction false} OneReplyEach(op: Op, es: seq<seq<Byte>>, vs: seq<Verdict>, lim: Limits)
    requires AllFormed(op, es) && |vs| == |es|
    ensures |Replies(op, es, vs, lim)| == |es| <==> NoneSilent(op, es, vs, lim)
    ensures NoneSilent(op, es, vs, lim) ==>
              forall i :: 0 <= i < |es| ==> Some(Replies(op, es, vs, lim)[i]) == ReplyTo(op, es[i], vs[i], lim)
  {
    if es != [] {
      NoneSilentTail(op, es, vs, lim);
      NoMoreReplies(op, es[1..], vs[1..], lim);
      OneReplyEach(op, es[1..], vs[1..], lim);
    }
  }

  // ---- the response buffer (ascs_cp_rsp_add) ----

  const ALL_ASES: Byte := 0xFF

  /** The octets to notify, unless the buffer's assertion stops the server. */
  datatype Notice = Notice(octets: seq<Byte>) | Overran

  predicate Closes(r: Reply) { r.code == NOT_SUPPORTED || r.code == INVALID_LENGTH }

  function Add(c: seq<Byte>, r: Reply, size: nat): (n: Notice)
    requires |c| >= 2
    ensures n.Notice? ==> |n.octets| >= 2
  {
    if c[1] == ALL_ASES then Notice(c)
    else if |c| + 3 > size then Overran
    else Notice(c[1 := if Closes(r) then ALL_ASES else c[1] + 1] + [r.id, r.code, r.reason])
  }

  function AddAll(c: seq<Byte>, rs: seq<Reply>, size: nat): Notice
    requires |c| >= 2
    decreases rs
  {
    if rs == [] then Notice(c)
    else
      var n := Add(c, rs[0], size);
      if n.Overran? then n else AddAll(n.octets, rs[1..], size)
  }

  /** The replies that get in behind `n` others: none behind one that closes the
      response, none behind the 255th. */
  function Kept(rs: seq<Reply>, n: nat): seq<Reply> {
    if rs == [] || n >= 255 then []
    else if Closes(rs[0]) then [rs[0]]
    else [rs[0]] + Kept(rs[1..], n + 1)
  }

  function Number(rs: seq<Reply>, n: Byte): Byte {
    if rs == [] || n == 255 then n
    else if Closes(rs[0]) then ALL_ASES
    else Number(rs[1..], n + 1)
  }

  function Octets(rs: seq<Reply>): (o: seq<Byte>)
    ensures |o| == 3 * |rs|
  {
    if rs == [] then [] else [rs[0].id, rs[0].code, rs[0].reason] + Octets(rs[1..])
  }

  /** Whatever replies are added, the response ends up as its head and the replies that
      get in, or the buffer is too small for these. */
  lemma {:induction false} AddedAll(op: Byte, n: Byte, body: seq<Byte>, rs: seq<Reply>, size: nat)
    requires 2 + |body| <= size
    ensures AddAll([op, n] + body, rs, size) ==
            if 2 + |body| + 3 * |Kept(rs, n)| <= size
            then Notice([op, Number(rs, n)] + body + Octets(Kept(rs, n)))
            else Overran
    decreases rs
  {
    var c := [op, n] + body;
    if rs == [] || n == 255 {
      NothingMore(c, rs, size);
      assert c + [] == c;
    } else if |c| + 3 <= size {
      var r := rs[0];
      var o := [r.id, r.code, r.reason];
      var n': Byte := if Closes(r) then ALL_ASES else n + 1;
      assert Add(c, r, size) == Notice([op, n'] + (body + o)) by {
        assert c[1 := n'] + o == [op, n'] + (body + o);
      }
      AddedAll(op, n', body + o, rs[1..], size);
      if Closes(r) {
        assert Octets([r]) == o;
        assert [op, n'] + (body + o) + [] == [op, n'] + body + o;
      } else {
        var ks := Kept(rs[1..], n + 1);
        assert ([r] + ks)[1..] == ks;
        assert [op, Number(rs, n)] + (body + o) + Octets(ks) == [op, Number(rs, n)] + body + (o + Octets(ks));
      }
    }
  }

  lemma {:induction false} NothingMore(c: seq<Byte>, rs: seq<Reply>, size: nat)
    requires |c| >= 2 && (rs == [] || c[1] == ALL_ASES)
    ensures AddAll(c, rs, size) == Notice(c)
  {
    if rs != [] { NothingMore(c, rs[1..], size); }
  }

  lemma {:induction false} KeptAll(rs: seq<Reply>, n: Byte)
    requires |rs| + n <= 255 && forall i :: 0 <= i < |rs| ==> !Closes(rs[i])
    ensures Kept(rs, n) == rs && Number(rs, n) == n + |rs|
  {
    if rs != [] {
      KeptAll(rs[1..], n + 1);
    }
  }

  lemma {:induction false} KeptFewer(rs: seq<Reply>, n: nat)
    ensures |Kept(rs, n)| <= |rs|
  {
    if rs != [] && n < 255 { KeptFewer(rs[1..], n + 1); }
  }

  // ---- a whole write (ascs_cp_write) ----

  function BufferSize(lim: Limits): nat { 2 + 3 * lim.Count() }

  /** What is notified in answer to a write that has an opcode. */
  function Respond(d: seq<Byte>, vs: seq<Verdict>, lim: Limits): Notice
    requires d != []
    requires |vs| == 255
  {
    var start := [d[0], 0];
    if OpOf(d[0]) == None then AddAll(start, [Reply(0, NOT_SUPPORTED, REASON_NONE)], BufferSize(lim))
    else
      var op := OpOf(d[0]).value;
      var es := Accept(op, d[1..], lim);
      if es == None then AddAll(start, [Reply(0, INVALID_LENGTH, REASON_NONE)], BufferSize(lim))
      else
        AcceptedExactly(op, d[1..], lim, es.value);
        AddAll(start, Replies(op, es.value, vs[..|es.value|], lim), BufferSize(lim))
  }

  lemma Answer(op: Op, es: seq<seq<Byte>>, vs: seq<Verdict>, lim: Limits)
    requires |es| < 256 && NumberTaken(op, |es|, lim) && AllFormed(op, es) && |vs| == 255
    ensures Respond([Code(op)] + Written(es), vs, lim) ==
            AddAll([Code(op), 0], Replies(op, es, vs[..|es|], lim), BufferSize(lim))
  {
    var d := [Code(op)] + Written(es);
    assert d[1..] == Written(es);
    AcceptedExactly(op, d[1..], lim, es);
  }

  /** No code that closes the response came from behind this layer. */
  predicate NoneCloses(vs: seq<Verdict>) {
    forall i :: 0 <= i < |vs| ==> vs[i].Missing? || vs[i].code !in {NOT_SUPPORTED, INVALID_LENGTH}
  }

  lemma {:induction false} RepliesOpen(op: Op, es: seq<seq<Byte>>, vs: seq<Verdict>, lim: Limits)
    requires AllFormed(op, es) && |vs| == |es| && NoneCloses(vs)
    ensures forall i :: 0 <= i < |Replies(op, es, vs, lim)| ==> !Closes(Replies(op, es, vs, lim)[i])
  {
    if es != [] { RepliesOpen(op, es[1..], vs[1..], lim); }
  }

  /** Unless a code that closes the response comes from behind this layer, a taken write
      that names no more endpoints than there are is answered, within the buffer, by the
      opcode, the number of replies and the replies; these are one for each entry, with
      its ID, exactly if none of the entries is a configuration too long to be kept. */
  lemma AnsweredInOrder(op: Op, es: seq<seq<Byte>>, vs: seq<Verdict>, lim: Limits)
    requires |es| < 256 && NumberTaken(op, |es|, lim) && |es| <= lim.Count() && AllFormed(op, es) && |vs| == 255
    requires NoneCloses(vs[..|es|])
    ensures var rs := Replies(op, es, vs[..|es|], lim);
            && |rs| <= |es|
            && Respond([Code(op)] + Written(es), vs, lim) == Notice([Code(op), |rs|] + Octets(rs))
            && (|rs| == |es| <==> NoneSilent(op, es, vs[..|es|], lim))
            && (|rs| == |es| ==> forall i :: 0 <= i < |es| ==> rs[i].id == es[i][0])
  {
    var rs := Replies(op, es, vs[..|es|], lim);
    Answer(op, es, vs, lim);
    RepliesOpen(op, es, vs[..|es|], lim);
    NoMoreReplies(op, es, vs[..|es|], lim);
    RepliesHaveIds(op, es, vs[..|es|], lim);
    KeptAll(rs, 0);
    assert [Code(op), 0] + [] == [Code(op), 0];
    AddedAll(Code(op), 0, [], rs, BufferSize(lim));
    assert [Code(op), |rs|] + [] == [Code(op), |rs|];
  }

  lemma RepliesHaveIds(op: Op, es: seq<seq<Byte>>, vs: seq<Verdict>, lim: Limits)
    requires AllFormed(op, es) && |vs| == |es|
    ensures var rs := Replies(op, es, vs, lim);
            && (|rs| == |es| <==> NoneSilent(op, es, vs, lim))
            && (|rs| == |es| ==> forall i :: 0 <= i < |es| ==> rs[i].id == es[i][0])
  {
    var rs := Replies(op, es, vs, lim);
    OneReplyEach(op, es, vs, lim);
    if |rs| == |es| {
      forall i | 0 <= i < |es| ensures rs[i].id == es[i][0] {
        assert Some(rs[i]) == ReplyTo(op, es[i], vs[i], lim);
      }
    }
  }

  /** A Config Codec write for endpoint 1 alone, with one octet of configuration more than
      the server keeps, is answered by a response without replies. */
  lemma SilenceHappens(vs: seq<Verdict>, lim: Limits)
    requires |vs| == 255 && vs[0].Handled? && lim.config < 255 && lim.Count() >= 1 && lim.fits >= 1
    ensures var n: Byte := lim.config + 1;
            var e := [1, 1, 1, 0, 0, 0, 0, 0, n] + seq(n, _ => 0);
            Respond([Code(Config)] + Written([e]), vs, lim) == Notice([Code(Config), 0])
  {
    var n: Byte := lim.config + 1;
    var e: seq<Byte> := [1, 1, 1, 0, 0, 0, 0, 0, n] + seq(n, _ => 0);
    assert Formed(Config, e);
    Answer(Config, [e], vs, lim);
    assert vs[..1] == [vs[0]];
    OneReplyEach(Config, [e], [vs[0]], lim);
    assert Silent(Config, [e][0], [vs[0]][0], lim);
  }

  /** More than `c` replies get in exactly if there are more, the number still counts them,
      and none of the first `c` closes the response. */
  lemma {:induction false} KeptMore(rs: seq<Reply>, n: nat, c: nat)
    ensures |Kept(rs, n)| > c <==> |rs| > c && n + c < 255 && forall i :: 0 <= i < c ==> !Closes(rs[i])
    decreases |rs|
  {
    if rs != [] && n < 255 && !Closes(rs[0]) && c > 0 {
      KeptMore(rs[1..], n + 1, c - 1);
      assert forall i :: 0 < i < |rs| ==> rs[i] == rs[1..][i - 1];
      assert (forall i :: 0 <= i < c - 1 && i < |rs| - 1 ==> !Closes(rs[1..][i]))
             ==> forall i :: 0 < i < c && i < |rs| ==> !Closes(rs[i]);
    }
  }

  /** The reply to entry `i`, which is there, closes the response. */
  predicate ClosesAt(op: Op, es: seq<seq<Byte>>, vs: seq<Verdict>, lim: Limits, i: nat)
    requires AllFormed(op, es) && |vs| == |es| && i < |es|
  {
    var r := ReplyTo(op, es[i], vs[i], lim);
    r.Some? && Closes(r.value)
  }

  /** The response overruns its buffer exactly for a Receiver Stop Ready that names more
      endpoints than there are, which are fewer than 255, and closes the response with none
      of as many replies. */
  lemma OverrunExactly(op: Op, es: seq<seq<Byte>>, vs: seq<Verdict>, lim: Limits)
    requires |es| < 256 && NumberTaken(op, |es|, lim) && AllFormed(op, es) && |vs| == 255
    ensures Respond([Code(op)] + Written(es), vs, lim).Overran? <==>
            && op == Stop && |es| > lim.Count() && lim.Count() < 255
            && forall i :: 0 <= i < lim.Count() ==> !ClosesAt(op, es, vs[..|es|], lim, i)
  {
    var rs := Replies(op, es, vs[..|es|], lim);
    Answer(op, es, vs, lim);
    assert [Code(op), 0] + [] == [Code(op), 0];
    AddedAll(Code(op), 0, [], rs, BufferSize(lim));
    KeptFewer(rs, 0);
    NoMoreReplies(op, es, vs[..|es|], lim);
    if op == Stop {
      OneReplyEach(op, es, vs[..|es|], lim);
      KeptMore(rs, 0, lim.Count());
      forall i | 0 <= i < |es| ensures Closes(rs[i]) <==> ClosesAt(op, es, vs[..|es|], lim, i) {
        assert Some(rs[i]) == ReplyTo(op, es[i], vs[..|es|][i], lim);
      }
    }
  }

  /** One endpoint named more often than there are endpoints will do. */
  lemma StopOverruns(id: Byte, vs: seq<Verdict>, lim: Limits)
    requires |vs| == 255 && lim.Count() < 255 && !ValidId(id, lim)
    ensures var es := seq(lim.Count() + 1, _ => [id]); Respond([Code(Stop)] + Written(es), vs, lim).Overran?
  {
    OverrunExactly(Stop, seq(lim.Count() + 1, _ => [id]), vs, lim);
  }
}
