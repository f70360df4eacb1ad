/** What the ASE Control Point answers, octet by octet (section 5 of the Audio Stream Control
    Service v1.0): opcodes, entries and response codes as numbers. */
module AscsAnswerTheorems {
  import opened Prelude
  import opened AscsControl

  /** An entry of the operation with this opcode. */
  predicate Entry(code: Byte, e: seq<Byte>) {
    || (code == 1 && |e| >= 9 && |e| == 9 + (e[8] as int))
    || (code == 2 && |e| == 16)
    || ((code == 3 || code == 7) && |e| >= 2 && |e| == 2 + (e[1] as int))
    || (code in {4, 5, 6, 8} && |e| == 1)
  }

  predicate MayName(code: Byte, n: nat, lim: Limits) {
    n >= 1 && (code == 6 || (n <= lim.sinks + lim.sources && n <= lim.fits))
  }

  /** The octets `d` are an operation with these entries, which is taken. */
  predicate IsOperation(d: seq<Byte>, es: seq<seq<Byte>>, lim: Limits) {
    && |d| >= 2 && 1 <= d[0] <= 8 && |es| < 256
    && (forall i :: 0 <= i < |es| ==> Entry(d[0], es[i])) && MayName(d[0], |es|, lim)
    && d == [d[0], |es| as Byte] + Flat(es)
  }

  lemma EntryIsFormed(op: Op, e: seq<Byte>)
    ensures Formed(op, e) <==> Entry(Code(op), e)
  {}

  lemma OpcodeIs(code: Byte)
    ensures OpOf(code) != None <==> 1 <= code <= 8
    ensures OpOf(code) != None ==> Code(OpOf(code).value) == code
  {}

  lemma OperationIs(d: seq<Byte>, es: seq<seq<Byte>>, lim: Limits)
    requires |d| >= 1 && OpOf(d[0]) != None
    ensures IsOperation(d, es, lim) <==> Accept(OpOf(d[0]).value, d[1..], lim) == Some(es)
  {
    hide Accept;
    OpcodeIs(d[0]);
    var op := OpOf(d[0]).value;
    AcceptedExactly(op, d[1..], lim, es);
    forall i | 0 <= i < |es| ensures Formed(op, es[i]) <==> Entry(d[0], es[i]) { EntryIsFormed(op, es[i]); }
    if |es| < 256 {
      var n := |es| as Byte;
      assert d == [d[0]] + d[1..] && [d[0]] + ([n] + Flat(es)) == [d[0], n] + Flat(es);
      assert d == [d[0], n] + Flat(es) ==> d[1..] == [n] + Flat(es);
    }
  }

  /** An unknown opcode is answered by Unsupported Opcode (0x01), and what is no operation that
      may be taken by Invalid Length (0x02), for all endpoints at once. */
  lemma RefusedWrites(d: seq<Byte>, vs: seq<Verdict>, lim: Limits)
    requires d != [] && |vs| == 255 && lim.sinks + lim.sources >= 1
    ensures !(1 <= d[0] <= 8) ==> Respond(d, vs, lim) == Notice([d[0], 0xFF, 0, 0x01, 0])
    ensures 1 <= d[0] <= 8 && (forall es :: !IsOperation(d, es, lim)) ==>
              Respond(d, vs, lim) == Notice([d[0], 0xFF, 0, 0x02, 0])
  {
    hide Accept, IsOperation, Replies;
    OpcodeIs(d[0]);
    AddsOne([d[0], 0], Reply(0, NOT_SUPPORTED, REASON_NONE), BufferSize(lim));
    AddsOne([d[0], 0], Reply(0, INVALID_LENGTH, REASON_NONE), BufferSize(lim));
    if OpOf(d[0]) != None {
      var es := Accept(OpOf(d[0]).value, d[1..], lim);
      if es != None { OperationIs(d, es.value, lim); }
    }
    assert [d[0], 0][1 := 0xFF] == [d[0], 0xFF];
  }

  lemma AddsOne(c: seq<Byte>, r: Reply, size: nat)
    requires |c| >= 2
    ensures AddAll(c, [r], size) == Add(c, r, size)
  {
    assert [r][1..] == [];
  }

  // ---- the answer to one entry ----

  /** A configuration no reply is given to: it is good, but has more octets than are kept. */
  predicate Quiet(code: Byte, e: seq<Byte>, v: Verdict, lim: Limits) {
    && code == 1 && |e| >= 9 && 1 <= e[0] <= lim.sinks + lim.sources && v.Handled?
    && 1 <= e[1] <= 3 && 1 <= e[2] <= 3 && |e| - 9 > lim.config
  }

  /** Which answers the control point gives to an entry itself, and when: too much metadata or
      no room for an endpoint (0x0D), an endpoint that does not exist (0x03), a start or stop
      for a sink (0x05), an endpoint not configured (0x04), a configuration with an unknown
      latency (0x09, reason 0x08) or PHY (reason 0x05).  Only otherwise the answer is what
      came of the operation. */
  predicate Answered(code: Byte, e: seq<Byte>, v: Verdict, lim: Limits, rsp: Byte, reason: Byte)
    requires Entry(code, e)
  {
    var long := code == 7 && e[1] > lim.metadata;
    var unknown := !(1 <= e[0] <= lim.sinks + lim.sources);
    var wrongWay := (code == 4 || code == 6) && 1 <= e[0] <= lim.sinks;
    var badLatency := code == 1 && !(1 <= e[1] <= 3);
    var badPhy := code == 1 && !(1 <= e[2] <= 3);
    var own := long || unknown || wrongWay || v.Missing? || badLatency || badPhy;
    && (own && rsp == 0x05 <==> wrongWay)
    && (own && rsp == 0x03 <==> unknown && !long)
    && (own && rsp == 0x04 <==> v.Missing? && code != 1 && !long && !unknown && !wrongWay)
    && (own && rsp == 0x0D <==> long || (v.Missing? && code == 1 && !unknown))
    && (own && rsp == 0x09 <==> v.Handled? && !unknown && (badLatency || badPhy))
    && (own ==> reason == if rsp != 0x09 then 0 else if badLatency then 0x08 else 0x05)
    && (!own ==> rsp == v.code && reason == v.reason)
  }

  lemma ReplyAnswers(op: Op, e: seq<Byte>, v: Verdict, lim: Limits)
    requires Formed(op, e)
    ensures Entry(Code(op), e)
    ensures ReplyTo(op, e, v, lim) == None <==> Quiet(Code(op), e, v, lim)
    ensures
      var r := ReplyTo(op, e, v, lim);
      r != None ==> r.value.id == e[0] && Answered(Code(op), e, v, lim, r.value.code, r.value.reason)
  {
    EntryIsFormed(op, e);
  }

  /** How many of the first `i` entries are replied to. */
  function Before(code: Byte, es: seq<seq<Byte>>, vs: seq<Verdict>, lim: Limits, i: nat): nat
    requires i <= |es| && i <= |vs|
  {
    if i == 0 then 0
    else Before(code, es, vs, lim, i - 1) + if Quiet(code, es[i - 1], vs[i - 1], lim) then 0 else 1
  }

  lemma {:induction false} RepliesConcat(op: Op, es: seq<seq<Byte>>, vs: seq<Verdict>, lim: Limits, i: nat)
    requires AllFormed(op, es) && |vs| == |es| && i <= |es|
    ensures Replies(op, es, vs, lim) == Replies(op, es[..i], vs[..i], lim) + Replies(op, es[i..], vs[i..], lim)
  {
    hide ReplyTo, Formed;
    if i == 0 {
      assert es[0..] == es && vs[0..] == vs;
      assert [] + Replies(op, es, vs, lim) == Replies(op, es, vs, lim);
    } else {
      RepliesConcat(op, es[1..], vs[1..], lim, i - 1);
      assert es[1..][..i - 1] == es[..i][1..] && vs[1..][..i - 1] == vs[..i][1..];
      assert es[1..][i - 1..] == es[i..] && vs[1..][i - 1..] == vs[i..];
      var r := ReplyTo(op, es[0], vs[0], lim);
      Associative(if r.Some? then [r.value] else [], Replies(op, es[..i][1..], vs[..i][1..], lim), Replies(op, es[i..], vs[i..], lim));
    }
  }

  lemma Associative(a: seq<Reply>, b: seq<Reply>, c: seq<Reply>)
    ensures (a + b) + c == a + (b + c)
  {}

  lemma {:induction false} CountsBefore(op: Op, es: seq<seq<Byte>>, vs: seq<Verdict>, lim: Limits, i: nat)
    requires AllFormed(op, es) && |vs| == |es| && i <= |es|
    ensures |Replies(op, es[..i], vs[..i], lim)| == Before(Code(op), es, vs, lim, i)
  {
    hide Quiet;
    if i > 0 {
      CountsBefore(op, es, vs, lim, i - 1);
      RepliesConcat(op, es[..i], vs[..i], lim, i - 1);
      assert es[..i][..i - 1] == es[..i - 1] && vs[..i][..i - 1] == vs[..i - 1];
      assert es[..i][i - 1..] == [es[i - 1]] && vs[..i][i - 1..] == [vs[i - 1]];
      OneReply(op, es[i - 1], vs[i - 1], lim);
      ReplyAnswers(op, es[i - 1], vs[i - 1], lim);
    }
  }

  lemma OneReply(op: Op, e: seq<Byte>, v: Verdict, lim: Limits)
    requires Formed(op, e)
    ensures var r := ReplyTo(op, e, v, lim);
            AllFormed(op, [e]) && Replies(op, [e], [v], lim) == if r.Some? then [r.value] else []
  {
    assert [e][1..] == [] && [v][1..] == [];
  }

  lemma RepliesAround(op: Op, es: seq<seq<Byte>>, vs: seq<Verdict>, lim: Limits, i: nat)
    requires AllFormed(op, es) && |vs| == |es| && i < |es|
    ensures
      var r := ReplyTo(op, es[i], vs[i], lim);
      Replies(op, es, vs, lim)
      == Replies(op, es[..i], vs[..i], lim) + ((if r.Some? then [r.value] else []) + Replies(op, es[i + 1..], vs[i + 1..], lim))
  {
    hide ReplyTo, Formed, Replies;
    RepliesConcat(op, es, vs, lim, i);
    RepliesConcat(op, es[i..], vs[i..], lim, 1);
    assert es[i..][..1] == [es[i]] && vs[i..][..1] == [vs[i]];
    assert es[i..][1..] == es[i + 1..] && vs[i..][1..] == vs[i + 1..];
    OneReply(op, es[i], vs[i], lim);
  }

  /** Where the reply to entry `i` is among the replies, and that none before it closes the
      response. */
  lemma ReplyAt(op: Op, es: seq<seq<Byte>>, vs: seq<Verdict>, lim: Limits, i: nat)
    requires AllFormed(op, es) && |vs| == |es| && i < |es| && !Quiet(Code(op), es[i], vs[i], lim) && NoneCloses(vs[..i])
    ensures
      var rs, m := Replies(op, es, vs, lim), Before(Code(op), es, vs, lim, i);
      && m < |rs| && Some(rs[m]) == ReplyTo(op, es[i], vs[i], lim) && forall k :: 0 <= k < m ==> !Closes(rs[k])
  {
    hide Quiet, ReplyTo, Replies, Formed, Closes, Before;
    CountsBefore(op, es, vs, lim, i);
    RepliesAround(op, es, vs, lim, i);
    ReplyAnswers(op, es[i], vs[i], lim);
    RepliesOpen(op, es[..i], vs[..i], lim);
  }

  lemma {:induction false} KeptAt(rs: seq<Reply>, n: nat, m: nat)
    requires m < |rs| && n + m < 255 && forall k :: 0 <= k < m ==> !Closes(rs[k])
    ensures m < |Kept(rs, n)| && Kept(rs, n)[m] == rs[m]
    decreases m
  {
    if m > 0 { KeptAt(rs[1..], n + 1, m - 1); }
  }

  lemma {:induction false} OctetsAt(rs: seq<Reply>, m: nat)
    requires m < |rs|
    ensures Octets(rs)[3 * m] == rs[m].id && Octets(rs)[3 * m + 1] == rs[m].code && Octets(rs)[3 * m + 2] == rs[m].reason
  {
    if m > 0 { OctetsAt(rs[1..], m - 1); }
  }

  lemma {:induction false} FewBefore(code: Byte, es: seq<seq<Byte>>, vs: seq<Verdict>, lim: Limits, i: nat)
    requires i <= |es| && i <= |vs|
    ensures Before(code, es, vs, lim, i) <= i
  {
    if i > 0 { FewBefore(code, es, vs, lim, i - 1); }
  }

  /** In the response to an operation that is taken, the entries are answered in order, each
      by its ASE ID, a code and a reason: exactly which, whatever the operation, the entry,
      what came of it and the limits.  Nothing is said of what stands behind an answer of
      the application that closes the response. */
  lemma EntryAnswered(d: seq<Byte>, es: seq<seq<Byte>>, vs: seq<Verdict>, lim: Limits, i: nat)
    requires IsOperation(d, es, lim) && |vs| == 255 && i < |es| && !Quiet(d[0], es[i], vs[i], lim) && NoneCloses(vs[..i])
    requires Respond(d, vs, lim).Notice?
    ensures
      var o, p := Respond(d, vs, lim).octets, 2 + 3 * Before(d[0], es, vs, lim, i);
      && p + 2 < |o| && o[0] == d[0] && o[p] == es[i][0]
      && Answered(d[0], es[i], vs[i], lim, o[p + 1], o[p + 2])
  {
    hide Answered, Quiet, ReplyTo, Replies, Accept, AddAll, Closes;
    OpcodeIs(d[0]);
    OperationIs(d, es, lim);
    var op := OpOf(d[0]).value;
    AcceptedExactly(op, d[1..], lim, es);
    var us := vs[..|es|];
    assert us[..i] == vs[..i];
    var rs, m := Replies(op, es, us, lim), Before(d[0], es, us, lim, i);
    SameBefore(d[0], es, vs, us, lim, i);
    ReplyAt(op, es, us, lim, i);
    ReplyAnswers(op, es[i], us[i], lim);
    FewBefore(d[0], es, us, lim, i);
    assert [d[0], 0] + [] == [d[0], 0];
    AddedAll(d[0], 0, [], rs, BufferSize(lim));
    KeptAt(rs, 0, m);
    OctetsAt(Kept(rs, 0), m);
  }

  lemma {:induction false} SameBefore(code: Byte, es: seq<seq<Byte>>, vs: seq<Verdict>, us: seq<Verdict>, lim: Limits, i: nat)
    requires i <= |es| && i <= |vs| && i <= |us| && us[..i] == vs[..i]
    ensures Before(code, es, vs, lim, i) == Before(code, es, us, lim, i)
  {
    if i > 0 {
      assert us[..i][i - 1] == vs[..i][i - 1] && us[..i - 1] == us[..i][..i - 1] && vs[..i - 1] == vs[..i][..i - 1];
      SameBefore(code, es, vs, us, lim, i - 1);
    }
  }
}
