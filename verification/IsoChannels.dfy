/** bluetooth/audio/bap_iso.c: the methods that update the channels of the pool, and the
    endpoints and streams bound to them, in place, proved against the steps of IsoPool. */
module IsoChannels {
  import opened Prelude
  import opened IsoPool

  class Channels {
    const isos: array<Iso>
    const eps: array<Ep>
    const streams: array<Option<nat>>
    /** The references callers hold to each channel. */
    ghost var held: seq<nat>

    ghost function Abs(): State
      reads this, isos, eps, streams
    {
      State(isos[..], eps[..], streams[..], held)
    }

    constructor (size: nat, dirs: seq<A.Dir>, clients: seq<bool>, streamCount: nat)
      requires |dirs| == |clients|
      ensures fresh(isos) && fresh(eps) && fresh(streams)
      ensures isos.Length == size && eps.Length == |dirs| && streams.Length == streamCount
      ensures forall e :: 0 <= e < |dirs| ==> eps[e].dir == dirs[e] && eps[e].client == clients[e]
      ensures Initial(Abs()) && Inv(Abs())
    {
      isos := new Iso[size](_ => Iso(0, UNUSED, UNUSED));
      eps := new Ep[|dirs|](e requires 0 <= e < |dirs| => Ep(dirs[e], clients[e], None));
      streams := new Option<nat>[streamCount](_ => None);
      held := seq(size, _ => 0);
    }

    /** bt_bap_iso_new */
    method New() returns (iso: Option<nat>)
      requires Inv(Abs())
      modifies this, isos
      ensures Abs() == Step(old(Abs()), ENew) && Inv(Abs())
      ensures iso == (if Free(old(isos[..]), 0) < isos.Length then Some(Free(old(isos[..]), 0)) else None)
    {
      StepKeeps(Abs(), ENew);
      var k := 0;
      while k < isos.Length && isos[k].ref != 0
        invariant k <= isos.Length
        invariant forall j :: 0 <= j < k ==> isos[j].ref != 0
      {
        k := k + 1;
      }
      assert k == Free(isos[..], 0);
      if k == isos.Length {
        return None;
      }
      isos[k] := Iso(1, UNUSED, UNUSED);
      held := held[k := held[k] + 1];
      return Some(k);
    }

    /** bt_bap_iso_ref, for a caller that keeps the reference */
    method Ref(k: nat) returns (ok: bool)
      requires Inv(Abs()) && k < isos.Length
      modifies this, isos
      ensures Abs() == Step(old(Abs()), ERef(k)) && Inv(Abs())
      ensures ok == (old(isos[k].ref) > 0)
    {
      StepKeeps(Abs(), ERef(k));
      ok := AddRef(k);
      if ok { held := held[k := held[k] + 1]; }
    }

    /** bt_bap_iso_ref never raises a count from zero. */
    method AddRef(k: nat) returns (ok: bool)
      requires k < isos.Length
      modifies isos
      ensures ok == (old(isos[k].ref) > 0)
      ensures isos[..] == old(isos[..])[k := if ok then old(isos[k]).(ref := old(isos[k].ref) + 1) else old(isos[k])]
    {
      ok := isos[k].ref != 0;
      if ok { isos[k] := isos[k].(ref := isos[k].ref + 1); }
    }

    method DecRef(k: nat)
      requires k < isos.Length && isos[k].ref > 0
      modifies isos
      ensures isos[..] == old(isos[..])[k := Drop(old(isos[k]))]
    {
      isos[k] := isos[k].(ref := isos[k].ref - 1);
    }

    /** bt_bap_iso_unref, by a caller that holds a reference */
    method Unref(k: nat)
      requires Inv(Abs()) && CanHappen(Abs(), EUnref(k))
      modifies this, isos
      ensures Abs() == Step(old(Abs()), EUnref(k)) && Inv(Abs())
    {
      StepKeeps(Abs(), EUnref(k));
      assert IsoInv(Abs(), k);
      DecRef(k);
      held := held[k := held[k] - 1];
    }

    /** bt_bap_iso_find through bt_bap_iso_foreach: every channel in use is held while the
        caller's function looks at it; `answers` are the answers of this function. */
    method Find(answers: seq<bool>) returns (iso: Option<nat>)
      requires Inv(Abs()) && |answers| == isos.Length
      modifies this, isos
      ensures Abs() == Step(old(Abs()), EFind(answers)) && Inv(Abs())
      ensures iso == var k := Found(old(isos[..]), answers, 0); if k < isos.Length then Some(k) else None
    {
      StepKeeps(Abs(), EFind(answers));
      var k := 0;
      while k < isos.Length
        invariant k <= isos.Length && Abs() == old(Abs())
        invariant forall j :: 0 <= j < k ==> !(isos[j].ref > 0 && answers[j])
      {
        var used := AddRef(k);
        if used {
          var found := answers[k];
          if found {
            assert k == Found(old(isos[..]), answers, 0);
            var _ := AddRef(k);
            held := held[k := held[k] + 1];
          }
          DecRef(k);
          if found {
            return Some(k);
          }
        }
        assert isos[..] == old(isos[..]);
        k := k + 1;
      }
      assert k == Found(old(isos[..]), answers, 0);
      return None;
    }

    /** bt_bap_iso_bind_ep */
    method BindEp(k: nat, e: nat)
      requires Inv(Abs()) && CanHappen(Abs(), EBindEp(k, e))
      modifies isos, eps
      ensures Abs() == Step(old(Abs()), EBindEp(k, e)) && Inv(Abs())
    {
      StepKeeps(Abs(), EBindEp(k, e));
      isos[k] := WithEp(isos[k], EpIsRx(eps[e]), Some(e));
      var ok := AddRef(k);
      eps[e] := eps[e].(iso := if ok then Some(k) else None);
    }

    /** bt_bap_iso_unbind_ep */
    method UnbindEp(e: nat)
      requires Inv(Abs()) && CanHappen(Abs(), EUnbindEp(e))
      modifies isos, eps
      ensures Abs() == Step(old(Abs()), EUnbindEp(e)) && Inv(Abs())
    {
      StepKeeps(Abs(), EUnbindEp(e));
      assert EpBound(Abs(), e);
      var k := eps[e].iso.value;
      assert IsoInv(Abs(), k);
      isos[k] := WithEp(isos[k], EpIsRx(eps[e]), None);
      DecRef(k);
      eps[e] := eps[e].(iso := None);
    }

    /** bt_bap_iso_bind_stream */
    method BindStream(k: nat, j: nat, dir: A.Dir)
      requires Inv(Abs()) && CanHappen(Abs(), EBindStream(k, j, dir))
      modifies isos, streams
      ensures Abs() == Step(old(Abs()), EBindStream(k, j, dir)) && Inv(Abs())
    {
      StepKeeps(Abs(), EBindStream(k, j, dir));
      isos[k] := WithStream(isos[k], IsRx(dir, true), Some(j));
      var ok := AddRef(k);
      streams[j] := if ok then Some(k) else None;
    }

    /** bt_bap_iso_unbind_stream */
    method UnbindStream(j: nat, dir: A.Dir)
      requires Inv(Abs()) && CanHappen(Abs(), EUnbindStream(j, dir))
      modifies isos, streams
      ensures Abs() == Step(old(Abs()), EUnbindStream(j, dir)) && Inv(Abs())
    {
      StepKeeps(Abs(), EUnbindStream(j, dir));
      var k := streams[j].value;
      assert IsoInv(Abs(), k);
      isos[k] := WithStream(isos[k], IsRx(dir, true), None);
      DecRef(k);
      streams[j] := None;
    }
  }
}
