/** The receive threads of drivers/h4.c and drivers/userchan.c: one turn of the loop is
    one read into the fixed frame, packets taken from its front, the rest shifted down. */
module H4Rx {
  import opened Prelude
  import opened H4

  /** What is decoded and what the rest of the frame still yields make up the whole. */
  ghost predicate Remains(left: (seq<seq<Byte>>, seq<Byte>), decoded: seq<seq<Byte>>, before: seq<seq<Byte>>,
                          all: (seq<seq<Byte>>, seq<Byte>)) {
    decoded + left.0 == before + all.0 && left.1 == all.1
  }

  /** What each verdict on the front of the frame means for the rest. */
  lemma H4Front(cap: nat, buf: seq<Byte>, decoded: seq<seq<Byte>>, before: seq<seq<Byte>>, all: (seq<seq<Byte>>, seq<Byte>))
    requires buf != [] && Remains(Drain(cap, buf), decoded, before, all)
    ensures
      var n := Complete(buf);
      && -1 <= n <= |buf|
      && (n == -1 || (n == 0 && |buf| == cap) ==> Remains(([], []), decoded, before, all))
      && (n == 0 && |buf| != cap ==> Remains(([], buf), decoded, before, all))
      && (n > 0 ==> Remains(Drain(cap, buf[n..]), decoded + [buf[..n]], before, all))
  {
    CompleteBound(buf);
    hide Complete;
    var n := Complete(buf);
    if n > 0 {
      var left := Drain(cap, buf[n..]);
      assert decoded + ([buf[..n]] + left.0) == decoded + [buf[..n]] + left.0;
    }
  }

  lemma UserChannelFront(buf: seq<Byte>, decoded: seq<seq<Byte>>, before: seq<seq<Byte>>, all: (seq<seq<Byte>>, seq<Byte>))
    requires buf != [] && Remains(DrainUc(buf), decoded, before, all)
    ensures
      var n := Complete(buf);
      && -1 <= n <= |buf|
      && (n == -1 ==> Remains(([], []), decoded, before, all))
      && (n == 0 ==> Remains(([], buf), decoded, before, all))
      && (n > 0 ==> Remains(DrainUc(buf[n..]), decoded + [buf[..n]], before, all))
  {
    DrainUcStep(buf);
    hide Complete, DrainUc;
    var n := Complete(buf);
    if n > 0 {
      var left := DrainUc(buf[n..]);
      assert decoded + ([buf[..n]] + left.0) == decoded + [buf[..n]] + left.0;
    }
  }

  lemma DrainUcStep(buf: seq<Byte>)
    requires buf != []
    ensures
      var n := Complete(buf);
      && -1 <= n <= |buf|
      && DrainUc(buf) == if n == -1 then ([], []) else if n == 0 then ([], buf)
                         else ([buf[..n]] + DrainUc(buf[n..]).0, DrainUc(buf[n..]).1)
  {
    CompleteBound(buf);
  }

  class Receiver {
    const frame: array<Byte>
    var frameSize: nat
    /** the packets decoded so far */
    var decoded: seq<seq<Byte>>

    constructor (cap: nat)
      ensures fresh(frame) && frame.Length == cap && Valid() && Held() == [] && decoded == []
    {
      frame := new Byte[cap](_ => 0);
      frameSize, decoded := 0, [];
    }

    ghost predicate Valid()
      reads this
    {
      frameSize <= frame.Length
    }

    /** What has been read and not been taken. */
    ghost function Held(): seq<Byte>
      reads this, frame
      requires Valid()
    {
      frame[..frameSize]
    }

    /** read() */
    method Read(chunk: seq<Byte>)
      requires Valid() && frameSize + |chunk| <= frame.Length
      modifies this`frameSize, frame
      ensures Valid() && Held() == old(Held()) + chunk
    {
      var k := 0;
      while k < |chunk|
        invariant k <= |chunk| && frameSize == old(frameSize)
        invariant frame[..frameSize + k] == old(frame[..frameSize]) + chunk[..k]
      {
        frame[frameSize + k] := chunk[k];
        k := k + 1;
      }
      frameSize := frameSize + |chunk|;
    }

    /** memmove to the front of the frame */
    method Shift(start: nat)
      requires start + frameSize <= frame.Length
      modifies frame
      ensures Valid() && Held() == old(frame[start..start + frameSize])
    {
      ghost var was := frame[..];
      var k := 0;
      while k < frameSize
        invariant k <= frameSize
        invariant forall j :: 0 <= j < k ==> frame[j] == was[start + j]
        invariant forall j :: start + k <= j < start + frameSize ==> frame[j] == was[j]
      {
        frame[k] := frame[start + k];
        k := k + 1;
      }
      assert was[start..start + frameSize] == frame[..frameSize];
    }

    /** The front of the frame: a packet is decoded and taken, or there is none (`len` -1)
        or not yet (0). */
    method TakeFront(start: nat, ghost buf: seq<Byte>) returns (len: int)
      requires start + frameSize <= frame.Length && frameSize > 0 && buf == frame[start..start + frameSize]
      modifies this`frameSize, this`decoded
      ensures len == Complete(buf) && -1 <= len <= old(frameSize)
      ensures len <= 0 ==> frameSize == old(frameSize) && decoded == old(decoded)
      ensures len > 0 ==>
                && frameSize == old(frameSize) - len && decoded == old(decoded) + [buf[..len]]
                && buf[len..] == frame[start + len..start + len + frameSize]
    {
      len := Complete(frame[start..start + frameSize]);
      CompleteBound(buf);
      if len > 0 {
        var packet := frame[start..start + len];
        assert forall k :: 0 <= k < len ==> packet[k] == buf[k];
        assert packet == buf[..len];
        decoded := decoded + [packet];
        frameSize := frameSize - len;
      }
    }

    /** One turn of h4_rx_thread whose read returned `chunk`. */
    method H4Turn(chunk: seq<Byte>)
      requires Valid() && frameSize + |chunk| <= frame.Length
      modifies this, frame
      ensures Valid()
      ensures var (ps, rest) := Drain(frame.Length, old(Held()) + chunk);
              decoded == old(decoded) + ps && Held() == rest
    {
      Read(chunk);
      H4Loop();
    }

    method H4Loop()
      requires Valid()
      modifies this, frame
      ensures Valid()
      ensures decoded == old(decoded) + Drain(frame.Length, old(Held())).0 && Held() == Drain(frame.Length, old(Held())).1
    {
      hide Complete;
      ghost var before, buf := decoded, Held();
      ghost var all := Drain(frame.Length, buf);
      var start := 0;
      while frameSize > 0
        invariant start + frameSize <= frame.Length && buf == frame[start..start + frameSize]
        invariant Remains(Drain(frame.Length, buf), decoded, before, all)
        decreases frameSize
      {
        H4Front(frame.Length, buf, decoded, before, all);
        var len := TakeFront(start, buf);
        if len == -1 {
          frameSize := 0;
          buf := [];
        } else if len == 0 {
          if frameSize == frame.Length {
            frameSize := 0;
            break;
          }
          if start != 0 {
            Shift(start);
          }
          break;
        } else {
          start := start + len;
          buf := buf[len..];
        }
      }
    }

    /** One turn of rx_thread of the user channel driver. */
    method UserChannelTurn(chunk: seq<Byte>)
      requires Valid() && (if frameSize >= frame.Length then 0 else frameSize) + |chunk| <= frame.Length
      modifies this, frame
      ensures Valid()
      ensures var (ps, rest) := DrainUc((if old(frameSize) >= frame.Length then [] else old(Held())) + chunk);
              decoded == old(decoded) + ps && Held() == rest
    {
      DropFull();
      Read(chunk);
      UserChannelLoop();
    }

    /** A full frame without a whole packet is dropped before the next read. */
    method DropFull()
      requires Valid()
      modifies this`frameSize
      ensures Valid() && Held() == if old(frameSize) >= frame.Length then [] else old(Held())
    {
      if frameSize >= frame.Length {
        frameSize := 0;
      }
    }

    method UserChannelLoop()
      requires Valid()
      modifies this, frame
      ensures Valid() && decoded == old(decoded) + DrainUc(old(Held())).0 && Held() == DrainUc(old(Held())).1
    {
      hide Complete;
      ghost var before, buf := decoded, Held();
      ghost var all := DrainUc(buf);
      var start := 0;
      while frameSize > 0
        invariant start + frameSize <= frame.Length && buf == frame[start..start + frameSize]
        invariant Remains(DrainUc(buf), decoded, before, all)
        decreases frameSize
      {
        UserChannelFront(buf, decoded, before, all);
        var len := TakeFront(start, buf);
        if len == -1 {
          frameSize := 0;
          buf := [];
        } else if len == 0 {
          if start != 0 && frameSize < frame.Length {
            Shift(start);
          }
          break;
        } else {
          start := start + len;
          buf := buf[len..];
        }
      }
    }
  }
}
