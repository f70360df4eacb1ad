/** struct bt_buf_simple (base/bt_buf_simple.c): octets appended behind the data and
    taken from its front. */
module SimpleBuf {
  import opened Prelude

  class Buffer {
    const storage: array<Byte>
    /** where the data starts */
    var head: nat
    var len: nat

    constructor (size: nat)
      ensures fresh(storage) && storage.Length == size && Valid() && Contents() == [] && head == 0
    {
      storage := new Byte[size](_ => 0);
      head, len := 0, 0;
    }

    ghost predicate Valid()
      reads this
    {
      head + len <= storage.Length
    }

    ghost function Contents(): (c: seq<Byte>)
      reads this, storage
      requires Valid()
      ensures |c| == len
    {
      storage[head..head + len]
    }

    /** bt_buf_simple_reset */
    method Reset()
      modifies this
      ensures Valid() && Contents() == [] && head == 0
    {
      head, len := 0, 0;
    }

    /** bt_buf_simple_add_u8; the source asserts the tailroom. */
    method AddU8(v: Byte)
      requires Valid() && head + len < storage.Length
      modifies this, storage
      ensures Valid() && head == old(head) && Contents() == old(Contents()) + [v]
    {
      storage[head + len] := v;
      len := len + 1;
    }

    /** bt_buf_simple_add_mem */
    method AddMem(v: seq<Byte>)
      requires Valid() && head + len + |v| <= storage.Length
      modifies this, storage
      ensures Valid() && head == old(head) && Contents() == old(Contents()) + v
    {
      var k := 0;
      while k < |v|
        invariant k <= |v| && Valid() && head == old(head) && len == old(len) + k
        invariant Contents() == old(Contents()) + v[..k]
      {
        AddU8(v[k]);
        assert v[..k + 1] == v[..k] + [v[k]];
        k := k + 1;
      }
    }

    /** bt_buf_simple_pull_u8 */
    method PullU8() returns (v: Byte)
      requires Valid() && len >= 1
      modifies this
      ensures Valid() && v == old(Contents())[0] && Contents() == old(Contents())[1..]
      ensures head == old(head) + 1
    {
      v := storage[head];
      head, len := head + 1, len - 1;
    }

    /** bt_buf_simple_pull_mem */
    method PullMem(n: nat) returns (v: seq<Byte>)
      requires Valid() && len >= n
      modifies this
      ensures Valid() && v == old(Contents())[..n] && Contents() == old(Contents())[n..]
      ensures head == old(head) + n
    {
      ghost var was := Contents();
      v := storage[head..head + n];
      head, len := head + n, len - n;
      assert v == was[..n] && Contents() == was[n..];
    }
  }
}
