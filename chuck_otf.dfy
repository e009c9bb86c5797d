/**
  The on-the-fly programming message (src/core/chuck_otf.h): a fixed-layout
  record of six integer fields and a 512-byte payload buffer, with its reset
  (clear) and its copy constructor.
 */
module ChuckOtf {

  /** Expected value of `header` on every message (CK_NET_HEADER). */
  const NetHeader: nat := 0x8c8cc8c8
  /** Capacity of the payload buffer in bytes (CK_NET_BUFFER_SIZE). */
  const BufferSize: nat := 512
  /** Error value (CK_NET_ERROR). */
  const NetError: nat := 0xffffffff

  /** The contents of a message as a value: what the fields hold at one moment. */
  datatype NetMsg = NetMsg(
    header: nat, msgType: nat, param: nat, param2: nat, param3: nat, length: nat,
    buffer: seq<bv8>)

  /** n zero bytes. */
  function Zeros(n: nat): (z: seq<bv8>)
    ensures |z| == n
    ensures forall k :: 0 <= k < n ==> z[k] == 0
  {
    if n == 0 then [] else Zeros(n - 1) + [0]
  }

  /** The canonical state that clear() establishes. */
  function ClearedMsg(): NetMsg
  {
    NetMsg(NetHeader, 0, 0, 0, 0, 0, Zeros(BufferSize))
  }

  /**
    A cleared message carries the magic header, zero in every integer field
    and 512 zero bytes; its length fits the buffer and its header cannot be
    confused with the error value.
   */
  lemma ClearedMsgIsCanonical()
    ensures ClearedMsg().header == NetHeader && ClearedMsg().header != NetError
    ensures ClearedMsg().msgType == 0 && ClearedMsg().param == 0
    ensures ClearedMsg().param2 == 0 && ClearedMsg().param3 == 0
    ensures ClearedMsg().length == 0 <= BufferSize
    ensures |ClearedMsg().buffer| == BufferSize
    ensures forall k :: 0 <= k < BufferSize ==> ClearedMsg().buffer[k] == 0
  {
  }

  /** OTF_Net_Msg. The buffer is part of the record, so it is never re-seated. */
  class OtfNetMsg {
    var header: nat
    var msgType: nat
    var param: nat
    var param2: nat
    var param3: nat
    var length: nat
    const buffer: array<bv8>

    ghost predicate Valid()
      reads this
    {
      buffer.Length == BufferSize
    }

    function View(): (m: NetMsg)
      reads this, buffer
      ensures |m.buffer| == buffer.Length
    {
      NetMsg(header, msgType, param, param2, param3, length, buffer[..])
    }

    /** The default constructor clears the message. */
    constructor ()
      ensures Valid() && fresh(buffer)
      ensures View() == ClearedMsg()
    {
      buffer := new bv8[BufferSize];
      new;
      Clear();
    }

    /** Resets every field; the result does not depend on the old contents, so clear() is idempotent. */
    method Clear()
      requires Valid()
      modifies this, buffer
      ensures Valid()
      ensures View() == ClearedMsg()
    {
      header := NetHeader;
      msgType, param, param2, param3, length := 0, 0, 0, 0, 0;
      var i := 0;
      while i < BufferSize
        invariant 0 <= i <= BufferSize
        invariant forall k :: 0 <= k < i ==> buffer[k] == 0
        modifies buffer
      {
        buffer[i] := 0;
        i := i + 1;
      }
      assert buffer[..] == Zeros(BufferSize);
    }

    /**
      The copy constructor: equal to `rhs` field by field and byte by byte, in
      storage of its own (a fresh buffer), so later changes to either leave the
      other as it was.
     */
    constructor Copy(rhs: OtfNetMsg)
      requires rhs.Valid()
      ensures Valid() && fresh(buffer)
      ensures View() == rhs.View()
    {
      header := rhs.header;
      msgType := rhs.msgType;
      param := rhs.param;
      param2 := rhs.param2;
      param3 := rhs.param3;
      length := rhs.length;
      buffer := new bv8[BufferSize];
      new;
      var i := 0;
      while i < BufferSize
        invariant 0 <= i <= BufferSize
        invariant forall k :: 0 <= k < i ==> buffer[k] == rhs.buffer[k]
        modifies buffer
      {
        buffer[i] := rhs.buffer[i];
        i := i + 1;
      }
      assert buffer[..] == rhs.buffer[..];
    }
  }

  /** Clearing a copy leaves the original message as it was. */
  method CopyIsIndependent(src: OtfNetMsg) returns (copy: OtfNetMsg)
    requires src.Valid()
    ensures copy.View() == ClearedMsg()
    ensures src.View() == old(src.View())
    ensures copy.buffer != src.buffer
  {
    copy := new OtfNetMsg.Copy(src);
    assert copy.View() == src.View();
    copy.Clear();
  }

  /**
    clear() is idempotent, and a message cleared once or twice equals a
    default-constructed one.
   */
  method ClearTwiceEqualsDefault(m: OtfNetMsg) returns (defaulted: OtfNetMsg)
    requires m.Valid()
    modifies m, m.buffer
    ensures defaulted.View() == m.View() == ClearedMsg()
  {
    m.Clear();
    ghost var once := m.View();
    m.Clear();
    assert m.View() == once;
    defaulted := new OtfNetMsg();
  }
}
