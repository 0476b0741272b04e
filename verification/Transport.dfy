/** The byte level of one message: the JNI loops between Java byte arrays and the fixed
    buffer of SharedFmiMessage, and the whole-struct copies into and out of the slot. */
module Transport {
  import opened RemoteCall

  newtype JByte = b: int | -128 <= b < 128
  newtype UChar = b: int | 0 <= b < 256

  function ToUnsigned(b: JByte): UChar {
    if b < 0 then (b as int + 256) as UChar else b as UChar
  }

  function ToSigned(b: UChar): JByte {
    if b < 128 then b as JByte else (b as int - 256) as JByte
  }

  // The bytes as C sees them: the same modulo 256.
  function Unsigned(s: seq<JByte>): (r: seq<UChar>)
    ensures |r| == |s|
    ensures forall i :: 0 <= i < |s| ==> (r[i] as int - s[i] as int) % 256 == 0 && ToSigned(r[i]) == s[i]
  {
    seq(|s|, i requires 0 <= i < |s| => ToUnsigned(s[i]))
  }

  class SharedFmiMessage {
    var cmd: int
    const protoBufMsg: array<UChar>
    var protoBufMsgSize: int

    ghost predicate Valid()
      reads this
    {
      protoBufMsg.Length == BUFFER_SIZE && 0 <= protoBufMsgSize <= BUFFER_SIZE
    }

    // The bytes that carry the message; what lies beyond them is stale.
    ghost function Bytes(): seq<UChar>
      requires Valid()
      reads this, protoBufMsg
    {
      protoBufMsg[..protoBufMsgSize]
    }

    constructor ()
      ensures Valid() && fresh(protoBufMsg)
      ensures cmd == 0 && Bytes() == []
    {
      cmd, protoBufMsgSize := 0, 0;
      protoBufMsg := new UChar[BUFFER_SIZE](_ => 0);
    }

    /** Struct assignment, as in `m_pBuf->message = *message`; the source may be the slot
        itself, which leaves it unchanged. */
    method Assign(other: SharedFmiMessage)
      requires Valid() && other.Valid()
      requires other == this || other.protoBufMsg != protoBufMsg
      modifies this, protoBufMsg
      ensures Valid() && cmd == old(other.cmd) && Bytes() == old(other.Bytes())
      ensures other == this ==> protoBufMsg[..] == old(protoBufMsg[..])
    {
      cmd := other.cmd;
      protoBufMsgSize := other.protoBufMsgSize;
      for i := 0 to BUFFER_SIZE
        invariant protoBufMsg[..i] == old(other.protoBufMsg[..i])
        invariant other != this ==> other.protoBufMsg[..] == old(other.protoBufMsg[..])
        invariant other == this ==> protoBufMsg[..] == old(protoBufMsg[..])
        invariant cmd == old(other.cmd) && protoBufMsgSize == old(other.protoBufMsgSize)
      {
        protoBufMsg[i] := other.protoBufMsg[i];
      }
      assert protoBufMsg[..BUFFER_SIZE][..protoBufMsgSize] == Bytes();
      assert old(other.protoBufMsg[..BUFFER_SIZE])[..protoBufMsgSize] == old(other.Bytes());
    }

    /** SharedMemory.send and SharedMemoryServer.serverSend: fill a message from a Java array.
        The original does not check the size; the caller must. */
    method Fill(code: int, bytes: array<JByte>)
      requires Valid() && bytes.Length <= BUFFER_SIZE
      modifies this, protoBufMsg
      ensures Valid() && cmd == code && Bytes() == Unsigned(bytes[..])
      ensures protoBufMsg[bytes.Length..] == old(protoBufMsg[bytes.Length..])
    {
      protoBufMsgSize := bytes.Length;
      cmd := code;
      for i := 0 to bytes.Length
        invariant cmd == code && protoBufMsgSize == bytes.Length
        invariant protoBufMsg[..i] == Unsigned(bytes[..i])
        invariant protoBufMsg[bytes.Length..] == old(protoBufMsg[bytes.Length..])
      {
        protoBufMsg[i] := ToUnsigned(bytes[i]);
        assert protoBufMsg[..i + 1] == protoBufMsg[..i] + [ToUnsigned(bytes[i])];
      }
      assert bytes[..bytes.Length] == bytes[..];
    }

    /** SharedMemory.read: copy the recorded bytes into a new Java array, and the command
        into a byte. */
    method Read() returns (code: JByte, bytes: array<JByte>)
      requires Valid()
      ensures fresh(bytes) && bytes.Length == protoBufMsgSize
      ensures Unsigned(bytes[..]) == Bytes()
      ensures (code as int - cmd) % 256 == 0
    {
      code := ToSigned((cmd % 256) as UChar);
      bytes := new JByte[protoBufMsgSize];
      for i := 0 to bytes.Length
        invariant Unsigned(bytes[..i]) == protoBufMsg[..i]
      {
        bytes[i] := ToSigned(protoBufMsg[i]);
        assert bytes[..i + 1] == bytes[..i] + [bytes[i]];
      }
      assert bytes[..bytes.Length] == bytes[..];
    }
  }

  lemma UnsignedInjective(a: seq<JByte>, b: seq<JByte>)
    requires Unsigned(a) == Unsigned(b)
    ensures a == b
  {
    forall i | 0 <= i < |a|
      ensures a[i] == b[i]
    {
      assert ToSigned(Unsigned(a)[i]) == a[i] && ToSigned(Unsigned(b)[i]) == b[i];
    }
  }

  /** One message from a Java array into the slot and out again: exactly the bytes and the
      command that were sent arrive, whatever the slot held before. */
  method Deliver(slot: SharedFmiMessage, code: JByte, bytes: array<JByte>)
    returns (got: JByte, result: array<JByte>)
    requires slot.Valid() && bytes.Length <= BUFFER_SIZE
    modifies slot, slot.protoBufMsg
    ensures got == code && result[..] == bytes[..]
  {
    var message := new SharedFmiMessage();
    message.Fill(code as int, bytes);
    slot.Assign(message);
    got, result := slot.Read();
    UnsignedInjective(result[..], bytes[..]);
  }
}
