/** Serialiser of the SessionTicket extension (section 3.2 of RFC 5077):
    the extension header written by the generic extension serialiser,
    followed by the ticket bytes. The serialiser owns an append-only byte
    buffer. */
module SessionTicketTLSExtensionSerializer {
  import opened Common
  import opened Constants
  import opened Messages
  import ExtensionSerializer

  class SessionTicketTLSExtensionSerializer {
    const message: SessionTicketTLSExtensionMessage
    /** Everything appended so far. */
    var serialized: seq<Byte>

    constructor (message: SessionTicketTLSExtensionMessage)
      ensures this.message == message && serialized == []
    {
      this.message := message;
      serialized := [];
    }

    method AppendBytes(bytes: seq<Byte>)
      modifies this`serialized
      ensures serialized == old(serialized) + bytes
    {
      serialized := serialized + bytes;
    }

    /** Appends the `size` low-order bytes of `value`, most significant first. */
    method AppendInt(value: int, size: nat)
      modifies this`serialized
      ensures serialized == old(serialized) + EncodeUint(value, size)
    {
      serialized := serialized + EncodeUint(value, size);
    }

    /** Writes type, stored length and content, and returns the whole buffer. */
    method SerializeBytes() returns (out: seq<Byte>)
      modifies this`serialized
      ensures out == serialized
      ensures serialized == old(serialized)
        + ExtensionSerializer.SerializedExtension(message.extensionType, message.extensionLength, message.ticket)
    {
      WriteType();
      WriteLength();
      out := SerializeExtensionContent();
    }

    method WriteType()
      modifies this`serialized
      ensures serialized == old(serialized) + message.extensionType
    {
      AppendBytes(message.extensionType);
    }

    method WriteLength()
      modifies this`serialized
      ensures serialized == old(serialized) + EncodeUint(message.extensionLength, EXTENSIONS_LENGTH)
    {
      AppendInt(message.extensionLength, EXTENSIONS_LENGTH);
    }

    /** Appends the ticket; an empty ticket appends nothing. Returns the
        whole buffer, header included. */
    method SerializeExtensionContent() returns (out: seq<Byte>)
      modifies this`serialized
      ensures serialized == old(serialized) + message.ticket
      ensures |serialized| == |old(serialized)| + |message.ticket|
      ensures out == serialized
    {
      AppendBytes(message.ticket);
      out := serialized;
    }
  }
}
