/** The message objects that parsers fill in and serialisers read. A field
    the parser has not set yet is None. */
module Messages {
  import opened Common

  /** An extension as produced by the per-type extension parsers: its
      2-byte type, its declared length and its raw bytes. */
  datatype ExtensionMessage = ExtensionMessage(extensionType: seq<Byte>, extensionLength: int, extensionBytes: seq<Byte>)

  /** The HelloRetryRequest fields that its content parser sets. */
  datatype HelloRetryRequestFields = HelloRetryRequestFields(
    protocolVersion: Option<seq<Byte>>,
    selectedCipherSuite: Option<seq<Byte>>,
    extensionsLength: Option<nat>,
    extensionBytes: Option<seq<Byte>>,
    extensions: Option<seq<ExtensionMessage>>)

  const UnsetFields := HelloRetryRequestFields(None, None, None, None, None)

  class HelloRetryRequestMessage {
    /** The 3-byte body length, already read by the handshake framing. */
    var length: nat
    var protocolVersion: Option<seq<Byte>>
    var selectedCipherSuite: Option<seq<Byte>>
    var extensionsLength: Option<nat>
    var extensionBytes: Option<seq<Byte>>
    var extensions: Option<seq<ExtensionMessage>>

    constructor (length: nat)
      ensures this.length == length && Fields() == UnsetFields
    {
      this.length := length;
      protocolVersion, selectedCipherSuite, extensionsLength := None, None, None;
      extensionBytes, extensions := None, None;
    }

    function Fields(): (f: HelloRetryRequestFields)
      reads this
    {
      HelloRetryRequestFields(protocolVersion, selectedCipherSuite, extensionsLength, extensionBytes, extensions)
    }
  }

  class UnknownExtensionMessage {
    /** The declared length, already read from the extension header. */
    var extensionLength: nat
    var extensionData: Option<seq<Byte>>

    constructor (extensionLength: nat)
      ensures this.extensionLength == extensionLength && extensionData == None
    {
      this.extensionLength := extensionLength;
      extensionData := None;
    }
  }

  class SessionTicketTLSExtensionMessage {
    var extensionType: seq<Byte>
    var extensionLength: int
    var ticket: seq<Byte>

    constructor (extensionType: seq<Byte>, extensionLength: int, ticket: seq<Byte>)
      ensures this.extensionType == extensionType && this.extensionLength == extensionLength
      ensures this.ticket == ticket
    {
      this.extensionType := extensionType;
      this.extensionLength := extensionLength;
      this.ticket := ticket;
    }
  }

  class AlertMessage {
    var level: Option<Byte>
    var description: Option<Byte>

    constructor ()
      ensures level == None && description == None
    {
      level, description := None, None;
    }
  }
}
