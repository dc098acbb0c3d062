/** Preparator of the SessionTicket extension: fills the message's ticket
    from the configured session ticket (section 3.2 of RFC 5077). */
module SessionTicketTLSExtensionPreparator {
  import opened Common
  import opened Messages
  import ExtensionSerializer
  import SessionTicketTLSExtensionSerializer

  datatype TlsConfig = TlsConfig(sessionTLSTicket: seq<Byte>)

  datatype TlsContext = TlsContext(config: TlsConfig)

  class SessionTicketTLSExtensionPreparator {
    const context: TlsContext
    const message: SessionTicketTLSExtensionMessage

    constructor (context: TlsContext, message: SessionTicketTLSExtensionMessage)
      ensures this.context == context && this.message == message
    {
      this.context := context;
      this.message := message;
    }

    /** Writes the ticket field, and only that field. The new ticket does not
        depend on the old one, so preparing again changes nothing. */
    method PrepareExtensionContent()
      modifies message`ticket
      ensures message.ticket == context.config.sessionTLSTicket
    {
      message.ticket := context.config.sessionTLSTicket;
    }
  }

  /** The send step for this extension: prepare the message, then serialise
      it. The serialised content is the configured ticket. */
  method PrepareAndSerialize(
    preparator: SessionTicketTLSExtensionPreparator,
    serializer: SessionTicketTLSExtensionSerializer.SessionTicketTLSExtensionSerializer)
    returns (out: seq<Byte>)
    requires serializer.message == preparator.message && serializer.serialized == []
    modifies preparator.message`ticket, serializer`serialized
    ensures var header := |preparator.message.extensionType| + 2;
      && out == ExtensionSerializer.SerializedExtension(
                  preparator.message.extensionType, preparator.message.extensionLength,
                  preparator.context.config.sessionTLSTicket)
      && out[header..] == preparator.context.config.sessionTLSTicket
  {
    preparator.PrepareExtensionContent();
    out := serializer.SerializeBytes();
  }
}
