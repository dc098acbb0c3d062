/** Handler for Alert messages (section 7.2 of RFC 5246): a 1-byte level
    followed by a 1-byte description. */
module AlertHandler {
  import opened Common
  import opened Messages

  datatype HandlerError =
    | UnsupportedOperation
    | IndexOutOfBounds(index: int)

  class AlertHandler {
    const protocolMessage: AlertMessage

    constructor (protocolMessage: AlertMessage)
      ensures this.protocolMessage == protocolMessage
    {
      this.protocolMessage := protocolMessage;
    }

    /** Preparing an alert for sending is not supported by this handler. */
    method PrepareMessageAction() returns (r: Result<seq<Byte>, HandlerError>)
      ensures r == Err(UnsupportedOperation)
    {
      r := Err(UnsupportedOperation);
    }

    /** Reads level and description at `pointer` and returns the pointer
        past them. Reading outside the array fails, after the level has been
        stored when only that byte was inside. The array is only read. */
    method ParseMessageAction(message: array<Byte>, pointer: int) returns (r: Result<int, HandlerError>)
      modifies protocolMessage
      ensures message[..] == old(message[..])
      ensures 0 <= pointer && pointer + 1 < message.Length ==>
        && r == Ok(pointer + 2)
        && protocolMessage.level == Some(message[pointer])
        && protocolMessage.description == Some(message[pointer + 1])
      ensures pointer == message.Length - 1 && pointer >= 0 ==>
        && r == Err(IndexOutOfBounds(pointer + 1))
        && protocolMessage.level == Some(message[pointer])
        && protocolMessage.description == old(protocolMessage.description)
      ensures pointer < 0 || pointer >= message.Length ==>
        && r == Err(IndexOutOfBounds(pointer))
        && unchanged(protocolMessage)
    {
      if pointer < 0 || pointer >= message.Length {
        return Err(IndexOutOfBounds(pointer));
      }
      protocolMessage.level := Some(message[pointer]);
      if pointer + 1 >= message.Length {
        return Err(IndexOutOfBounds(pointer + 1));
      }
      protocolMessage.description := Some(message[pointer + 1]);
      r := Ok(pointer + 2);
    }
  }
}
