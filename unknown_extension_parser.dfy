/** Parser for an extension of a type with no dedicated parser: its payload
    is kept as raw bytes. A declared length longer than what is left is not
    an error; the parser takes whatever is left. */
module UnknownExtensionParser {
  import opened Common
  import opened Messages
  import Parser

  /** The payload read at offset p of a for an extension declaring
      `extensionLength` bytes: nothing when no byte is left, otherwise the
      min(bytes left, declared length) bytes at the cursor. */
  function ExtensionData(a: seq<Byte>, p: nat, extensionLength: nat): (r: Option<seq<Byte>>)
    requires p <= |a|
    ensures r.None? <==> p == |a|
    ensures r.Some? ==> r.value == a[p..p + Min(|a| - p, extensionLength)]
  {
    if |a| - p == 0 then None
    else if |a| - p < extensionLength then Some(a[p..|a|])
    else Some(a[p..p + extensionLength])
  }

  /** The pointer after the payload has been read. */
  function PointerAfter(a: seq<Byte>, p: nat, extensionLength: nat): (q: nat)
    requires p <= |a|
    ensures q == p + Min(|a| - p, extensionLength) && q <= |a|
    ensures var d := ExtensionData(a, p, extensionLength); q == p + (if d.Some? then |d.value| else 0)
  {
    if |a| - p == 0 then p
    else if |a| - p < extensionLength then |a|
    else p + extensionLength
  }

  /** The truncation rule: a declared length of 10 with 4 bytes left takes
      exactly those 4 bytes. */
  lemma TruncatedPayload(a: seq<Byte>, p: nat)
    requires p + 4 == |a|
    ensures ExtensionData(a, p, 10) == Some(a[p..]) && |a[p..]| == 4
    ensures PointerAfter(a, p, 10) == |a|
  {
    assert a[p..p + Min(|a| - p, 10)] == a[p..];
  }

  class UnknownExtensionParser {
    const parser: Parser.Parser

    constructor (startPosition: nat, input: seq<Byte>)
      requires startPosition <= |input|
      ensures parser.Valid() && fresh(parser)
      ensures parser.input == input && parser.pointer == startPosition
    {
      parser := new Parser.Parser(startPosition, input);
    }

    method ParseExtensionData(msg: UnknownExtensionMessage)
      requires parser.Valid()
      modifies parser`pointer, msg`extensionData
      ensures parser.Valid()
      ensures var d := ExtensionData(parser.input, old(parser.pointer), msg.extensionLength);
        && msg.extensionData == (if d.Some? then d else old(msg.extensionData))
        && parser.pointer == PointerAfter(parser.input, old(parser.pointer), msg.extensionLength)
    {
      if parser.BytesLeft() == 0 {
        // At the end of the input: the message keeps its extension data.
      } else if parser.BytesLeft() < msg.extensionLength {
        var field := parser.ParseByteArrayField(parser.BytesLeft());
        msg.extensionData := Some(field.value);
      } else {
        var field := parser.ParseByteArrayField(msg.extensionLength);
        msg.extensionData := Some(field.value);
      }
    }

    /** `hasExtensionData` is the base extension parser's verdict on the
        message, which is not part of this model. */
    method ParseExtensionMessageContent(msg: UnknownExtensionMessage, hasExtensionData: bool)
      requires parser.Valid()
      modifies parser`pointer, msg`extensionData
      ensures parser.Valid()
      ensures !hasExtensionData ==> parser.pointer == old(parser.pointer) && msg.extensionData == old(msg.extensionData)
      ensures hasExtensionData ==>
        var d := ExtensionData(parser.input, old(parser.pointer), msg.extensionLength);
        && msg.extensionData == (if d.Some? then d else old(msg.extensionData))
        && parser.pointer == PointerAfter(parser.input, old(parser.pointer), msg.extensionLength)
    {
      if hasExtensionData {
        ParseExtensionData(msg);
      }
    }
  }
}
