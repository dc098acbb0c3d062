/** Parser for the body of a (draft TLS 1.3) HelloRetryRequest:
    protocol version, selected cipher suite, then an optional 2-byte
    extensions length followed by the extension list. */
module HelloRetryRequestParser {
  import opened Common
  import opened Constants
  import opened Messages
  import Parser

  /** The extension parser factory, applied to the extension bytes at an
      offset: the extension parsed there and the offset its parser ends at. */
  type ExtensionParserFactory = (seq<Byte>, nat) -> (ExtensionMessage, nat)

  /** Every extension parse consumes at least one byte. */
  ghost predicate Advances(factory: ExtensionParserFactory)
  {
    forall bytes: seq<Byte>, p: nat :: p < |bytes| ==> factory(bytes, p).1 > p
  }

  /** The extensions found by parsing `bytes` from `pointer` to the end. */
  function ExtensionList(bytes: seq<Byte>, pointer: nat, factory: ExtensionParserFactory): (r: seq<ExtensionMessage>)
    requires Advances(factory)
    ensures r == [] <==> pointer >= |bytes|
    ensures pointer <= |bytes| ==> |r| <= |bytes| - pointer
    ensures pointer < |bytes| ==> r[0] == factory(bytes, pointer).0
    decreases |bytes| - pointer
  {
    if pointer >= |bytes| then []
    else
      var (extension, next) := factory(bytes, pointer);
      [extension] + ExtensionList(bytes, next, factory)
  }

  /** The offsets at which successive extension parses start. */
  function ExtensionOffsets(bytes: seq<Byte>, pointer: nat, factory: ExtensionParserFactory): (offsets: seq<nat>)
    requires Advances(factory)
    decreases |bytes| - pointer
  {
    if pointer >= |bytes| then [] else [pointer] + ExtensionOffsets(bytes, factory(bytes, pointer).1, factory)
  }

  /** The extension list keeps the order of the bytes: the first parse starts
      at the given pointer, each next one where the previous one ended, the
      offsets strictly increase inside the bytes, and the last parse reaches
      the end. */
  lemma {:induction false} ExtensionsInOrder(bytes: seq<Byte>, pointer: nat, factory: ExtensionParserFactory)
    requires Advances(factory)
    ensures var offsets, extensions := ExtensionOffsets(bytes, pointer, factory), ExtensionList(bytes, pointer, factory);
      && |offsets| == |extensions|
      && (forall i :: 0 <= i < |offsets| ==>
            pointer <= offsets[i] < |bytes| && extensions[i] == factory(bytes, offsets[i]).0)
      && (forall i :: 0 <= i < |offsets| - 1 ==>
            offsets[i + 1] == factory(bytes, offsets[i]).1 && offsets[i] < offsets[i + 1])
      && (|offsets| > 0 ==> offsets[0] == pointer && factory(bytes, offsets[|offsets| - 1]).1 >= |bytes|)
    decreases |bytes| - pointer
  {
    if pointer < |bytes| {
      var next := factory(bytes, pointer).1;
      ExtensionsInOrder(bytes, next, factory);
      var rest := ExtensionOffsets(bytes, next, factory);
      assert ExtensionOffsets(bytes, pointer, factory) == [pointer] + rest;
      assert ExtensionList(bytes, pointer, factory) == [factory(bytes, pointer).0] + ExtensionList(bytes, next, factory);
    }
  }

  /** What parsing the content does: the fields it sets, where the pointer
      ends, and whether a field ran past the input. */
  datatype ContentParse = ContentParse(fields: HelloRetryRequestFields, pointer: nat, failed: bool)

  /** Whether the declared message length leaves bytes after those consumed
      so far (the length counts the body; the pointer also passed the type
      byte and the 3-byte length). */
  predicate DeclaredBytesRemain(length: nat, start: nat, pointer: nat): (r: bool)
    // The message ends `length` bytes after its 4-byte header; bytes remain
    // exactly while the pointer is before that end.
    ensures r <==> pointer < start + MESSAGE_TYPE + MESSAGE_LENGTH_FIELD + length
  {
    length + MESSAGE_TYPE + MESSAGE_LENGTH_FIELD > pointer - start
  }

  /** The content parse of a HelloRetryRequest whose body is read from
      a[p..], where a[start] is its type byte and `length` its body length. */
  function ParseContent(a: seq<Byte>, start: nat, p: nat, length: nat, factory: ExtensionParserFactory): (r: ContentParse)
    requires start <= p <= |a| && Advances(factory)
    ensures p <= r.pointer <= |a|
    // The fields come in the order version, cipher suite, extensions length, extension bytes.
    ensures r.fields.protocolVersion.Some? <==> p + VERSION <= |a|
    ensures r.fields.protocolVersion.Some? ==> r.fields.protocolVersion.value == a[p..p + 2]
    ensures r.fields.selectedCipherSuite.Some? <==> p + VERSION + CIPHER_SUITE <= |a|
    ensures r.fields.selectedCipherSuite.Some? ==> r.fields.selectedCipherSuite.value == a[p + 2..p + 4]
    // The extensions length is read exactly when declared bytes remain and it fits.
    ensures r.fields.extensionsLength.Some? <==>
              p + 6 <= |a| && DeclaredBytesRemain(length, start, p + 4)
    ensures r.fields.extensionsLength.Some? ==> r.fields.extensionsLength.value == DecodeUint(a[p + 4..p + 6])
    // Extension bytes are read only for a positive extensions length.
    ensures r.fields.extensionBytes.Some? <==>
              r.fields.extensionsLength.Some? && r.fields.extensionsLength.value > 0
              && p + 6 + r.fields.extensionsLength.value <= |a|
    ensures r.fields.extensionBytes.Some? ==>
              var n := r.fields.extensionsLength.value;
              && r.fields.extensionBytes.value == a[p + 6..p + 6 + n]
              && r.pointer == p + 6 + n && !r.failed
              && r.fields.extensions == Some(ExtensionList(r.fields.extensionBytes.value, 0, factory))
    ensures r.fields.extensionBytes.None? ==> r.fields.extensions.None?
    // A zero extensions length consumes no extension bytes.
    ensures r.fields.extensionsLength == Some(0) ==> r.pointer == p + 6 && !r.failed
    ensures !DeclaredBytesRemain(length, start, p + 4) && p + 4 <= |a| ==>
              r.pointer == p + 4 && !r.failed && r.fields.extensionsLength.None?
    // The parse fails exactly when a field it attempts does not fit.
    ensures r.failed <==>
              || p + 4 > |a|
              || (DeclaredBytesRemain(length, start, p + 4)
                  && (p + 6 > |a|
                      || (DecodeUint(a[p + 4..p + 6]) > 0 && p + 6 + DecodeUint(a[p + 4..p + 6]) > |a|)))
  {
    if p + VERSION > |a| then ContentParse(UnsetFields, p, true)
    else
      var version := a[p..p + VERSION];
      var p1 := p + VERSION;
      if p1 + CIPHER_SUITE > |a| then ContentParse(UnsetFields.(protocolVersion := Some(version)), p1, true)
      else
        var suite := a[p1..p1 + CIPHER_SUITE];
        var p2 := p1 + CIPHER_SUITE;
        var head := UnsetFields.(protocolVersion := Some(version), selectedCipherSuite := Some(suite));
        if !DeclaredBytesRemain(length, start, p2) then ContentParse(head, p2, false)
        else if p2 + EXTENSION_LENGTH > |a| then ContentParse(head, p2, true)
        else
          var extensionsLength := DecodeUint(a[p2..p2 + EXTENSION_LENGTH]);
          var p3 := p2 + EXTENSION_LENGTH;
          var withLength := head.(extensionsLength := Some(extensionsLength));
          if extensionsLength <= 0 then ContentParse(withLength, p3, false)
          else if p3 + extensionsLength > |a| then ContentParse(withLength, p3, true)
          else
            var bytes := a[p3..p3 + extensionsLength];
            var extensions := ExtensionList(bytes, 0, factory);
            ContentParse(withLength.(extensionBytes := Some(bytes), extensions := Some(extensions)),
                         p3 + extensionsLength, false)
  }

  class HelloRetryRequestParser {
    const parser: Parser.Parser
    const factory: ExtensionParserFactory

    ghost predicate Valid()
      reads this, parser
    {
      parser.Valid() && Advances(factory)
    }

    constructor (pointer: nat, input: seq<Byte>, factory: ExtensionParserFactory)
      requires pointer <= |input| && Advances(factory)
      ensures Valid() && fresh(parser) && this.factory == factory
      ensures parser.input == input && parser.startPoint == pointer && parser.pointer == pointer
    {
      parser := new Parser.Parser(pointer, input);
      this.factory := factory;
    }

    /** Parses version, cipher suite and, when declared bytes remain, the
        extensions length and (when it is positive) the extensions. */
    method ParseHandshakeMessageContent(msg: HelloRetryRequestMessage) returns (r: Outcome<Parser.ParserError>)
      requires Valid() && msg.Fields() == UnsetFields
      modifies parser`pointer, msg
      ensures Valid() && msg.length == old(msg.length)
      ensures var spec := ParseContent(parser.input, parser.startPoint, old(parser.pointer), msg.length, factory);
        && msg.Fields() == spec.fields
        && parser.pointer == spec.pointer
        && (r.Fail? <==> spec.failed)
    {
      r := ParseProtocolVersion(msg);
      if r.Fail? { return; }
      r := ParseSelectedCiphersuite(msg);
      if r.Fail? { return; }
      if HasExtensionLengthField(msg) {
        r := ParseExtensionLength(msg);
        if r.Fail? { return; }
        if HasExtensions(msg) {
          r := ParseExtensionBytes(msg);
        }
      }
    }

    method ParseProtocolVersion(msg: HelloRetryRequestMessage) returns (r: Outcome<Parser.ParserError>)
      requires Valid()
      modifies parser`pointer, msg`protocolVersion
      ensures Valid()
      ensures var f := Parser.Field(parser.input, old(parser.pointer), VERSION);
        && (r.Pass? <==> f.Ok?)
        && msg.protocolVersion == (if f.Ok? then Some(f.value) else old(msg.protocolVersion))
        && parser.pointer == old(parser.pointer) + (if f.Ok? then VERSION else 0)
    {
      var field := parser.ParseByteArrayField(VERSION);
      if field.Err? { return Fail(field.error); }
      msg.protocolVersion := Some(field.value);
      r := Pass;
    }

    method ParseSelectedCiphersuite(msg: HelloRetryRequestMessage) returns (r: Outcome<Parser.ParserError>)
      requires Valid()
      modifies parser`pointer, msg`selectedCipherSuite
      ensures Valid()
      ensures var f := Parser.Field(parser.input, old(parser.pointer), CIPHER_SUITE);
        && (r.Pass? <==> f.Ok?)
        && msg.selectedCipherSuite == (if f.Ok? then Some(f.value) else old(msg.selectedCipherSuite))
        && parser.pointer == old(parser.pointer) + (if f.Ok? then CIPHER_SUITE else 0)
    {
      var field := parser.ParseByteArrayField(CIPHER_SUITE);
      if field.Err? { return Fail(field.error); }
      msg.selectedCipherSuite := Some(field.value);
      r := Pass;
    }

    method ParseExtensionLength(msg: HelloRetryRequestMessage) returns (r: Outcome<Parser.ParserError>)
      requires Valid()
      modifies parser`pointer, msg`extensionsLength
      ensures Valid()
      ensures var f := Parser.Field(parser.input, old(parser.pointer), EXTENSION_LENGTH);
        && (r.Pass? <==> f.Ok?)
        && msg.extensionsLength == (if f.Ok? then Some(DecodeUint(f.value)) else old(msg.extensionsLength))
        && parser.pointer == old(parser.pointer) + (if f.Ok? then EXTENSION_LENGTH else 0)
    {
      var field := parser.ParseIntField(EXTENSION_LENGTH);
      if field.Err? { return Fail(field.error); }
      msg.extensionsLength := Some(field.value);
      r := Pass;
    }

    /** Reads the declared number of extension bytes, then runs the extension
        parsers over them from offset 0 until the end is reached. */
    method ParseExtensionBytes(msg: HelloRetryRequestMessage) returns (r: Outcome<Parser.ParserError>)
      requires Valid() && msg.extensionsLength.Some?
      modifies parser`pointer, msg`extensionBytes, msg`extensions
      ensures Valid()
      ensures var f := Parser.Field(parser.input, old(parser.pointer), msg.extensionsLength.value);
        && (r.Pass? <==> f.Ok?)
        && (f.Ok? ==>
              && msg.extensionBytes == Some(f.value)
              && msg.extensions == Some(ExtensionList(f.value, 0, factory))
              && parser.pointer == old(parser.pointer) + msg.extensionsLength.value)
        && (f.Err? ==>
              && msg.extensionBytes == old(msg.extensionBytes)
              && msg.extensions == old(msg.extensions)
              && parser.pointer == old(parser.pointer))
    {
      var field := parser.ParseByteArrayField(msg.extensionsLength.value);
      if field.Err? { return Fail(field.error); }
      var extensionBytes := field.value;
      msg.extensionBytes := Some(extensionBytes);
      var extensionMessages: seq<ExtensionMessage> := [];
      var pointer: nat := 0;
      while pointer < |extensionBytes|
        invariant extensionMessages + ExtensionList(extensionBytes, pointer, factory)
                  == ExtensionList(extensionBytes, 0, factory)
        decreases |extensionBytes| - pointer
      {
        var (extension, next) := factory(extensionBytes, pointer);
        extensionMessages := extensionMessages + [extension];
        pointer := next;
      }
      assert ExtensionList(extensionBytes, pointer, factory) == [];
      assert extensionMessages == ExtensionList(extensionBytes, 0, factory);
      msg.extensions := Some(extensionMessages);
      r := Pass;
    }

    /** Whether the parser is still inside the declared message, so that
        an extensions length follows. */
    predicate HasExtensionLengthField(msg: HelloRetryRequestMessage): (r: bool)
      reads this, parser, msg
      ensures r <==> parser.pointer < parser.startPoint + MESSAGE_TYPE + MESSAGE_LENGTH_FIELD + msg.length
    {
      DeclaredBytesRemain(msg.length, parser.startPoint, parser.pointer)
    }

    /** Whether extension bytes follow: a zero extensions length means none. */
    predicate HasExtensions(msg: HelloRetryRequestMessage): (r: bool)
      reads msg
      requires msg.extensionsLength.Some?
      ensures r <==> msg.extensionsLength != Some(0)
    {
      msg.extensionsLength.value > 0
    }
  }
}
