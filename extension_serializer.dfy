/** The layout every extension serialiser writes (section 7.4.1.4 of
    RFC 5246): the type bytes, the stored extension length as a 2-byte
    big-endian integer, then the extension's own content. */
module ExtensionSerializer {
  import opened Common
  import opened Constants
  import UnknownExtensionParser

  /** The bytes of one serialised extension. The length field carries the
      message's stored length (modulo 2^16), which need not be |content|. */
  function SerializedExtension(extensionType: seq<Byte>, extensionLength: int, content: seq<Byte>): (r: seq<Byte>)
    ensures |r| == |extensionType| + EXTENSIONS_LENGTH + |content|
    ensures r[..|extensionType|] == extensionType
    ensures DecodeUint(r[|extensionType|..|extensionType| + EXTENSIONS_LENGTH]) == extensionLength % 0x1_0000
    ensures r[|extensionType| + EXTENSIONS_LENGTH..] == content
  {
    var lengthField := EncodeUint(extensionLength, EXTENSIONS_LENGTH);
    DecodeEncode(extensionLength, EXTENSIONS_LENGTH);
    assert Pow256(EXTENSIONS_LENGTH) == 256 * Pow256(1) == 256 * 256 * Pow256(0);
    var r := extensionType + lengthField + content;
    assert r[..|extensionType|] == extensionType;
    assert r[|extensionType|..|extensionType| + EXTENSIONS_LENGTH] == lengthField;
    assert r[|extensionType| + EXTENSIONS_LENGTH..] == content;
    r
  }

  /** Reading a serialised extension back with the unknown-extension rule
      (2-byte type, 2-byte length, then the payload) yields the type, the
      stored length and, when that length is |content|, exactly the content;
      an empty content leaves no payload at all. */
  lemma {:induction false} ReparseSerialized(extensionType: seq<Byte>, content: seq<Byte>)
    requires |extensionType| == EXTENSION_TYPE && |content| < 0x1_0000
    ensures var out := SerializedExtension(extensionType, |content|, content);
      && out[..2] == extensionType
      && DecodeUint(out[2..4]) == |content|
      && UnknownExtensionParser.ExtensionData(out, 4, DecodeUint(out[2..4]))
         == (if content == [] then None else Some(content))
  {
    var out := SerializedExtension(extensionType, |content|, content);
    assert out[4..4 + Min(|out| - 4, |content|)] == content;
  }

  /** The written length is the stored field, not the content's size: a
      reader that trusts it takes only the declared prefix of a longer
      content, and all of a shorter one. */
  lemma {:induction false} ReparseMismatchedLength(extensionType: seq<Byte>, extensionLength: nat, content: seq<Byte>)
    requires |extensionType| == EXTENSION_TYPE && extensionLength < 0x1_0000
    ensures var out := SerializedExtension(extensionType, extensionLength, content);
      && DecodeUint(out[2..4]) == extensionLength
      && UnknownExtensionParser.ExtensionData(out, 4, DecodeUint(out[2..4]))
         == (if content == [] then None else Some(content[..Min(|content|, extensionLength)]))
  {
    var out := SerializedExtension(extensionType, extensionLength, content);
    if content != [] {
      assert out[4..4 + Min(|out| - 4, extensionLength)] == content[..Min(|content|, extensionLength)];
    }
  }

  /** The other direction: an extension whose declared length covers exactly
      the bytes after its header is reproduced byte for byte by serialising
      the type, the length and the payload the unknown-extension rule reads
      from it (an empty payload when the length is zero). */
  lemma {:induction false} ReserializeParsed(a: seq<Byte>)
    requires |a| >= 4 && |a| == 4 + DecodeUint(a[2..4])
    ensures var n := DecodeUint(a[2..4]);
      var data := UnknownExtensionParser.ExtensionData(a, 4, n);
      SerializedExtension(a[..2], n, if data.Some? then data.value else []) == a
  {
    var n := DecodeUint(a[2..4]);
    var data := UnknownExtensionParser.ExtensionData(a, 4, n);
    var payload := if data.Some? then data.value else [];
    assert payload == a[4..];
    EncodeDecode(a[2..4]);
    assert EncodeUint(n, EXTENSIONS_LENGTH) == a[2..4];
    assert a == a[..2] + a[2..4] + a[4..];
  }
}
