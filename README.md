# TLS-Attacker core, modelled in Dafny

This project models eight pieces of the TLS-Attacker toolkit and proves properties about them:

- **Key-schedule derivation** (`KeySetGenerator`). It turns the negotiated secrets into a key set: client and server write keys and write IVs.
  - TLS 1.3 uses HKDF-Expand-Label (section 7.3 of RFC 8446).
  - Earlier versions expand the master secret into a key block (section 6.3 of RFC 5246; section 6.2.2 of RFC 6101 for SSL 3.0) and slice it.
  - Export suites are re-derived (section 6.3.1 of RFC 2246, or an MD5 construction for SSL 3.0).
- **Workflow-trace construction** (`WorkflowConfigurationFactory`). It turns a configuration snapshot into the ordered list of message actions a handshake should follow.
- **HelloRetryRequest body parsing** (`HelloRetryRequestParser`): version, cipher suite, optional extensions length, then the extension list.
- **Unknown-extension payload parsing** (`UnknownExtensionParser`). It has a truncation rule: a declared length longer than what is left takes what is left.
- **Alert parsing** (`AlertHandler`): a level byte and a description byte (section 7.2 of RFC 5246).
- **Extension serialisation** (`ExtensionSerializer`, `SessionTicketTLSExtensionSerializer`). Type bytes, then a 2-byte big-endian length, then the content (section 7.4.1.4 of RFC 5246).
- **Session-ticket preparation** (`SessionTicketTLSExtensionPreparator`). It copies the configured ticket into the message (section 3.2 of RFC 5077).

Where the source changes state, the model does too:

- Parsers advance a cursor object.
- Serialisers append to a buffer field.
- The preparator, handlers and generator write message or key-set fields through `modifies` frames.
- The trace factory appends to list objects.

Each such method is tied to a pure function of its inputs. The properties are proved about that function.

Files:

- `common.dfy`: `Option`/`Result`, bytes, and the big-endian integer codec with its round trips.
- `constants.dfy`: protocol versions and field widths.
- `parser.dfy`: the byte cursor.
- `messages.dfy`: the message classes.
- One file per core class.

Hidden collaborators are parameters whose only contract is what the callers rely on:

- the cryptographic primitives, with the length of their output;
- the algorithm tables;
- the extension-parser factory, which must advance;
- the extension parser's verdict on whether data is present.

## Model

| member | source | states |
|---|---|---|
| Common.DecodeEncode | TLS-Core/src/main/java/de/rub/nds/tlsattacker/core/protocol/serializer/extension/ExtensionSerializer.java:44-46 | Reading back an n-byte field written from v gives v mod 256^n: the writer keeps the low-order bytes. |
| Common.EncodeDecode | TLS-Core/src/main/java/de/rub/nds/tlsattacker/tls/protocol/parser/HelloRetryRequestParser.java:58-61 | Writing a parsed integer back into a field of the same width reproduces the field's bytes. |
| Common.CopyOfRange | TLS-Core/src/main/java/de/rub/nds/tlsattacker/core/record/cipher/cryptohelper/KeySetGenerator.java:145-146 | The copy has length to - from. It holds the source bytes where they exist and zeros past the source's end. |
| Parser.Field | TLS-Core/src/main/java/de/rub/nds/tlsattacker/tls/protocol/parser/HelloRetryRequestParser.java:49 | An n-byte field reads exactly when it fits, and then it is the next n bytes; otherwise it is an error. |
| Parser.Parser.ParseByteArrayField | TLS-Core/src/main/java/de/rub/nds/tlsattacker/tls/protocol/parser/HelloRetryRequestParser.java:49 | It returns the field at the pointer. The pointer moves past the field on success and stays put on failure. |
| Parser.Parser.ParseIntField | TLS-Core/src/main/java/de/rub/nds/tlsattacker/tls/protocol/parser/HelloRetryRequestParser.java:59 | It returns the big-endian value of the next `length` bytes and advances by `length`, or fails without moving. |
| HelloRetryRequestParser.ExtensionList | TLS-Core/src/main/java/de/rub/nds/tlsattacker/tls/protocol/parser/HelloRetryRequestParser.java:67-73 | The list is empty exactly when the pointer is at the end. It has at most one extension per remaining byte, and its head is the parse at the pointer. |
| HelloRetryRequestParser.ExtensionsInOrder | TLS-Core/src/main/java/de/rub/nds/tlsattacker/tls/protocol/parser/HelloRetryRequestParser.java:67-74 | The first parse starts at the pointer. Each next parse starts where the previous one ended and offsets strictly increase within the bytes. The i-th extension is the parse at the i-th offset, and the last parse reaches the end. |
| HelloRetryRequestParser.DeclaredBytesRemain | TLS-Core/src/main/java/de/rub/nds/tlsattacker/tls/protocol/parser/HelloRetryRequestParser.java:77-80 | Bytes of the declared message remain exactly while the pointer is before its end: the start, plus the type byte and the 3-byte length field, plus the declared length. |
| HelloRetryRequestParser.ParseContent | TLS-Core/src/main/java/de/rub/nds/tlsattacker/tls/protocol/parser/HelloRetryRequestParser.java:32-41 | Fields are read in order: version, cipher suite, extensions length, extension bytes; each is the slice at its offset. The length field is read exactly when declared bytes remain (77-80). Extension bytes are read exactly when the length is positive and they fit (83-85). A zero length consumes nothing. It fails exactly when an attempted field does not fit. |
| HelloRetryRequestParser.HelloRetryRequestParser.ParseHandshakeMessageContent | TLS-Core/src/main/java/de/rub/nds/tlsattacker/tls/protocol/parser/HelloRetryRequestParser.java:32-41 | The message's fields, the final pointer and failure are exactly those of ParseContent. |
| HelloRetryRequestParser.HelloRetryRequestParser.ParseProtocolVersion | TLS-Core/src/main/java/de/rub/nds/tlsattacker/tls/protocol/parser/HelloRetryRequestParser.java:48-51 | It stores the next VERSION bytes and advances past them, or fails and changes nothing. |
| HelloRetryRequestParser.HelloRetryRequestParser.ParseSelectedCiphersuite | TLS-Core/src/main/java/de/rub/nds/tlsattacker/tls/protocol/parser/HelloRetryRequestParser.java:53-56 | It stores the next CIPHER_SUITE bytes and advances past them, or fails and changes nothing. |
| HelloRetryRequestParser.HelloRetryRequestParser.ParseExtensionLength | TLS-Core/src/main/java/de/rub/nds/tlsattacker/tls/protocol/parser/HelloRetryRequestParser.java:58-61 | It stores the big-endian value of the next 2 bytes and advances by 2, or fails and changes nothing. |
| HelloRetryRequestParser.HelloRetryRequestParser.ParseExtensionBytes | TLS-Core/src/main/java/de/rub/nds/tlsattacker/tls/protocol/parser/HelloRetryRequestParser.java:63-75 | The stored bytes are exactly the declared length at the cursor. The loop from offset 0 yields ExtensionList of those bytes. On failure nothing changes. |
| HelloRetryRequestParser.HelloRetryRequestParser.HasExtensionLengthField | TLS-Core/src/main/java/de/rub/nds/tlsattacker/tls/protocol/parser/HelloRetryRequestParser.java:77-80 | An extensions length is expected exactly while the cursor is inside the message its header declared. |
| HelloRetryRequestParser.HelloRetryRequestParser.HasExtensions | TLS-Core/src/main/java/de/rub/nds/tlsattacker/tls/protocol/parser/HelloRetryRequestParser.java:83-85 | Extension bytes follow exactly when the parsed extensions length is not zero. |
| UnknownExtensionParser.ExtensionData | TLS-Core/src/main/java/de/rub/nds/tlsattacker/core/protocol/parser/extension/UnknownExtensionParser.java:20-30 | No data exactly when no byte is left; otherwise the data is the min(bytes left, declared length) bytes at the cursor. |
| UnknownExtensionParser.PointerAfter | TLS-Core/src/main/java/de/rub/nds/tlsattacker/core/protocol/parser/extension/UnknownExtensionParser.java:20-30 | The cursor advances by min(bytes left, declared length), which equals the data's length, and never passes the end. |
| UnknownExtensionParser.TruncatedPayload | TLS-Core/src/main/java/de/rub/nds/tlsattacker/core/protocol/parser/extension/UnknownExtensionParser.java:23-25 | A declared length of 10 with 4 bytes left takes exactly those 4 bytes and ends at the array end. |
| UnknownExtensionParser.UnknownExtensionParser.ParseExtensionData | TLS-Core/src/main/java/de/rub/nds/tlsattacker/core/protocol/parser/extension/UnknownExtensionParser.java:20-30 | The message data and cursor follow ExtensionData and PointerAfter; with no bytes left neither changes. |
| UnknownExtensionParser.UnknownExtensionParser.ParseExtensionMessageContent | TLS-Core/src/main/java/de/rub/nds/tlsattacker/core/protocol/parser/extension/UnknownExtensionParser.java:33-37 | Data is parsed only when the message has extension data; otherwise nothing changes. |
| AlertHandler.AlertHandler.PrepareMessageAction | TLS/src/main/java/de/rub/nds/tlsattacker/tls/protocol/alert/handlers/AlertHandler.java:35-37 | It always fails as unsupported. |
| AlertHandler.AlertHandler.ParseMessageAction | TLS/src/main/java/de/rub/nds/tlsattacker/tls/protocol/alert/handlers/AlertHandler.java:40-44 | Level is message[pointer] and description is message[pointer+1], and the result is pointer + 2 when both are in range. Out of range is an index error, after the level was stored if only it was inside. The array is not modified. |
| ExtensionSerializer.SerializedExtension | TLS-Core/src/main/java/de/rub/nds/tlsattacker/core/protocol/serializer/extension/ExtensionSerializer.java:32-38 | The output is type, then the stored length as 2 big-endian bytes (mod 2^16), then the content. Its length is \|type\| + 2 + \|content\|. |
| ExtensionSerializer.ReparseSerialized | TLS-Core/src/main/java/de/rub/nds/tlsattacker/core/protocol/serializer/extension/ExtensionSerializer.java:32-38 | With stored length = \|content\|, re-reading under the unknown-extension rule gives the type, the length, and exactly the content (nothing for empty content). |
| ExtensionSerializer.ReparseMismatchedLength | TLS-Core/src/main/java/de/rub/nds/tlsattacker/core/protocol/serializer/extension/ExtensionSerializer.java:44-46 | The length field is the stored length, not \|content\|. A reader takes only the declared prefix of a longer content and all of a shorter one, and finds no payload when the content is empty. |
| ExtensionSerializer.ReserializeParsed | TLS-Core/src/main/java/de/rub/nds/tlsattacker/core/protocol/serializer/extension/ExtensionSerializer.java:32-38 | The other round trip: bytes whose declared length covers exactly what follows the 4-byte header are reproduced byte for byte when the type, that length and the payload the unknown-extension rule reads from them are serialised. |
| SessionTicketTLSExtensionSerializer.SessionTicketTLSExtensionSerializer.SerializeBytes | TLS-Core/src/main/java/de/rub/nds/tlsattacker/core/protocol/serializer/extension/ExtensionSerializer.java:32-38 | It appends type ∥ length ∥ ticket to the buffer and returns the whole buffer. |
| SessionTicketTLSExtensionSerializer.SessionTicketTLSExtensionSerializer.AppendBytes | TLS-Core/src/main/java/de/rub/nds/tlsattacker/tls/protocol/serializer/extension/SessionTicketTLSExtensionSerializer.java:39 | The buffer grows by exactly the given bytes, at its end. |
| SessionTicketTLSExtensionSerializer.SessionTicketTLSExtensionSerializer.AppendInt | TLS-Core/src/main/java/de/rub/nds/tlsattacker/core/protocol/serializer/extension/ExtensionSerializer.java:45 | The buffer grows by exactly the `size` low-order bytes of the value, most significant first. |
| SessionTicketTLSExtensionSerializer.SessionTicketTLSExtensionSerializer.WriteType | TLS-Core/src/main/java/de/rub/nds/tlsattacker/core/protocol/serializer/extension/ExtensionSerializer.java:40-42 | It appends the type bytes unchanged. |
| SessionTicketTLSExtensionSerializer.SessionTicketTLSExtensionSerializer.WriteLength | TLS-Core/src/main/java/de/rub/nds/tlsattacker/core/protocol/serializer/extension/ExtensionSerializer.java:44-46 | It appends the stored length as a 2-byte big-endian field. |
| SessionTicketTLSExtensionSerializer.SessionTicketTLSExtensionSerializer.SerializeExtensionContent | TLS-Core/src/main/java/de/rub/nds/tlsattacker/tls/protocol/serializer/extension/SessionTicketTLSExtensionSerializer.java:38-43 | It appends exactly the ticket bytes, so the buffer grows by \|ticket\| (an empty ticket adds nothing), and returns the whole buffer. |
| SessionTicketTLSExtensionPreparator.SessionTicketTLSExtensionPreparator.PrepareExtensionContent | TLS-Core/src/main/java/de/rub/nds/tlsattacker/tls/protocol/preparator/extension/SessionTicketTLSExtensionPreparator.java:40-44 | Afterwards the ticket is the configured ticket. No other field is in the frame, and preparing again gives the same ticket. |
| SessionTicketTLSExtensionPreparator.PrepareAndSerialize | TLS-Core/src/main/java/de/rub/nds/tlsattacker/tls/protocol/preparator/extension/SessionTicketTLSExtensionPreparator.java:40-41 | Preparing then serialising yields type ∥ length ∥ configured ticket; the content after the header is the configured ticket. |
| KeySetGenerator.Tls13Derive | TLS-Core/src/main/java/de/rub/nds/tlsattacker/core/record/cipher/cryptohelper/KeySetGenerator.java:78-93 | Each buffer is HKDF-Expand-Label with the suite's HKDF algorithm, its own direction's secret, the "key" or "iv" label and an empty context. Both write keys have the cipher's key size and both IVs have GCM_IV_LENGTH. Equal secrets give equal client and server material. The set is tagged with its type. |
| KeySetGenerator.WriteKeysPerDirection | TLS-Core/src/main/java/de/rub/nds/tlsattacker/core/record/cipher/cryptohelper/KeySetGenerator.java:81-92 | The client buffers depend only on the client secret, and the server buffers only on the server secret. |
| KeySetGenerator.Tls13KeyMaterial | TLS-Core/src/main/java/de/rub/nds/tlsattacker/core/record/cipher/cryptohelper/KeySetGenerator.java:57-94 | NONE gives an empty set tagged NONE. An unlisted type, and only it, is a CryptoException. Handshake and application sets use their own client and server secrets. Early data uses the early-data suite and the client early secret in both directions. Lengths are as in Tls13Derive. |
| KeySetGenerator.SecretSetSize | TLS-Core/src/main/java/de/rub/nds/tlsattacker/core/record/cipher/cryptohelper/KeySetGenerator.java:165-177 | The size is defined exactly when a key-block layout exists, and then equals the bytes of its six fields. An unlisted cipher type is a CryptoException. A missing MAC is a CryptoException for block ciphers and NoSuchAlgorithm for stream ciphers (179-216). |
| KeySetGenerator.SecretSetSizeByType | TLS-Core/src/main/java/de/rub/nds/tlsattacker/core/record/cipher/cryptohelper/KeySetGenerator.java:179-216 | AEAD: 2·key + 2·(12 − 8). Stream: 2·key + 2·mac. Block: 2·key + 2·mac, plus 2·block only without an explicit IV. |
| KeySetGenerator.Layout | TLS-Core/src/main/java/de/rub/nds/tlsattacker/core/record/cipher/cryptohelper/KeySetGenerator.java:179-216 | The layout exists exactly when the cipher type is listed and, for block and stream ciphers, the MAC algorithm exists. Its key size is the cipher's. AEAD has no MAC secrets and a 4-byte salt per direction. Block and stream use the MAC length. Stream has no IV; block has one of the block size unless the version sends it explicitly. |
| KeySetGenerator.AeadSecretSetSize | TLS-Core/src/main/java/de/rub/nds/tlsattacker/core/record/cipher/cryptohelper/KeySetGenerator.java:197-206 | For an AEAD suite, the size is the bytes of the AEAD key-block layout. |
| KeySetGenerator.BlockSecretSetSize | TLS-Core/src/main/java/de/rub/nds/tlsattacker/core/record/cipher/cryptohelper/KeySetGenerator.java:179-195 | It fails exactly when the MAC algorithm is missing, with "Could not calculate SecretSetSize". For a block suite, a size is the bytes of the block layout. |
| KeySetGenerator.StreamSecretSetSize | TLS-Core/src/main/java/de/rub/nds/tlsattacker/core/record/cipher/cryptohelper/KeySetGenerator.java:208-216 | It fails exactly when the MAC algorithm is missing, with NoSuchAlgorithm. For a stream suite, a size is the bytes of the stream layout. |
| KeySetGenerator.ParseKeyBlock | TLS-Core/src/main/java/de/rub/nds/tlsattacker/core/record/cipher/cryptohelper/KeySetGenerator.java:113-114 | Keys and IVs have the layout's sizes, the set is untagged, and the four fields concatenated are exactly the key block after the two MAC secrets. |
| KeySetGenerator.KeyBlock | TLS-Core/src/main/java/de/rub/nds/tlsattacker/core/record/cipher/cryptohelper/KeySetGenerator.java:100-111 | The key block has exactly the requested size. For SSL versions it is the SSL 3.0 key-block function of the master secret; otherwise it is the PRF of the version and suite over the master secret with "key expansion". Both are seeded with serverRandom ∥ clientRandom. |
| KeySetGenerator.MD5FirstNBytes | TLS-Core/src/main/java/de/rub/nds/tlsattacker/core/record/cipher/cryptohelper/KeySetGenerator.java:149-152 | The result has n bytes: the first n of the digest, zero-padded past it. |
| KeySetGenerator.Ssl3ExportKeys | TLS-Core/src/main/java/de/rub/nds/tlsattacker/core/record/cipher/cryptohelper/KeySetGenerator.java:154-163 | Keys are the first keySize bytes of MD5(key, cr, sr) for the client and MD5(key, sr, cr) for the server. IVs are the first blockSize bytes of MD5(cr, sr) and MD5(sr, cr). The sizes are exact. |
| KeySetGenerator.IvBlock | TLS-Core/src/main/java/de/rub/nds/tlsattacker/core/record/cipher/cryptohelper/KeySetGenerator.java:141-144 | The export IV block is the PRF of the version and suite over an empty secret with the "IV block" label and the seed clientRandom ∥ serverRandom, two block sizes long. |
| KeySetGenerator.ExportKeys | TLS-Core/src/main/java/de/rub/nds/tlsattacker/core/record/cipher/cryptohelper/KeySetGenerator.java:121-147 | SSL 3.0 takes the MD5 path. Otherwise the keys are re-derived by the PRF over clientRandom ∥ serverRandom, and the client IV followed by the server IV is exactly the IV block. Sizes are keySize and blockSize. |
| KeySetGenerator.TlsKeyMaterial | TLS-Core/src/main/java/de/rub/nds/tlsattacker/core/record/cipher/cryptohelper/KeySetGenerator.java:96-119 | It succeeds exactly when the secret-set size does, with the same error otherwise. The result is the sliced key block, re-derived only for export suites, and is untagged. |
| KeySetGenerator.NonExportKeysAreKeyBlockSlices | TLS-Core/src/main/java/de/rub/nds/tlsattacker/core/record/cipher/cryptohelper/KeySetGenerator.java:113-117 | For a non-export suite, the keys and IVs are consecutive slices of the key block right after the MAC secrets. |
| KeySetGenerator.GenerateKeyMaterial | TLS-Core/src/main/java/de/rub/nds/tlsattacker/core/record/cipher/cryptohelper/KeySetGenerator.java:42-50 | The HKDF path is taken exactly for TLS 1.3 and the key-block path otherwise. A result carries a TLS 1.3 type exactly for TLS 1.3. |
| KeySetGenerator.PathInputs | TLS-Core/src/main/java/de/rub/nds/tlsattacker/core/record/cipher/cryptohelper/KeySetGenerator.java:42-50 | Outside TLS 1.3 the key-set type is ignored. In TLS 1.3 the master secret and randoms are not used. |
| KeySetGenerator.GenerateKeySet | TLS-Core/src/main/java/de/rub/nds/tlsattacker/core/record/cipher/cryptohelper/KeySetGenerator.java:42-50 | A fresh key set holding GenerateKeyMaterial, or its error. |
| KeySetGenerator.GenerateKeySetForContext | TLS-Core/src/main/java/de/rub/nds/tlsattacker/core/record/cipher/cryptohelper/KeySetGenerator.java:52-55 | The same, with the selected version and the active write key-set type. |
| KeySetGenerator.GetTls13KeySet | TLS-Core/src/main/java/de/rub/nds/tlsattacker/core/record/cipher/cryptohelper/KeySetGenerator.java:57-94 | A fresh key set holding Tls13KeyMaterial, or its error. |
| KeySetGenerator.GetTlsKeySet | TLS-Core/src/main/java/de/rub/nds/tlsattacker/core/record/cipher/cryptohelper/KeySetGenerator.java:96-119 | A fresh key set holding TlsKeyMaterial, or its error. |
| KeySetGenerator.DeriveExportKeys | TLS-Core/src/main/java/de/rub/nds/tlsattacker/core/record/cipher/cryptohelper/KeySetGenerator.java:121-147 | The key set's new contents are ExportKeys of its old contents. |
| KeySetGenerator.DeriveSsl3ExportKeys | TLS-Core/src/main/java/de/rub/nds/tlsattacker/core/record/cipher/cryptohelper/KeySetGenerator.java:154-163 | The key set's new contents are Ssl3ExportKeys of its old contents. |
| WorkflowConfigurationFactory.ClientKeyExchangeFor | TLS-Core/src/main/java/de/rub/nds/tlsattacker/tls/workflow/factory/WorkflowConfigurationFactory.java:145-163 | RSA gives RSA CKE, ECDH gives ECDH CKE, and the five DH variants give DH CKE, each a single fresh message. An unlisted algorithm, and only it, gives none. |
| WorkflowConfigurationFactory.ServerKeyExchangeFor | TLS-Core/src/main/java/de/rub/nds/tlsattacker/tls/workflow/factory/WorkflowConfigurationFactory.java:166-187 | RSA and ECDH both give ECDHE SKE, and the DH variants give DHE SKE, each a single fresh message. An unlisted algorithm, and only it, gives none. |
| WorkflowConfigurationFactory.ClientHelloActions | TLS-Core/src/main/java/de/rub/nds/tlsattacker/tls/workflow/factory/WorkflowConfigurationFactory.java:68-100 | The client-hello trace has three actions in DTLS and one otherwise; ClientHelloShape gives their contents. |
| WorkflowConfigurationFactory.ClientHelloShape | TLS-Core/src/main/java/de/rub/nds/tlsattacker/tls/workflow/factory/WorkflowConfigurationFactory.java:68-100 | Non-DTLS: one CLIENT action holding a ClientHello. DTLS: CLIENT[ClientHello], SERVER[HelloVerifyRequest], CLIENT[ClientHello], where only the first two are out of the digest. Every action is built for the configured end. |
| WorkflowConfigurationFactory.ServerFlight | TLS-Core/src/main/java/de/rub/nds/tlsattacker/tls/workflow/factory/WorkflowConfigurationFactory.java:104-116 | The server's first flight holds three to five messages; ServerFlightShape and ServerFlightOrder give them. |
| WorkflowConfigurationFactory.ServerFlightShape | TLS-Core/src/main/java/de/rub/nds/tlsattacker/tls/workflow/factory/WorkflowConfigurationFactory.java:105-116 | ServerHello, Certificate first and ServerHelloDone last. A ServerKeyExchange appears iff the first suite is ephemeral, its key exchange is listed and there is no resumption. A CertificateRequest appears iff client auth and no resumption, and it is the only non-required message. |
| WorkflowConfigurationFactory.ServerFlightOrder | TLS-Core/src/main/java/de/rub/nds/tlsattacker/tls/workflow/factory/WorkflowConfigurationFactory.java:105-116 | The flight's length is 3 plus one for each of the ServerKeyExchange and the CertificateRequest it sends. The ServerKeyExchange is the one for the first suite's key exchange, right after the Certificate. The non-required CertificateRequest comes right before ServerHelloDone. |
| WorkflowConfigurationFactory.ClientKeyExchange | TLS-Core/src/main/java/de/rub/nds/tlsattacker/tls/workflow/factory/WorkflowConfigurationFactory.java:140-164 | At most one message, and none on resumption. |
| WorkflowConfigurationFactory.ClientFlight | TLS-Core/src/main/java/de/rub/nds/tlsattacker/tls/workflow/factory/WorkflowConfigurationFactory.java:119-128 | The client's flight holds two to five messages; ClientFlightShape, ClientFlightKeyExchange and ClientFlightRequired give them. |
| WorkflowConfigurationFactory.ClientFlightCases | TLS-Core/src/main/java/de/rub/nds/tlsattacker/tls/workflow/factory/WorkflowConfigurationFactory.java:119-128 | The four forms of the client flight, by whether a ClientKeyExchange is sent (exactly when not resumed and the key exchange is listed) and whether the client authenticates. |
| WorkflowConfigurationFactory.ClientFlightShape | TLS-Core/src/main/java/de/rub/nds/tlsattacker/tls/workflow/factory/WorkflowConfigurationFactory.java:119-130 | The flight ends with ChangeCipherSpec, Finished. On resumption it is just those two. With client auth and no resumption it is Certificate, the ClientKeyExchange of the first suite, CertificateVerify, ChangeCipherSpec, Finished. Without client auth and without resumption it is that ClientKeyExchange, ChangeCipherSpec, Finished. |
| WorkflowConfigurationFactory.ClientFlightKeyExchange | TLS-Core/src/main/java/de/rub/nds/tlsattacker/tls/workflow/factory/WorkflowConfigurationFactory.java:140-144 | A ClientKeyExchange appears iff there is no resumption and the key exchange is listed. Certificates appear only with client auth. |
| WorkflowConfigurationFactory.ClientFlightRequired | TLS-Core/src/main/java/de/rub/nds/tlsattacker/tls/workflow/factory/WorkflowConfigurationFactory.java:119-130 | Every client-flight message is fresh, required and not a CertificateRequest. |
| WorkflowConfigurationFactory.HandshakeActions | TLS-Core/src/main/java/de/rub/nds/tlsattacker/tls/workflow/factory/WorkflowConfigurationFactory.java:107 | It fails, with an index error at 0, exactly when the supported-suite list is empty. |
| WorkflowConfigurationFactory.HandshakeShape | TLS-Core/src/main/java/de/rub/nds/tlsattacker/tls/workflow/factory/WorkflowConfigurationFactory.java:102-138 | The handshake trace is the client-hello trace plus exactly three actions, sent by SERVER, CLIENT, SERVER: the server flight, the client flight, and [ChangeCipherSpec, Finished]. |
| WorkflowConfigurationFactory.FullActions | TLS-Core/src/main/java/de/rub/nds/tlsattacker/tls/workflow/factory/WorkflowConfigurationFactory.java:195-197 | It fails exactly when the handshake trace does, with the same error. |
| WorkflowConfigurationFactory.FullTail | TLS-Core/src/main/java/de/rub/nds/tlsattacker/tls/workflow/factory/WorkflowConfigurationFactory.java:197-217 | The full trace appends one action for the server's application data when it sends some, then two actions with a heartbeat mode or one without. |
| WorkflowConfigurationFactory.FullShape | TLS-Core/src/main/java/de/rub/nds/tlsattacker/tls/workflow/factory/WorkflowConfigurationFactory.java:195-219 | The full trace extends the handshake trace. It adds an optional SERVER[Application], then CLIENT[Application, Heartbeat] and SERVER[Heartbeat] with a heartbeat mode, or CLIENT[Application] without one. |
| WorkflowConfigurationFactory.WorkflowActions | TLS-Core/src/main/java/de/rub/nds/tlsattacker/tls/workflow/factory/WorkflowConfigurationFactory.java:56-66 | CLIENT_HELLO, HANDSHAKE and FULL go to their builders, and any other type is a ConfigurationException. |
| WorkflowConfigurationFactory.DigestExclusions | TLS-Core/src/main/java/de/rub/nds/tlsattacker/tls/workflow/factory/WorkflowConfigurationFactory.java:72-98 | In the handshake trace a message is out of the digest exactly when it is the first ClientHello or the HelloVerifyRequest of a DTLS trace. |
| WorkflowConfigurationFactory.OnlyCertificateRequestOptional | TLS-Core/src/main/java/de/rub/nds/tlsattacker/tls/workflow/factory/WorkflowConfigurationFactory.java:110-114 | In the handshake trace a message is required exactly when it is not the CertificateRequest. |
| WorkflowConfigurationFactory.ResumptionOmitsKeyExchange | TLS-Core/src/main/java/de/rub/nds/tlsattacker/tls/workflow/factory/WorkflowConfigurationFactory.java:107-143 | With resumption the handshake has no ServerKeyExchange, no CertificateRequest and no ClientKeyExchange, and the client flight is ChangeCipherSpec, Finished. |
| WorkflowConfigurationFactory.WorkflowConfigurationFactory.CreateWorkflowTrace | TLS-Core/src/main/java/de/rub/nds/tlsattacker/tls/workflow/factory/WorkflowConfigurationFactory.java:56-66 | A fresh trace whose actions are WorkflowActions, or its error. |
| WorkflowConfigurationFactory.WorkflowConfigurationFactory.CreateClientHelloWorkflow | TLS-Core/src/main/java/de/rub/nds/tlsattacker/tls/workflow/factory/WorkflowConfigurationFactory.java:68-100 | A fresh trace whose actions are the client-hello trace. |
| WorkflowConfigurationFactory.WorkflowConfigurationFactory.CreateHandshakeWorkflow | TLS-Core/src/main/java/de/rub/nds/tlsattacker/tls/workflow/factory/WorkflowConfigurationFactory.java:102-138 | A fresh trace whose actions are HandshakeActions, or its error. |
| WorkflowConfigurationFactory.WorkflowConfigurationFactory.CreateServerFlight | TLS-Core/src/main/java/de/rub/nds/tlsattacker/tls/workflow/factory/WorkflowConfigurationFactory.java:104-116 | The server flight as a fresh list, or the index error when there is no supported suite. |
| WorkflowConfigurationFactory.WorkflowConfigurationFactory.CreateClientFlight | TLS-Core/src/main/java/de/rub/nds/tlsattacker/tls/workflow/factory/WorkflowConfigurationFactory.java:119-128 | The client flight as a fresh list. |
| WorkflowConfigurationFactory.WorkflowConfigurationFactory.AddClientKeyExchangeMessage | TLS-Core/src/main/java/de/rub/nds/tlsattacker/tls/workflow/factory/WorkflowConfigurationFactory.java:140-164 | It appends nothing on resumption, otherwise the ClientKeyExchange dispatched on the first suite's algorithm. |
| WorkflowConfigurationFactory.WorkflowConfigurationFactory.AddServerKeyExchangeMessage | TLS-Core/src/main/java/de/rub/nds/tlsattacker/tls/workflow/factory/WorkflowConfigurationFactory.java:166-187 | It appends the ServerKeyExchange dispatched on the first suite's algorithm. |
| WorkflowConfigurationFactory.WorkflowConfigurationFactory.CreateFullWorkflow | TLS-Core/src/main/java/de/rub/nds/tlsattacker/tls/workflow/factory/WorkflowConfigurationFactory.java:195-219 | A fresh trace whose actions are FullActions, or its error. |
| WorkflowConfigurationFactory.WorkflowConfigurationFactory.AppendApplicationFlights | TLS-Core/src/main/java/de/rub/nds/tlsattacker/tls/workflow/factory/WorkflowConfigurationFactory.java:197-217 | The trace's new actions are its old ones followed by FullTail. |

## Left out

- JavaCipher (`TLS-Core/.../crypto/cipher/JavaCipher.java`) is not part of this model. It wraps the platform cipher, and its behaviour is the library's.
- HKDF-Expand-Label, the PRF, the SSL 3.0 key block, MD5 and the platform MAC length are not implemented. They are parameters: the primitives' only contract is their output length, and the MAC length is an `Option` where `None` stands for NoSuchAlgorithmException. No key is proved secret or correct; only the branching, sizes, seed orders, labels and the IV split are modelled.
- The algorithm tables (cipher, cipher type, HKDF and PRF algorithm, export flag, key exchange, ephemeral flag) are parameters or record fields, not the real tables.
- The key-block parser is not part of this model. It is modelled as the slice of section 6.3 of RFC 5246: two MAC secrets, two write keys, two IVs; for AEAD the IVs are the 4-byte implicit salts; for block ciphers with explicit IVs, no IVs.
- KeySetGenerator key sets: a key set sliced from a key block carries no TLS 1.3 type (`None`), and unset buffers are empty sequences. The KeySet class is not part of this model.
- The protocol-version helpers (`isTLS13`, `isSSL`, `usesExplicitIv`) are not part of this model. They follow the RFCs: the explicit IV came with TLS 1.1 (section 6.2.3.2 of RFC 4346) and DTLS.
- Enum values the code sends to a `default` or `else` branch are one `Unlisted…` constructor each. The real enums are not part of this model.
- Java `int` width and signed `byte`s are not modelled: integers are unbounded and bytes are 0..255. The serialiser writes the stored length modulo 2^16, as the 2-byte field keeps the low-order bytes.
- The base parser and serialiser, the extension-parser factory, and the base extension parser's `hasExtensionData` are not part of this model. The cursor's failure is modelled as an error that leaves the pointer unchanged. The factory is a function that must advance the offset, and `hasExtensionData` is a parameter.
- HelloRetryRequestParser.HelloRetryRequestParser.ParseHandshakeMessageContent requires a message with no field set yet. This is what the parser's own message factory (lines 43-46) gives it.
- HelloRetryRequestParser.HelloRetryRequestParser.ParseExtensionBytes requires the extensions length to be set. Its only caller sets it first (line 36); the Java code would stop with a null dereference otherwise.
- WorkflowConfigurationFactory.WorkflowConfigurationFactory.AddClientKeyExchangeMessage and AddServerKeyExchangeMessage require a first supported suite to exist, where they read one. Their only caller reaches them after its own `get(0)` on line 107 has already succeeded; the model reports the index error there.
- The message action factory is not part of this model. It is a record of the configured end, the sending end and the messages (send when they agree, receive otherwise). The Java action holds a reference to the list; the model stores the list's contents, because no list is changed after its action is created.
- WorkflowConfigurationFactory.WorkflowConfigurationFactory.CreateServerFlight and CreateClientFlight are the two halves of `createHandshakeWorkflow` (105-116, 119-128), split so each half is proved on its own.
- WorkflowConfigurationFactory.WorkflowConfigurationFactory.AppendApplicationFlights is the second half of `createFullWorkflow` (197-217), split off for the same reason.
- Fresh messages are modelled as required and included in the digest; the ProtocolMessage class is not part of this model.
- Logging and the deprecated ConfigManager singleton (EvolutionaryFuzzer/src/main/java/tlsattacker/fuzzer/config/ConfigManager.java) are not modelled; they have no behaviour to verify. The tests AlertPreparatorTest.java and NewSessionTicketMessageTest.java exercise the alert preparator and the NewSessionTicket message, which are not part of this model.
- The trace executor, transport and record layer are not part of this model.
