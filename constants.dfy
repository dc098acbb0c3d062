/** Protocol versions and the fixed field widths of the handshake and
    extension wire layouts. */
module Constants {

  datatype ProtocolVersion = SSL2 | SSL3 | TLS10 | TLS11 | TLS12 | TLS13 | DTLS10 | DTLS12

  predicate IsTLS13(v: ProtocolVersion) { v == TLS13 }

  predicate IsSSL(v: ProtocolVersion) { v == SSL2 || v == SSL3 }

  /** Explicit per-record IVs for CBC ciphers arrived with TLS 1.1
      (section 6.2.3.2 of RFC 4346); DTLS 1.0 is built on TLS 1.1. */
  predicate UsesExplicitIv(v: ProtocolVersion) { v == TLS11 || v == TLS12 || v == DTLS10 || v == DTLS12 }

  // Handshake framing: 1-byte type and 3-byte length before every body.
  const MESSAGE_TYPE: nat := 1
  const MESSAGE_LENGTH_FIELD: nat := 3
  // HelloRetryRequest body fields.
  const VERSION: nat := 2
  const CIPHER_SUITE: nat := 2
  const EXTENSION_LENGTH: nat := 2
  // Extension header: 2-byte type and 2-byte length (section 7.4.1.4 of RFC 5246).
  const EXTENSION_TYPE: nat := 2
  const EXTENSIONS_LENGTH: nat := 2
}
