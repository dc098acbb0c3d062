/** Key-schedule derivation: turns the negotiated secrets of a connection
    into a KeySet (client/server write keys and write IVs).

    TLS 1.3 derives each buffer with HKDF-Expand-Label (section 7.3 of
    RFC 8446). Earlier versions expand the master secret into a key block
    (section 6.3 of RFC 5246; section 6.2.2 of RFC 6101 for SSL 3.0) and
    slice it; export suites then shrink the keys and derive fresh IVs
    (section 6.3.1 of RFC 2246, or an MD5 construction for SSL 3.0).

    The hash and key-derivation primitives and the algorithm tables are
    parameters: the primitives' only contract is the length of their
    output. */
module KeySetGenerator {
  import opened Common
  import opened Constants

  // Record-layer constants: a GCM nonce is a 4-byte implicit salt followed
  // by an 8-byte explicit part.
  const GCM_IV_LENGTH: nat := 12
  const SEQUENCE_NUMBER_LENGTH: nat := 8
  const MD5_LENGTH: nat := 16

  // HKDF-Expand-Label labels (section 7.3 of RFC 8446).
  const KEY_LABEL: string := "key"
  const IV_LABEL: string := "iv"
  // PRF labels (section 6.3 of RFC 5246, section 6.3.1 of RFC 2246).
  const KEY_EXPANSION_LABEL: string := "key expansion"
  const CLIENT_WRITE_KEY_LABEL: string := "client write key"
  const SERVER_WRITE_KEY_LABEL: string := "server write key"
  const IV_BLOCK_LABEL: string := "IV block"

  /** The TLS 1.3 epoch a key set belongs to. UnlistedKeySetType stands for
      any value the generator does not list. */
  datatype Tls13KeySetType =
    | NoKeySet
    | EarlyTrafficSecrets
    | HandshakeTrafficSecrets
    | ApplicationTrafficSecrets
    | UnlistedKeySetType

  /** UnlistedCipherType stands for any cipher type the size computation
      does not list. */
  datatype CipherType = Stream | Block | Aead | UnlistedCipherType

  datatype CipherSuite = CipherSuite(code: nat)
  datatype CipherAlgorithm = CipherAlgorithm(keySize: nat, blockSize: nat)
  datatype HkdfAlgorithm = HkdfAlgorithm(code: nat)
  datatype PrfAlgorithm = PrfAlgorithm(code: nat)

  datatype KeyError = CryptoException(reason: string) | NoSuchAlgorithm

  /** What the generator looks up about a cipher suite. macLength is the
      length of the suite's MAC in the given version, or None when the
      platform has no such MAC algorithm. */
  datatype AlgorithmResolver = AlgorithmResolver(
    cipher: CipherSuite -> CipherAlgorithm,
    cipherType: CipherSuite -> CipherType,
    hkdfAlgorithm: CipherSuite -> HkdfAlgorithm,
    prfAlgorithm: (ProtocolVersion, CipherSuite) -> PrfAlgorithm,
    isExportSymmetricCipher: CipherSuite -> bool,
    macLength: (ProtocolVersion, CipherSuite) -> Option<nat>)

  /** The cryptographic primitives: HKDF-Expand-Label(algorithm, secret,
      label, context, length), PRF(algorithm, secret, label, seed, length),
      the SSL 3.0 key block (master secret, seed, length) and MD5 over a
      list of byte arrays. */
  datatype Primitives = Primitives(
    expandLabel: (HkdfAlgorithm, seq<Byte>, string, seq<Byte>, nat) -> seq<Byte>,
    prf: (PrfAlgorithm, seq<Byte>, string, seq<Byte>, nat) -> seq<Byte>,
    keyBlockSsl3: (seq<Byte>, seq<Byte>, nat) -> seq<Byte>,
    md5: seq<seq<Byte>> -> seq<Byte>)

  /** The primitives produce exactly the requested number of bytes, and MD5
      a 16-byte digest. */
  ghost predicate ValidPrimitives(p: Primitives)
  {
    && (forall a, s, l, c, n :: |p.expandLabel(a, s, l, c, n)| == n)
    && (forall a, s, l, seed, n :: |p.prf(a, s, l, seed, n)| == n)
    && (forall s, seed, n :: |p.keyBlockSsl3(s, seed, n)| == n)
    && (forall parts :: |p.md5(parts)| == MD5_LENGTH)
  }

  /** The values the generator reads from the connection state. */
  datatype TlsContext = TlsContext(
    selectedProtocolVersion: ProtocolVersion,
    selectedCipherSuite: CipherSuite,
    earlyDataCipherSuite: CipherSuite,
    clientHandshakeTrafficSecret: seq<Byte>,
    serverHandshakeTrafficSecret: seq<Byte>,
    clientApplicationTrafficSecret: seq<Byte>,
    serverApplicationTrafficSecret: seq<Byte>,
    clientEarlyTrafficSecret: seq<Byte>,
    masterSecret: seq<Byte>,
    clientRandom: seq<Byte>,
    serverRandom: seq<Byte>,
    activeKeySetTypeWrite: Tls13KeySetType)

  /** The contents of a KeySet. keySetType is None for a key set sliced
      from a pre-1.3 key block. */
  datatype KeyMaterial = KeyMaterial(
    keySetType: Option<Tls13KeySetType>,
    clientWriteKey: seq<Byte>,
    serverWriteKey: seq<Byte>,
    clientWriteIv: seq<Byte>,
    serverWriteIv: seq<Byte>)

  function EmptyKeyMaterial(keySetType: Option<Tls13KeySetType>): (k: KeyMaterial)
  {
    KeyMaterial(keySetType, [], [], [], [])
  }

  class KeySet {
    var keySetType: Option<Tls13KeySetType>
    var clientWriteKey: seq<Byte>
    var serverWriteKey: seq<Byte>
    var clientWriteIv: seq<Byte>
    var serverWriteIv: seq<Byte>

    constructor (keySetType: Option<Tls13KeySetType>)
      ensures Material() == EmptyKeyMaterial(keySetType)
    {
      this.keySetType := keySetType;
      clientWriteKey, serverWriteKey, clientWriteIv, serverWriteIv := [], [], [], [];
    }

    constructor FromMaterial(m: KeyMaterial)
      ensures Material() == m
    {
      keySetType := m.keySetType;
      clientWriteKey, serverWriteKey := m.clientWriteKey, m.serverWriteKey;
      clientWriteIv, serverWriteIv := m.clientWriteIv, m.serverWriteIv;
    }

    function Material(): (m: KeyMaterial)
      reads this
    {
      KeyMaterial(keySetType, clientWriteKey, serverWriteKey, clientWriteIv, serverWriteIv)
    }
  }

  /** The key set `r` holds exactly `spec`, or both are the same error. */
  ghost predicate Delivers(r: Result<KeySet, KeyError>, spec: Result<KeyMaterial, KeyError>)
    reads if r.Ok? then {r.value} else {}
  {
    && (r.Ok? <==> spec.Ok?)
    && (r.Ok? ==> r.value.Material() == spec.value)
    && (r.Err? ==> r.error == spec.error)
  }

  // ---------------------------------------------------------------------
  // TLS 1.3

  /** The four buffers of a TLS 1.3 key set for `suite`, each derived from
      its own direction's traffic secret with an empty context. */
  function Tls13Derive(
    t: Tls13KeySetType, suite: CipherSuite, clientSecret: seq<Byte>, serverSecret: seq<Byte>,
    res: AlgorithmResolver, prim: Primitives): (k: KeyMaterial)
    ensures k.keySetType == Some(t)
    ensures ValidPrimitives(prim) ==>
      && |k.clientWriteKey| == res.cipher(suite).keySize && |k.serverWriteKey| == res.cipher(suite).keySize
      && |k.clientWriteIv| == GCM_IV_LENGTH && |k.serverWriteIv| == GCM_IV_LENGTH
    ensures clientSecret == serverSecret ==>
      k.clientWriteKey == k.serverWriteKey && k.clientWriteIv == k.serverWriteIv
    // Each buffer is HKDF-Expand-Label with the suite's HKDF algorithm, its
    // direction's secret, the "key" or "iv" label and an empty context.
    ensures var hkdf, keySize := res.hkdfAlgorithm(suite), res.cipher(suite).keySize;
      && k.clientWriteKey == prim.expandLabel(hkdf, clientSecret, KEY_LABEL, [], keySize)
      && k.serverWriteKey == prim.expandLabel(hkdf, serverSecret, KEY_LABEL, [], keySize)
      && k.clientWriteIv == prim.expandLabel(hkdf, clientSecret, IV_LABEL, [], GCM_IV_LENGTH)
      && k.serverWriteIv == prim.expandLabel(hkdf, serverSecret, IV_LABEL, [], GCM_IV_LENGTH)
  {
    var hkdf := res.hkdfAlgorithm(suite);
    var keySize := res.cipher(suite).keySize;
    KeyMaterial(Some(t),
      prim.expandLabel(hkdf, clientSecret, KEY_LABEL, [], keySize),
      prim.expandLabel(hkdf, serverSecret, KEY_LABEL, [], keySize),
      prim.expandLabel(hkdf, clientSecret, IV_LABEL, [], GCM_IV_LENGTH),
      prim.expandLabel(hkdf, serverSecret, IV_LABEL, [], GCM_IV_LENGTH))
  }

  /** The client buffers depend only on the client secret and the server
      buffers only on the server secret. */
  lemma WriteKeysPerDirection(
    t: Tls13KeySetType, suite: CipherSuite, c1: seq<Byte>, s1: seq<Byte>, c2: seq<Byte>, s2: seq<Byte>,
    res: AlgorithmResolver, prim: Primitives)
    ensures var k1, k2 := Tls13Derive(t, suite, c1, s1, res, prim), Tls13Derive(t, suite, c2, s2, res, prim);
      && (c1 == c2 ==> k1.clientWriteKey == k2.clientWriteKey && k1.clientWriteIv == k2.clientWriteIv)
      && (s1 == s2 ==> k1.serverWriteKey == k2.serverWriteKey && k1.serverWriteIv == k2.serverWriteIv)
  {
  }

  /** The TLS 1.3 key set of type t. */
  function Tls13KeyMaterial(ctx: TlsContext, t: Tls13KeySetType, res: AlgorithmResolver, prim: Primitives)
    : (r: Result<KeyMaterial, KeyError>)
    ensures t == NoKeySet ==> r == Ok(EmptyKeyMaterial(Some(NoKeySet)))
    ensures t == UnlistedKeySetType <==> r.Err?
    ensures r.Ok? ==> r.value.keySetType == Some(t)
    ensures t == HandshakeTrafficSecrets ==> r == Ok(Tls13Derive(t, ctx.selectedCipherSuite,
      ctx.clientHandshakeTrafficSecret, ctx.serverHandshakeTrafficSecret, res, prim))
    ensures t == ApplicationTrafficSecrets ==> r == Ok(Tls13Derive(t, ctx.selectedCipherSuite,
      ctx.clientApplicationTrafficSecret, ctx.serverApplicationTrafficSecret, res, prim))
    // Early data uses its own suite and the client early secret in both directions.
    ensures t == EarlyTrafficSecrets ==>
      && r == Ok(Tls13Derive(t, ctx.earlyDataCipherSuite, ctx.clientEarlyTrafficSecret, ctx.clientEarlyTrafficSecret, res, prim))
      && r.value.clientWriteKey == r.value.serverWriteKey && r.value.clientWriteIv == r.value.serverWriteIv
    ensures ValidPrimitives(prim) && r.Ok? && t != NoKeySet ==>
      var keySize := res.cipher(if t == EarlyTrafficSecrets then ctx.earlyDataCipherSuite else ctx.selectedCipherSuite).keySize;
      && |r.value.clientWriteKey| == keySize && |r.value.serverWriteKey| == keySize
      && |r.value.clientWriteIv| == GCM_IV_LENGTH && |r.value.serverWriteIv| == GCM_IV_LENGTH
  {
    match t
    case HandshakeTrafficSecrets =>
      Ok(Tls13Derive(t, ctx.selectedCipherSuite, ctx.clientHandshakeTrafficSecret, ctx.serverHandshakeTrafficSecret, res, prim))
    case ApplicationTrafficSecrets =>
      Ok(Tls13Derive(t, ctx.selectedCipherSuite, ctx.clientApplicationTrafficSecret, ctx.serverApplicationTrafficSecret, res, prim))
    case EarlyTrafficSecrets =>
      Ok(Tls13Derive(t, ctx.earlyDataCipherSuite, ctx.clientEarlyTrafficSecret, ctx.clientEarlyTrafficSecret, res, prim))
    case NoKeySet => Ok(EmptyKeyMaterial(Some(t)))
    case UnlistedKeySetType => Err(CryptoException("Unknown KeySetType"))
  }

  // ---------------------------------------------------------------------
  // Key block (pre-1.3)

  /** The field sizes of a key block: two MAC secrets, two write keys and
      two IVs (for AEAD suites the IVs are the implicit salts). */
  datatype KeyBlockLayout = KeyBlockLayout(macSize: nat, keySize: nat, ivSize: nat)

  function LayoutSize(l: KeyBlockLayout): (n: nat)
  {
    2 * l.macSize + 2 * l.keySize + 2 * l.ivSize
  }

  /** The layout for a suite in a version, or None when the cipher type is
      not listed or the MAC algorithm is missing. */
  function Layout(v: ProtocolVersion, suite: CipherSuite, res: AlgorithmResolver): (l: Option<KeyBlockLayout>)
    ensures var t := res.cipherType(suite);
      l.None? <==> t == UnlistedCipherType || (t != Aead && res.macLength(v, suite).None?)
    ensures l.Some? ==> l.value.keySize == res.cipher(suite).keySize
    // AEAD suites have no MAC secrets and a 4-byte implicit salt per direction.
    ensures l.Some? && res.cipherType(suite) == Aead ==>
      l.value.macSize == 0 && l.value.ivSize == GCM_IV_LENGTH - SEQUENCE_NUMBER_LENGTH
    ensures l.Some? && res.cipherType(suite) != Aead ==> l.value.macSize == res.macLength(v, suite).value
    // Stream ciphers have no IV; block ciphers carry one unless the version sends it explicitly.
    ensures l.Some? && res.cipherType(suite) == Stream ==> l.value.ivSize == 0
    ensures l.Some? && res.cipherType(suite) == Block ==>
      l.value.ivSize == (if UsesExplicitIv(v) then 0 else res.cipher(suite).blockSize)
  {
    var cipher := res.cipher(suite);
    match res.cipherType(suite)
    case Aead => Some(KeyBlockLayout(0, cipher.keySize, GCM_IV_LENGTH - SEQUENCE_NUMBER_LENGTH))
    case Block =>
      if res.macLength(v, suite).None? then None
      else Some(KeyBlockLayout(res.macLength(v, suite).value, cipher.keySize,
                               if UsesExplicitIv(v) then 0 else cipher.blockSize))
    case Stream =>
      if res.macLength(v, suite).None? then None
      else Some(KeyBlockLayout(res.macLength(v, suite).value, cipher.keySize, 0))
    case UnlistedCipherType => None
  }

  /** The AEAD key-block size: the bytes of the AEAD layout. */
  function AeadSecretSetSize(v: ProtocolVersion, suite: CipherSuite, res: AlgorithmResolver): (n: nat)
    ensures res.cipherType(suite) == Aead ==> n == LayoutSize(Layout(v, suite, res).value)
  {
    var keySize := res.cipher(suite).keySize;
    var saltSize := GCM_IV_LENGTH - SEQUENCE_NUMBER_LENGTH;
    2 * keySize + 2 * saltSize
  }

  /** The block-cipher key-block size: the bytes of the block layout, or a
      CryptoException when the MAC algorithm is missing. */
  function BlockSecretSetSize(v: ProtocolVersion, suite: CipherSuite, res: AlgorithmResolver): (r: Result<nat, KeyError>)
    ensures r.Err? <==> res.macLength(v, suite).None?
    ensures r.Err? ==> r.error == CryptoException("Could not calculate SecretSetSize")
    ensures res.cipherType(suite) == Block && r.Ok? ==> r.value == LayoutSize(Layout(v, suite, res).value)
  {
    var cipher := res.cipher(suite);
    match res.macLength(v, suite)
    case None => Err(CryptoException("Could not calculate SecretSetSize"))
    case Some(macLength) =>
      var size := 2 * cipher.keySize + 2 * macLength;
      Ok(if !UsesExplicitIv(v) then size + 2 * cipher.blockSize else size)
  }

  /** The stream-cipher key-block size: the bytes of the stream layout, or
      NoSuchAlgorithm when the MAC algorithm is missing. */
  function StreamSecretSetSize(v: ProtocolVersion, suite: CipherSuite, res: AlgorithmResolver): (r: Result<nat, KeyError>)
    ensures r.Err? <==> res.macLength(v, suite).None?
    ensures r.Err? ==> r.error == NoSuchAlgorithm
    ensures res.cipherType(suite) == Stream && r.Ok? ==> r.value == LayoutSize(Layout(v, suite, res).value)
  {
    var keySize := res.cipher(suite).keySize;
    match res.macLength(v, suite)
    case None => Err(NoSuchAlgorithm)
    case Some(macLength) => Ok(2 * keySize + macLength + macLength)
  }

  /** The key-block size: exactly the bytes the layout's six fields occupy.
      An unlisted cipher type is a CryptoException; a missing MAC algorithm
      is a CryptoException for block ciphers and NoSuchAlgorithm for stream
      ciphers. */
  function SecretSetSize(v: ProtocolVersion, suite: CipherSuite, res: AlgorithmResolver): (r: Result<nat, KeyError>)
    ensures r.Ok? <==> Layout(v, suite, res).Some?
    ensures r.Ok? ==> r.value == LayoutSize(Layout(v, suite, res).value)
    ensures res.cipherType(suite) == UnlistedCipherType ==> r == Err(CryptoException("Unknown CipherType"))
    ensures res.cipherType(suite) == Block && res.macLength(v, suite).None? ==> r.Err? && r.error.CryptoException?
    ensures res.cipherType(suite) == Stream && res.macLength(v, suite).None? ==> r == Err(NoSuchAlgorithm)
  {
    match res.cipherType(suite)
    case Aead => Ok(AeadSecretSetSize(v, suite, res))
    case Block => BlockSecretSetSize(v, suite, res)
    case Stream => StreamSecretSetSize(v, suite, res)
    case UnlistedCipherType => Err(CryptoException("Unknown CipherType"))
  }

  /** The secret-set sizes in closed form. */
  lemma SecretSetSizeByType(v: ProtocolVersion, suite: CipherSuite, res: AlgorithmResolver)
    ensures var k, b, r := res.cipher(suite).keySize, res.cipher(suite).blockSize, SecretSetSize(v, suite, res);
      && (res.cipherType(suite) == Aead ==> r == Ok(2 * k + 2 * (GCM_IV_LENGTH - SEQUENCE_NUMBER_LENGTH)))
      && (res.cipherType(suite) == Stream && res.macLength(v, suite).Some? ==>
            r == Ok(2 * k + 2 * res.macLength(v, suite).value))
      && (res.cipherType(suite) == Block && res.macLength(v, suite).Some? ==>
            r == Ok(2 * k + 2 * res.macLength(v, suite).value + (if UsesExplicitIv(v) then 0 else 2 * b)))
  {
  }

  /** The key-block parser's slicing: skip the two MAC secrets, then the
      client and server write keys, then the client and server IVs. */
  function ParseKeyBlock(block: seq<Byte>, l: KeyBlockLayout): (k: KeyMaterial)
    requires |block| == LayoutSize(l)
    ensures k.keySetType == None
    ensures |k.clientWriteKey| == l.keySize && |k.serverWriteKey| == l.keySize
    ensures |k.clientWriteIv| == l.ivSize && |k.serverWriteIv| == l.ivSize
    ensures k.clientWriteKey + k.serverWriteKey + k.clientWriteIv + k.serverWriteIv == block[2 * l.macSize..]
  {
    var c := 2 * l.macSize;
    var s := c + l.keySize;
    var ci := s + l.keySize;
    var si := ci + l.ivSize;
    var k := KeyMaterial(None, block[c..s], block[s..ci], block[ci..si], block[si..si + l.ivSize]);
    assert block[c..] == block[c..s] + block[s..ci] + block[ci..si] + block[si..si + l.ivSize];
    k
  }

  /** The key block: the SSL 3.0 construction for SSL versions, otherwise the
      PRF with the "key expansion" label; both seeded with
      serverRandom + clientRandom. */
  function KeyBlock(ctx: TlsContext, size: nat, res: AlgorithmResolver, prim: Primitives): (block: seq<Byte>)
    ensures ValidPrimitives(prim) ==> |block| == size
    ensures IsSSL(ctx.selectedProtocolVersion) ==>
      block == prim.keyBlockSsl3(ctx.masterSecret, ctx.serverRandom + ctx.clientRandom, size)
    ensures !IsSSL(ctx.selectedProtocolVersion) ==>
      block == prim.prf(res.prfAlgorithm(ctx.selectedProtocolVersion, ctx.selectedCipherSuite), ctx.masterSecret,
                        KEY_EXPANSION_LABEL, ctx.serverRandom + ctx.clientRandom, size)
  {
    var v := ctx.selectedProtocolVersion;
    var seed := ctx.serverRandom + ctx.clientRandom;
    if IsSSL(v) then prim.keyBlockSsl3(ctx.masterSecret, seed, size)
    else prim.prf(res.prfAlgorithm(v, ctx.selectedCipherSuite), ctx.masterSecret, KEY_EXPANSION_LABEL, seed, size)
  }

  // ---------------------------------------------------------------------
  // Export suites

  /** The first n bytes of MD5 over the given arrays, zero-padded when n
      exceeds the digest. */
  function MD5FirstNBytes(n: nat, parts: seq<seq<Byte>>, prim: Primitives): (r: seq<Byte>)
    ensures |r| == n
    ensures n <= |prim.md5(parts)| ==> r == prim.md5(parts)[..n]
    ensures forall i :: |prim.md5(parts)| <= i < n ==> r[i] == 0
  {
    CopyOfRange(prim.md5(parts), 0, n)
  }

  /** SSL 3.0 export keys: the write keys are MD5 over (key, own random,
      peer random) for the client and (key, server random, client random)
      for the server; the IVs are MD5 over the two randoms in the same two
      orders, each cut to the needed size. */
  function Ssl3ExportKeys(
    suite: CipherSuite, k: KeyMaterial, clientRandom: seq<Byte>, serverRandom: seq<Byte>,
    res: AlgorithmResolver, prim: Primitives): (r: KeyMaterial)
    ensures r.keySetType == k.keySetType
    ensures |r.clientWriteKey| == res.cipher(suite).keySize && |r.serverWriteKey| == res.cipher(suite).keySize
    ensures |r.clientWriteIv| == res.cipher(suite).blockSize && |r.serverWriteIv| == res.cipher(suite).blockSize
    ensures ValidPrimitives(prim) && res.cipher(suite).keySize <= MD5_LENGTH ==>
      && r.clientWriteKey == prim.md5([k.clientWriteKey, clientRandom, serverRandom])[..res.cipher(suite).keySize]
      && r.serverWriteKey == prim.md5([k.serverWriteKey, serverRandom, clientRandom])[..res.cipher(suite).keySize]
    ensures ValidPrimitives(prim) && res.cipher(suite).blockSize <= MD5_LENGTH ==>
      && r.clientWriteIv == prim.md5([clientRandom, serverRandom])[..res.cipher(suite).blockSize]
      && r.serverWriteIv == prim.md5([serverRandom, clientRandom])[..res.cipher(suite).blockSize]
  {
    var keySize := res.cipher(suite).keySize;
    var blockSize := res.cipher(suite).blockSize;
    k.(clientWriteKey := MD5FirstNBytes(keySize, [k.clientWriteKey, clientRandom, serverRandom], prim),
       serverWriteKey := MD5FirstNBytes(keySize, [k.serverWriteKey, serverRandom, clientRandom], prim),
       clientWriteIv := MD5FirstNBytes(blockSize, [clientRandom, serverRandom], prim),
       serverWriteIv := MD5FirstNBytes(blockSize, [serverRandom, clientRandom], prim))
  }

  /** The export IV block: PRF of an empty secret with the "IV block" label
      over clientRandom + serverRandom, two block sizes long. */
  function IvBlock(ctx: TlsContext, res: AlgorithmResolver, prim: Primitives): (b: seq<Byte>)
    ensures ValidPrimitives(prim) ==> |b| == 2 * res.cipher(ctx.selectedCipherSuite).blockSize
    ensures b == prim.prf(res.prfAlgorithm(ctx.selectedProtocolVersion, ctx.selectedCipherSuite), [], IV_BLOCK_LABEL,
                          ctx.clientRandom + ctx.serverRandom, 2 * res.cipher(ctx.selectedCipherSuite).blockSize)
  {
    var suite := ctx.selectedCipherSuite;
    prim.prf(res.prfAlgorithm(ctx.selectedProtocolVersion, suite), [], IV_BLOCK_LABEL,
             ctx.clientRandom + ctx.serverRandom, 2 * res.cipher(suite).blockSize)
  }

  /** Export keys: the SSL 3.0 construction for SSL 3.0; otherwise the write
      keys re-derived by the PRF over clientRandom + serverRandom (the
      reverse of the key-block seed) and the IV block split in two halves,
      the first for the client and the second for the server. */
  function ExportKeys(k: KeyMaterial, ctx: TlsContext, res: AlgorithmResolver, prim: Primitives): (r: KeyMaterial)
    requires ValidPrimitives(prim)
    ensures r.keySetType == k.keySetType
    ensures var cipher := res.cipher(ctx.selectedCipherSuite);
      && |r.clientWriteKey| == cipher.keySize && |r.serverWriteKey| == cipher.keySize
      && |r.clientWriteIv| == cipher.blockSize && |r.serverWriteIv| == cipher.blockSize
    ensures ctx.selectedProtocolVersion == SSL3 ==>
      r == Ssl3ExportKeys(ctx.selectedCipherSuite, k, ctx.clientRandom, ctx.serverRandom, res, prim)
    ensures ctx.selectedProtocolVersion != SSL3 ==>
      var prfAlgorithm := res.prfAlgorithm(ctx.selectedProtocolVersion, ctx.selectedCipherSuite);
      var seed := ctx.clientRandom + ctx.serverRandom;
      var keySize := res.cipher(ctx.selectedCipherSuite).keySize;
      && r.clientWriteKey == prim.prf(prfAlgorithm, k.clientWriteKey, CLIENT_WRITE_KEY_LABEL, seed, keySize)
      && r.serverWriteKey == prim.prf(prfAlgorithm, k.serverWriteKey, SERVER_WRITE_KEY_LABEL, seed, keySize)
      && r.clientWriteIv + r.serverWriteIv == IvBlock(ctx, res, prim)
  {
    var v := ctx.selectedProtocolVersion;
    var suite := ctx.selectedCipherSuite;
    if v == SSL3 then Ssl3ExportKeys(suite, k, ctx.clientRandom, ctx.serverRandom, res, prim)
    else
      var clientAndServerRandom := ctx.clientRandom + ctx.serverRandom;
      var prfAlgorithm := res.prfAlgorithm(v, suite);
      var keySize := res.cipher(suite).keySize;
      var blockSize := res.cipher(suite).blockSize;
      var ivBlock := IvBlock(ctx, res, prim);
      var r := k.(
        clientWriteKey := prim.prf(prfAlgorithm, k.clientWriteKey, CLIENT_WRITE_KEY_LABEL, clientAndServerRandom, keySize),
        serverWriteKey := prim.prf(prfAlgorithm, k.serverWriteKey, SERVER_WRITE_KEY_LABEL, clientAndServerRandom, keySize),
        clientWriteIv := CopyOfRange(ivBlock, 0, blockSize),
        serverWriteIv := CopyOfRange(ivBlock, blockSize, 2 * blockSize));
      assert ivBlock == ivBlock[0..blockSize] + ivBlock[blockSize..2 * blockSize];
      r
  }

  /** The pre-1.3 key set: the key block of the secret-set size, sliced,
      then re-derived when the suite is an export suite. */
  function TlsKeyMaterial(ctx: TlsContext, res: AlgorithmResolver, prim: Primitives): (r: Result<KeyMaterial, KeyError>)
    requires ValidPrimitives(prim)
    ensures var size := SecretSetSize(ctx.selectedProtocolVersion, ctx.selectedCipherSuite, res);
      && (r.Ok? <==> size.Ok?)
      && (r.Err? ==> r.error == size.error)
      && (r.Ok? ==>
            var sliced := ParseKeyBlock(KeyBlock(ctx, size.value, res, prim),
                                        Layout(ctx.selectedProtocolVersion, ctx.selectedCipherSuite, res).value);
            r.value == if res.isExportSymmetricCipher(ctx.selectedCipherSuite) then ExportKeys(sliced, ctx, res, prim) else sliced)
    ensures r.Ok? ==> r.value.keySetType == None
  {
    var v := ctx.selectedProtocolVersion;
    var suite := ctx.selectedCipherSuite;
    var size :- SecretSetSize(v, suite, res);
    var sliced := ParseKeyBlock(KeyBlock(ctx, size, res, prim), Layout(v, suite, res).value);
    if res.isExportSymmetricCipher(suite) then Ok(ExportKeys(sliced, ctx, res, prim)) else Ok(sliced)
  }

  /** For a non-export suite the write keys and IVs are consecutive slices of
      the key block right after the MAC secrets, sized by the layout. */
  lemma NonExportKeysAreKeyBlockSlices(ctx: TlsContext, res: AlgorithmResolver, prim: Primitives)
    requires ValidPrimitives(prim) && !res.isExportSymmetricCipher(ctx.selectedCipherSuite)
    requires TlsKeyMaterial(ctx, res, prim).Ok?
    ensures var l := Layout(ctx.selectedProtocolVersion, ctx.selectedCipherSuite, res).value;
      var k := TlsKeyMaterial(ctx, res, prim).value;
      var block := KeyBlock(ctx, LayoutSize(l), res, prim);
      && |block| == LayoutSize(l)
      && |k.clientWriteKey| == l.keySize && |k.clientWriteIv| == l.ivSize
      && k.clientWriteKey + k.serverWriteKey + k.clientWriteIv + k.serverWriteIv == block[2 * l.macSize..]
  {
  }

  // ---------------------------------------------------------------------
  // Entry points

  /** The key set for a version and key-set type: the TLS 1.3 path exactly
      when the version is TLS 1.3. */
  function GenerateKeyMaterial(ctx: TlsContext, v: ProtocolVersion, t: Tls13KeySetType, res: AlgorithmResolver, prim: Primitives)
    : (r: Result<KeyMaterial, KeyError>)
    requires ValidPrimitives(prim)
    ensures IsTLS13(v) ==> r == Tls13KeyMaterial(ctx, t, res, prim)
    ensures !IsTLS13(v) ==> r == TlsKeyMaterial(ctx, res, prim)
    ensures r.Ok? ==> (r.value.keySetType.Some? <==> IsTLS13(v))
  {
    if IsTLS13(v) then Tls13KeyMaterial(ctx, t, res, prim) else TlsKeyMaterial(ctx, res, prim)
  }

  /** Outside TLS 1.3 the key-set type is ignored; in TLS 1.3 the master
      secret and the randoms play no part. */
  lemma PathInputs(ctx: TlsContext, v: ProtocolVersion, t1: Tls13KeySetType, t2: Tls13KeySetType,
                   masterSecret: seq<Byte>, clientRandom: seq<Byte>, serverRandom: seq<Byte>,
                   res: AlgorithmResolver, prim: Primitives)
    requires ValidPrimitives(prim)
    ensures !IsTLS13(v) ==> GenerateKeyMaterial(ctx, v, t1, res, prim) == GenerateKeyMaterial(ctx, v, t2, res, prim)
    ensures IsTLS13(v) ==>
      var other := ctx.(masterSecret := masterSecret, clientRandom := clientRandom, serverRandom := serverRandom);
      GenerateKeyMaterial(ctx, v, t1, res, prim) == GenerateKeyMaterial(other, v, t1, res, prim)
  {
  }

  // ---------------------------------------------------------------------
  // The generator, building KeySet objects field by field

  method GenerateKeySet(ctx: TlsContext, v: ProtocolVersion, t: Tls13KeySetType, res: AlgorithmResolver, prim: Primitives)
    returns (r: Result<KeySet, KeyError>)
    requires ValidPrimitives(prim)
    ensures r.Ok? ==> fresh(r.value)
    ensures Delivers(r, GenerateKeyMaterial(ctx, v, t, res, prim))
  {
    if IsTLS13(v) {
      r := GetTls13KeySet(ctx, t, res, prim);
    } else {
      r := GetTlsKeySet(ctx, res, prim);
    }
  }

  /** The overload that takes version and key-set type from the context. */
  method GenerateKeySetForContext(ctx: TlsContext, res: AlgorithmResolver, prim: Primitives)
    returns (r: Result<KeySet, KeyError>)
    requires ValidPrimitives(prim)
    ensures r.Ok? ==> fresh(r.value)
    ensures Delivers(r, GenerateKeyMaterial(ctx, ctx.selectedProtocolVersion, ctx.activeKeySetTypeWrite, res, prim))
  {
    r := GenerateKeySet(ctx, ctx.selectedProtocolVersion, ctx.activeKeySetTypeWrite, res, prim);
  }

  method GetTls13KeySet(ctx: TlsContext, t: Tls13KeySetType, res: AlgorithmResolver, prim: Primitives)
    returns (r: Result<KeySet, KeyError>)
    ensures r.Ok? ==> fresh(r.value)
    ensures Delivers(r, Tls13KeyMaterial(ctx, t, res, prim))
  {
    var cipherSuite := ctx.selectedCipherSuite;
    var clientSecret: seq<Byte> := [];
    var serverSecret: seq<Byte> := [];
    if t == HandshakeTrafficSecrets {
      clientSecret := ctx.clientHandshakeTrafficSecret;
      serverSecret := ctx.serverHandshakeTrafficSecret;
    } else if t == ApplicationTrafficSecrets {
      clientSecret := ctx.clientApplicationTrafficSecret;
      serverSecret := ctx.serverApplicationTrafficSecret;
    } else if t == EarlyTrafficSecrets {
      cipherSuite := ctx.earlyDataCipherSuite;
      clientSecret := ctx.clientEarlyTrafficSecret;
      serverSecret := ctx.clientEarlyTrafficSecret;
    } else if t == NoKeySet {
      var empty := new KeySet(Some(t));
      return Ok(empty);
    } else {
      return Err(CryptoException("Unknown KeySetType"));
    }
    var cipherAlg := res.cipher(cipherSuite);
    var keySet := new KeySet(Some(t));
    var hkdfAlgorithm := res.hkdfAlgorithm(cipherSuite);
    keySet.clientWriteKey := prim.expandLabel(hkdfAlgorithm, clientSecret, KEY_LABEL, [], cipherAlg.keySize);
    keySet.serverWriteKey := prim.expandLabel(hkdfAlgorithm, serverSecret, KEY_LABEL, [], cipherAlg.keySize);
    keySet.clientWriteIv := prim.expandLabel(hkdfAlgorithm, clientSecret, IV_LABEL, [], GCM_IV_LENGTH);
    keySet.serverWriteIv := prim.expandLabel(hkdfAlgorithm, serverSecret, IV_LABEL, [], GCM_IV_LENGTH);
    r := Ok(keySet);
  }

  method GetTlsKeySet(ctx: TlsContext, res: AlgorithmResolver, prim: Primitives)
    returns (r: Result<KeySet, KeyError>)
    requires ValidPrimitives(prim)
    ensures r.Ok? ==> fresh(r.value)
    ensures Delivers(r, TlsKeyMaterial(ctx, res, prim))
  {
    var protocolVersion := ctx.selectedProtocolVersion;
    var cipherSuite := ctx.selectedCipherSuite;
    var masterSecret := ctx.masterSecret;
    var seed := ctx.serverRandom + ctx.clientRandom;
    var secretSetSize := SecretSetSize(protocolVersion, cipherSuite, res);
    if secretSetSize.Err? {
      return Err(secretSetSize.error);
    }
    var keyBlock: seq<Byte>;
    if IsSSL(protocolVersion) {
      keyBlock := prim.keyBlockSsl3(masterSecret, seed, secretSetSize.value);
    } else {
      var prfAlgorithm := res.prfAlgorithm(protocolVersion, cipherSuite);
      keyBlock := prim.prf(prfAlgorithm, masterSecret, KEY_EXPANSION_LABEL, seed, secretSetSize.value);
    }
    var keySet := new KeySet.FromMaterial(ParseKeyBlock(keyBlock, Layout(protocolVersion, cipherSuite, res).value));
    if res.isExportSymmetricCipher(cipherSuite) {
      DeriveExportKeys(keySet, ctx, res, prim);
    }
    r := Ok(keySet);
  }

  method DeriveExportKeys(keySet: KeySet, ctx: TlsContext, res: AlgorithmResolver, prim: Primitives)
    requires ValidPrimitives(prim)
    modifies keySet
    ensures keySet.Material() == ExportKeys(old(keySet.Material()), ctx, res, prim)
  {
    var protocolVersion := ctx.selectedProtocolVersion;
    var cipherSuite := ctx.selectedCipherSuite;
    var clientRandom := ctx.clientRandom;
    var serverRandom := ctx.serverRandom;
    if protocolVersion == SSL3 {
      DeriveSsl3ExportKeys(cipherSuite, keySet, clientRandom, serverRandom, res, prim);
      return;
    }
    var clientAndServerRandom := clientRandom + serverRandom;
    var prfAlgorithm := res.prfAlgorithm(protocolVersion, cipherSuite);
    var keySize := res.cipher(cipherSuite).keySize;
    keySet.clientWriteKey := prim.prf(prfAlgorithm, keySet.clientWriteKey, CLIENT_WRITE_KEY_LABEL, clientAndServerRandom, keySize);
    keySet.serverWriteKey := prim.prf(prfAlgorithm, keySet.serverWriteKey, SERVER_WRITE_KEY_LABEL, clientAndServerRandom, keySize);
    var blockSize := res.cipher(cipherSuite).blockSize;
    var emptySecret: seq<Byte> := [];
    var ivBlock := prim.prf(prfAlgorithm, emptySecret, IV_BLOCK_LABEL, clientAndServerRandom, 2 * blockSize);
    keySet.clientWriteIv := CopyOfRange(ivBlock, 0, blockSize);
    keySet.serverWriteIv := CopyOfRange(ivBlock, blockSize, 2 * blockSize);
  }

  method DeriveSsl3ExportKeys(
    cipherSuite: CipherSuite, keySet: KeySet, clientRandom: seq<Byte>, serverRandom: seq<Byte>,
    res: AlgorithmResolver, prim: Primitives)
    modifies keySet
    ensures keySet.Material() == Ssl3ExportKeys(cipherSuite, old(keySet.Material()), clientRandom, serverRandom, res, prim)
  {
    var keySize := res.cipher(cipherSuite).keySize;
    keySet.clientWriteKey := MD5FirstNBytes(keySize, [keySet.clientWriteKey, clientRandom, serverRandom], prim);
    keySet.serverWriteKey := MD5FirstNBytes(keySize, [keySet.serverWriteKey, serverRandom, clientRandom], prim);
    var blockSize := res.cipher(cipherSuite).blockSize;
    keySet.clientWriteIv := MD5FirstNBytes(blockSize, [clientRandom, serverRandom], prim);
    keySet.serverWriteIv := MD5FirstNBytes(blockSize, [serverRandom, clientRandom], prim);
  }
}
