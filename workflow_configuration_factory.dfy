/** Construction of workflow traces: the ordered list of message actions a
    handshake is expected to follow, built from a configuration snapshot.
    An action is a flight of messages sent by one connection end; it is a
    send action for the end that sends it and a receive action for the
    other end. */
module WorkflowConfigurationFactory {
  import opened Common
  import opened Constants

  datatype ConnectionEnd = Client | Server

  datatype MessageKind =
    | ClientHello
    | HelloVerifyRequest
    | ServerHello
    | Certificate
    | EcdheServerKeyExchange
    | DheServerKeyExchange
    | CertificateRequest
    | ServerHelloDone
    | RsaClientKeyExchange
    | EcdhClientKeyExchange
    | DhClientKeyExchange
    | CertificateVerify
    | ChangeCipherSpec
    | Finished
    | Application
    | Heartbeat

  /** A message slot of a trace: its kind, whether it must be received for
      the trace to succeed, and whether it enters the handshake digest. */
  datatype ProtocolMessage = ProtocolMessage(kind: MessageKind, required: bool, includeInDigest: bool)

  /** A freshly constructed message: required and included in the digest. */
  function NewMessage(kind: MessageKind): (m: ProtocolMessage)
  {
    ProtocolMessage(kind, true, true)
  }

  /** One action as the action factory builds it: the configured end, the
      end that sends the flight, and the flight. */
  datatype MessageAction = MessageAction(myEnd: ConnectionEnd, sender: ConnectionEnd, messages: seq<ProtocolMessage>)

  /** KeyExchangeAlgorithm values; UnlistedKeyExchange stands for any value
      the key-exchange dispatch does not list. */
  datatype KeyExchangeAlgorithm = Rsa | Ecdh | DheDss | DheRsa | DhAnon | DhDss | DhRsa | UnlistedKeyExchange

  predicate IsDhFamily(kx: KeyExchangeAlgorithm)
  {
    kx == DheDss || kx == DheRsa || kx == DhAnon || kx == DhDss || kx == DhRsa
  }

  /** The two properties of a cipher suite the factory consults: its key
      exchange algorithm and whether it is ephemeral. */
  datatype CipherSuite = CipherSuite(keyExchange: KeyExchangeAlgorithm, ephemeral: bool)

  datatype HeartbeatMode = PeerAllowedToSend | PeerNotAllowedToSend

  datatype TlsConfig = TlsConfig(
    highestProtocolVersion: ProtocolVersion,
    myConnectionEnd: ConnectionEnd,
    supportedCiphersuites: seq<CipherSuite>,
    sessionResumption: bool,
    clientAuthentication: bool,
    serverSendsApplicationData: bool,
    heartbeatMode: Option<HeartbeatMode>)

  /** UnlistedTraceType stands for every trace type without a builder here. */
  datatype WorkflowTraceType = ClientHelloTrace | FullTrace | HandshakeTrace | UnlistedTraceType

  datatype FactoryError =
    | ConfigurationException(reason: string)
    /** The supported cipher-suite list was empty where its first entry was read. */
    | IndexOutOfBounds(index: int)

  predicate IsDtls(v: ProtocolVersion)
  {
    v == DTLS10 || v == DTLS12
  }

  predicate IsClientKeyExchange(k: MessageKind)
  {
    k == RsaClientKeyExchange || k == EcdhClientKeyExchange || k == DhClientKeyExchange
  }

  predicate IsServerKeyExchange(k: MessageKind)
  {
    k == EcdheServerKeyExchange || k == DheServerKeyExchange
  }

  function Kinds(msgs: seq<ProtocolMessage>): (r: seq<MessageKind>)
    ensures |r| == |msgs| && forall i :: 0 <= i < |msgs| ==> r[i] == msgs[i].kind
  {
    seq(|msgs|, i requires 0 <= i < |msgs| => msgs[i].kind)
  }

  lemma KindsConcat(a: seq<ProtocolMessage>, b: seq<ProtocolMessage>)
    ensures Kinds(a + b) == Kinds(a) + Kinds(b)
  {
  }

  function Senders(actions: seq<MessageAction>): (r: seq<ConnectionEnd>)
    ensures |r| == |actions| && forall i :: 0 <= i < |actions| ==> r[i] == actions[i].sender
  {
    seq(|actions|, i requires 0 <= i < |actions| => actions[i].sender)
  }

  predicate HasKind(msgs: seq<ProtocolMessage>, k: MessageKind)
  {
    exists i :: 0 <= i < |msgs| && msgs[i].kind == k
  }

  predicate HasClientKeyExchange(msgs: seq<ProtocolMessage>)
  {
    exists i :: 0 <= i < |msgs| && IsClientKeyExchange(msgs[i].kind)
  }

  predicate HasServerKeyExchange(msgs: seq<ProtocolMessage>)
  {
    exists i :: 0 <= i < |msgs| && IsServerKeyExchange(msgs[i].kind)
  }

  /** Every action of the list is built for the configured end. */
  predicate ForEnd(actions: seq<MessageAction>, myEnd: ConnectionEnd)
  {
    forall i :: 0 <= i < |actions| ==> actions[i].myEnd == myEnd
  }

  // ---------------------------------------------------------------------
  // The traces, as values

  /** The ClientKeyExchange for a key exchange algorithm: RSA and ECDH get
      their own message, the five DH variants the DH message, anything else
      none. */
  function ClientKeyExchangeFor(kx: KeyExchangeAlgorithm): (r: seq<ProtocolMessage>)
    ensures r == [] <==> kx == UnlistedKeyExchange
    ensures |r| <= 1 && forall i :: 0 <= i < |r| ==> IsClientKeyExchange(r[i].kind) && r[i] == NewMessage(r[i].kind)
    ensures kx == Rsa ==> Kinds(r) == [RsaClientKeyExchange]
    ensures kx == Ecdh ==> Kinds(r) == [EcdhClientKeyExchange]
    ensures IsDhFamily(kx) ==> Kinds(r) == [DhClientKeyExchange]
  {
    match kx
    case Rsa => [NewMessage(RsaClientKeyExchange)]
    case Ecdh => [NewMessage(EcdhClientKeyExchange)]
    case DheDss => [NewMessage(DhClientKeyExchange)]
    case DheRsa => [NewMessage(DhClientKeyExchange)]
    case DhAnon => [NewMessage(DhClientKeyExchange)]
    case DhDss => [NewMessage(DhClientKeyExchange)]
    case DhRsa => [NewMessage(DhClientKeyExchange)]
    case UnlistedKeyExchange => []
  }

  /** The ServerKeyExchange for a key exchange algorithm: RSA and ECDH both
      get the ECDHE message, the five DH variants the DHE message, anything
      else none. */
  function ServerKeyExchangeFor(kx: KeyExchangeAlgorithm): (r: seq<ProtocolMessage>)
    ensures r == [] <==> kx == UnlistedKeyExchange
    ensures |r| <= 1 && forall i :: 0 <= i < |r| ==> IsServerKeyExchange(r[i].kind) && r[i] == NewMessage(r[i].kind)
    ensures kx == Rsa || kx == Ecdh ==> Kinds(r) == [EcdheServerKeyExchange]
    ensures IsDhFamily(kx) ==> Kinds(r) == [DheServerKeyExchange]
  {
    match kx
    case Rsa => [NewMessage(EcdheServerKeyExchange)]
    case Ecdh => [NewMessage(EcdheServerKeyExchange)]
    case DheDss => [NewMessage(DheServerKeyExchange)]
    case DheRsa => [NewMessage(DheServerKeyExchange)]
    case DhAnon => [NewMessage(DheServerKeyExchange)]
    case DhDss => [NewMessage(DheServerKeyExchange)]
    case DhRsa => [NewMessage(DheServerKeyExchange)]
    case UnlistedKeyExchange => []
  }

  /** The client-hello trace; ClientHelloShape states its shape. */
  function ClientHelloActions(config: TlsConfig): (r: seq<MessageAction>)
    ensures |r| == (if IsDtls(config.highestProtocolVersion) then 3 else 1)
  {
    var myEnd := config.myConnectionEnd;
    if IsDtls(config.highestProtocolVersion) then
      [MessageAction(myEnd, Client, [NewMessage(ClientHello).(includeInDigest := false)]),
       MessageAction(myEnd, Server, [NewMessage(HelloVerifyRequest).(includeInDigest := false)]),
       MessageAction(myEnd, Client, [NewMessage(ClientHello)])]
    else
      [MessageAction(myEnd, Client, [NewMessage(ClientHello)])]
  }

  /** Outside DTLS the client-hello trace is one client flight holding a
      ClientHello. In DTLS the server's HelloVerifyRequest answers a first
      ClientHello and a second ClientHello follows; the first two messages
      are kept out of the digest. Each flight holds one required message. */
  lemma ClientHelloShape(config: TlsConfig)
    ensures var r := ClientHelloActions(config);
      && ForEnd(r, config.myConnectionEnd)
      && (forall i :: 0 <= i < |r| ==> |r[i].messages| == 1 && r[i].messages[0].required)
      && (!IsDtls(config.highestProtocolVersion) ==>
            Senders(r) == [Client] && r[0].messages == [NewMessage(ClientHello)])
      && (IsDtls(config.highestProtocolVersion) ==>
            && Senders(r) == [Client, Server, Client]
            && Kinds(r[0].messages) == [ClientHello] && Kinds(r[1].messages) == [HelloVerifyRequest]
            && Kinds(r[2].messages) == [ClientHello]
            && !r[0].messages[0].includeInDigest && !r[1].messages[0].includeInDigest
            && r[2].messages[0].includeInDigest)
  {
  }

  /** The server's first flight; ServerFlightShape states its shape. */
  function ServerFlight(config: TlsConfig): (r: seq<ProtocolMessage>)
    requires |config.supportedCiphersuites| > 0
    ensures 3 <= |r| <= 5
  {
    var cs := config.supportedCiphersuites[0];
    var keyExchange := if cs.ephemeral && !config.sessionResumption then ServerKeyExchangeFor(cs.keyExchange) else [];
    var certRequest :=
      if config.clientAuthentication && !config.sessionResumption
      then [NewMessage(CertificateRequest).(required := false)] else [];
    [NewMessage(ServerHello), NewMessage(Certificate)] + keyExchange + certRequest + [NewMessage(ServerHelloDone)]
  }

  /** The server's first flight is ServerHello and Certificate; a
      ServerKeyExchange exactly when the first supported suite is ephemeral,
      its key exchange is listed and the session is not resumed; a
      CertificateRequest, the only message not required, exactly when the
      client authenticates and the session is not resumed; ServerHelloDone
      last. */
  lemma {:induction false} ServerFlightShape(config: TlsConfig)
    requires |config.supportedCiphersuites| > 0
    ensures var r, cs := ServerFlight(config), config.supportedCiphersuites[0];
      && 3 <= |r| <= 5
      && r[0] == NewMessage(ServerHello) && r[1] == NewMessage(Certificate)
      && r[|r| - 1] == NewMessage(ServerHelloDone)
      && (HasServerKeyExchange(r) <==>
            cs.ephemeral && !config.sessionResumption && cs.keyExchange != UnlistedKeyExchange)
      && (HasKind(r, CertificateRequest) <==> config.clientAuthentication && !config.sessionResumption)
      && (forall i :: 0 <= i < |r| ==> r[i].includeInDigest && (r[i].required <==> r[i].kind != CertificateRequest))
  {
    var r, cs := ServerFlight(config), config.supportedCiphersuites[0];
    var keyExchange := if cs.ephemeral && !config.sessionResumption then ServerKeyExchangeFor(cs.keyExchange) else [];
    var certRequest :=
      if config.clientAuthentication && !config.sessionResumption
      then [NewMessage(CertificateRequest).(required := false)] else [];
    assert r == [NewMessage(ServerHello), NewMessage(Certificate)] + keyExchange + certRequest + [NewMessage(ServerHelloDone)];
    assert forall i :: 2 <= i < 2 + |keyExchange| ==> r[i] == keyExchange[i - 2];
    assert forall i :: 2 + |keyExchange| <= i < 2 + |keyExchange| + |certRequest| ==> r[i] == certRequest[i - 2 - |keyExchange|];
    if keyExchange != [] {
      assert IsServerKeyExchange(r[2].kind);
    }
    if certRequest != [] {
      assert r[2 + |keyExchange|].kind == CertificateRequest;
    }
  }

  /** The order of the server's first flight: the ServerKeyExchange of the
      first suite's key exchange comes right after the Certificate, the
      CertificateRequest right before ServerHelloDone, and nothing else is
      in between. */
  lemma {:induction false} ServerFlightOrder(config: TlsConfig)
    requires |config.supportedCiphersuites| > 0
    ensures var r, cs := ServerFlight(config), config.supportedCiphersuites[0];
      var sendsKeyExchange := cs.ephemeral && !config.sessionResumption && cs.keyExchange != UnlistedKeyExchange;
      var requestsCertificate := config.clientAuthentication && !config.sessionResumption;
      && |r| == 3 + (if sendsKeyExchange then 1 else 0) + (if requestsCertificate then 1 else 0)
      && (sendsKeyExchange ==> r[2..3] == ServerKeyExchangeFor(cs.keyExchange))
      && (requestsCertificate ==> r[|r| - 2] == NewMessage(CertificateRequest).(required := false))
  {
    var r, cs := ServerFlight(config), config.supportedCiphersuites[0];
    var keyExchange := if cs.ephemeral && !config.sessionResumption then ServerKeyExchangeFor(cs.keyExchange) else [];
    var certRequest :=
      if config.clientAuthentication && !config.sessionResumption
      then [NewMessage(CertificateRequest).(required := false)] else [];
    var hello, done := [NewMessage(ServerHello), NewMessage(Certificate)], [NewMessage(ServerHelloDone)];
    assert r == hello + keyExchange + certRequest + done;
    assert r[2..2 + |keyExchange|] == keyExchange;
    assert r[2 + |keyExchange|..2 + |keyExchange| + |certRequest|] == certRequest;
  }

  /** The ClientKeyExchange the client flight carries: none on resumption,
      otherwise the one of the first supported suite. */
  function ClientKeyExchange(config: TlsConfig): (r: seq<ProtocolMessage>)
    requires !config.sessionResumption ==> |config.supportedCiphersuites| > 0
    ensures |r| <= 1 && (r != [] ==> !config.sessionResumption)
  {
    if config.sessionResumption then [] else ClientKeyExchangeFor(config.supportedCiphersuites[0].keyExchange)
  }

  /** The client's flight; ClientFlightShape states its shape. */
  function ClientFlight(config: TlsConfig): (r: seq<ProtocolMessage>)
    requires !config.sessionResumption ==> |config.supportedCiphersuites| > 0
    ensures 2 <= |r| <= 5
  {
    var cke := ClientKeyExchange(config);
    var r :=
      if config.clientAuthentication && !config.sessionResumption
      then [NewMessage(Certificate)] + cke + [NewMessage(CertificateVerify)]
      else cke;
    r + [NewMessage(ChangeCipherSpec), NewMessage(Finished)]
  }

  /** The four forms of the client's flight, by whether a ClientKeyExchange
      is sent and whether the client authenticates. */
  lemma {:induction false} ClientFlightCases(config: TlsConfig)
    requires !config.sessionResumption ==> |config.supportedCiphersuites| > 0
    ensures var cke, r := ClientKeyExchange(config), ClientFlight(config);
      var ccs, fin := NewMessage(ChangeCipherSpec), NewMessage(Finished);
      var auth := config.clientAuthentication && !config.sessionResumption;
      && (cke == [] <==> config.sessionResumption || config.supportedCiphersuites[0].keyExchange == UnlistedKeyExchange)
      && (cke != [] ==> |cke| == 1 && IsClientKeyExchange(cke[0].kind) && cke[0] == NewMessage(cke[0].kind))
      && (cke == [] && auth ==> r == [NewMessage(Certificate), NewMessage(CertificateVerify), ccs, fin])
      && (cke == [] && !auth ==> r == [ccs, fin])
      && (cke != [] && auth ==> r == [NewMessage(Certificate), cke[0], NewMessage(CertificateVerify), ccs, fin])
      && (cke != [] && !auth ==> r == [cke[0], ccs, fin])
  {
    var cke := ClientKeyExchange(config);
    if cke != [] {
      assert cke == [cke[0]];
    }
  }

  /** The client's flight: with client authentication and no resumption it
      is Certificate, ClientKeyExchange, CertificateVerify, otherwise only the
      ClientKeyExchange (none on resumption); it always ends with
      ChangeCipherSpec and Finished. */
  lemma {:induction false} ClientFlightShape(config: TlsConfig)
    requires !config.sessionResumption ==> |config.supportedCiphersuites| > 0
    ensures var r := ClientFlight(config);
      && 2 <= |r| && r[|r| - 2..] == [NewMessage(ChangeCipherSpec), NewMessage(Finished)]
      && (config.sessionResumption ==> Kinds(r) == [ChangeCipherSpec, Finished])
      && (config.clientAuthentication && !config.sessionResumption ==>
            Kinds(r) == [Certificate] + Kinds(ClientKeyExchangeFor(config.supportedCiphersuites[0].keyExchange))
                        + [CertificateVerify, ChangeCipherSpec, Finished])
      && (!config.clientAuthentication && !config.sessionResumption ==>
            Kinds(r) == Kinds(ClientKeyExchangeFor(config.supportedCiphersuites[0].keyExchange)) + [ChangeCipherSpec, Finished])
  {
    var cke, r := ClientKeyExchange(config), ClientFlight(config);
    var tail := [NewMessage(ChangeCipherSpec), NewMessage(Finished)];
    assert Kinds(tail) == [ChangeCipherSpec, Finished];
    if !config.sessionResumption {
      assert cke == ClientKeyExchangeFor(config.supportedCiphersuites[0].keyExchange);
    } else {
      assert Kinds(cke) == [];
    }
    if config.clientAuthentication && !config.sessionResumption {
      var cert, verify := [NewMessage(Certificate)], [NewMessage(CertificateVerify)];
      assert r == cert + cke + verify + tail;
      KindsConcat(cert + cke + verify, tail);
      KindsConcat(cert + cke, verify);
      KindsConcat(cert, cke);
      assert Kinds(cert) == [Certificate] && Kinds(verify) == [CertificateVerify];
    } else {
      assert r == cke + tail;
      KindsConcat(cke, tail);
    }
  }

  /** The client's flight holds a ClientKeyExchange exactly when the session
      is not resumed and the key exchange is listed; certificates appear in
      it only with client authentication. */
  lemma {:induction false} ClientFlightKeyExchange(config: TlsConfig)
    requires !config.sessionResumption ==> |config.supportedCiphersuites| > 0
    ensures var r := ClientFlight(config);
      && (HasClientKeyExchange(r) <==>
            !config.sessionResumption && config.supportedCiphersuites[0].keyExchange != UnlistedKeyExchange)
      && (!config.clientAuthentication ==> !HasKind(r, Certificate) && !HasKind(r, CertificateVerify))
  {
    ClientFlightCases(config);
    var cke, r := ClientKeyExchange(config), ClientFlight(config);
    if cke != [] {
      if config.clientAuthentication && !config.sessionResumption {
        assert IsClientKeyExchange(r[1].kind);
      } else {
        assert IsClientKeyExchange(r[0].kind);
      }
    }
  }

  /** Every message of the client's flight is a fresh, required message and
      none is a CertificateRequest. */
  lemma {:induction false} ClientFlightRequired(config: TlsConfig)
    requires !config.sessionResumption ==> |config.supportedCiphersuites| > 0
    ensures var r := ClientFlight(config);
      forall i :: 0 <= i < |r| ==> r[i] == NewMessage(r[i].kind) && r[i].kind != CertificateRequest
  {
    ClientFlightCases(config);
  }

  /** The handshake trace; HandshakeShape states its shape. Reading the
      first supported suite fails when there is none. */
  function HandshakeActions(config: TlsConfig): (r: Result<seq<MessageAction>, FactoryError>)
    ensures r.Err? <==> config.supportedCiphersuites == []
    ensures r.Err? ==> r.error == IndexOutOfBounds(0)
  {
    if config.supportedCiphersuites == [] then Err(IndexOutOfBounds(0))
    else
      var myEnd := config.myConnectionEnd;
      Ok(ClientHelloActions(config)
         + [MessageAction(myEnd, Server, ServerFlight(config)),
            MessageAction(myEnd, Client, ClientFlight(config)),
            MessageAction(myEnd, Server, [NewMessage(ChangeCipherSpec), NewMessage(Finished)])])
  }

  /** The handshake trace is the client-hello trace followed by exactly three
      actions: the server flight, the client flight, and the server's
      ChangeCipherSpec and Finished. */
  lemma HandshakeShape(config: TlsConfig)
    requires HandshakeActions(config).Ok?
    ensures var hello, h := ClientHelloActions(config), HandshakeActions(config).value;
      && |h| == |hello| + 3
      && h[..|hello|] == hello
      && ForEnd(h, config.myConnectionEnd)
      && Senders(h[|hello|..]) == [Server, Client, Server]
      && h[|hello|].messages == ServerFlight(config)
      && h[|hello| + 1].messages == ClientFlight(config)
      && h[|hello| + 2].messages == [NewMessage(ChangeCipherSpec), NewMessage(Finished)]
  {
    var hello, h := ClientHelloActions(config), HandshakeActions(config).value;
    assert h[..|hello|] == hello;
    ClientHelloShape(config);
  }

  /** The actions the full trace appends to the handshake: the server's
      application data when it sends some, then the client's application
      data, with the heartbeat exchange when a heartbeat mode is set. */
  function FullTail(config: TlsConfig): (r: seq<MessageAction>)
    ensures |r| == (if config.serverSendsApplicationData then 1 else 0) + (if config.heartbeatMode.Some? then 2 else 1)
  {
    var myEnd := config.myConnectionEnd;
    var serverData := if config.serverSendsApplicationData then [MessageAction(myEnd, Server, [NewMessage(Application)])] else [];
    var tail :=
      if config.heartbeatMode.Some?
      then [MessageAction(myEnd, Client, [NewMessage(Application), NewMessage(Heartbeat)]),
            MessageAction(myEnd, Server, [NewMessage(Heartbeat)])]
      else [MessageAction(myEnd, Client, [NewMessage(Application)])];
    serverData + tail
  }

  /** The full trace; FullShape states its shape. */
  function FullActions(config: TlsConfig): (r: Result<seq<MessageAction>, FactoryError>)
    ensures r.Err? <==> HandshakeActions(config).Err?
    ensures r.Err? ==> r.error == HandshakeActions(config).error
  {
    var h :- HandshakeActions(config);
    Ok(h + FullTail(config))
  }

  /** The full trace extends the handshake trace with a server action holding
      application data when the server sends some; then, with a heartbeat
      mode, a client action with application data and a heartbeat and a
      server action with a heartbeat, otherwise a client action with
      application data only. */
  lemma FullShape(config: TlsConfig)
    requires FullActions(config).Ok?
    ensures var h, f := HandshakeActions(config).value, FullActions(config).value;
      var extra := (if config.serverSendsApplicationData then 1 else 0) + (if config.heartbeatMode.Some? then 2 else 1);
      && |f| == |h| + extra
      && f[..|h|] == h
      && ForEnd(f, config.myConnectionEnd)
      && (config.serverSendsApplicationData ==>
            f[|h|].sender == Server && Kinds(f[|h|].messages) == [Application])
      && (config.heartbeatMode.Some? ==>
            && Senders(f[|f| - 2..]) == [Client, Server]
            && Kinds(f[|f| - 2].messages) == [Application, Heartbeat]
            && Kinds(f[|f| - 1].messages) == [Heartbeat])
      && (config.heartbeatMode.None? ==>
            f[|f| - 1].sender == Client && Kinds(f[|f| - 1].messages) == [Application])
  {
    var h, f, t := HandshakeActions(config).value, FullActions(config).value, FullTail(config);
    assert f == h + t && f[..|h|] == h && f[|h|..] == t;
    HandshakeShape(config);
  }

  /** The trace of a trace type; a type without a builder is a configuration
      error. */
  function WorkflowActions(config: TlsConfig, t: WorkflowTraceType): (r: Result<seq<MessageAction>, FactoryError>)
    ensures t == ClientHelloTrace ==> r == Ok(ClientHelloActions(config))
    ensures t == HandshakeTrace ==> r == HandshakeActions(config)
    ensures t == FullTrace ==> r == FullActions(config)
    ensures t == UnlistedTraceType ==> r.Err? && r.error.ConfigurationException?
  {
    match t
    case ClientHelloTrace => Ok(ClientHelloActions(config))
    case FullTrace => FullActions(config)
    case HandshakeTrace => HandshakeActions(config)
    case UnlistedTraceType => Err(ConfigurationException("Unknown WorkflowTraceType"))
  }

  // ---------------------------------------------------------------------
  // Properties across a whole trace

  /** In a DTLS handshake trace exactly the first ClientHello and the
      HelloVerifyRequest are kept out of the digest; outside DTLS every
      message enters it. */
  lemma {:induction false} DigestExclusions(config: TlsConfig)
    requires HandshakeActions(config).Ok?
    ensures var h := HandshakeActions(config).value;
      forall i, j :: 0 <= i < |h| && 0 <= j < |h[i].messages| ==>
        (!h[i].messages[j].includeInDigest <==> IsDtls(config.highestProtocolVersion) && j == 0 && i < 2)
  {
    var h := HandshakeActions(config).value;
    var hello := ClientHelloActions(config);
    HandshakeShape(config);
    forall i, j | 0 <= i < |h| && 0 <= j < |h[i].messages|
      ensures !h[i].messages[j].includeInDigest <==> IsDtls(config.highestProtocolVersion) && j == 0 && i < 2
    {
      if i < |hello| {
        ClientHelloShape(config);
        assert h[i] == hello[i];
      } else if i == |hello| {
        ServerFlightShape(config);
      } else if i == |hello| + 1 {
        ClientFlightRequired(config);
      } else {
        assert h[i].messages[j] in [NewMessage(ChangeCipherSpec), NewMessage(Finished)];
      }
    }
  }

  /** In a handshake trace every message slot is required except the
      CertificateRequest. */
  lemma {:induction false} OnlyCertificateRequestOptional(config: TlsConfig)
    requires HandshakeActions(config).Ok?
    ensures var h := HandshakeActions(config).value;
      forall i, j :: 0 <= i < |h| && 0 <= j < |h[i].messages| ==>
        (h[i].messages[j].required <==> h[i].messages[j].kind != CertificateRequest)
  {
    var h := HandshakeActions(config).value;
    var hello := ClientHelloActions(config);
    HandshakeShape(config);
    forall i, j | 0 <= i < |h| && 0 <= j < |h[i].messages|
      ensures h[i].messages[j].required <==> h[i].messages[j].kind != CertificateRequest
    {
      if i < |hello| {
        ClientHelloShape(config);
        assert h[i] == hello[i];
        assert h[i].messages[j].kind == ClientHello || h[i].messages[j].kind == HelloVerifyRequest;
      } else if i == |hello| {
        ServerFlightShape(config);
      } else if i == |hello| + 1 {
        ClientFlightRequired(config);
      } else {
        assert h[i].messages[j] in [NewMessage(ChangeCipherSpec), NewMessage(Finished)];
      }
    }
  }

  /** Resuming a session removes the ServerKeyExchange, the
      CertificateRequest and the ClientKeyExchange from the handshake
      trace. */
  lemma {:induction false} ResumptionOmitsKeyExchange(config: TlsConfig)
    requires HandshakeActions(config).Ok? && config.sessionResumption
    ensures var h, n := HandshakeActions(config).value, |ClientHelloActions(config)|;
      && !HasServerKeyExchange(h[n].messages) && !HasKind(h[n].messages, CertificateRequest)
      && !HasClientKeyExchange(h[n + 1].messages)
      && Kinds(h[n + 1].messages) == [ChangeCipherSpec, Finished]
  {
    HandshakeShape(config);
    ServerFlightShape(config);
    ClientFlightShape(config);
    ClientFlightKeyExchange(config);
  }

  // ---------------------------------------------------------------------
  // The factory, building traces by appending to lists

  class WorkflowTrace {
    var actions: seq<MessageAction>

    constructor ()
      ensures actions == []
    {
      actions := [];
    }

    method Add(action: MessageAction)
      modifies this
      ensures actions == old(actions) + [action]
    {
      actions := actions + [action];
    }
  }

  /** A message list under construction. An action records the list's
      contents when it is created; the list is not changed afterwards. */
  class MessageList {
    var items: seq<ProtocolMessage>

    constructor ()
      ensures items == []
    {
      items := [];
    }

    method Add(m: ProtocolMessage)
      modifies this
      ensures items == old(items) + [m]
    {
      items := items + [m];
    }
  }

  class WorkflowConfigurationFactory {
    const config: TlsConfig

    constructor (config: TlsConfig)
      ensures this.config == config
    {
      this.config := config;
    }

    method CreateWorkflowTrace(t: WorkflowTraceType) returns (r: Result<WorkflowTrace, FactoryError>)
      ensures r.Ok? ==> fresh(r.value)
      ensures var spec := WorkflowActions(config, t);
        && (r.Ok? <==> spec.Ok?)
        && (r.Ok? ==> r.value.actions == spec.value)
        && (r.Err? ==> r.error == spec.error)
    {
      match t
      case ClientHelloTrace =>
        var trace := CreateClientHelloWorkflow();
        r := Ok(trace);
      case FullTrace =>
        r := CreateFullWorkflow();
      case HandshakeTrace =>
        r := CreateHandshakeWorkflow();
      case UnlistedTraceType =>
        r := Err(ConfigurationException("Unknown WorkflowTraceType"));
    }

    method CreateClientHelloWorkflow() returns (trace: WorkflowTrace)
      ensures fresh(trace)
      ensures trace.actions == ClientHelloActions(config)
    {
      var myEnd := config.myConnectionEnd;
      trace := new WorkflowTrace();
      var messages := new MessageList();
      var dtls := config.highestProtocolVersion == DTLS10 || config.highestProtocolVersion == DTLS12;
      var clientHello: ProtocolMessage;
      if dtls {
        clientHello := NewMessage(ClientHello).(includeInDigest := false);
      } else {
        clientHello := NewMessage(ClientHello);
      }
      messages.Add(clientHello);
      assert messages.items == [clientHello];
      trace.Add(MessageAction(myEnd, Client, messages.items));
      assert trace.actions == [MessageAction(myEnd, Client, [clientHello])];
      if dtls {
        var helloVerifyRequest := NewMessage(HelloVerifyRequest).(includeInDigest := false);
        messages := new MessageList();
        messages.Add(helloVerifyRequest);
        assert messages.items == [helloVerifyRequest];
        trace.Add(MessageAction(myEnd, Server, messages.items));
        clientHello := NewMessage(ClientHello);
        messages := new MessageList();
        messages.Add(clientHello);
        assert messages.items == [clientHello];
        trace.Add(MessageAction(myEnd, Client, messages.items));
        assert trace.actions == [MessageAction(myEnd, Client, [NewMessage(ClientHello).(includeInDigest := false)]),
                                 MessageAction(myEnd, Server, [helloVerifyRequest]),
                                 MessageAction(myEnd, Client, [clientHello])];
      }
    }

    method CreateHandshakeWorkflow() returns (r: Result<WorkflowTrace, FactoryError>)
      ensures r.Ok? ==> fresh(r.value)
      ensures var spec := HandshakeActions(config);
        && (r.Ok? <==> spec.Ok?)
        && (r.Ok? ==> r.value.actions == spec.value)
        && (r.Err? ==> r.error == spec.error)
    {
      var myEnd := config.myConnectionEnd;
      var trace := CreateClientHelloWorkflow();
      ghost var hello := trace.actions;
      var serverFlight := CreateServerFlight();
      if serverFlight.Err? {
        return Err(serverFlight.error);
      }
      var server := MessageAction(myEnd, Server, serverFlight.value.items);
      trace.Add(server);
      assert trace.actions == hello + [server];
      var messages := CreateClientFlight();
      var client := MessageAction(myEnd, Client, messages.items);
      trace.Add(client);
      assert trace.actions == hello + [server, client];
      messages := new MessageList();
      messages.Add(NewMessage(ChangeCipherSpec));
      assert messages.items == [NewMessage(ChangeCipherSpec)];
      messages.Add(NewMessage(Finished));
      var finished := MessageAction(myEnd, Server, messages.items);
      trace.Add(finished);
      assert trace.actions == hello + [server, client, finished];
      assert finished == MessageAction(myEnd, Server, [NewMessage(ChangeCipherSpec), NewMessage(Finished)]);
      r := Ok(trace);
    }

    /** The first part of the handshake workflow: the server's first flight.
        The first supported suite is read after ServerHello and Certificate
        are added; an empty suite list fails there. */
    method CreateServerFlight() returns (r: Result<MessageList, FactoryError>)
      ensures r.Ok? <==> |config.supportedCiphersuites| > 0
      ensures r.Err? ==> r.error == IndexOutOfBounds(0)
      ensures r.Ok? ==> fresh(r.value) && r.value.items == ServerFlight(config)
    {
      var messages := new MessageList();
      messages.Add(NewMessage(ServerHello));
      assert messages.items == [NewMessage(ServerHello)];
      messages.Add(NewMessage(Certificate));
      if |config.supportedCiphersuites| == 0 {
        return Err(IndexOutOfBounds(0));
      }
      var cs := config.supportedCiphersuites[0];
      ghost var keyExchange := if cs.ephemeral && !config.sessionResumption then ServerKeyExchangeFor(cs.keyExchange) else [];
      if cs.ephemeral && !config.sessionResumption {
        AddServerKeyExchangeMessage(messages);
      }
      assert messages.items == [NewMessage(ServerHello), NewMessage(Certificate)] + keyExchange;
      ghost var certRequests: seq<ProtocolMessage> := [];
      if config.clientAuthentication && !config.sessionResumption {
        var certRequest := NewMessage(CertificateRequest).(required := false);
        messages.Add(certRequest);
        certRequests := [certRequest];
      }
      assert messages.items == [NewMessage(ServerHello), NewMessage(Certificate)] + keyExchange + certRequests;
      messages.Add(NewMessage(ServerHelloDone));
      r := Ok(messages);
    }

    /** The second part of the handshake workflow: the client's flight. */
    method CreateClientFlight() returns (messages: MessageList)
      requires !config.sessionResumption ==> |config.supportedCiphersuites| > 0
      ensures fresh(messages) && messages.items == ClientFlight(config)
    {
      messages := new MessageList();
      ghost var cke := ClientKeyExchange(config);
      if config.clientAuthentication && !config.sessionResumption {
        messages.Add(NewMessage(Certificate));
        assert messages.items == [NewMessage(Certificate)];
        AddClientKeyExchangeMessage(messages);
        messages.Add(NewMessage(CertificateVerify));
        assert messages.items == [NewMessage(Certificate)] + cke + [NewMessage(CertificateVerify)];
      } else {
        AddClientKeyExchangeMessage(messages);
        assert messages.items == cke;
      }
      messages.Add(NewMessage(ChangeCipherSpec));
      messages.Add(NewMessage(Finished));
    }

    /** Appends the ClientKeyExchange for the first supported suite, or
        nothing when the session is resumed. The first suite is read only
        when the session is not resumed. */
    method AddClientKeyExchangeMessage(messages: MessageList)
      requires !config.sessionResumption ==> |config.supportedCiphersuites| > 0
      modifies messages
      ensures messages.items == old(messages.items) + ClientKeyExchange(config)
    {
      if config.sessionResumption {
        return;
      }
      var cs := config.supportedCiphersuites[0];
      match cs.keyExchange
      case Rsa => messages.Add(NewMessage(RsaClientKeyExchange));
      case Ecdh => messages.Add(NewMessage(EcdhClientKeyExchange));
      case DheDss => messages.Add(NewMessage(DhClientKeyExchange));
      case DheRsa => messages.Add(NewMessage(DhClientKeyExchange));
      case DhAnon => messages.Add(NewMessage(DhClientKeyExchange));
      case DhDss => messages.Add(NewMessage(DhClientKeyExchange));
      case DhRsa => messages.Add(NewMessage(DhClientKeyExchange));
      case UnlistedKeyExchange =>
    }

    /** Appends the ServerKeyExchange for the first supported suite. */
    method AddServerKeyExchangeMessage(messages: MessageList)
      requires |config.supportedCiphersuites| > 0
      modifies messages
      ensures messages.items == old(messages.items) + ServerKeyExchangeFor(config.supportedCiphersuites[0].keyExchange)
    {
      var cs := config.supportedCiphersuites[0];
      match cs.keyExchange
      case Rsa => messages.Add(NewMessage(EcdheServerKeyExchange));
      case Ecdh => messages.Add(NewMessage(EcdheServerKeyExchange));
      case DheDss => messages.Add(NewMessage(DheServerKeyExchange));
      case DheRsa => messages.Add(NewMessage(DheServerKeyExchange));
      case DhAnon => messages.Add(NewMessage(DheServerKeyExchange));
      case DhDss => messages.Add(NewMessage(DheServerKeyExchange));
      case DhRsa => messages.Add(NewMessage(DheServerKeyExchange));
      case UnlistedKeyExchange =>
    }

    method CreateFullWorkflow() returns (r: Result<WorkflowTrace, FactoryError>)
      ensures r.Ok? ==> fresh(r.value)
      ensures var spec := FullActions(config);
        && (r.Ok? <==> spec.Ok?)
        && (r.Ok? ==> r.value.actions == spec.value)
        && (r.Err? ==> r.error == spec.error)
    {
      var handshake := CreateHandshakeWorkflow();
      if handshake.Err? {
        return Err(handshake.error);
      }
      var trace := handshake.value;
      AppendApplicationFlights(trace);
      r := Ok(trace);
    }

    /** Appends the actions after the handshake: the server's application
        data when it sends some, then the client's application data, with
        the heartbeat exchange when a heartbeat mode is set. */
    method AppendApplicationFlights(trace: WorkflowTrace)
      modifies trace
      ensures trace.actions == old(trace.actions) + FullTail(config)
    {
      var myEnd := config.myConnectionEnd;
      ghost var h := trace.actions;
      ghost var serverData: seq<MessageAction> := [];
      var messages := new MessageList();
      if config.serverSendsApplicationData {
        messages.Add(NewMessage(Application));
        assert messages.items == [NewMessage(Application)];
        trace.Add(MessageAction(myEnd, Server, messages.items));
        serverData := [MessageAction(myEnd, Server, [NewMessage(Application)])];
        messages := new MessageList();
      }
      assert trace.actions == h + serverData && messages.items == [];
      messages.Add(NewMessage(Application));
      assert messages.items == [NewMessage(Application)];
      if config.heartbeatMode.Some? {
        messages.Add(NewMessage(Heartbeat));
        assert messages.items == [NewMessage(Application), NewMessage(Heartbeat)];
        trace.Add(MessageAction(myEnd, Client, messages.items));
        messages := new MessageList();
        messages.Add(NewMessage(Heartbeat));
        assert messages.items == [NewMessage(Heartbeat)];
        trace.Add(MessageAction(myEnd, Server, messages.items));
        assert trace.actions == h + serverData
          + [MessageAction(myEnd, Client, [NewMessage(Application), NewMessage(Heartbeat)]),
             MessageAction(myEnd, Server, [NewMessage(Heartbeat)])];
      } else {
        trace.Add(MessageAction(myEnd, Client, messages.items));
        assert trace.actions == h + serverData + [MessageAction(myEnd, Client, [NewMessage(Application)])];
      }
    }
  }
}
