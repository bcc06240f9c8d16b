/** The connection and flash session of the page: the serial port, the
    transport over it and the flashing engine built on the transport, plus
    what the page shows about them (chip label, status line, enabled state
    of the flash and disconnect buttons, progress, last alert).

    Each operation (`connect`, `flashFirmware`, `disconnect`) is one atomic
    step. What the browser and the engine do is an input: whether WebSerial
    exists, how far port acquisition and the handshake got, the download and
    the write outcomes, and which teardown calls throw. */
module Session {
  import opened Options
  import opened JsText
  import opened Firmware

  /** A serial port the browser handed out, told apart by `id`. */
  datatype Port = Port(id: nat)
  /** The engine's transport, constructed over one port. */
  datatype Transport = Transport(port: Port)
  /** The engine's loader, constructed over one transport. */
  datatype Loader = Loader(transport: Transport)

  /** The status line: its text and whether it is shown as a warning. */
  datatype Status = Status(text: string, warning: bool)

  /** The alerts the session raises. */
  datatype Alert = NoFirmwareSelected | FlashDone | FlashFailed(reason: string) {
    function Text(): string {
      match this
      case NoFirmwareSelected => "Geen firmware geselecteerd"
      case FlashDone => "Flash voltooid!"
      case FlashFailed(reason) => "Flash mislukt: " + reason
    }
  }

  /** Progress is the percentage last passed to the progress label, before
      its display rounding. */
  datatype Session = Session(
    port: Option<Port>,
    transport: Option<Transport>,
    loader: Option<Loader>,
    chip: string,
    status: Status,
    flashEnabled: bool,
    disconnectEnabled: bool,
    progress: real,
    alert: Option<Alert>)

  const Unsupported := Status("WebSerial niet ondersteund", true)
  const Connected := Status("Verbonden", false)
  const ConnectFailed := Status("Verbinding mislukt", true)
  const NotConnected := Status("niet verbonden", false)
  const NoCatalog := Status("Geen firmware catalog", true)
  const NoChip := "-"
  const DownloadFailed := "Firmware download mislukt"

  /** How far a connect attempt got, as reported by the browser and the
      engine: the port request fails; or it yields `port` and then opening
      it, building the transport, building the loader or the handshake fails;
      or the handshake reports `chip`. */
  datatype ConnectOutcome =
    | RequestFailed
    | OpenFailed(port: Port)
    | TransportFailed(port: Port)
    | LoaderFailed(port: Port)
    | HandshakeFailed(port: Port)
    | Handshake(port: Port, chip: string)
  {
    /** How many of port, transport and loader were assigned before the
        attempt ended. */
    function Assigned(): nat {
      match this
      case RequestFailed => 0
      case OpenFailed(_) => 1
      case TransportFailed(_) => 1
      case LoaderFailed(_) => 2
      case HandshakeFailed(_) => 3
      case Handshake(_, _) => 3
    }
  }

  /** Each handle, when present, is built over the port or transport the
      session currently holds. */
  predicate Coherent(s: Session) {
    && (s.transport.Some? ==> s.port == Some(s.transport.value.port))
    && (s.loader.Some? ==> s.transport == Some(s.loader.value.transport))
  }

  predicate NoHandles(s: Session) {
    s.port.None? && s.transport.None? && s.loader.None?
  }

  /** `s` and `t` agree on everything but the progress shown and the last
      alert: the handles, chip label, status line and buttons. */
  predicate SameConnection(s: Session, t: Session) {
    && s.port == t.port && s.transport == t.transport && s.loader == t.loader
    && s.chip == t.chip && s.status == t.status
    && s.flashEnabled == t.flashEnabled && s.disconnectEnabled == t.disconnectEnabled
  }

  /** The state after the page is torn down: nothing held, nothing enabled. */
  predicate IsDisconnected(s: Session) {
    NoHandles(s) && s.chip == NoChip && s.status == NotConnected
    && !s.flashEnabled && !s.disconnectEnabled
  }

  /** `connect`: without WebSerial only the status changes. Otherwise each
      handle is assigned as soon as it is obtained and is never released on
      failure; a failure shows "Verbinding mislukt" and leaves chip label and
      buttons as they were, a completed handshake shows the chip and enables
      flashing and disconnecting. */
  function Connect(s: Session, serialAvailable: bool, outcome: ConnectOutcome): (r: Session)
    ensures r.progress == s.progress && r.alert == s.alert
    ensures !serialAvailable ==> r == s.(status := Unsupported)
    ensures serialAvailable && outcome.Assigned() == 0 ==> r.port == s.port
    ensures serialAvailable && outcome.Assigned() <= 1 ==> r.transport == s.transport
    ensures serialAvailable && outcome.Assigned() <= 2 ==> r.loader == s.loader
    ensures serialAvailable && outcome.Assigned() >= 1 ==> r.port == Some(outcome.port)
    ensures serialAvailable && outcome.Assigned() >= 2 ==> r.transport == Some(Transport(outcome.port))
    ensures serialAvailable && outcome.Assigned() >= 3 ==> r.loader == Some(Loader(Transport(outcome.port)))
    ensures serialAvailable && !outcome.Handshake? ==>
      r.status == ConnectFailed && r.chip == s.chip
      && r.flashEnabled == s.flashEnabled && r.disconnectEnabled == s.disconnectEnabled
    ensures serialAvailable && outcome.Handshake? ==>
      r.status == Connected && r.chip == outcome.chip
      && r.flashEnabled && r.disconnectEnabled && Coherent(r)
  {
    if !serialAvailable then
      s.(status := Unsupported)
    else
      match outcome
      case RequestFailed =>
        s.(status := ConnectFailed)
      case OpenFailed(p) =>
        s.(port := Some(p), status := ConnectFailed)
      case TransportFailed(p) =>
        s.(port := Some(p), status := ConnectFailed)
      case LoaderFailed(p) =>
        s.(port := Some(p), transport := Some(Transport(p)), status := ConnectFailed)
      case HandshakeFailed(p) =>
        s.(port := Some(p), transport := Some(Transport(p)),
           loader := Some(Loader(Transport(p))), status := ConnectFailed)
      case Handshake(p, chip) =>
        s.(port := Some(p), transport := Some(Transport(p)),
           loader := Some(Loader(Transport(p))), chip := chip,
           status := Connected, flashEnabled := true, disconnectEnabled := true)
  }

  /** A teardown call `disconnect` makes. */
  datatype Teardown = CloseTransport(transport: Transport) | ClosePort(port: Port)

  datatype DisconnectResult = DisconnectResult(session: Session, calls: seq<Teardown>)

  /** `disconnect`: the transport is disconnected, then the port closed, each
      only when held; a transport disconnect that throws skips the port close.
      Whatever throws, every handle is dropped, the chip label reads "-", the
      status "niet verbonden" and both buttons are disabled. A throwing port
      close is only logged. */
  function Disconnect(s: Session, transportThrows: bool, portThrows: bool): (r: DisconnectResult)
    ensures IsDisconnected(r.session)
    ensures r.session.progress == s.progress && r.session.alert == s.alert
    ensures forall t :: CloseTransport(t) in r.calls <==> s.transport == Some(t)
    ensures forall p :: ClosePort(p) in r.calls <==>
      s.port == Some(p) && (s.transport.None? || !transportThrows)
    ensures forall i :: 0 < i < |r.calls| ==> r.calls[i].ClosePort? && r.calls[0].CloseTransport?
    ensures |r.calls| <= 2
  {
    var transportCalls := if s.transport.Some? then [CloseTransport(s.transport.value)] else [];
    var reachesPort := s.transport.None? || !transportThrows;
    var portCalls := if s.port.Some? && reachesPort then [ClosePort(s.port.value)] else [];
    var session := s.(port := None, transport := None, loader := None, chip := NoChip,
                      status := NotConnected, flashEnabled := false, disconnectEnabled := false);
    DisconnectResult(session, transportCalls + portCalls)
  }

  newtype byte = x: int | 0 <= x < 256

  /** The outcome of `fetch(firmware.url)`: the image bytes, a response that
      is not ok, or a thrown error with its message. */
  datatype Download = Fetched(data: seq<byte>) | NotOk | DownloadThrew(message: string)

  /** The outcome of the engine's flash write: the fractions it reported, in
      order, and whether it completed or threw (with the error's message). */
  datatype Write = Completed(reports: seq<real>) | WriteThrew(reports: seq<real>, message: string)

  /** The write the engine is asked to perform. */
  datatype WriteRequest = WriteRequest(loader: Loader, data: seq<byte>, address: string)

  datatype FlashResult = FlashResult(session: Session, request: Option<WriteRequest>)

  /** The percentage shown after the engine's `reports`, each fraction scaled
      by 100, when the flash started at 0%. */
  function ShownAfter(reports: seq<real>): real {
    if reports == [] then 0.0 else reports[|reports| - 1] * 100.0
  }

  /** `flashFirmware`. With no resolved firmware it only alerts. Otherwise it
      shows 0%, downloads the whole image, and hands it to the engine with the
      firmware's flash address; a completed write shows exactly 100%. Every
      failure is turned into a "Flash mislukt: <reason>" alert. A flash never
      touches the handles, the chip label, the status line or the buttons.
      `engineMissing` is the message of the error the host raises when there
      is no loader to call. */
  function Flash(s: Session, sel: Selection, catalog: Catalog, download: Download,
                 write: Write, engineMissing: string): (r: FlashResult)
    ensures SameConnection(s, r.session)
    ensures r.session.alert.Some?
    ensures Resolve(sel, catalog).None? ==>
      r.session == s.(alert := Some(NoFirmwareSelected)) && r.request.None?
    ensures Resolve(sel, catalog).Some? && !download.Fetched? ==>
      r.request.None? && r.session.progress == 0.0
      && r.session.alert == Some(FlashFailed(if download.NotOk? then DownloadFailed else download.message))
    ensures r.request.Some? <==> Resolve(sel, catalog).Some? && download.Fetched? && s.loader.Some?
    ensures r.request.Some? ==>
      r.request.value == WriteRequest(s.loader.value, download.data, Resolve(sel, catalog).value.flashOffset)
    ensures r.session.alert == Some(FlashDone) <==> r.request.Some? && write.Completed?
    ensures r.session.alert == Some(FlashDone) ==> r.session.progress == 100.0
    ensures Resolve(sel, catalog).Some? && download.Fetched? && s.loader.None? ==>
      r.session.alert == Some(FlashFailed(engineMissing)) && r.session.progress == 0.0
    ensures r.request.Some? && write.WriteThrew? ==>
      && r.session.alert == Some(FlashFailed(write.message))
      && r.session.progress == ShownAfter(write.reports)
  {
    match Resolve(sel, catalog)
    case None =>
      FlashResult(s.(alert := Some(NoFirmwareSelected)), None)
    case Some(firmware) =>
      var started := s.(progress := 0.0);
      match download
      case NotOk =>
        FlashResult(started.(alert := Some(FlashFailed(DownloadFailed))), None)
      case DownloadThrew(message) =>
        FlashResult(started.(alert := Some(FlashFailed(message))), None)
      case Fetched(data) =>
        match s.loader
        case None =>
          FlashResult(started.(alert := Some(FlashFailed(engineMissing))), None)
        case Some(loader) =>
          var request := Some(WriteRequest(loader, data, firmware.flashOffset));
          match write
          case Completed(_) =>
            FlashResult(started.(progress := 100.0, alert := Some(FlashDone)), request)
          case WriteThrew(reports, message) =>
            FlashResult(started.(progress := ShownAfter(reports),
                                 alert := Some(FlashFailed(message))), request)
  }

  datatype CatalogLoad = CatalogLoad(catalog: Catalog, session: Session)

  /** Loading the catalog at start-up: `loaded` is the parsed catalog, or
      `None` when the request failed. A failure leaves an empty catalog and a
      warning status; nothing else about the session changes. */
  function LoadCatalog(s: Session, loaded: Option<Catalog>): (r: CatalogLoad)
    ensures r.session == s.(status := r.session.status)
    ensures loaded.Some? ==> r == CatalogLoad(loaded.value, s)
    ensures loaded.None? ==> r.catalog == map[] && r.session.status == NoCatalog
  {
    match loaded
    case Some(catalog) => CatalogLoad(catalog, s)
    case None => CatalogLoad(map[], s.(status := NoCatalog))
  }

  // Properties relating the steps

  /** Without a catalog, only a custom URL can be flashed. */
  lemma FailedLoadResolvesOnlyCustom(s: Session, sel: Selection)
    ensures var load := LoadCatalog(s, None);
      Resolve(sel, load.catalog).Some? <==> !AllWhitespace(sel.customUrl)
  {
  }

  /** Connecting from a session that holds nothing leaves consistent
      handles, whichever step fails. */
  lemma ConnectFromNothingIsCoherent(s: Session, serialAvailable: bool, outcome: ConnectOutcome)
    requires NoHandles(s)
    ensures Coherent(Connect(s, serialAvailable, outcome))
  {
  }

  /** A connect that fails after the port was obtained, made while a previous
      connection is held, leaves the old transport and loader in place next
      to the new port: the handles no longer belong together, and the old
      port is not closed. */
  lemma FailedReconnectLeavesStaleHandles(s: Session, p: Port, q: Port, chip: string)
    requires p != q
    ensures var connected := Connect(s, true, Handshake(p, chip));
      var r := Connect(connected, true, OpenFailed(q));
      && r.port == Some(q)
      && r.transport == Some(Transport(p))
      && r.loader == Some(Loader(Transport(p)))
      && r.flashEnabled
      && !Coherent(r)
  {
  }

  /** A reconnect whose handshake fails holds a complete new set of handles,
      yet the chip label still names the old chip and flashing stays
      enabled. */
  lemma FailedHandshakeKeepsOldChip(s: Session, p: Port, q: Port, chip: string)
    ensures var connected := Connect(s, true, Handshake(p, chip));
      var r := Connect(connected, true, HandshakeFailed(q));
      && r.port == Some(q)
      && r.transport == Some(Transport(q))
      && r.loader == Some(Loader(Transport(q)))
      && Coherent(r)
      && r.chip == chip
      && r.flashEnabled
  {
  }

  /** The outcome of the teardown calls does not show in the session. */
  lemma DisconnectIgnoresTeardownErrors(s: Session, t1: bool, p1: bool, t2: bool, p2: bool)
    ensures Disconnect(s, t1, p1).session == Disconnect(s, t2, p2).session
  {
  }

  /** A second disconnect calls nothing and changes nothing. */
  lemma DisconnectIdempotent(s: Session, t1: bool, p1: bool, t2: bool, p2: bool)
    ensures var first := Disconnect(s, t1, p1).session;
      Disconnect(first, t2, p2) == DisconnectResult(first, [])
  {
  }

  /** A connect that failed from an empty session can be cleaned up by
      `disconnect`: it closes the transport that was obtained and, unless that
      transport's disconnect throws, the port (a port whose open failed
      included). */
  lemma DisconnectAfterFailedConnect(s: Session, outcome: ConnectOutcome, t: bool, p: bool)
    requires NoHandles(s)
    requires !outcome.Handshake? && !outcome.RequestFailed?
    ensures var r := Disconnect(Connect(s, true, outcome), t, p);
      && IsDisconnected(r.session)
      && (outcome.Assigned() == 1 ==> r.calls == [ClosePort(outcome.port)])
      && (outcome.Assigned() >= 2 ==> r.calls[0] == CloseTransport(Transport(outcome.port)))
      && (outcome.Assigned() >= 2 && !t ==> r.calls == [CloseTransport(Transport(outcome.port)), ClosePort(outcome.port)])
      && (outcome.Assigned() >= 2 && t ==> r.calls == [CloseTransport(Transport(outcome.port))])
  {
  }

  /** A completed write shows 100% whatever fractions the engine reported. */
  lemma FlashSuccessIgnoresReports(s: Session, sel: Selection, catalog: Catalog, data: seq<byte>,
                                   reports: seq<real>, reports': seq<real>, m: string)
    ensures Flash(s, sel, catalog, Fetched(data), Completed(reports), m)
         == Flash(s, sel, catalog, Fetched(data), Completed(reports'), m)
  {
  }

  /** Nothing of an earlier attempt carries over: a flash of a resolved
      firmware behaves the same from any session that differs only in the
      progress and alert an earlier flash left. */
  lemma FlashForgetsEarlierAttempts(s: Session, t: Session, sel: Selection, catalog: Catalog,
                                    download: Download, write: Write, m: string)
    requires SameConnection(s, t)
    requires Resolve(sel, catalog).Some?
    ensures Flash(s, sel, catalog, download, write, m) == Flash(t, sel, catalog, download, write, m)
  {
  }

  /** Retrying after a failed flash is the same as flashing for the first time. */
  lemma RetryAfterFailedFlash(s: Session, sel: Selection, catalog: Catalog,
                              download: Download, write: Write, m: string,
                              download': Download, write': Write)
    requires Resolve(sel, catalog).Some?
    ensures var failed := Flash(s, sel, catalog, download, write, m).session;
      Flash(failed, sel, catalog, download', write', m) == Flash(s, sel, catalog, download', write', m)
  {
    var failed := Flash(s, sel, catalog, download, write, m).session;
    FlashForgetsEarlierAttempts(s, failed, sel, catalog, download', write', m);
  }

  /** One device with one build, selected as build "0"; the connect
      completes and the flash completes. The page ends connected, showing the
      chip, 100% and the success alert, and the engine was asked to write the
      downloaded image at the build's address. */
  lemma ConnectAndFlashScenario(s: Session, p: Port, chip: string, data: seq<byte>,
                                reports: seq<real>, m: string)
    requires chip != ""
    ensures var catalog := map["A" := [Descriptor("x", "u1", "0x1000")]];
      var connected := Connect(s, true, Handshake(p, chip));
      var r := Flash(connected, Selection("", "A", "0"), catalog, Fetched(data), Completed(reports), m);
      && r.session.flashEnabled && r.session.disconnectEnabled
      && r.session.chip == chip
      && r.session.status == Connected
      && r.session.progress == 100.0
      && r.session.alert == Some(FlashDone)
      && r.request == Some(WriteRequest(Loader(Transport(p)), data, "0x1000"))
  {
    var build := Descriptor("x", "u1", "0x1000");
    var catalog := map["A" := [build]];
    NumeralRoundTrip(0);
    assert NatToString(0) == "0";
    assert BuildIndex("0") == 0;
    assert Trim("") == [];
    assert Resolve(Selection("", "A", "0"), catalog) == Some(build);
    var connected := Connect(s, true, Handshake(p, chip));
    assert connected.loader == Some(Loader(Transport(p)));
  }
}
