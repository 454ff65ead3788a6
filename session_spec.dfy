/**
 * The socket session of `SocketClient` as a pure state machine: one function
 * per socket callback or application call, each taking the session before
 * and giving the session after. The class in module `Communication` is
 * proved to follow these functions step by step.
 *
 * Outbound traffic and calls into the application are recorded in two logs:
 * `log` holds what the client asks of the socket channel, `notices` what it
 * hands to the application (and the deep links it opens).
 */
module SessionSpec {
  import opened Wrappers
  import opened JsonValues
  import opened Handshake

  datatype Dapp = Dapp(name: string, url: string)

  /** What an envelope carries: a plaintext value (handshake traffic) or a ciphertext. */
  datatype Payload = Plain(value: Json) | Cipher(text: string)

  /** `Message<T>`: the channel id and the payload. */
  datatype Envelope = Envelope(id: string, payload: Payload)

  /** What the client asks of the socket channel. */
  datatype ChannelOp =
    | OpenSocket
    | CloseSocket
    | JoinChannel(channel: string)
    | Emit(envelope: Envelope)

  /** What sits in the `onClientsReady` slot: the application's own callback, or a deferred emit. */
  datatype ReadyAction = AppReady | SendDeferred(envelope: Envelope)

  /** Calls into the application; the optional callbacks are invoked when set. */
  datatype Notice =
    | ReadyCalled(pausedAtCall: bool)
    | ResponseReceived(id: string, data: Object)
    | EventReceived(data: Object)
    | TornDown
    | DeeplinkOpened(url: string)

  /** What a session never changes: its channel id and its key exchange collaborators. */
  datatype Context = Context(channelId: string, ops: KeyExchangeOps)

  datatype Session = Session(
    dapp: Option<Dapp>,
    isConnected: bool,
    connectionPaused: bool,
    keyExchange: KeyExchange,
    onClientsReady: Option<ReadyAction>,
    log: seq<ChannelOp>,
    notices: seq<Notice>)

  /** A fresh client: no dapp yet, disconnected, unpaused, keys not exchanged, nothing sent. */
  function Initial(keys: Keys): Session {
    Session(None, false, false, KeyExchange(false, keys), None, [], [])
  }

  /** A channel operation that names no channel other than `channelId`. */
  predicate OnChannel(op: ChannelOp, channelId: string) {
    match op
    case OpenSocket => true
    case CloseSocket => true
    case JoinChannel(channel) => channel == channelId
    case Emit(envelope) => envelope.id == channelId
  }

  /** Everything the session has emitted, or will emit when ready fires, carries its own channel id. */
  predicate Scoped(c: Context, s: Session) {
    (forall i :: 0 <= i < |s.log| ==> OnChannel(s.log[i], c.channelId))
    && (s.onClientsReady.Some? && s.onClientsReady.value.SendDeferred? ==>
          s.onClientsReady.value.envelope.id == c.channelId)
  }

  // ---------------------------------------------------------------------
  // The deep link

  const DEEPLINK_PREFIX: string := "https://metamask.app.link/connect?channelId="
  const COMM_PARAM: string := "&comm=socket"
  const PUBKEY_PARAM: string := "&pubkey="

  /**
   * `deeplinkUrl`, before percent-encoding: the connect link, the channel id
   * right after it, and the public key at the end. `DeeplinkRoundTrip` and
   * `DeeplinkParsesOnlyCanonical` show both values can be read back.
   */
  function DeeplinkUrl(channelId: string, pubkey: string): (url: string)
    ensures |url| == |DEEPLINK_PREFIX| + |channelId| + |COMM_PARAM + PUBKEY_PARAM| + |pubkey|
    ensures url[..|DEEPLINK_PREFIX|] == DEEPLINK_PREFIX
    ensures url[|DEEPLINK_PREFIX|..|DEEPLINK_PREFIX| + |channelId|] == channelId
    ensures url[|url| - |pubkey|..] == pubkey
  {
    DEEPLINK_PREFIX + channelId + COMM_PARAM + PUBKEY_PARAM + pubkey
  }

  /** The position of the first `ch` in `s`, or `|s|`. */
  function IndexOf(s: string, ch: char): (i: nat)
    ensures i <= |s|
    ensures i < |s| ==> s[i] == ch
    ensures forall k :: 0 <= k < i ==> s[k] != ch
  {
    if s == [] then 0
    else if s[0] == ch then 0
    else 1 + IndexOf(s[1..], ch)
  }

  /** What the receiving side reads back from a deep link: the channel id and the public key. */
  function ParseDeeplink(url: string): Option<(string, string)> {
    if |url| < |DEEPLINK_PREFIX| || url[..|DEEPLINK_PREFIX|] != DEEPLINK_PREFIX then None
    else
      var query := url[|DEEPLINK_PREFIX|..];
      var i := IndexOf(query, '&');
      var rest := query[i..];
      var marker := COMM_PARAM + PUBKEY_PARAM;
      if |rest| < |marker| || rest[..|marker|] != marker then None
      else Some((query[..i], rest[|marker|..]))
  }

  // ---------------------------------------------------------------------
  // Sending

  /** What `sendMessage` does with one message. */
  datatype SendOutcome = Dropped | EmitNow(envelope: Envelope) | Defer(envelope: Envelope)

  /** The decision `sendMessage` takes; the ciphertext is computed now, before any deferral. */
  function Outcome(c: Context, s: Session, message: Json, encrypt: bool): (o: SendOutcome)
    ensures !encrypt ==> o == EmitNow(Envelope(c.channelId, Plain(message)))
    ensures o.Dropped? <==>
      encrypt && (!s.keyExchange.keysExchanged || c.ops.encrypt(s.keyExchange.keys, message).None?)
    ensures o.Defer? <==>
      encrypt && s.keyExchange.keysExchanged && s.connectionPaused
      && c.ops.encrypt(s.keyExchange.keys, message).Some?
    ensures encrypt && !o.Dropped? ==>
      o.envelope == Envelope(c.channelId, Cipher(c.ops.encrypt(s.keyExchange.keys, message).value))
  {
    if !encrypt then EmitNow(Envelope(c.channelId, Plain(message)))
    else if !s.keyExchange.keysExchanged then Dropped
    else
      match c.ops.encrypt(s.keyExchange.keys, message)
      case None => Dropped
      case Some(text) =>
        if s.connectionPaused then Defer(Envelope(c.channelId, Cipher(text)))
        else EmitNow(Envelope(c.channelId, Cipher(text)))
  }

  /** `sendMessage(_:encrypt:)`. */
  function Send(c: Context, s: Session, message: Json, encrypt: bool): Session {
    match Outcome(c, s, message, encrypt)
    case Dropped => s
    case EmitNow(envelope) => s.(log := s.log + [Emit(envelope)])
    case Defer(envelope) => s.(onClientsReady := Some(SendDeferred(envelope)))
  }

  /** `OriginatorInfo` wrapped in a `RequestInfo`; nil fields are left out when encoded. */
  function OriginatorInfo(dapp: Option<Dapp>): Json {
    var originator :=
      if dapp.Some? then map["title" := JString(dapp.value.name), "url" := JString(dapp.value.url)]
      else map[];
    JObject(map["type" := JString("originator_info"), "originator" := JObject(originator)])
  }

  /** `sendOriginatorInfo()`: an encrypted send. */
  function SendOriginatorInfo(c: Context, s: Session): Session {
    Send(c, s, OriginatorInfo(s.dapp), true)
  }

  /** `onClientsReady?()`: runs whatever sits in the slot, and leaves it there. */
  function FireReady(s: Session): Session {
    match s.onClientsReady
    case None => s
    case Some(AppReady) => s.(notices := s.notices + [ReadyCalled(s.connectionPaused)])
    case Some(SendDeferred(envelope)) => s.(log := s.log + [Emit(envelope)])
  }

  // ---------------------------------------------------------------------
  // Receiving

  /** How a decrypted payload is dispatched. */
  datatype Dispatch =
    | Pause
    | Ready
    | WalletInfo
    | Response(id: string, data: Object)
    | Event(data: Object)
    | Ignored

  /** A payload that is a dictionary whose `type` entry is the string `tag`. */
  predicate HasType(payload: Json, tag: string) {
    payload.JObject? && "type" in payload.fields && payload.fields["type"] == JString(tag)
  }

  /** The branch `handleEncryptedMessage` takes for a decrypted, parsed payload. */
  function Classify(payload: Json): (d: Dispatch)
    ensures d.Pause? <==> HasType(payload, "pause")
    ensures d.Ready? <==> HasType(payload, "ready")
    ensures d.WalletInfo? <==> HasType(payload, "wallet_info")
    ensures d.Response? || d.Event? ==>
      payload.JObject? && "data" in payload.fields && payload.fields["data"] == JObject(d.data)
    ensures d.Response? ==> "id" in d.data && d.data["id"] == JString(d.id)
    ensures d.Event? ==> !("id" in d.data && d.data["id"].JString?)
    ensures d.Ignored? <==>
      !payload.JObject?
      || (!HasType(payload, "pause") && !HasType(payload, "ready") && !HasType(payload, "wallet_info")
          && !("data" in payload.fields && payload.fields["data"].JObject?))
  {
    var json := AsObjectOrEmpty(payload);
    var tag := StringAt(json, "type");
    if tag == Some("pause") then Pause
    else if tag == Some("ready") then Ready
    else if tag == Some("wallet_info") then WalletInfo
    else
      match ObjectAt(json, "data")
      case None => Ignored
      case Some(data) =>
        match StringAt(data, "id")
        case Some(id) => Response(id, data)
        case None => Event(data)
  }

  /** Decrypting and parsing a ciphertext; either step may fail. */
  function Decrypted(c: Context, keys: Keys, ciphertext: string): Option<Json> {
    match c.ops.decrypt(keys, ciphertext)
    case None => None
    case Some(text) => c.ops.parse(text)
  }

  /** `handleEncryptedMessage(_:)`; a failure is logged and changes nothing. */
  function ReceiveEncrypted(c: Context, s: Session, ciphertext: string): Session {
    match Decrypted(c, s.keyExchange.keys, ciphertext)
    case None => s
    case Some(payload) =>
      match Classify(payload)
      case Pause => s.(connectionPaused := true)
      case Ready => FireReady(s.(connectionPaused := false))
      case WalletInfo => FireReady(s.(isConnected := true)).(connectionPaused := false)
      case Response(id, data) => s.(notices := s.notices + [ResponseReceived(id, data)])
      case Event(data) => s.(notices := s.notices + [EventReceived(data)])
      case Ignored => s
  }

  /** `handleMessage(_:)`: a handshake restart while paused, otherwise an encrypted message. */
  function HandleMessage(c: Context, s: Session, message: Object): Session {
    if s.connectionPaused && c.ops.isHandshakeRestartMessage(message) then
      var restarted := s.(keyExchange := Restart(c.ops, s.keyExchange),
                          isConnected := true, connectionPaused := false);
      match c.ops.decodeHandshake(message)
      case None => restarted
      case Some(m) =>
        var step := c.ops.nextMessage(restarted.keyExchange, m);
        var stepped := restarted.(keyExchange := step.next);
        if step.reply.Some? then Send(c, stepped, step.reply.value, false) else stepped
    else
      match c.ops.decodeCiphertext(message)
      case None => s
      case Some(ciphertext) => ReceiveEncrypted(c, s, ciphertext)
  }

  /** `handleReceiveKeyExchange(_:)`: reply in plaintext, then send the originator info once keys are exchanged. */
  function ReceiveKeyExchange(c: Context, s: Session, message: Object): Session {
    match c.ops.decodeHandshake(message)
    case None => s
    case Some(m) =>
      var step := c.ops.nextMessage(s.keyExchange, m);
      var stepped := s.(keyExchange := step.next);
      if step.reply.None? then stepped
      else
        var replied := Send(c, stepped, step.reply.value, false);
        if replied.keyExchange.keysExchanged then SendOriginatorInfo(c, replied) else replied
  }

  /** The message event: the first item, when it is a dictionary, goes to the handshake or to decryption. */
  function OnMessage(c: Context, s: Session, data: seq<Json>): Session {
    if |data| == 0 || !data[0].JObject? then s
    else if !s.keyExchange.keysExchanged then ReceiveKeyExchange(c, s, data[0].fields)
    else HandleMessage(c, s, data[0].fields)
  }

  /** The clients-connected event: start the handshake unless keys are already exchanged. */
  function OnClientsConnected(c: Context, s: Session): Session {
    if !s.keyExchange.keysExchanged then Send(c, s, c.ops.synMessage(s.keyExchange.keys), false)
    else s
  }

  /** The socket connect event: join the channel, and wake the wallet unless connected. */
  function OnSocketConnect(c: Context, s: Session): Session {
    var joined := s.(log := s.log + [JoinChannel(c.channelId)]);
    if !s.isConnected then
      joined.(notices := joined.notices
                + [DeeplinkOpened(DeeplinkUrl(c.channelId, c.ops.pubkey(s.keyExchange.keys)))])
    else joined
  }

  /** `resetClient()`. */
  function Reset(c: Context, s: Session): Session {
    s.(isConnected := false, keyExchange := Restart(c.ops, s.keyExchange), notices := s.notices + [TornDown])
  }

  /** The client-disconnected event: ignored while the connection is paused. */
  function OnClientDisconnected(c: Context, s: Session): Session {
    if !s.connectionPaused then Reset(c, s) else s
  }

  /** `connect()`. */
  function Connect(s: Session): Session {
    s.(log := s.log + [OpenSocket])
  }

  /** `disconnect()`: only `isConnected` and the channel change. */
  function Disconnect(s: Session): Session {
    s.(isConnected := false, log := s.log + [CloseSocket])
  }

  // ---------------------------------------------------------------------
  // Runs

  /** Everything that can happen to a session: application calls and socket callbacks. */
  datatype Input =
    | AppConnect
    | AppDisconnect
    | AppSend(message: Json, encrypt: bool)
    | AppSetsReadyCallback
    | AppClearsReadyCallback
    | AppSetsDapp(dapp: Option<Dapp>)
    | AppSetsConnected(connected: bool)
    | SocketConnected
    | ClientsConnected
    | MessageReceived(data: seq<Json>)
    | ClientDisconnected

  function Step(c: Context, s: Session, e: Input): Session {
    match e
    case AppConnect => Connect(s)
    case AppDisconnect => Disconnect(s)
    case AppSend(message, encrypt) => Send(c, s, message, encrypt)
    case AppSetsReadyCallback => s.(onClientsReady := Some(AppReady))
    case AppClearsReadyCallback => s.(onClientsReady := None)
    case AppSetsDapp(dapp) => s.(dapp := dapp)
    case AppSetsConnected(connected) => s.(isConnected := connected)
    case SocketConnected => OnSocketConnect(c, s)
    case ClientsConnected => OnClientsConnected(c, s)
    case MessageReceived(data) => OnMessage(c, s, data)
    case ClientDisconnected => OnClientDisconnected(c, s)
  }

  function Run(c: Context, s: Session, events: seq<Input>): Session
    decreases |events|
  {
    if events == [] then s else Run(c, Step(c, s, events[0]), events[1..])
  }
}
