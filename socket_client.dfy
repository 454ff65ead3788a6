/**
 * `SocketClient`: the session manager that drives the key exchange over a
 * socket channel, encrypts and decrypts application messages, tracks the
 * connection and pause flags, and defers encrypted sends while the wallet
 * is paused.
 *
 * Each socket callback and each application call is a method that updates
 * the fields in place. What reaches the channel and what reaches the
 * application are recorded in two ghost logs. Every method is proved to
 * take the session exactly as the matching function of `SessionSpec` does,
 * and to keep `Valid()`: everything emitted, and the envelope waiting in the
 * ready slot, carries this client's channel id.
 */
module Communication {
  import opened Wrappers
  import opened JsonValues
  import opened Handshake
  import opened SessionSpec
  import SessionProperties

  class SocketClient {
    /** Fixed at creation (a fresh UUID string in the app); a constant, so never reassigned. */
    const channelId: string
    /** The key exchange's operations and the message codecs. */
    const ops: KeyExchangeOps

    var dapp: Option<Dapp>
    var isConnected: bool
    var connectionPaused: bool
    var keyExchange: KeyExchange
    var onClientsReady: Option<ReadyAction>

    /** What the client has asked of the socket channel, in order. */
    ghost var channelLog: seq<ChannelOp>
    /** What the client has handed to the application, in order. */
    ghost var notices: seq<Notice>

    function Ctx(): Context {
      Context(channelId, ops)
    }

    ghost function State(): Session
      reads this
    {
      Session(dapp, isConnected, connectionPaused, keyExchange, onClientsReady, channelLog, notices)
    }

    ghost predicate Valid()
      reads this
    {
      Scoped(Ctx(), State())
    }

    /** `init(tracker:)`; the channel id and the initial key material are given. */
    constructor (channelId: string, ops: KeyExchangeOps, keys: Keys)
      ensures Valid()
      ensures this.channelId == channelId
      ensures State() == Initial(keys)
    {
      this.channelId := channelId;
      this.ops := ops;
      dapp := None;
      isConnected := false;
      connectionPaused := false;
      keyExchange := KeyExchange(false, keys);
      onClientsReady := None;
      channelLog := [];
      notices := [];
    }

    /** `deeplinkUrl`. */
    function CurrentDeeplinkUrl(): string
      reads this
    {
      DeeplinkUrl(channelId, ops.pubkey(keyExchange.keys))
    }

    /** The application installs its own ready callback. */
    method SetOnClientsReady()
      requires Valid()
      modifies this
      ensures Valid() && State() == Step(Ctx(), old(State()), AppSetsReadyCallback)
    {
      onClientsReady := Some(AppReady);
    }

    /** The application removes the ready callback, or whatever send waits in its place. */
    method ClearOnClientsReady()
      requires Valid()
      modifies this
      ensures Valid() && State() == Step(Ctx(), old(State()), AppClearsReadyCallback)
    {
      onClientsReady := None;
    }

    /** The application sets `isConnected` itself. */
    method SetIsConnected(connected: bool)
      requires Valid()
      modifies this
      ensures Valid() && State() == Step(Ctx(), old(State()), AppSetsConnected(connected))
    {
      isConnected := connected;
    }

    /** The application sets the dapp it presents to the wallet. */
    method SetDapp(d: Option<Dapp>)
      requires Valid()
      modifies this
      ensures Valid() && State() == Step(Ctx(), old(State()), AppSetsDapp(d))
    {
      dapp := d;
    }

    /** `connect()`: the analytics event is not modelled. */
    method Connect()
      requires Valid()
      modifies this
      ensures Valid() && State() == SessionSpec.Connect(old(State()))
    {
      channelLog := channelLog + [OpenSocket];
    }

    /** `disconnect()`. */
    method Disconnect()
      requires Valid()
      modifies this
      ensures Valid() && State() == SessionSpec.Disconnect(old(State()))
    {
      isConnected := false;
      channelLog := channelLog + [CloseSocket];
    }

    /** `resetClient()`. */
    method ResetClient()
      requires Valid()
      modifies this
      ensures Valid() && State() == Reset(Ctx(), old(State()))
    {
      isConnected := false;
      keyExchange := Restart(ops, keyExchange);
      notices := notices + [TornDown];
    }

    /** `sendMessage(_:encrypt:)`. */
    method SendMessage(message: Json, encrypt: bool)
      requires Valid()
      modifies this
      ensures Valid() && State() == Send(Ctx(), old(State()), message, encrypt)
    {
      SessionProperties.SendScoped(Ctx(), State(), message, encrypt);
      if encrypt && !keyExchange.keysExchanged {
        return;
      }
      if encrypt {
        var encrypted := ops.encrypt(keyExchange.keys, message);
        if encrypted.None? {
          return;  // the error is logged
        }
        var envelope := Envelope(channelId, Cipher(encrypted.value));
        if connectionPaused {
          onClientsReady := Some(SendDeferred(envelope));
        } else {
          channelLog := channelLog + [Emit(envelope)];
        }
      } else {
        channelLog := channelLog + [Emit(Envelope(channelId, Plain(message)))];
      }
    }

    /** `sendOriginatorInfo()`. */
    method SendOriginatorInfo()
      requires Valid()
      modifies this
      ensures Valid() && State() == SessionSpec.SendOriginatorInfo(Ctx(), old(State()))
    {
      SendMessage(OriginatorInfo(dapp), true);
    }

    /** `onClientsReady?()`. */
    method CallOnClientsReady()
      requires Valid()
      modifies this
      ensures Valid() && State() == FireReady(old(State()))
    {
      match onClientsReady
      case None =>
      case Some(AppReady) =>
        notices := notices + [ReadyCalled(connectionPaused)];
      case Some(SendDeferred(envelope)) =>
        channelLog := channelLog + [Emit(envelope)];
    }

    /** `handleEncryptedMessage(_:)`; a thrown error is logged by the caller and changes nothing. */
    method HandleEncryptedMessage(ciphertext: string)
      requires Valid()
      modifies this
      ensures Valid() && State() == ReceiveEncrypted(Ctx(), old(State()), ciphertext)
    {
      var text := ops.decrypt(keyExchange.keys, ciphertext);
      if text.None? {
        return;
      }
      var json := ops.parse(text.value);
      if json.None? {
        return;
      }
      match Classify(json.value)
      case Pause =>
        connectionPaused := true;
      case Ready =>
        connectionPaused := false;
        CallOnClientsReady();
      case WalletInfo =>
        isConnected := true;
        CallOnClientsReady();
        connectionPaused := false;
      case Response(id, data) =>
        notices := notices + [ResponseReceived(id, data)];
      case Event(data) =>
        notices := notices + [EventReceived(data)];
      case Ignored =>
    }

    /** `handleMessage(_:)`. */
    method HandleMessage(message: Object)
      requires Valid()
      modifies this
      ensures Valid() && State() == SessionSpec.HandleMessage(Ctx(), old(State()), message)
    {
      if connectionPaused && ops.isHandshakeRestartMessage(message) {
        keyExchange := Restart(ops, keyExchange);
        isConnected := true;
        connectionPaused := false;
        var decoded := ops.decodeHandshake(message);
        if decoded.Some? {
          var step := ops.nextMessage(keyExchange, decoded.value);
          keyExchange := step.next;
          if step.reply.Some? {
            SendMessage(step.reply.value, false);
          }
        }
      } else {
        var ciphertext := ops.decodeCiphertext(message);
        if ciphertext.None? {
          return;  // "Could not handle message"
        }
        HandleEncryptedMessage(ciphertext.value);
      }
    }

    /** `handleReceiveKeyExchange(_:)`. */
    method HandleReceiveKeyExchange(message: Object)
      requires Valid()
      modifies this
      ensures Valid() && State() == ReceiveKeyExchange(Ctx(), old(State()), message)
    {
      var decoded := ops.decodeHandshake(message);
      if decoded.None? {
        return;
      }
      var step := ops.nextMessage(keyExchange, decoded.value);
      keyExchange := step.next;
      if step.reply.None? {
        return;
      }
      SendMessage(step.reply.value, false);
      if keyExchange.keysExchanged {
        SendOriginatorInfo();
      }
    }

    /** The message event on this channel. */
    method OnMessage(data: seq<Json>)
      requires Valid()
      modifies this
      ensures Valid() && State() == SessionSpec.OnMessage(Ctx(), old(State()), data)
    {
      if |data| == 0 || !data[0].JObject? {
        return;
      }
      var message := data[0].fields;
      if !keyExchange.keysExchanged {
        HandleReceiveKeyExchange(message);
      } else {
        HandleMessage(message);
      }
    }

    /** The clients-connected event on this channel. */
    method OnClientsConnected()
      requires Valid()
      modifies this
      ensures Valid() && State() == SessionSpec.OnClientsConnected(Ctx(), old(State()))
    {
      if !keyExchange.keysExchanged {
        var syn := ops.synMessage(keyExchange.keys);
        SendMessage(syn, false);
      }
    }

    /** `deeplinkToMetaMask()`: percent-encoding and the platform call are not modelled. */
    method DeeplinkToMetaMask()
      requires Valid()
      modifies this
      ensures Valid()
      ensures State() == old(State()).(notices := old(notices) + [DeeplinkOpened(old(CurrentDeeplinkUrl()))])
    {
      notices := notices + [DeeplinkOpened(CurrentDeeplinkUrl())];
    }

    /** The socket connect event. */
    method OnSocketConnect()
      requires Valid()
      modifies this
      ensures Valid() && State() == SessionSpec.OnSocketConnect(Ctx(), old(State()))
    {
      channelLog := channelLog + [JoinChannel(channelId)];
      if !isConnected {
        DeeplinkToMetaMask();
      }
    }

    /** The client-disconnected event on this channel. */
    method OnClientDisconnected()
      requires Valid()
      modifies this
      ensures Valid() && State() == SessionSpec.OnClientDisconnected(Ctx(), old(State()))
    {
      if !connectionPaused {
        ResetClient();
      }
    }
  }
}
