/**
 * What the socket session promises, stated over the functions of
 * `SessionSpec`: every emit is scoped to the channel, the send and dispatch
 * rules, how failures and disconnections are absorbed, and the quirks of the
 * single `onClientsReady` slot.
 */
module SessionProperties {
  import opened Wrappers
  import opened JsonValues
  import opened Handshake
  import opened SessionSpec

  // ---------------------------------------------------------------------
  // Every envelope carries the channel id

  lemma SendScoped(c: Context, s: Session, message: Json, encrypt: bool)
    requires Scoped(c, s)
    ensures Scoped(c, Send(c, s, message, encrypt))
  {
  }

  lemma FireReadyScoped(c: Context, s: Session)
    requires Scoped(c, s)
    ensures Scoped(c, FireReady(s))
  {
  }

  lemma ReceiveEncryptedScoped(c: Context, s: Session, ciphertext: string)
    requires Scoped(c, s)
    ensures Scoped(c, ReceiveEncrypted(c, s, ciphertext))
  {
    match Decrypted(c, s.keyExchange.keys, ciphertext)
    case None =>
    case Some(payload) =>
      match Classify(payload)
      case Ready => FireReadyScoped(c, s.(connectionPaused := false));
      case WalletInfo => FireReadyScoped(c, s.(isConnected := true));
      case _ =>
  }

  lemma HandleMessageScoped(c: Context, s: Session, message: Object)
    requires Scoped(c, s)
    ensures Scoped(c, HandleMessage(c, s, message))
  {
    if s.connectionPaused && c.ops.isHandshakeRestartMessage(message) {
      var restarted := s.(keyExchange := Restart(c.ops, s.keyExchange),
                          isConnected := true, connectionPaused := false);
      if c.ops.decodeHandshake(message).Some? {
        var step := c.ops.nextMessage(restarted.keyExchange, c.ops.decodeHandshake(message).value);
        if step.reply.Some? {
          SendScoped(c, restarted.(keyExchange := step.next), step.reply.value, false);
        }
      }
    } else if c.ops.decodeCiphertext(message).Some? {
      ReceiveEncryptedScoped(c, s, c.ops.decodeCiphertext(message).value);
    }
  }

  lemma ReceiveKeyExchangeScoped(c: Context, s: Session, message: Object)
    requires Scoped(c, s)
    ensures Scoped(c, ReceiveKeyExchange(c, s, message))
  {
    if c.ops.decodeHandshake(message).Some? {
      var step := c.ops.nextMessage(s.keyExchange, c.ops.decodeHandshake(message).value);
      var stepped := s.(keyExchange := step.next);
      if step.reply.Some? {
        SendScoped(c, stepped, step.reply.value, false);
        var replied := Send(c, stepped, step.reply.value, false);
        SendScoped(c, replied, OriginatorInfo(replied.dapp), true);
      }
    }
  }

  lemma StepScoped(c: Context, s: Session, e: Input)
    requires Scoped(c, s)
    ensures Scoped(c, Step(c, s, e))
  {
    match e
    case AppSend(message, encrypt) => SendScoped(c, s, message, encrypt);
    case ClientsConnected => SendScoped(c, s, c.ops.synMessage(s.keyExchange.keys), false);
    case MessageReceived(data) =>
      if |data| > 0 && data[0].JObject? {
        if !s.keyExchange.keysExchanged {
          ReceiveKeyExchangeScoped(c, s, data[0].fields);
        } else {
          HandleMessageScoped(c, s, data[0].fields);
        }
      }
    case _ =>
  }

  /** Whatever happens, every channel operation names the session's own channel id. */
  lemma {:induction false} RunScoped(c: Context, s: Session, events: seq<Input>)
    requires Scoped(c, s)
    ensures Scoped(c, Run(c, s, events))
    decreases |events|
  {
    if events != [] {
      StepScoped(c, s, events[0]);
      RunScoped(c, Step(c, s, events[0]), events[1..]);
    }
  }

  /** A fresh session is scoped, so every session reachable from it is. */
  lemma ReachableScoped(c: Context, keys: Keys, events: seq<Input>)
    ensures var t := Run(c, Initial(keys), events);
      forall i :: 0 <= i < |t.log| ==> OnChannel(t.log[i], c.channelId)
  {
    RunScoped(c, Initial(keys), events);
  }

  // ---------------------------------------------------------------------
  // Sending

  /** Before the handshake completes, an encrypted send emits nothing and changes nothing. */
  lemma EncryptedSendBeforeHandshakeDropped(c: Context, s: Session, message: Json)
    requires !s.keyExchange.keysExchanged
    ensures Send(c, s, message, true) == s
  {
  }

  /** While paused, an encrypted send emits nothing now and overwrites the ready slot. */
  lemma PausedSendDefers(c: Context, s: Session, message: Json)
    requires s.keyExchange.keysExchanged && s.connectionPaused
    requires c.ops.encrypt(s.keyExchange.keys, message).Some?
    ensures var ciphertext := c.ops.encrypt(s.keyExchange.keys, message).value;
      Send(c, s, message, true)
        == s.(onClientsReady := Some(SendDeferred(Envelope(c.channelId, Cipher(ciphertext)))))
  {
  }

  /** Not paused, the same send emits at once and leaves the slot alone. */
  lemma UnpausedSendEmits(c: Context, s: Session, message: Json)
    requires s.keyExchange.keysExchanged && !s.connectionPaused
    requires c.ops.encrypt(s.keyExchange.keys, message).Some?
    ensures var ciphertext := c.ops.encrypt(s.keyExchange.keys, message).value;
      Send(c, s, message, true) == s.(log := s.log + [Emit(Envelope(c.channelId, Cipher(ciphertext)))])
  {
  }

  /** An unencrypted send always emits at once, paused or not. */
  lemma PlainSendEmits(c: Context, s: Session, message: Json)
    ensures Send(c, s, message, false) == s.(log := s.log + [Emit(Envelope(c.channelId, Plain(message)))])
  {
  }

  /** A failing encryption is logged and changes nothing. */
  lemma FailedEncryptionDropped(c: Context, s: Session, message: Json)
    requires c.ops.encrypt(s.keyExchange.keys, message).None?
    ensures Send(c, s, message, true) == s
  {
  }

  /**
   * Two encrypted sends while paused, then a ready payload: only the second
   * message reaches the channel, and the application's own ready callback,
   * overwritten by the first deferral, is not called.
   */
  lemma LastDeferredSendWins(c: Context, s: Session, first: Json, second: Json, ready: string)
    requires s.keyExchange.keysExchanged && s.connectionPaused
    requires c.ops.encrypt(s.keyExchange.keys, first).Some?
    requires c.ops.encrypt(s.keyExchange.keys, second).Some?
    requires Decrypted(c, s.keyExchange.keys, ready).Some?
    requires Classify(Decrypted(c, s.keyExchange.keys, ready).value).Ready?
    ensures var t := ReceiveEncrypted(c, Send(c, Send(c, s, first, true), second, true), ready);
      var ciphertext := c.ops.encrypt(s.keyExchange.keys, second).value;
      t.log == s.log + [Emit(Envelope(c.channelId, Cipher(ciphertext)))]
      && t.notices == s.notices
      && !t.connectionPaused
  {
    var once := Send(c, s, first, true);
    PausedSendDefers(c, s, first);
    PausedSendDefers(c, once, second);
  }

  /** Firing the ready slot never clears it. */
  lemma FireReadyKeepsSlot(s: Session)
    ensures FireReady(s).onClientsReady == s.onClientsReady
    ensures FireReady(s).isConnected == s.isConnected
    ensures FireReady(s).connectionPaused == s.connectionPaused
    ensures FireReady(s).keyExchange == s.keyExchange
  {
  }

  /** A deferred envelope is emitted again by every later ready payload. */
  lemma DeferredSendRepeats(c: Context, s: Session, envelope: Envelope, ready: string)
    requires s.onClientsReady == Some(SendDeferred(envelope))
    requires Decrypted(c, s.keyExchange.keys, ready).Some?
    requires Classify(Decrypted(c, s.keyExchange.keys, ready).value).Ready?
    ensures var twice := ReceiveEncrypted(c, ReceiveEncrypted(c, s, ready), ready);
      twice.log == s.log + [Emit(envelope), Emit(envelope)]
      && twice.onClientsReady == s.onClientsReady
  {
    var once := ReceiveEncrypted(c, s, ready);
    assert once.keyExchange == s.keyExchange;
    assert once.log == s.log + [Emit(envelope)];
  }

  /**
   * The ciphertext of a deferred send is fixed when the send is made: after a
   * handshake restart the slot still holds the envelope encrypted under the
   * keys of the previous handshake.
   */
  lemma StaleCiphertextAfterRestart(c: Context, s: Session, message: Json, restart: Object)
    requires s.keyExchange.keysExchanged && s.connectionPaused
    requires c.ops.encrypt(s.keyExchange.keys, message).Some?
    requires c.ops.isHandshakeRestartMessage(restart)
    ensures var ciphertext := c.ops.encrypt(s.keyExchange.keys, message).value;
      var t := HandleMessage(c, Send(c, s, message, true), restart);
      t.onClientsReady == Some(SendDeferred(Envelope(c.channelId, Cipher(ciphertext))))
      && t.isConnected && !t.connectionPaused
  {
    PausedSendDefers(c, s, message);
  }

  // ---------------------------------------------------------------------
  // Dispatch of decrypted payloads

  lemma PauseDispatch(c: Context, s: Session, ciphertext: string)
    requires Decrypted(c, s.keyExchange.keys, ciphertext).Some?
    requires HasType(Decrypted(c, s.keyExchange.keys, ciphertext).value, "pause")
    ensures ReceiveEncrypted(c, s, ciphertext) == s.(connectionPaused := true)
  {
  }

  /** `ready` clears the pause, keeps `isConnected`, fires the slot and keeps it. */
  lemma ReadyDispatch(c: Context, s: Session, ciphertext: string)
    requires Decrypted(c, s.keyExchange.keys, ciphertext).Some?
    requires HasType(Decrypted(c, s.keyExchange.keys, ciphertext).value, "ready")
    ensures var t := ReceiveEncrypted(c, s, ciphertext);
      !t.connectionPaused && t.isConnected == s.isConnected
      && t.onClientsReady == s.onClientsReady && t.keyExchange == s.keyExchange
      && (s.onClientsReady == Some(AppReady) ==> t.notices == s.notices + [ReadyCalled(false)])
      && t == FireReady(s.(connectionPaused := false))
  {
  }

  /** `wallet_info` marks the session connected and fires the slot before the pause is cleared. */
  lemma WalletInfoDispatch(c: Context, s: Session, ciphertext: string)
    requires Decrypted(c, s.keyExchange.keys, ciphertext).Some?
    requires HasType(Decrypted(c, s.keyExchange.keys, ciphertext).value, "wallet_info")
    ensures var t := ReceiveEncrypted(c, s, ciphertext);
      t.isConnected && !t.connectionPaused
      && t.onClientsReady == s.onClientsReady && t.keyExchange == s.keyExchange
      && (s.onClientsReady == Some(AppReady) ==>
            t.notices == s.notices + [ReadyCalled(s.connectionPaused)])
      && t == FireReady(s.(isConnected := true)).(connectionPaused := false)
  {
  }

  /**
   * Unless its `type` is `pause`, `ready` or `wallet_info`, a payload with a
   * `data` dictionary is a response when that holds a string `id`, and an
   * event when not; any other `type` is no obstacle.
   */
  lemma DataDispatch(c: Context, s: Session, ciphertext: string, data: Object)
    requires Decrypted(c, s.keyExchange.keys, ciphertext).Some?
    requires var payload := Decrypted(c, s.keyExchange.keys, ciphertext).value;
      !HasType(payload, "pause") && !HasType(payload, "ready") && !HasType(payload, "wallet_info")
      && payload.JObject? && "data" in payload.fields
      && payload.fields["data"] == JObject(data)
    ensures var t := ReceiveEncrypted(c, s, ciphertext);
      if "id" in data && data["id"].JString? then
        t == s.(notices := s.notices + [ResponseReceived(data["id"].s, data)])
      else
        t == s.(notices := s.notices + [EventReceived(data)])
  {
  }

  /**
   * Nothing fires for a payload whose `type` is none of `pause`, `ready` and
   * `wallet_info` and which holds no `data` dictionary: a non-dictionary, an
   * unknown type without data, or a `data` entry of another kind.
   */
  lemma IgnoredPayloadChangesNothing(c: Context, s: Session, ciphertext: string)
    requires Decrypted(c, s.keyExchange.keys, ciphertext).Some?
    requires var payload := Decrypted(c, s.keyExchange.keys, ciphertext).value;
      !HasType(payload, "pause") && !HasType(payload, "ready") && !HasType(payload, "wallet_info")
      && !(payload.JObject? && "data" in payload.fields && payload.fields["data"].JObject?)
    ensures ReceiveEncrypted(c, s, ciphertext) == s
  {
  }

  /** A payload that cannot be decrypted or parsed is logged and changes nothing. */
  lemma UndecryptableChangesNothing(c: Context, s: Session, ciphertext: string)
    requires c.ops.decrypt(s.keyExchange.keys, ciphertext).None?
      || c.ops.parse(c.ops.decrypt(s.keyExchange.keys, ciphertext).value).None?
    ensures ReceiveEncrypted(c, s, ciphertext) == s
  {
  }

  /** A message that is not a restart and does not decode as an envelope is logged and changes nothing. */
  lemma UndecodableChangesNothing(c: Context, s: Session, message: Object)
    requires !(s.connectionPaused && c.ops.isHandshakeRestartMessage(message))
    requires c.ops.decodeCiphertext(message).None?
    ensures HandleMessage(c, s, message) == s
  {
  }

  // ---------------------------------------------------------------------
  // Disconnections

  /** A peer disconnect while not paused tears the session down and restarts the key exchange. */
  lemma PeerDisconnectResets(c: Context, s: Session)
    requires !s.connectionPaused
    ensures var t := OnClientDisconnected(c, s);
      !t.isConnected && !t.keyExchange.keysExchanged && !t.connectionPaused
      && t.log == s.log && t.onClientsReady == s.onClientsReady
      && t.notices == s.notices + [TornDown]
  {
  }

  lemma PeerDisconnectWhilePausedIgnored(c: Context, s: Session)
    requires s.connectionPaused
    ensures OnClientDisconnected(c, s) == s
  {
  }

  /** `disconnect()` clears only `isConnected`: the handshake and the pause survive. */
  lemma AppDisconnectKeepsHandshake(s: Session)
    ensures var t := Disconnect(s);
      !t.isConnected && t.keyExchange == s.keyExchange && t.connectionPaused == s.connectionPaused
      && t.onClientsReady == s.onClientsReady && t.log == s.log + [CloseSocket]
  {
  }

  // ---------------------------------------------------------------------
  // Handshake progress

  /** Peers joining starts the handshake with a plaintext `syn` exactly when keys are not yet exchanged. */
  lemma ClientsConnectedSendsSyn(c: Context, s: Session)
    ensures var t := OnClientsConnected(c, s);
      if s.keyExchange.keysExchanged then t == s
      else t == s.(log := s.log + [Emit(Envelope(c.channelId, Plain(c.ops.synMessage(s.keyExchange.keys))))])
  {
  }

  /** An incoming dictionary goes to the key exchange if and only if keys are not yet exchanged. */
  lemma MessageRouting(c: Context, s: Session, message: Object, rest: seq<Json>)
    ensures OnMessage(c, s, [JObject(message)] + rest)
      == if !s.keyExchange.keysExchanged then ReceiveKeyExchange(c, s, message)
         else HandleMessage(c, s, message)
  {
  }

  /** Items that are not dictionaries are dropped. */
  lemma NonObjectMessageIgnored(c: Context, s: Session, data: seq<Json>)
    requires |data| == 0 || !data[0].JObject?
    ensures OnMessage(c, s, data) == s
  {
  }

  /** A handshake message without a next message sends nothing. */
  lemma NoReplyNoSend(c: Context, s: Session, message: Object)
    requires c.ops.decodeHandshake(message).Some?
    requires c.ops.nextMessage(s.keyExchange, c.ops.decodeHandshake(message).value).reply.None?
    ensures var t := ReceiveKeyExchange(c, s, message);
      t.log == s.log && t.onClientsReady == s.onClientsReady && t.notices == s.notices
  {
  }

  /**
   * The reply goes out first, in plaintext; anything more is sent only when
   * the key exchange then reports its keys exchanged.
   */
  lemma OriginatorInfoAfterReply(c: Context, s: Session, message: Object)
    requires c.ops.decodeHandshake(message).Some?
    ensures var step := c.ops.nextMessage(s.keyExchange, c.ops.decodeHandshake(message).value);
      var t := ReceiveKeyExchange(c, s, message);
      t.keyExchange == step.next
      && (step.reply.None? ==> t.log == s.log)
      && (step.reply.Some? ==>
            |t.log| >= |s.log| + 1
            && t.log[..|s.log| + 1] == s.log + [Emit(Envelope(c.channelId, Plain(step.reply.value)))])
      && (|t.log| > |s.log| + 1 || t.onClientsReady != s.onClientsReady ==>
            step.reply.Some? && step.next.keysExchanged)
  {
    var step := c.ops.nextMessage(s.keyExchange, c.ops.decodeHandshake(message).value);
    if step.reply.Some? {
      var replied := Send(c, s.(keyExchange := step.next), step.reply.value, false);
      assert replied.log == s.log + [Emit(Envelope(c.channelId, Plain(step.reply.value)))];
      var t := ReceiveKeyExchange(c, s, message);
      assert t.log[..|s.log| + 1] == replied.log;
    }
  }

  /**
   * Once the reply leaves the keys exchanged, the originator info follows it
   * encrypted under the new keys: emitted straight after the reply, or left
   * in the ready slot while the wallet is paused.
   */
  lemma OriginatorInfoSentWhenKeysExchanged(c: Context, s: Session, message: Object)
    requires c.ops.decodeHandshake(message).Some?
    requires var step := c.ops.nextMessage(s.keyExchange, c.ops.decodeHandshake(message).value);
      step.reply.Some? && step.next.keysExchanged
      && c.ops.encrypt(step.next.keys, OriginatorInfo(s.dapp)).Some?
    ensures var step := c.ops.nextMessage(s.keyExchange, c.ops.decodeHandshake(message).value);
      var t := ReceiveKeyExchange(c, s, message);
      var reply := Emit(Envelope(c.channelId, Plain(step.reply.value)));
      var info := Envelope(c.channelId, Cipher(c.ops.encrypt(step.next.keys, OriginatorInfo(s.dapp)).value));
      if s.connectionPaused then
        t.log == s.log + [reply] && t.onClientsReady == Some(SendDeferred(info))
      else
        t.log == s.log + [reply, Emit(info)] && t.onClientsReady == s.onClientsReady
  {
  }

  /** A restart message while paused restarts the key exchange and reconnects; the reply is plaintext. */
  lemma HandshakeRestartWhilePaused(c: Context, s: Session, message: Object)
    requires s.connectionPaused && c.ops.isHandshakeRestartMessage(message)
    ensures var t := HandleMessage(c, s, message);
      var restarted := Restart(c.ops, s.keyExchange);
      t.isConnected && !t.connectionPaused
      && t.onClientsReady == s.onClientsReady && t.notices == s.notices
      && (c.ops.decodeHandshake(message).None? ==> t.keyExchange == restarted && t.log == s.log)
      && (c.ops.decodeHandshake(message).Some? ==>
            var step := c.ops.nextMessage(restarted, c.ops.decodeHandshake(message).value);
            t.keyExchange == step.next
            && t.log == s.log + (if step.reply.Some? then [Emit(Envelope(c.channelId, Plain(step.reply.value)))] else []))
  {
  }

  /** Socket connect always joins the channel, and opens the deep link only when not connected. */
  lemma SocketConnectJoins(c: Context, s: Session)
    ensures var t := OnSocketConnect(c, s);
      t.log == s.log + [JoinChannel(c.channelId)]
      && t.isConnected == s.isConnected && t.connectionPaused == s.connectionPaused
      && t.notices == s.notices
           + (if s.isConnected then []
              else [DeeplinkOpened(DeeplinkUrl(c.channelId, c.ops.pubkey(s.keyExchange.keys)))])
  {
  }

  // ---------------------------------------------------------------------
  // The deep link

  lemma {:induction false} IndexOfAfter(a: string, b: string, ch: char)
    requires ch !in a && |b| > 0 && b[0] == ch
    ensures IndexOf(a + b, ch) == |a|
  {
    if a != [] {
      assert (a + b)[1..] == a[1..] + b;
      IndexOfAfter(a[1..], b, ch);
    }
  }

  /** A channel id without `&` (a UUID string) and the public key are read back from the link. */
  lemma DeeplinkRoundTrip(channelId: string, pubkey: string)
    requires '&' !in channelId
    ensures ParseDeeplink(DeeplinkUrl(channelId, pubkey)) == Some((channelId, pubkey))
  {
    var url := DeeplinkUrl(channelId, pubkey);
    var marker := COMM_PARAM + PUBKEY_PARAM;
    assert url == DEEPLINK_PREFIX + (channelId + (marker + pubkey));
    var query := url[|DEEPLINK_PREFIX|..];
    assert query == channelId + (marker + pubkey);
    IndexOfAfter(channelId, marker + pubkey, '&');
  }

  /** Every link that parses is exactly the link built from what it parses to. */
  lemma DeeplinkParsesOnlyCanonical(url: string, channelId: string, pubkey: string)
    requires ParseDeeplink(url) == Some((channelId, pubkey))
    ensures '&' !in channelId && DeeplinkUrl(channelId, pubkey) == url
  {
    var query := url[|DEEPLINK_PREFIX|..];
    var i := IndexOf(query, '&');
    var rest := query[i..];
    var marker := COMM_PARAM + PUBKEY_PARAM;
    assert channelId == query[..i];
    assert rest == marker + pubkey;
    assert query == query[..i] + rest;
    assert url == DEEPLINK_PREFIX + query;
  }
}
