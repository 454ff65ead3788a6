# MetaMask iOS SDK: socket session manager and JSON-RPC errors, in Dafny

This project models two parts of the MetaMask iOS SDK.

**The socket session manager, `SocketClient`.** A dapp and the MetaMask
wallet talk over a relay channel named by a channel id. The client:

- joins the channel and wakes the wallet with a deep link;
- runs the key exchange in plaintext until keys are exchanged, then sends the
  originator info encrypted;
- after that, decrypts incoming messages and dispatches them by their `type`:
  `pause`, `ready`, `wallet_info`, a response with an id, or an event;
- defers encrypted sends while the wallet is paused, by overwriting the single
  `onClientsReady` slot;
- reacts to peer disconnections and handshake-restart messages.

The model has three layers:

- `SessionSpec` (session_spec.dfy) states each socket callback and each
  application call as a pure function from session to session.
- `SessionProperties` (session_properties.dfy) proves what the client
  promises about those functions.
- `Communication.SocketClient` (socket_client.dfy) is the imperative class.
  It has the source's fields (`isConnected`, `connectionPaused`, the key
  exchange, the `onClientsReady` slot and a constant `channelId`) and two
  ghost logs: `channelLog` (what is asked of the socket channel) and `notices`
  (what is handed to the application). Each method is proved to move the
  state exactly as the matching spec function does, and to keep `Valid()`:
  every envelope emitted, or waiting in the slot, carries the client's
  channel id.

The key exchange (`KeyExchange`), the `Message<T>` decoders and
`JSONSerialization` are not part of this model. `Handshake` (key_exchange.dfy)
reduces them to a `keysExchanged` flag, opaque key material, and function
values (`nextMessage`, `encrypt`, `decrypt`, `isHandshakeRestartMessage`, the
decoders, the parser). Every lemma holds for all of them.

**JSON-RPC errors, `RequestError`.** `RequestErrors` (request_error.dfy)
decodes `RequestError`, `RequestErrorData` and `ErrorData` from string-keyed
dictionaries (`JsonValues`, json.dfy), with the source's defaults. The
`ErrorType` enumeration is not part of this model. It is given as the
partial map from raw values to cases that `ErrorType(rawValue:)` computes,
plus its `unknownError` case. The encoders Swift synthesises for these
`Codable` records serve as round-trip partners.

The model keeps these behaviours of the code:

- A deferred send is encrypted when `sendMessage` is called
  (`SocketClient.swift:294`), not when it is flushed. After a handshake
  restart it still carries the old ciphertext (`StaleCiphertextAfterRestart`).
- A deferred send is not flushed once. The slot is never cleared, so every
  later `ready` or `wallet_info` emits it again (`DeferredSendRepeats`). It
  also replaces the application's own ready callback (`LastDeferredSendWins`).
- Of the decrypted payloads, `ready` does not set `isConnected` and `wallet_info` does
  (`ReadyDispatch`, `WalletInfoDispatch`). A handshake restart while paused sets it too
  (`HandshakeRestartWhilePaused`).
- `disconnect()` clears only `isConnected`. The key exchange and the pause
  flag survive (`AppDisconnectKeepsHandshake`).

## Model

| member | source | states |
|---|---|---|
| `RequestErrors.DecodeErrorData` | Sources/metamask-ios-sdk/Classes/Ethereum/RequestError.swift:91-94 | `message` and `data` are present exactly when the dictionary holds a string there, and then equal that string |
| `RequestErrors.DecodeRequestErrorData` | Sources/metamask-ios-sdk/Classes/Ethereum/RequestError.swift:77-84 | `message` is the string entry or nil; nested `data` is present exactly when `info["data"]` is a dictionary, and is that dictionary decoded as `ErrorData` |
| `RequestErrors.DecodeRequestError` | Sources/metamask-ios-sdk/Classes/Ethereum/RequestError.swift:15-23 | `code` is `info["code"]` when that is a 64-bit integer, otherwise -1; `data` is present exactly when `info["data"]` is a dictionary, and is then its `RequestErrorData` decoding |
| `RequestErrors.DescriptionFallbackChain` | Sources/metamask-ios-sdk/Classes/Ethereum/RequestError.swift:22-27 | `localizedDescription` is the string `message`, else the message of the code's `ErrorType` case (the code defaulting to -1), else "" |
| `RequestErrors.DescriptionAgreesWithCodeType` | Sources/metamask-ios-sdk/Classes/Ethereum/RequestError.swift:22 | without a string message, the description is the message of `codeType` for a known code and "" for an unknown one |
| `RequestErrors.DecodeIgnoresOtherKeys` | Sources/metamask-ios-sdk/Classes/Ethereum/RequestError.swift:15-23 | decoding reads only the `code`, `message` and `data` entries |
| `RequestErrors.CodeType` | Sources/metamask-ios-sdk/Classes/Ethereum/RequestError.swift:67-71 | the `ErrorType` case of the code when there is one, and `unknownError` when there is none |
| `RequestErrors.ConnectError` | Sources/metamask-ios-sdk/Classes/Ethereum/RequestError.swift:29-34 | code -101, its fixed message, no data, for any `ErrorType` table |
| `RequestErrors.InvalidUrlError` | Sources/metamask-ios-sdk/Classes/Ethereum/RequestError.swift:36-41 | code -101, its fixed message, no data |
| `RequestErrors.InvalidTitleError` | Sources/metamask-ios-sdk/Classes/Ethereum/RequestError.swift:43-48 | code -101, its fixed message, no data |
| `RequestErrors.InvalidBatchRequestError` | Sources/metamask-ios-sdk/Classes/Ethereum/RequestError.swift:50-55 | code -101, its fixed message, no data |
| `RequestErrors.ErrorDataRoundTrip` | Sources/metamask-ios-sdk/Classes/Ethereum/RequestError.swift:87-94 | decoding the `Codable` encoding of an `ErrorData` gives it back |
| `RequestErrors.RequestErrorDataRoundTrip` | Sources/metamask-ios-sdk/Classes/Ethereum/RequestError.swift:73-84 | decoding the encoding of a `RequestErrorData` gives it back |
| `RequestErrors.RequestErrorRoundTrip` | Sources/metamask-ios-sdk/Classes/Ethereum/RequestError.swift:10-23 | decoding the encoding of a `RequestError` whose code fits an `Int` gives it back, whatever the `ErrorType` table |
| `SessionSpec.Outcome` | Sources/metamask-ios-sdk/Classes/Communication/SocketClient.swift:287-320 | a plaintext send is emitted at once; an encrypted send is dropped exactly when keys are not exchanged or encryption fails, deferred exactly when paused, and carries the ciphertext computed at send time under the channel id |
| `SessionSpec.Classify` | Sources/metamask-ios-sdk/Classes/Communication/SocketClient.swift:224-251 | dispatch is pause, ready or wallet_info exactly when `type` is that string; otherwise a `data` dictionary is a response when its `id` is a string and an event when not; anything else, non-dictionaries included, is ignored |
| `SessionProperties.RunScoped` | Sources/metamask-ios-sdk/Classes/Communication/SocketClient.swift:295-318 | along any sequence of events, every channel operation and the deferred envelope name the session's channel id |
| `SessionProperties.ReachableScoped` | Sources/metamask-ios-sdk/Classes/Communication/SocketClient.swift:33 | every session reached from a fresh client has emitted only envelopes and joins for its own channel id |
| `SessionProperties.SendScoped` | Sources/metamask-ios-sdk/Classes/Communication/SocketClient.swift:295-298 | a send keeps every emit scoped to the channel id |
| `SessionProperties.FireReadyScoped` | Sources/metamask-ios-sdk/Classes/Communication/SocketClient.swift:302-305 | firing the ready slot keeps every emit scoped |
| `SessionProperties.ReceiveEncryptedScoped` | Sources/metamask-ios-sdk/Classes/Communication/SocketClient.swift:224-252 | handling a decrypted message keeps every emit scoped |
| `SessionProperties.HandleMessageScoped` | Sources/metamask-ios-sdk/Classes/Communication/SocketClient.swift:197-222 | handling a message after the handshake keeps every emit scoped |
| `SessionProperties.ReceiveKeyExchangeScoped` | Sources/metamask-ios-sdk/Classes/Communication/SocketClient.swift:184-195 | handling a key-exchange message keeps every emit scoped |
| `SessionProperties.StepScoped` | Sources/metamask-ios-sdk/Classes/Communication/SocketClient.swift:98-177 | every socket callback and application call keeps every emit scoped |
| `SessionProperties.EncryptedSendBeforeHandshakeDropped` | Sources/metamask-ios-sdk/Classes/Communication/SocketClient.swift:288-290 | an encrypted send before keys are exchanged emits nothing and changes nothing |
| `SessionProperties.PausedSendDefers` | Sources/metamask-ios-sdk/Classes/Communication/SocketClient.swift:300-305 | an encrypted send while paused emits nothing and overwrites the slot with "emit this envelope" |
| `SessionProperties.UnpausedSendEmits` | Sources/metamask-ios-sdk/Classes/Communication/SocketClient.swift:306-308 | not paused, the encrypted envelope is emitted at once and the slot is untouched |
| `SessionProperties.PlainSendEmits` | Sources/metamask-ios-sdk/Classes/Communication/SocketClient.swift:312-318 | a plaintext send is always emitted at once, paused or not |
| `SessionProperties.FailedEncryptionDropped` | Sources/metamask-ios-sdk/Classes/Communication/SocketClient.swift:293-311 | when encryption throws, nothing is emitted or deferred |
| `SessionProperties.LastDeferredSendWins` | Sources/metamask-ios-sdk/Classes/Communication/SocketClient.swift:300-305 | two paused sends and then `ready` emit only the second envelope, and the application's own ready callback is not called |
| `SessionProperties.FireReadyKeepsSlot` | Sources/metamask-ios-sdk/Classes/Communication/SocketClient.swift:239 | firing the slot leaves the slot, the flags and the key exchange as they were |
| `SessionProperties.DeferredSendRepeats` | Sources/metamask-ios-sdk/Classes/Communication/SocketClient.swift:236-239 | two `ready` payloads emit the deferred envelope twice; the slot stays filled |
| `SessionProperties.StaleCiphertextAfterRestart` | Sources/metamask-ios-sdk/Classes/Communication/SocketClient.swift:198-209 | after a handshake restart the slot still holds the ciphertext made under the previous keys |
| `SessionProperties.PauseDispatch` | Sources/metamask-ios-sdk/Classes/Communication/SocketClient.swift:233-235 | `pause` sets `connectionPaused` and changes nothing else |
| `SessionProperties.ReadyDispatch` | Sources/metamask-ios-sdk/Classes/Communication/SocketClient.swift:236-239 | `ready` clears the pause, leaves `isConnected`, fires the slot and keeps it; the new session is exactly the slot fired on the unpaused session, with the log or the notices untouched as the slot dictates |
| `SessionProperties.WalletInfoDispatch` | Sources/metamask-ios-sdk/Classes/Communication/SocketClient.swift:240-244 | `wallet_info` sets `isConnected` and fires the slot while the pause flag still holds its old value, then clears it; an empty slot adds nothing, and the new session is exactly that sequence of updates |
| `SessionProperties.DataDispatch` | Sources/metamask-ios-sdk/Classes/Communication/SocketClient.swift:245-251 | unless `type` is `pause`, `ready` or `wallet_info` (any other `type` included), a `data` dictionary with a string `id` fires `receiveResponse(id, data)`; without one, `receiveEvent(data)` |
| `SessionProperties.IgnoredPayloadChangesNothing` | Sources/metamask-ios-sdk/Classes/Communication/SocketClient.swift:227-251 | a payload with none of the three known types and no `data` dictionary (a non-dictionary, an unknown type without data, a `data` entry of another kind) changes nothing |
| `SessionProperties.UndecryptableChangesNothing` | Sources/metamask-ios-sdk/Classes/Communication/SocketClient.swift:216-220 | a payload that fails to decrypt or parse changes nothing |
| `SessionProperties.UndecodableChangesNothing` | Sources/metamask-ios-sdk/Classes/Communication/SocketClient.swift:211-214 | a message that is not a paused restart and does not decode as an envelope changes nothing |
| `SessionProperties.PeerDisconnectResets` | Sources/metamask-ios-sdk/Classes/Communication/SocketClient.swift:174-176 | a peer disconnect while not paused clears `isConnected`, restarts the key exchange and calls the tear-down callback |
| `SessionProperties.PeerDisconnectWhilePausedIgnored` | Sources/metamask-ios-sdk/Classes/Communication/SocketClient.swift:174 | a peer disconnect while paused changes nothing |
| `SessionProperties.AppDisconnectKeepsHandshake` | Sources/metamask-ios-sdk/Classes/Communication/SocketClient.swift:78-81 | `disconnect()` clears only `isConnected` and closes the socket; the key exchange and pause flag are untouched |
| `SessionProperties.ClientsConnectedSendsSyn` | Sources/metamask-ios-sdk/Classes/Communication/SocketClient.swift:111-114 | peers joining emit a plaintext `syn` exactly when keys are not exchanged, and otherwise change nothing |
| `SessionProperties.MessageRouting` | Sources/metamask-ios-sdk/Classes/Communication/SocketClient.swift:148-154 | an incoming dictionary goes to key-exchange handling if and only if keys are not exchanged |
| `SessionProperties.NonObjectMessageIgnored` | Sources/metamask-ios-sdk/Classes/Communication/SocketClient.swift:143-146 | an event whose first item is not a dictionary changes nothing |
| `SessionProperties.NoReplyNoSend` | Sources/metamask-ios-sdk/Classes/Communication/SocketClient.swift:185-188 | a key-exchange message with no next message emits and defers nothing |
| `SessionProperties.OriginatorInfoAfterReply` | Sources/metamask-ios-sdk/Classes/Communication/SocketClient.swift:184-195 | the plaintext reply is emitted first, and anything sent after it exists only when a reply was sent and keys are then exchanged |
| `SessionProperties.OriginatorInfoSentWhenKeysExchanged` | Sources/metamask-ios-sdk/Classes/Communication/SocketClient.swift:190-194 | when the reply leaves the keys exchanged, `OriginatorInfo(dapp)` encrypted under the new keys follows the reply on the channel, or waits in the ready slot while paused |
| `SessionProperties.HandshakeRestartWhilePaused` | Sources/metamask-ios-sdk/Classes/Communication/SocketClient.swift:198-209 | a restart message while paused restarts the key exchange, sets `isConnected`, clears the pause, and emits a plaintext reply only when `nextMessage` yields one |
| `SessionProperties.SocketConnectJoins` | Sources/metamask-ios-sdk/Classes/Communication/SocketClient.swift:131-135 | socket connect always emits `joinChannel(channelId)` and opens the deep link exactly when not connected |
| `SessionProperties.IndexOfAfter` | Sources/metamask-ios-sdk/Classes/Communication/SocketClient.swift:48-54 | the first `&` of the link's query is the one after the channel id, when the id has none |
| `SessionSpec.DeeplinkUrl` | Sources/metamask-ios-sdk/Classes/Communication/SocketClient.swift:48-54 | the link is the connect prefix, then the channel id, then `&comm=socket&pubkey=`, then the public key; `DeeplinkRoundTrip` and `DeeplinkParsesOnlyCanonical` show both values are read back and nothing else parses |
| `SessionProperties.DeeplinkRoundTrip` | Sources/metamask-ios-sdk/Classes/Communication/SocketClient.swift:48-54 | the channel id (without `&`, as UUID strings are) and the public key are read back from `deeplinkUrl` |
| `SessionProperties.DeeplinkParsesOnlyCanonical` | Sources/metamask-ios-sdk/Classes/Communication/SocketClient.swift:48-54 | every link that parses is exactly `deeplinkUrl` of what it parses to |
| `Communication.SocketClient.constructor` | Sources/metamask-ios-sdk/Classes/Communication/SocketClient.swift:28-59 | a new client has no dapp, is disconnected, unpaused, without exchanged keys or a ready slot, has emitted nothing, and keeps its channel id |
| `Communication.SocketClient.SetOnClientsReady` | Sources/metamask-ios-sdk/Classes/Communication/SocketClient.swift:41 | the application's callback fills the slot |
| `Communication.SocketClient.ClearOnClientsReady` | Sources/metamask-ios-sdk/Classes/Communication/SocketClient.swift:41 | the application empties the slot, dropping any deferred send in it; nothing else changes |
| `Communication.SocketClient.SetIsConnected` | Sources/metamask-ios-sdk/Classes/Communication/SocketClient.swift:40 | the application sets `isConnected`; nothing else changes, and the session stays on its channel |
| `Communication.SocketClient.SetDapp` | Sources/metamask-ios-sdk/Classes/Communication/SocketClient.swift:28 | the dapp is replaced; nothing else changes |
| `Communication.SocketClient.Connect` | Sources/metamask-ios-sdk/Classes/Communication/SocketClient.swift:73-76 | opens the socket; no flag changes |
| `Communication.SocketClient.Disconnect` | Sources/metamask-ios-sdk/Classes/Communication/SocketClient.swift:78-81 | clears `isConnected` and closes the socket; the key exchange, the pause flag and the slot are unchanged |
| `Communication.SocketClient.ResetClient` | Sources/metamask-ios-sdk/Classes/Communication/SocketClient.swift:67-71 | clears `isConnected`, restarts the key exchange, calls the tear-down callback |
| `Communication.SocketClient.SendMessage` | Sources/metamask-ios-sdk/Classes/Communication/SocketClient.swift:287-320 | emits, defers into the slot or drops the message exactly as `Outcome` decides, changing nothing else, and every emit stays scoped to the channel id |
| `Communication.SocketClient.SendOriginatorInfo` | Sources/metamask-ios-sdk/Classes/Communication/SocketClient.swift:273-285 | an encrypted send of `{type: "originator_info", originator: {title, url}}` |
| `Communication.SocketClient.CallOnClientsReady` | Sources/metamask-ios-sdk/Classes/Communication/SocketClient.swift:239 | runs the slot (application callback or deferred emit) and leaves it filled |
| `Communication.SocketClient.HandleEncryptedMessage` | Sources/metamask-ios-sdk/Classes/Communication/SocketClient.swift:224-252 | the new state is `ReceiveEncrypted` of the old: decrypt, parse, dispatch by `Classify` |
| `Communication.SocketClient.HandleMessage` | Sources/metamask-ios-sdk/Classes/Communication/SocketClient.swift:197-222 | a paused restart re-runs the handshake; otherwise the decoded ciphertext is handled |
| `Communication.SocketClient.HandleReceiveKeyExchange` | Sources/metamask-ios-sdk/Classes/Communication/SocketClient.swift:184-195 | steps the key exchange, emits the reply, then the originator info once keys are exchanged |
| `Communication.SocketClient.OnMessage` | Sources/metamask-ios-sdk/Classes/Communication/SocketClient.swift:142-155 | routes the first dictionary item to the handshake or to decryption |
| `Communication.SocketClient.OnClientsConnected` | Sources/metamask-ios-sdk/Classes/Communication/SocketClient.swift:98-115 | emits `syn` unless keys are exchanged |
| `Communication.SocketClient.DeeplinkToMetaMask` | Sources/metamask-ios-sdk/Classes/Communication/SocketClient.swift:258-267 | opens `deeplinkUrl`; nothing else changes |
| `Communication.SocketClient.OnSocketConnect` | Sources/metamask-ios-sdk/Classes/Communication/SocketClient.swift:119-136 | joins the channel, then wakes the wallet when not connected |
| `Communication.SocketClient.OnClientDisconnected` | Sources/metamask-ios-sdk/Classes/Communication/SocketClient.swift:161-177 | resets the client unless the connection is paused |

## Left out

- Logging, the `NotificationCenter` debug posts, `trackEvent` and `enableTracking`. These are side effects with no protocol meaning; analytics run fire-and-forget in a `Task`.
- The SocketIO transport and the `channel.on` registrations. Only the transitions they trigger and the channel log are modelled. The connection-error handler only logs, so it has no transition. The `[weak self]` guards are not modelled: the client is assumed alive.
- `KeyExchange` is not part of this model: key generation, `nextMessage`, encryption, decryption, restart-message detection and the `pubkey` are function values in `Handshake.KeyExchangeOps`. `restart()` is modelled as clearing `keysExchanged` and replacing the key material.
- `Message<T>.message(from:)` and `JSONSerialization` are not part of this model either. They are function values that may fail (`Option`).
- Application callbacks are recorded in `notices`, not run. The optional `tearDownConnection`, `receiveEvent` and `receiveResponse` are recorded as called, which they are when set. A callback that calls back into the client is not modelled. `ReadyCalled` records the `connectionPaused` value the application callback would see. `onClientsDisconnected` is never called by the client.
- Deep-link opening: percent-encoding, `URL(string:)` and `UIApplication.shared.open` are platform I/O. The model records the unencoded `deeplinkUrl` string and does not model a failing encoding guard.
- JSON numbers are integers only. Fractions, and NSNumber booleans bridging to `Int` through `as? Int`, are not modelled.
- `RequestError.failWithError` is Combine publisher plumbing on the main queue. The `ErrorType` enumeration is not part of this model.
- `LocalizedDescription` has no contract of its own; `DescriptionFallbackChain` states what it returns.
- `Persistence/SecureStore.swift` (a Keychain wrapper) and `crypto/Crypto.swift` (stubs that return "") are not part of this model.
