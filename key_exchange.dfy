/**
 * The key exchange the socket client drives. `KeyExchange` and the message
 * codecs are not part of this model: their state is reduced to the flag the
 * client reads (`keysExchanged`) and an opaque token for the key material,
 * and every operation is a function value that the lemmas quantify over.
 */
module Handshake {
  import opened Wrappers
  import opened JsonValues

  /** The local key pair and the peer's public key, kept opaque. */
  datatype Keys = Keys(token: nat)

  datatype KeyExchange = KeyExchange(keysExchanged: bool, keys: Keys)

  /** The result of `nextMessage`: the key exchange afterwards and the reply to send, if any. */
  datatype NextStep = NextStep(next: KeyExchange, reply: Option<Json>)

  datatype KeyExchangeOps = KeyExchangeOps(
    // keyExchange.nextMessage(_:), which may update the key exchange
    nextMessage: (KeyExchange, Json) -> NextStep,
    // the new key material restart() leaves behind
    restartKeys: Keys -> Keys,
    // keyExchange.encryptMessage / decryptMessage, which may throw
    encrypt: (Keys, Json) -> Option<string>,
    decrypt: (Keys, string) -> Option<string>,
    // keyExchange.pubkey and keyExchange.message(type: .syn)
    pubkey: Keys -> string,
    synMessage: Keys -> Json,
    // KeyExchange.isHandshakeRestartMessage(_:)
    isHandshakeRestartMessage: Object -> bool,
    // Message<KeyExchangeMessage>.message(from:) and Message<String>.message(from:)
    decodeHandshake: Object -> Option<Json>,
    decodeCiphertext: Object -> Option<string>,
    // JSONSerialization.jsonObject(with:), which may throw
    parse: string -> Option<Json>)

  /** `keyExchange.restart()`: the handshake must be run again. */
  function Restart(ops: KeyExchangeOps, k: KeyExchange): (r: KeyExchange)
    ensures !r.keysExchanged
  {
    KeyExchange(false, ops.restartKeys(k.keys))
  }
}
