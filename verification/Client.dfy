/**
The client's session state machine: one one-way ratchet per direction, stored after every message,
with the handshake message on the first frame only.
*/
module Client {
  import opened Prelude
  import opened DoubleRatchet
  import RatchetCodec
  import opened Stepper
  import opened Identity
  import opened Handshake
  import opened PreKeyStore

  type User = nat   // every user has one device, listed in the directory under the user's number

  datatype ClientError = NotProvisioned | NoBundle | BadSecrets | HandshakeFailed(e: HandshakeError)
    | RatchetFailed(r: RatchetError) | NoSession

  datatype OutSession = OutSession(ratchet: Bytes, init: InitMessage, sentInit: bool)
  datatype InSession = InSession(ratchet: Bytes)
  datatype Payload = Payload(from: User, frame: Bytes, init: Option<InitMessage>)
  datatype Decrypted = Decrypted(from: User, text: Bytes)

  /** The random draws one `encrypt` may make. */
  datatype Draws = Draws(ephemeral: Key32, coins: Bytes, ratchetKey: Key32, rotation: Key32)

  /** What a device keeps: its secret blob and the two session maps. */
  datatype Device = Device(secrets: Option<Bytes>, out: map<User, OutSession>, inn: map<User, InSession>)

  // ---------------------------------------------------------------------------
  // The bindings that parse, act and print
  // ---------------------------------------------------------------------------

  function SessionInitiator(lib: Library, secrets: Bytes, bundle: PreKeyBundle, draws: Draws)
    : Result<OutSession, ClientError>
  {
    match Identity.Parse(lib, secrets)
    case Err(_) => Err(BadSecrets)
    case Ok(p) =>
      match InitiatorSession(lib, p.identity, bundle, draws.ephemeral, draws.coins, draws.ratchetKey)
      case Err(e) => Err(HandshakeFailed(e))
      case Ok((ratchet, init)) => Ok(OutSession(RatchetCodec.Print(ratchet), init, false))
  }

  function SessionResponder(lib: Library, secrets: Bytes, init: InitMessage): Result<InSession, ClientError> {
    match Identity.Parse(lib, secrets)
    case Err(_) => Err(BadSecrets)
    case Ok(p) =>
      match ResponderSession(lib, p, init)
      case Err(e) => Err(HandshakeFailed(e))
      case Ok(ratchet) => Ok(InSession(RatchetCodec.Print(ratchet)))
  }

  // ---------------------------------------------------------------------------
  // encrypt and decrypt
  // ---------------------------------------------------------------------------

  /** The session `encrypt` works on: the stored one, or a new one from a freshly fetched bundle. */
  function OutboundSession(lib: Library, store: PreKeys, dev: Device, peer: User, draws: Draws)
    : (PreKeys, Result<OutSession, ClientError>)
  {
    if peer in dev.out then (store, Ok(dev.out[peer]))
    else
      match FetchAndConsume(store, peer)
      case (store1, Err(_)) => (store1, Err(NoBundle))
      case (store1, Ok(bundle)) =>
        if dev.secrets.None? then (store1, Err(NotProvisioned))
        else (store1, SessionInitiator(lib, dev.secrets.value, bundle, draws))
  }

  function ClientEncrypt(lib: Library, store: PreKeys, dev: Device, me: User, peer: User, text: Bytes, draws: Draws)
    : (PreKeys, Device, Result<Payload, ClientError>)
  {
    match OutboundSession(lib, store, dev, peer, draws)
    case (store1, Err(e)) => (store1, dev, Err(e))
    case (store1, Ok(sess)) =>
      match StepEncrypt(lib.ratchet, sess.ratchet, text, draws.rotation)
      case Err(e) => (store1, dev, Err(RatchetFailed(e)))
      case Ok(step) =>
        (store1,
         dev.(out := dev.out[peer := OutSession(step.state, sess.init, true)]),
         Ok(Payload(me, step.data, if sess.sentInit then None else Some(sess.init))))
  }

  function InboundSession(lib: Library, dev: Device, payload: Payload): Result<InSession, ClientError> {
    if payload.from in dev.inn then Ok(dev.inn[payload.from])
    else if payload.init.None? then Err(NoSession)
    else if dev.secrets.None? then Err(NotProvisioned)
    else SessionResponder(lib, dev.secrets.value, payload.init.value)
  }

  function ClientDecrypt(lib: Library, dev: Device, payload: Payload): (Device, Result<Decrypted, ClientError>) {
    match InboundSession(lib, dev, payload)
    case Err(e) => (dev, Err(e))
    case Ok(sess) =>
      match StepDecrypt(lib.ratchet, sess.ratchet, payload.frame)
      case Err(e) => (dev, Err(RatchetFailed(e)))
      case Ok(step) =>
        (dev.(inn := dev.inn[payload.from := InSession(step.state)]), Ok(Decrypted(payload.from, step.data)))
  }

  class ClientSession {
    const lib: Library
    var secrets: Option<Bytes>
    var out: map<User, OutSession>
    var inn: map<User, InSession>

    function View(): Device
      reads this
    {
      Device(secrets, out, inn)
    }

    constructor (lib: Library, secrets: Option<Bytes>)
      ensures this.lib == lib && View() == Device(secrets, map[], map[])
    {
      this.lib := lib;
      this.secrets := secrets;
      out, inn := map[], map[];
    }

    method OpenOutbound(directory: InMemoryPreKeyStore, peer: User, draws: Draws)
      returns (r: Result<OutSession, ClientError>)
      modifies directory
      ensures (directory.inner, r) == OutboundSession(lib, old(directory.inner), View(), peer, draws)
    {
      if peer in out { return Ok(out[peer]); }
      var bundle := directory.Fetch(peer);
      if bundle.Err? { return Err(NoBundle); }
      if secrets.None? { return Err(NotProvisioned); }
      return SessionInitiator(lib, secrets.value, bundle.value, draws);
    }

    method Encrypt(directory: InMemoryPreKeyStore, me: User, peer: User, text: Bytes, draws: Draws)
      returns (r: Result<Payload, ClientError>)
      modifies this, directory
      ensures (directory.inner, View(), r) == ClientEncrypt(lib, old(directory.inner), old(View()), me, peer, text,
              draws)
    {
      var found := OpenOutbound(directory, peer, draws);
      if found.Err? { return Err(found.error); }
      var sess := found.value;
      var step := RatchetEncrypt(lib.ratchet, sess.ratchet, text, draws.rotation);
      if step.Err? { return Err(RatchetFailed(step.error)); }
      sess := sess.(ratchet := step.value.state);
      var includeInit := !sess.sentInit;
      sess := sess.(sentInit := true);
      out := out[peer := sess];
      return Ok(Payload(me, step.value.data, if includeInit then Some(sess.init) else None));
    }

    method Decrypt(payload: Payload) returns (r: Result<Decrypted, ClientError>)
      modifies this
      ensures (View(), r) == ClientDecrypt(lib, old(View()), payload)
    {
      var found := InboundSession(lib, View(), payload);
      if found.Err? { return Err(found.error); }
      var sess := found.value;
      var step := RatchetDecrypt(lib.ratchet, sess.ratchet, payload.frame);
      if step.Err? { return Err(RatchetFailed(step.error)); }
      sess := sess.(ratchet := step.value.state);
      inn := inn[payload.from := sess];
      return Ok(Decrypted(payload.from, step.value.data));
    }
  }
}
