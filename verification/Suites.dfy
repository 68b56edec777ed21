/**
The cryptographic primitives, as a record of uninterpreted functions over abstract key types.
A theorem about every lawful suite holds of the byte-level primitives the program links
against and of the free-term primitives used for symbolic secrecy.
*/
module Suites {
  import opened Prelude

  datatype Suite<!Sec, !Pub, !Key, !Box> = Suite(
    pub: Sec -> Pub,                                  // X25519 public key of a secret
    dh: (Sec, Pub) -> Key,                            // X25519 shared output
    kdfRk: (Key, Key) -> (Key, Key),                  // root KDF: (new root, chain)
    kdfCk: Key -> (Key, Key),                         // chain KDF: (next chain, message key)
    seal: (Key, Bytes, Pub, Bytes) -> Option<Box>,    // AEAD: key, nonce, associated data, plaintext
    open: (Key, Bytes, Pub, Box) -> Option<Bytes>     // AEAD: key, nonce, associated data, box
  )

  /**
  DH agreement (section 6.1 of RFC 7748), and an AEAD that opens what it sealed under the same
  key, nonce and associated data (section 2.8 of RFC 8439).
  */
  ghost predicate Lawful<Sec(!new), Pub(!new), Key(!new), Box(!new)>(s: Suite<Sec, Pub, Key, Box>) {
    && (forall a: Sec, b: Sec :: s.dh(a, s.pub(b)) == s.dh(b, s.pub(a)))
    && (forall k: Key, n: Bytes, p: Pub, m: Bytes ::
          s.seal(k, n, p, m).Some? ==> s.open(k, n, p, s.seal(k, n, p, m).value) == Some(m))
  }
}
