/** The credential envelope of utils/crypto.js: AES-256-GCM output framed as
    iv (12 bytes) ‖ authentication tag (16 bytes) ‖ ciphertext. The cipher itself is a parameter. */
module Envelope {
  import opened Common

  const IV_LEN: nat := 12
  const TAG_LEN: nat := 16

  /** An authenticated cipher under the single process key (the SHA-256 digest of the configured
      secret). `seal(iv, plaintext)` gives `(ciphertext, tag)`; `open(iv, tag, ciphertext)` gives
      the plaintext, or nothing when authentication fails. */
  datatype Cipher = Cipher(
    seal: (Bytes, Bytes) -> (Bytes, Bytes),
    open: (Bytes, Bytes, Bytes) -> Option<Bytes>)

  /** What GCM promises: a 16-byte tag, and opening what was sealed under a 12-byte IV gives the
      plaintext back. */
  ghost predicate Authenticated(c: Cipher) {
    forall iv: Bytes, p: Bytes {:trigger c.seal(iv, p)} :: |iv| == IV_LEN ==>
      |c.seal(iv, p).1| == TAG_LEN && c.open(iv, c.seal(iv, p).1, c.seal(iv, p).0) == Some(p)
  }

  /** The three parts of an envelope. */
  datatype Parts = Parts(iv: Bytes, tag: Bytes, data: Bytes)

  /** `Buffer.concat([iv, tag, enc])`. */
  function Frame(p: Parts): Bytes {
    p.iv + p.tag + p.data
  }

  /** The `subarray` slicing of `decrypt`: bytes [0,12), [12,28) and [28..), each clamped to the
      buffer's length as `subarray` does. */
  function Unframe(buf: Bytes): (p: Parts)
    ensures Frame(p) == buf
    ensures |buf| >= IV_LEN + TAG_LEN ==> |p.iv| == IV_LEN && |p.tag| == TAG_LEN
    ensures |buf| < IV_LEN + TAG_LEN ==> p.data == []
  {
    var a := if |buf| < IV_LEN then |buf| else IV_LEN;
    var b := if |buf| < IV_LEN + TAG_LEN then |buf| else IV_LEN + TAG_LEN;
    assert buf == buf[..a] + buf[a..b] + buf[b..];
    Parts(buf[..a], buf[a..b], buf[b..])
  }

  /** Splitting a frame built from a 12-byte IV and a 16-byte tag recovers the three parts. */
  lemma FramingRoundTrip(p: Parts)
    requires |p.iv| == IV_LEN && |p.tag| == TAG_LEN
    ensures Unframe(Frame(p)) == p
  {
    var buf := Frame(p);
    assert buf[..IV_LEN] == p.iv;
    assert buf[IV_LEN..IV_LEN + TAG_LEN] == p.tag;
    assert buf[IV_LEN + TAG_LEN..] == p.data;
  }

  /** `encrypt(text)` before base64: `iv` is the fresh `crypto.randomBytes(12)` of this call. */
  function Encrypt(c: Cipher, iv: Bytes, plaintext: Bytes): (r: Bytes)
    requires |iv| == IV_LEN
    ensures |r| >= IV_LEN && r[..IV_LEN] == iv
    ensures Authenticated(c) ==> |r| == IV_LEN + TAG_LEN + |c.seal(iv, plaintext).0|
  {
    var (enc, tag) := c.seal(iv, plaintext);
    Frame(Parts(iv, tag, enc))
  }

  /** `decrypt(payload)` after base64: nothing when GCM authentication fails (`final()` throws). */
  function Decrypt(c: Cipher, buf: Bytes): Option<Bytes> {
    var p := Unframe(buf);
    c.open(p.iv, p.tag, p.data)
  }

  /** Under the single process key, decrypting an encrypted payload gives the plaintext back. */
  lemma DecryptEncrypt(c: Cipher, iv: Bytes, plaintext: Bytes)
    requires Authenticated(c) && |iv| == IV_LEN
    ensures Decrypt(c, Encrypt(c, iv, plaintext)) == Some(plaintext)
  {
    var (enc, tag) := c.seal(iv, plaintext);
    assert |tag| == TAG_LEN && c.open(iv, tag, enc) == Some(plaintext);
    FramingRoundTrip(Parts(iv, tag, enc));
  }

  /** Two encryptions with different IVs never produce the same envelope, so a fresh IV per call
      makes every stored credential distinct. */
  lemma DistinctIvDistinctEnvelope(c: Cipher, iv1: Bytes, iv2: Bytes, p1: Bytes, p2: Bytes)
    requires |iv1| == IV_LEN && |iv2| == IV_LEN && iv1 != iv2
    ensures Encrypt(c, iv1, p1) != Encrypt(c, iv2, p2)
  {
    assert Encrypt(c, iv1, p1)[..IV_LEN] == iv1;
    assert Encrypt(c, iv2, p2)[..IV_LEN] == iv2;
  }
}
