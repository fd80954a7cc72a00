/**
 Bytes, authenticated encryption with a nonce derived from the content, and the envelope
 around encrypted files (src/crypto.ts:20-30, 128-143, 235-269, 401-406).
 */
module Sealing {
  import opened Content

  type Byte = b: int | 0 <= b < 256

  type Data = seq<Byte>

  /** A key, as what can be done with it: the HMAC that gives the nonce, and AES-GCM both ways. */
  datatype Aead = Aead(mac: Data -> Data, lock: (Data, Data) -> Data, unlock: (Data, Data) -> Option<Data>)

  const NONCE := 12
  const TAG := 16

  ghost predicate Works(k: Aead) {
    && (forall d :: |k.mac(d)| >= NONCE)
    && (forall n, d :: |k.lock(n, d)| == |d| + TAG && k.unlock(n, k.lock(n, d)) == Some(d))
    && (forall n, c :: k.unlock(n, c).Some? ==> k.lock(n, k.unlock(n, c).value) == c)
  }

  /** Nonce and ciphertext; the same content is always sealed to the same bytes. */
  function SealData(k: Aead, d: Data): (sealed: Data)
    requires Works(k)
    ensures |sealed| == NONCE + |d| + TAG
  {
    var nonce := k.mac(d)[..NONCE];
    nonce + k.lock(nonce, d)
  }

  function OpenData(k: Aead, sealed: Data): Option<Data> {
    if |sealed| < NONCE + TAG then None else k.unlock(sealed[..NONCE], sealed[NONCE..])
  }

  lemma SealedOpens(k: Aead, d: Data)
    requires Works(k)
    ensures OpenData(k, SealData(k, d)) == Some(d)
  {
    var nonce := k.mac(d)[..NONCE];
    assert SealData(k, d)[..NONCE] == nonce && SealData(k, d)[NONCE..] == k.lock(nonce, d);
  }

  // ---- the envelope ---------------------------------------------------------------

  /** "LSE" and a format version. */
  const MAGIC: Data := [0x4c, 0x53, 0x45, 0x01]

  function Encrypt(k: Aead, d: Data): Data
    requires Works(k)
  {
    MAGIC + SealData(k, d)
  }

  predicate IsEnvelope(d: Data) {
    |d| >= |MAGIC| + NONCE + TAG && d[..|MAGIC|] == MAGIC
  }

  /** Bytes that are no envelope stand for themselves; an envelope that does not open stands for nothing. */
  function Decrypt(k: Aead, d: Data): Option<Data> {
    if !IsEnvelope(d) then Some(d) else OpenData(k, d[|MAGIC|..])
  }

  /** Encrypting and decrypting gives the content back, whatever it looks like, at a fixed overhead. */
  lemma EnvelopeOpens(k: Aead, d: Data)
    requires Works(k)
    ensures IsEnvelope(Encrypt(k, d)) && Decrypt(k, Encrypt(k, d)) == Some(d)
    ensures |Encrypt(k, d)| == |d| + ENVELOPE_OVERHEAD
  {
    SealedOpens(k, d);
    assert Encrypt(k, d)[..|MAGIC|] == MAGIC && Encrypt(k, d)[|MAGIC|..] == SealData(k, d);
  }

  /** Twelve bytes of the content's own HMAC, and the content locked under them; an envelope has four bytes before. */
  lemma SealsAs(k: Aead, d: Data)
    requires Works(k)
    ensures SealData(k, d) == k.mac(d)[..12] + k.lock(k.mac(d)[..12], d)
    ensures Encrypt(k, d) == [0x4c, 0x53, 0x45, 0x01] + k.mac(d)[..12] + k.lock(k.mac(d)[..12], d)
  {
    assert Encrypt(k, d) == [0x4c, 0x53, 0x45, 0x01] + (k.mac(d)[..12] + k.lock(k.mac(d)[..12], d));
  }

  /** Two contents with the same envelope are the same: hashes of envelopes compare contents. */
  lemma EnvelopesDiffer(k: Aead, d: Data, e: Data)
    requires Works(k)
    ensures Encrypt(k, d) == Encrypt(k, e) <==> d == e
  {
    EnvelopeOpens(k, d);
    EnvelopeOpens(k, e);
  }

  /** Readable bytes come through a decryption unchanged exactly when they do not look like an envelope. */
  lemma PassesThroughExactly(k: Aead, d: Data)
    requires Works(k)
    ensures Decrypt(k, d) == Some(d) <==> !(|d| >= 32 && d[..4] == [0x4c, 0x53, 0x45, 0x01])
  {
    if IsEnvelope(d) && OpenData(k, d[|MAGIC|..]).Some? {
      var sealed := d[|MAGIC|..];
      var plain := OpenData(k, sealed).value;
      assert k.lock(sealed[..NONCE], plain) == sealed[NONCE..];
      assert |plain| + TAG == |sealed[NONCE..]|;
    }
  }

  /** A readable file of 32 bytes that begins like an envelope does not come through. */
  lemma LooksSealed(k: Aead)
    requires Works(k)
    ensures var d := MAGIC + seq(NONCE + TAG, _ => 0 as Byte); |d| == 32 && Decrypt(k, d) != Some(d)
  {
    var d := MAGIC + seq(NONCE + TAG, _ => 0 as Byte);
    assert d[..|MAGIC|] == MAGIC;
    PassesThroughExactly(k, d);
    hide Decrypt;
  }
}
