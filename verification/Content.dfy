/**
 File contents, their hashes and their encryption, as far as the protocol can see them.

 A hash is a constructor around the content and a sealed envelope a constructor around
 key and content: SHA-256 without collisions, and deterministic authenticated encryption
 (src/crypto.ts:235-268, src/paths.ts:39-45).
 */
module Content {

  datatype Option<+T> = None | Some(value: T)

  /** Bytes that decode as text, bytes that do not, and envelopes. */
  datatype Bytes =
    | Text(text: string)
    | Binary(data: seq<bv8>)
    | Envelope(key: int, inner: Bytes)

  datatype Hash = Sha256(content: Bytes)

  function Utf8Length(s: string): nat {
    if s == "" then 0
    else
      (if s[0] < '\U{0080}' then 1 else if s[0] < '\U{0800}' then 2 else if s[0] < '\U{10000}' then 3 else 4)
      + Utf8Length(s[1..])
  }

  /** Magic and version, nonce and authentication tag (src/crypto.ts:29-30). */
  const ENVELOPE_OVERHEAD: nat := 4 + 12 + 16

  function Size(b: Bytes): nat {
    match b
    case Text(text) => Utf8Length(text)
    case Binary(data) => |data|
    case Envelope(_, inner) => ENVELOPE_OVERHEAD + Size(inner)
  }
}
