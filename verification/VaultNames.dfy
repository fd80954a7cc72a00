/** Local names and the sealed names a server holds them under (src/crypto.ts:325-362). */
module VaultNames {
  import opened Content
  import opened Store

  /** Sealing a local name, and opening a server name if it is a sealed one. */
  datatype Names = Names(seal: Path -> Path, open: Path -> Option<Path>)

  ghost predicate Honest(n: Names) {
    forall p :: n.open(n.seal(p)) == Some(p)
  }
}
