/**
 One device's sync engine (src/sync-engine.ts:618-807, 906-936, 1015-1247).

 A world is one device and the server.  Every function says what one engine step makes
 of it; a step that throws leaves what it had already done and reports Failed.
 */
module Engine {
  import opened Content
  import opened Store
  import opened StoreLaws
  import Diff3

  // ---- encryption in force ------------------------------------------------------

  datatype Cipher = Plain | Key(key: int)

  function Seal(c: Cipher, b: Bytes): Bytes {
    if c.Plain? then b else Envelope(c.key, b)
  }

  /** Bytes that are no envelope pass through; an envelope of another key does not open. */
  function Unseal(c: Cipher, b: Bytes): Option<Bytes> {
    if c.Plain? || !b.Envelope? then Some(b)
    else if b.key == c.key then Some(b.inner)
    else None
  }

  lemma SealOpens(c: Cipher, b: Bytes)
    ensures Unseal(c, Seal(c, b)) == Some(b)
  {
  }

  datatype Config = Config(device: string, cipher: Cipher, excludes: seq<string>)

  predicate Excluded(cfg: Config, p: Path) {
    exists x <- cfg.excludes :: x <= p
  }

  // ---- the world ------------------------------------------------------------------

  /** What the index remembers of a path; hashes are absent where the source stores none. */
  datatype Entry = Entry(baseRev: int, baseHash: Option<Hash>, plainHash: Option<Hash>, dirty: bool)

  datatype Pending = Pending(copy: Path, baseRev: int, serverRev: int, mergeable: bool)

  /** accepted is a history: every (path, revision, hash) the server has ever committed. */
  datatype World = World(
    disk: map<Path, Bytes>,
    index: map<Path, Entry>,
    conflicts: map<Path, Pending>,
    cursor: int,
    server: State,
    accepted: set<(Path, int, Hash)>)

  datatype Status = Done | Failed

  function Committed(s: State): set<(Path, int, Hash)> {
    set k | k in s.revisions && s.revisions[k].hash.Some? :: (k.0, k.1, s.revisions[k].hash.value)
  }

  /** The server carries out one transaction. */
  function Serve(w: World, op: Op): World {
    var t := Step(w.server, op);
    w.(server := t, accepted := w.accepted + Committed(t))
  }

  function SetEntry(w: World, p: Path, e: Entry): World {
    w.(index := w.index[p := e])
  }

  function DropEntry(w: World, p: Path): World {
    w.(index := w.index - {p})
  }

  // ---- reading the server -----------------------------------------------------------

  datatype Fetched = Got(plain: Bytes, hash: Hash) | Missing | Unreadable

  function Opened(c: Cipher, hash: Option<Hash>): Fetched {
    if hash == None then Missing
    else
      var plain := Unseal(c, hash.value.content);
      if plain == None then Unreadable else Got(plain.value, hash.value)
  }

  function Fetch(w: World, cfg: Config, p: Path, rev: int): Fetched {
    if p !in w.server.files then Missing else Opened(cfg.cipher, RevisionHash(w.server, p, rev))
  }

  /** Without a revision: the current content, and an error for a tombstone. */
  function FetchCurrent(w: World, cfg: Config, p: Path): Fetched {
    if p !in w.server.files || w.server.files[p].deleted then Missing
    else Opened(cfg.cipher, w.server.files[p].hash)
  }

  /** The hash names what sealing these bytes gives, so a row can be compared with the disk unopened. */
  predicate MatchesRemote(cfg: Config, plain: Bytes, hash: Option<Hash>) {
    hash == Some(Sha256(Seal(cfg.cipher, plain)))
  }

  // ---- writing to the server ----------------------------------------------------------

  function SendArgs(cfg: Config, p: Path, baseRev: int, plain: Bytes, now: int): PutArgs {
    var sealed := Seal(cfg.cipher, plain);
    PutArgs(p, baseRev, Some(Sha256(sealed)), Size(sealed), now, false, cfg.device)
  }

  /** Encrypt and upload; the index remembers what the server answered. */
  function Send(w: World, cfg: Config, p: Path, baseRev: int, plain: Bytes, now: int): (World, Outcome) {
    var a := SendArgs(cfg, p, baseRev, plain, now);
    var r := Put(w.server, a).1;
    if r.Ok? then
      (SetEntry(Serve(w, PutOp(a)), p, Entry(r.file.rev, r.file.hash, Some(Sha256(plain)), false)), r)
    else (w, r)
  }

  function StatusOf(r: Outcome): Status {
    if r.Ok? then Done else Failed
  }

  // ---- pull ------------------------------------------------------------------------------

  function Download(w: World, cfg: Config, f: File): (World, Status) {
    match Fetch(w, cfg, f.path, f.rev)
    case Got(plain, hash) =>
      if f.hash.Some? && f.hash.value != hash then (w, Failed)
      else
        (SetEntry(w.(disk := w.disk[f.path := plain]), f.path,
                  Entry(f.rev, Some(hash), Some(Sha256(plain)), false)), Done)
    case _ => (w, Failed)
  }

  /** In bytes; a longer content on either side is kept beside the other instead of merged. */
  const MERGE_SIZE_LIMIT: nat := 1024 * 1024

  function Decode(b: Bytes): Option<string> {
    if b.Text? && '\0' !in b.text then Some(b.text) else None
  }

  predicate Mergeable(b: Bytes) {
    Decode(b).Some? && Size(b) <= MERGE_SIZE_LIMIT
  }

  /** Both versions whole on disk, and a question for a person. */
  function KeepBoth(w: World, p: Path, local: Bytes, plain: Bytes, hash: Hash, serverRev: int,
                    baseRev: int, mergeable: bool, copy: Path): World {
    w.(disk := w.disk[copy := local][p := plain],
       index := w.index[p := Entry(serverRev, Some(hash), Some(Sha256(plain)), false)] - {copy},
       conflicts := w.conflicts[p := Pending(copy, baseRev, serverRev, mergeable)])
  }

  /** The common ancestor of a merge; without one the ancestor is empty. */
  datatype Ancestor = Base(text: string) | Gone | Broken

  function AncestorText(w: World, cfg: Config, p: Path, baseRev: int): Ancestor {
    if baseRev <= 0 then Base("")
    else
      match Fetch(w, cfg, p, baseRev)
      case Got(plain, _) => Base(if Decode(plain).Some? then Decode(plain).value else "")
      case Missing => Gone
      case Unreadable => Broken
  }

  /**
   The ancestor a merge at p has to start from: the text of the very revision the index
   stands at, as the tables have it.
   */
  function AncestorAt(w: World, cfg: Config, p: Path): Ancestor {
    if p !in w.index || w.index[p].baseRev <= 0 then Base("")
    else
      var k := (p, w.index[p].baseRev);
      if p !in w.server.files || k !in w.server.revisions || w.server.revisions[k].hash == None then Gone
      else
        match Unseal(cfg.cipher, w.server.revisions[k].hash.value.content)
        case None => Broken
        case Some(b) => Base(if b.Text? && '\0' !in b.text then b.text else "")
  }

  lemma AncestorIsIndexed(w: World, cfg: Config, p: Path)
    ensures AncestorAt(w, cfg, p) == AncestorText(w, cfg, p, if p in w.index then w.index[p].baseRev else 0)
  {
  }

  function MergedText(cfg: Config, base: string, mine: string, theirs: string): Diff3.MergeResult {
    Diff3.Merge(base, mine, theirs, Diff3.Labels(cfg.device, "server"))
  }

  /** Two contents for one path: merge them if that is possible, else keep both. */
  function Reconcile(w: World, cfg: Config, p: Path, local: Bytes, serverRev: int, baseRev: int,
                     copy: Path, now: int): (World, Status) {
    match Fetch(w, cfg, p, serverRev)
    case Got(plain, hash) =>
      if !Mergeable(local) || !Mergeable(plain) then
        (KeepBoth(w, p, local, plain, hash, serverRev, baseRev, false, copy), Done)
      else
        var base := AncestorText(w, cfg, p, baseRev);
        if base.Gone? then (KeepBoth(w, p, local, plain, hash, serverRev, baseRev, false, copy), Done)
        else if base.Broken? then (w, Failed)
        else
          var m := MergedText(cfg, base.text, local.text, plain.text);
          if m.clean then SendMerged(w, cfg, p, serverRev, Text(m.text), now)
          else (KeepBoth(w, p, local, plain, hash, serverRev, baseRev, true, copy), Done)
    case _ => (w, Failed)
  }

  /** The merged text is on disk before it is sent. */
  function SendMerged(w: World, cfg: Config, p: Path, serverRev: int, merged: Bytes, now: int): (World, Status) {
    var sent := Send(w.(disk := w.disk[p := merged]), cfg, p, serverRev, merged, now);
    (sent.0, StatusOf(sent.1))
  }

  /** The local file is what the index last saw of it, read either way. */
  predicate Untouched(cfg: Config, local: Bytes, e: Entry) {
    MatchesRemote(cfg, local, e.baseHash) || e.plainHash == Some(Sha256(local))
  }

  function ApplyDeletion(w: World, cfg: Config, f: File): World {
    var p := f.path;
    if p !in w.disk then DropEntry(w, p)
    else if p in w.index && Untouched(cfg, w.disk[p], w.index[p]) then
      DropEntry(w.(disk := w.disk - {p}), p)
    else SetEntry(w, p, Entry(f.rev, None, None, true))
  }

  /** The destination of a rename whose source is on disk with the renamed content. */
  predicate MovesLocally(w: World, cfg: Config, f: File) {
    && f.renamedFrom.Some? && f.renamedFrom.value != ""
    && var from := f.renamedFrom.value;
       && !Excluded(cfg, from) && from in w.disk && f.path !in w.disk
       && MatchesRemote(cfg, w.disk[from], f.hash)
  }

  function MoveLocal(w: World, f: File): World
    requires f.renamedFrom.Some? && f.renamedFrom.value in w.disk
  {
    var from, local := f.renamedFrom.value, w.disk[f.renamedFrom.value];
    w.(disk := (w.disk - {from})[f.path := local],
       index := (w.index - {from})[f.path := Entry(f.rev, f.hash, Some(Sha256(local)), false)])
  }

  /** One entry of the change log, by content. */
  function ApplyContent(w: World, cfg: Config, f: File, copy: Path, now: int): (World, Status) {
    var p := f.path;
    if p !in w.disk then
      if p in w.index && w.index[p].dirty then (w, Done) else Download(w, cfg, f)
    else
      var local := w.disk[p];
      if MatchesRemote(cfg, local, f.hash) then
        (SetEntry(w, p, Entry(f.rev, f.hash, Some(Sha256(local)), false)), Done)
      else if p in w.index && w.index[p].plainHash == Some(Sha256(local)) then Download(w, cfg, f)
      else Reconcile(w, cfg, p, local, f.rev, if p in w.index then w.index[p].baseRev else 0, copy, now)
  }

  predicate Echo(w: World, cfg: Config, f: File) {
    f.path in w.index && w.index[f.path].baseRev == f.rev && f.updatedBy == cfg.device
  }

  function ApplyRemote(w: World, cfg: Config, f: File, copy: Path, now: int): (World, Status) {
    if Echo(w, cfg, f) then (w, Done)
    else if f.deleted then (ApplyDeletion(w, cfg, f), Done)
    else if MovesLocally(w, cfg, f) then (MoveLocal(w, f), Done)
    else ApplyContent(w, cfg, f, copy, now)
  }

  /** A kept entry, tried again: skipped when the index is already past it. */
  function Retry(w: World, cfg: Config, f: File, copy: Path, now: int): (World, Status) {
    if f.path in w.index && w.index[f.path].baseRev >= f.rev then (w, Done)
    else ApplyRemote(w, cfg, f, copy, now)
  }

  // ---- push ----------------------------------------------------------------------------------

  /** Every file that has no entry yet gets a dirty one. */
  function Adopt(w: World, cfg: Config): World {
    w.(index := map p | p in w.disk.Keys + w.index.Keys && (p in w.index || !Excluded(cfg, p)) ::
         if p in w.index then w.index[p] else Entry(0, None, None, true))
  }

  function Upload(w: World, cfg: Config, p: Path, local: Bytes, baseRev: int, copy: Path, now: int): (World, Status) {
    var first := Send(w, cfg, p, baseRev, local, now);
    if !first.1.Conflict? then (first.0, StatusOf(first.1))
    else if first.1.deleted then
      var again := Send(w, cfg, p, first.1.serverRev, local, now);
      (again.0, StatusOf(again.1))
    else Reconcile(w, cfg, p, local, first.1.serverRev, baseRev, copy, now)
  }

  function PushDeletion(w: World, cfg: Config, p: Path, baseRev: int): (World, Status) {
    var r := Delete(w.server, p, baseRev, cfg.device).1;
    if r.Ok? then (DropEntry(Serve(w, DeleteOp(p, baseRev, cfg.device)), p), Done)
    else if r.NotFound? then (DropEntry(w, p), Done)
    else
      // The server has moved on, so its content comes back and the deletion is dropped.
      match FetchCurrent(w, cfg, p)
      case Got(plain, hash) =>
        (SetEntry(w.(disk := w.disk[p := plain]), p,
                  Entry(w.server.files[p].rev, Some(hash), Some(Sha256(plain)), false)), Done)
      case _ => (w, Failed)
  }

  function PushOne(w: World, cfg: Config, p: Path, copy: Path, now: int): (World, Status) {
    if p !in w.index then (w, Done)
    else
      var e := w.index[p];
      if p !in w.disk then
        if e.baseRev == 0 then (DropEntry(w, p), Done) else PushDeletion(w, cfg, p, e.baseRev)
      else
        var local := w.disk[p];
        if e.plainHash == Some(Sha256(local)) then (SetEntry(w, p, e.(dirty := false)), Done)
        else Upload(w, cfg, p, local, e.baseRev, copy, now)
  }
}
