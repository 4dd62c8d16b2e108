/**
 The content-addressed store as a protocol between concurrent writers and a file
 system that may crash: what a directory shows now, what a crash must keep and what
 it may keep are separate, and file contents not yet synced are lost to anything.
 */
module ArtifactStore {
  import opened Wrappers
  import opened Plans
  import opened LedgerTables

  const MAX_OBJECT_BYTES: nat := 8 * 1024 * 1024

  datatype Bytes = Bytes(content: int, size: nat)

  /** SHA-256 of the exact bytes. */
  type Hash = Bytes -> Digest

  datatype Name = Stage(token: Id) | Object(digest: Digest)

  /** `dir` is what every process sees; `firm` the entries a crash must keep; `maybe` all entries it may keep.
      `data` is the content every process reads; for the files in `synced` it also survives a crash. */
  datatype Disk = Disk(
    dir: map<Name, Id>, firm: map<Name, Id>, maybe: set<(Name, Id)>, data: map<Id, Bytes>, synced: set<Id>)

  /** How far one `put` got. */
  datatype Pc =
    | Checking(data: Bytes)
    | Found(data: Bytes, file: Id)
    | FoundSynced(data: Bytes, file: Id)
    | Missing(data: Bytes)
    | Staged(data: Bytes, token: Id, file: Id)
    | Written(data: Bytes, token: Id, file: Id)
    | FileSynced(data: Bytes, token: Id, file: Id)
    | Linked(data: Bytes, token: Id, file: Id)
    | Verified(data: Bytes, token: Id, file: Id)
    | Discarded(data: Bytes)
    | Done(data: Bytes)

  /** `returned` remembers every digest some `put` has ever returned. */
  datatype Store = Store(disk: Disk, puts: map<Id, Pc>, returned: set<Digest>)

  datatype Action =
    | Begin(p: Id, bytes: Bytes)
    | Look(p: Id)
    | SyncFound(p: Id)
    | CreateStage(p: Id, freshToken: Id, freshFile: Id)
    | Write(p: Id)
    | SyncFile(p: Id)
    | Link(p: Id)
    | Verify(p: Id)
    | Discard(p: Id)
    | SyncDirectory(p: Id)
    | Abandon(p: Id)
    | Kill(p: Id)
    | Crash(after: Disk)

  function Bound(disk: Disk, n: Name, f: Id): Disk {
    disk.(dir := disk.dir[n := f], maybe := disk.maybe + {(n, f)})
  }

  function Entries(dir: map<Name, Id>): set<(Name, Id)> {
    set n | n in dir :: (n, dir[n])
  }

  /** After the directory sync, a crash keeps exactly the entries present now. */
  function DirSynced(disk: Disk): Disk {
    disk.(firm := disk.dir, maybe := Entries(disk.dir))
  }

  /** What a crash may leave: all firm entries, nothing never bound, the synced contents; anything else is arbitrary. */
  ghost predicate Survives(disk: Disk, after: Disk) {
    && (forall n | n in disk.firm :: n in after.dir && after.dir[n] == disk.firm[n])
    && (forall n | n in after.dir :: (n, after.dir[n]) in disk.maybe)
    && (forall f | f in disk.synced && f in disk.data :: f in after.data && after.data[f] == disk.data[f])
    && (forall n | n in after.dir :: after.dir[n] in after.data && after.dir[n] in after.synced)
    && after.firm == after.dir && after.maybe == Entries(after.dir)
  }

  function Set(s: Store, p: Id, pc: Pc): Store {
    s.(puts := s.puts[p := pc])
  }

  /** One system call of one `put`; `None` when it cannot happen or fails. */
  function Move(h: Hash, s: Store, act: Action): Option<Store> {
    match act
    case Begin(p, bytes) =>
      if p in s.puts || bytes.size > MAX_OBJECT_BYTES then None else Some(Set(s, p, Checking(bytes)))
    case Look(p) =>
      if !(p in s.puts && s.puts[p].Checking?) then None
      else
        var bytes := s.puts[p].data;
        var n := Object(h(bytes));
        if n !in s.disk.dir then Some(Set(s, p, Missing(bytes)))
        else if !ReadsAs(h, s.disk, h(bytes), bytes) then None
        else Some(Set(s, p, Found(bytes, s.disk.dir[n])))
    case SyncFound(p) =>
      if !(p in s.puts && s.puts[p].Found?) then None
      else
        var pc := s.puts[p];
        Some(Set(s, p, FoundSynced(pc.data, pc.file)).(disk := s.disk.(synced := s.disk.synced + {pc.file})))
    case CreateStage(p, token, file) =>
      if !(p in s.puts && s.puts[p].Missing?) || Stage(token) in s.disk.dir || file in s.disk.data then None
      else
        var bytes := s.puts[p].data;
        var disk := Bound(s.disk, Stage(token), file);
        Some(Set(s, p, Staged(bytes, token, file)).(disk := disk.(data := disk.data[file := Bytes(0, 0)])))
    case Write(p) =>
      if !(p in s.puts && s.puts[p].Staged?) then None
      else
        var pc := s.puts[p];
        Some(Set(s, p, Written(pc.data, pc.token, pc.file)).(disk := s.disk.(
          data := s.disk.data[pc.file := pc.data], synced := s.disk.synced - {pc.file})))
    case SyncFile(p) =>
      if !(p in s.puts && s.puts[p].Written?) then None
      else
        var pc := s.puts[p];
        Some(Set(s, p, FileSynced(pc.data, pc.token, pc.file)).(disk := s.disk.(synced := s.disk.synced + {pc.file})))
    case Link(p) =>
      if !(p in s.puts && s.puts[p].FileSynced?) then None
      else
        var pc := s.puts[p];
        var n := Object(h(pc.data));
        var disk := if n in s.disk.dir then s.disk else Bound(s.disk, n, pc.file);
        Some(Set(s, p, Linked(pc.data, pc.token, pc.file)).(disk := disk))
    case Verify(p) =>
      if !(p in s.puts && s.puts[p].Linked?) || !ReadsAs(h, s.disk, h(s.puts[p].data), s.puts[p].data) then None
      else Some(Set(s, p, Verified(s.puts[p].data, s.puts[p].token, s.puts[p].file)))
    case Discard(p) =>
      if !(p in s.puts && s.puts[p].Verified?) then None
      else Some(Set(s, p, Discarded(s.puts[p].data)).(disk := Unstaged(s.disk, s.puts[p].token, s.puts[p].file)))
    case SyncDirectory(p) =>
      if !(p in s.puts && (s.puts[p].Discarded? || s.puts[p].FoundSynced?)) then None
      else
        var bytes := s.puts[p].data;
        Some(Store(DirSynced(s.disk), s.puts[p := Done(bytes)], s.returned + {h(bytes)}))
    case Abandon(p) =>
      if p !in s.puts then None
      else Some(s.(puts := s.puts - {p}, disk := Cleaned(s.disk, s.puts[p])))
    case Kill(p) =>
      if p !in s.puts then None else Some(s.(puts := s.puts - {p}))
    case Crash(_) => None
  }

  /** A system call, or a crash that kills every `put`. */
  ghost function Step(h: Hash, s: Store, act: Action): Option<Store> {
    if act.Crash? then if Survives(s.disk, act.after) then Some(Store(act.after, map[], s.returned)) else None
    else Move(h, s, act)
  }

  /** A read of the object named `digest` finds exactly `bytes`, of a lawful size and hashing to the name. */
  predicate ReadsAs(h: Hash, disk: Disk, digest: Digest, bytes: Bytes) {
    && Object(digest) in disk.dir && disk.dir[Object(digest)] in disk.data
    && var found := disk.data[disk.dir[Object(digest)]];
      found.size <= MAX_OBJECT_BYTES && h(found) == digest && found == bytes
  }

  /** Remove a staging entry, if it still is the one this `put` made. */
  function Unstaged(disk: Disk, token: Id, file: Id): Disk {
    if Stage(token) in disk.dir && disk.dir[Stage(token)] == file
    then disk.(dir := disk.dir - {Stage(token)}, firm := disk.firm - {Stage(token)})
    else disk
  }

  /** The cleanup of a failing `put`; one that is killed leaves its staging entry behind. */
  function Cleaned(disk: Disk, pc: Pc): Disk {
    match pc
    case Staged(_, token, file) => Unstaged(disk, token, file)
    case Written(_, token, file) => Unstaged(disk, token, file)
    case FileSynced(_, token, file) => Unstaged(disk, token, file)
    case Linked(_, token, file) => Unstaged(disk, token, file)
    case Verified(_, token, file) => Unstaged(disk, token, file)
    case _ => disk
  }

  // ----- the invariant -------------------------------------------------------------------

  /** The file this `put` may still write to or has not synced yet. */
  function Unsynced(pc: Pc): Option<Id> {
    match pc
    case Staged(_, _, file) => Some(file)
    case Written(_, _, file) => Some(file)
    case _ => None
  }

  /** The file holds lawful bytes of that name, durably. */
  predicate Holds(h: Hash, disk: Disk, digest: Digest, file: Id) {
    && file in disk.data && file in disk.synced
    && disk.data[file].size <= MAX_OBJECT_BYTES && h(disk.data[file]) == digest
  }

  ghost predicate ObjectsOk(h: Hash, disk: Disk) {
    && (forall e | e in disk.maybe :: e.0.Object? ==> Holds(h, disk, e.0.digest, e.1))
    && (forall n | n in disk.dir :: (n, disk.dir[n]) in disk.maybe)
    && (forall n | n in disk.firm && n.Object? :: n in disk.dir && disk.dir[n] == disk.firm[n])
    && (forall e | e in disk.maybe :: e.1 in disk.data)
  }

  /** What a `put` knows of the disk at each of its steps. */
  ghost predicate PutOk(h: Hash, disk: Disk, pc: Pc) {
    && pc.data.size <= MAX_OBJECT_BYTES
    && match pc
      case Found(bytes, file) => Object(h(bytes)) in disk.dir && disk.dir[Object(h(bytes))] == file
      case FoundSynced(bytes, file) => Object(h(bytes)) in disk.dir && disk.dir[Object(h(bytes))] == file
      case Staged(_, _, file) => file in disk.data
      case Written(bytes, _, file) => file in disk.data && disk.data[file] == bytes
      case FileSynced(bytes, _, file) => Holds(h, disk, h(bytes), file)
      case Linked(bytes, _, _) => Object(h(bytes)) in disk.dir
      case Verified(bytes, _, _) => Object(h(bytes)) in disk.dir
      case Discarded(bytes) => Object(h(bytes)) in disk.dir
      case _ => true
  }

  /** A file still being written is nobody else's, and no object name may refer to it. */
  ghost predicate Private(disk: Disk, puts: map<Id, Pc>) {
    && (forall p, q | p in puts && q in puts && p != q && Unsynced(puts[p]).Some? ::
          FileOf(puts[q]) != Unsynced(puts[p]))
    && (forall p | p in puts && Unsynced(puts[p]).Some? ::
          forall e | e in disk.maybe :: e.0.Object? ==> e.1 != Unsynced(puts[p]).value)
  }

  function FileOf(pc: Pc): Option<Id> {
    match pc
    case Staged(_, _, file) => Some(file)
    case Written(_, _, file) => Some(file)
    case FileSynced(_, _, file) => Some(file)
    case _ => None
  }

  ghost predicate StoreInv(h: Hash, s: Store) {
    && ObjectsOk(h, s.disk)
    && (forall p | p in s.puts :: PutOk(h, s.disk, s.puts[p]))
    && Private(s.disk, s.puts)
    && (forall d | d in s.returned :: Object(d) in s.disk.firm)
  }

  // ----- what each change of the disk keeps ----------------------------------------------------

  /** Object entries, contents and durability of everything but `except` stay as they were. */
  ghost predicate Steady(disk: Disk, later: Disk, except: set<Id>) {
    && (forall n | n in disk.dir && n.Object? :: n in later.dir && later.dir[n] == disk.dir[n])
    && (forall f | f in disk.data :: f in later.data)
    && (forall f | f in disk.data && f !in except :: later.data[f] == disk.data[f])
    && (forall f | f in disk.synced && f !in except :: f in later.synced)
  }

  /** The other `put`s keep their knowledge; the acting one is checked by itself. */
  lemma OthersStayOk(h: Hash, s: Store, later: Store, p: Id, except: set<Id>)
    requires StoreInv(h, s) && Steady(s.disk, later.disk, except)
    requires p in later.puts ==> PutOk(h, later.disk, later.puts[p])
    requires forall q | q in later.puts && q != p :: q in s.puts && later.puts[q] == s.puts[q]
    requires forall q, f | q in s.puts && q != p && f in except :: FileOf(s.puts[q]) != Some(f)
    ensures forall q | q in later.puts :: PutOk(h, later.disk, later.puts[q])
  {
    forall q | q in later.puts ensures PutOk(h, later.disk, later.puts[q]) {
    }
  }

  /** A step that changes only the acting `put`'s position, to one with no new file. */
  lemma PrivateStays(s: Store, later: Store, p: Id)
    requires Private(s.disk, s.puts) && later.disk.maybe <= s.disk.maybe
    requires forall q | q in later.puts && q != p :: q in s.puts && later.puts[q] == s.puts[q]
    requires p in later.puts ==>
      FileOf(later.puts[p]).None? || (p in s.puts && FileOf(later.puts[p]) == FileOf(s.puts[p]))
    requires p in later.puts && Unsynced(later.puts[p]).Some? ==>
      p in s.puts && Unsynced(later.puts[p]) == Unsynced(s.puts[p])
    ensures Private(later.disk, later.puts)
  {
  }

  lemma SyncDirectoryKeeps(h: Hash, s: Store, p: Id)
    requires StoreInv(h, s) && Step(h, s, SyncDirectory(p)).Some?
    ensures StoreInv(h, Step(h, s, SyncDirectory(p)).value)
  {
    var later := Step(h, s, SyncDirectory(p)).value;
    assert PutOk(h, s.disk, s.puts[p]);
    OthersStayOk(h, s, later, p, {});
    PrivateStays(s, later, p);
    forall d | d in later.returned ensures Object(d) in later.disk.firm {
      if d in s.returned {
        assert Object(d) in s.disk.firm;
      }
    }
  }

  lemma CreateKeeps(h: Hash, s: Store, p: Id, token: Id, file: Id)
    requires StoreInv(h, s) && Step(h, s, CreateStage(p, token, file)).Some?
    ensures StoreInv(h, Step(h, s, CreateStage(p, token, file)).value)
  {
    var later := Step(h, s, CreateStage(p, token, file)).value;
    assert PutOk(h, s.disk, s.puts[p]);
    forall q | q in s.puts ensures FileOf(s.puts[q]) != Some(file) {
      assert PutOk(h, s.disk, s.puts[q]);
    }
    OthersStayOk(h, s, later, p, {});
    CreatedObjects(h, s.disk, later.disk, token, file);
    CreatedPrivate(s, later, p, token, file);
  }

  lemma CreatedObjects(h: Hash, disk: Disk, later: Disk, token: Id, file: Id)
    requires ObjectsOk(h, disk) && file !in disk.data && Stage(token) !in disk.dir
    requires later == Bound(disk, Stage(token), file).(data := disk.data[file := Bytes(0, 0)])
    ensures ObjectsOk(h, later)
  {
    forall e | e in later.maybe && e.0.Object? ensures Holds(h, later, e.0.digest, e.1) {
      assert Holds(h, disk, e.0.digest, e.1);
    }
  }

  lemma CreatedPrivate(s: Store, later: Store, p: Id, token: Id, file: Id)
    requires Private(s.disk, s.puts) && p in s.puts && file !in s.disk.data
    requires forall e | e in s.disk.maybe :: e.1 in s.disk.data
    requires forall q | q in s.puts :: FileOf(s.puts[q]) != Some(file)
    requires later.disk.maybe == s.disk.maybe + {(Stage(token), file)}
    requires exists bytes :: later.puts == s.puts[p := Staged(bytes, token, file)]
    ensures Private(later.disk, later.puts)
  {
    forall x, y | x in later.puts && y in later.puts && x != y && Unsynced(later.puts[x]).Some?
      ensures FileOf(later.puts[y]) != Unsynced(later.puts[x])
    {
      if x != p && y == p {
        assert Unsynced(s.puts[x]) == FileOf(s.puts[x]);
      }
    }
  }

  lemma WriteKeeps(h: Hash, s: Store, p: Id)
    requires StoreInv(h, s) && Step(h, s, Write(p)).Some?
    ensures StoreInv(h, Step(h, s, Write(p)).value)
  {
    var later, file := Step(h, s, Write(p)).value, s.puts[p].file;
    assert PutOk(h, s.disk, s.puts[p]);
    assert Unsynced(s.puts[p]) == Some(file);
    OthersStayOk(h, s, later, p, {file});
    forall e | e in later.disk.maybe && e.0.Object? ensures Holds(h, later.disk, e.0.digest, e.1) {
      assert Holds(h, s.disk, e.0.digest, e.1);
    }
    PrivateStays(s, later, p);
  }

  lemma SyncFileKeeps(h: Hash, s: Store, p: Id)
    requires StoreInv(h, s) && Step(h, s, SyncFile(p)).Some?
    ensures StoreInv(h, Step(h, s, SyncFile(p)).value)
  {
    var later := Step(h, s, SyncFile(p)).value;
    assert PutOk(h, s.disk, s.puts[p]);
    OthersStayOk(h, s, later, p, {});
    PrivateStays(s, later, p);
  }

  lemma SyncFoundKeeps(h: Hash, s: Store, p: Id)
    requires StoreInv(h, s) && Step(h, s, SyncFound(p)).Some?
    ensures StoreInv(h, Step(h, s, SyncFound(p)).value)
  {
    var later := Step(h, s, SyncFound(p)).value;
    assert PutOk(h, s.disk, s.puts[p]);
    OthersStayOk(h, s, later, p, {});
    PrivateStays(s, later, p);
  }

  lemma LinkKeeps(h: Hash, s: Store, p: Id)
    requires StoreInv(h, s) && Step(h, s, Link(p)).Some?
    ensures StoreInv(h, Step(h, s, Link(p)).value)
  {
    hide Private, ObjectsOk, Holds;
    var later, file := Step(h, s, Link(p)).value, s.puts[p].file;
    assert PutOk(h, s.disk, s.puts[p]);
    LinkedObjects(h, s.disk, later.disk, h(s.puts[p].data), file);
    LinkedPrivate(s, later, p, Object(h(s.puts[p].data)), file);
    OthersStayOk(h, s, later, p, {});
  }

  lemma LinkedObjects(h: Hash, disk: Disk, later: Disk, digest: Digest, file: Id)
    requires ObjectsOk(h, disk) && Holds(h, disk, digest, file)
    requires later == if Object(digest) in disk.dir then disk else Bound(disk, Object(digest), file)
    ensures ObjectsOk(h, later) && Steady(disk, later, {})
  {
    forall e | e in later.maybe && e.0.Object? ensures Holds(h, later, e.0.digest, e.1) {
      if e in disk.maybe {
        assert Holds(h, disk, e.0.digest, e.1);
      }
    }
  }

  lemma LinkedPrivate(s: Store, later: Store, p: Id, n: Name, file: Id)
    requires Private(s.disk, s.puts) && p in s.puts && s.puts[p].FileSynced? && s.puts[p].file == file
    requires later.puts == s.puts[p := Linked(s.puts[p].data, s.puts[p].token, file)]
    requires later.disk.maybe <= s.disk.maybe + {(n, file)}
    ensures Private(later.disk, later.puts)
  {
    forall q | q in later.puts && Unsynced(later.puts[q]).Some? ensures Unsynced(later.puts[q]).value != file {
      assert FileOf(s.puts[p]) == Some(file);
    }
  }

  /** Looking, verifying and abandoning touch no object entry. */
  lemma QuietKeeps(h: Hash, s: Store, later: Store, p: Id)
    requires StoreInv(h, s) && Steady(s.disk, later.disk, {}) && later.returned == s.returned
    requires later.disk.maybe == s.disk.maybe && later.disk.data == s.disk.data && later.disk.synced == s.disk.synced
    requires forall n | n in later.disk.dir :: n in s.disk.dir && later.disk.dir[n] == s.disk.dir[n]
    requires forall n | n in later.disk.firm :: n in s.disk.firm && later.disk.firm[n] == s.disk.firm[n]
    requires forall n | n in s.disk.firm && n.Object? :: n in later.disk.firm
    requires p in later.puts ==> PutOk(h, later.disk, later.puts[p]) && FileOf(later.puts[p]).None?
    requires forall q | q in later.puts && q != p :: q in s.puts && later.puts[q] == s.puts[q]
    ensures StoreInv(h, later)
  {
    OthersStayOk(h, s, later, p, {});
    PrivateStays(s, later, p);
    forall e | e in later.disk.maybe && e.0.Object? ensures Holds(h, later.disk, e.0.digest, e.1) {
      assert Holds(h, s.disk, e.0.digest, e.1);
    }
  }

  lemma BeginKeeps(h: Hash, s: Store, p: Id, bytes: Bytes)
    requires StoreInv(h, s) && Step(h, s, Begin(p, bytes)).Some?
    ensures StoreInv(h, Step(h, s, Begin(p, bytes)).value)
  {
    QuietKeeps(h, s, Step(h, s, Begin(p, bytes)).value, p);
  }

  lemma LookKeeps(h: Hash, s: Store, p: Id)
    requires StoreInv(h, s) && Step(h, s, Look(p)).Some?
    ensures StoreInv(h, Step(h, s, Look(p)).value)
  {
    assert PutOk(h, s.disk, s.puts[p]);
    QuietKeeps(h, s, Step(h, s, Look(p)).value, p);
  }

  lemma VerifyKeeps(h: Hash, s: Store, p: Id)
    requires StoreInv(h, s) && Step(h, s, Verify(p)).Some?
    ensures StoreInv(h, Step(h, s, Verify(p)).value)
  {
    assert PutOk(h, s.disk, s.puts[p]);
    QuietKeeps(h, s, Step(h, s, Verify(p)).value, p);
  }

  lemma DiscardKeeps(h: Hash, s: Store, p: Id)
    requires StoreInv(h, s) && Step(h, s, Discard(p)).Some?
    ensures StoreInv(h, Step(h, s, Discard(p)).value)
  {
    assert PutOk(h, s.disk, s.puts[p]);
    QuietKeeps(h, s, Step(h, s, Discard(p)).value, p);
  }

  lemma AbandonKeeps(h: Hash, s: Store, p: Id)
    requires StoreInv(h, s) && Step(h, s, Abandon(p)).Some?
    ensures StoreInv(h, Step(h, s, Abandon(p)).value)
  {
    assert PutOk(h, s.disk, s.puts[p]);
    QuietKeeps(h, s, Step(h, s, Abandon(p)).value, p);
  }

  lemma KillKeeps(h: Hash, s: Store, p: Id)
    requires StoreInv(h, s) && Step(h, s, Kill(p)).Some?
    ensures StoreInv(h, Step(h, s, Kill(p)).value)
  {
    assert PutOk(h, s.disk, s.puts[p]);
    QuietKeeps(h, s, Step(h, s, Kill(p)).value, p);
  }

  lemma CrashKeeps(h: Hash, s: Store, after: Disk)
    requires StoreInv(h, s) && Step(h, s, Crash(after)).Some?
    ensures StoreInv(h, Step(h, s, Crash(after)).value)
  {
    forall e | e in after.maybe && e.0.Object? ensures Holds(h, after, e.0.digest, e.1) {
      assert e in s.disk.maybe;
      assert Holds(h, s.disk, e.0.digest, e.1);
    }
  }

  /** Every step of every `put`, and every crash, keeps the invariant. */
  lemma StepKeeps(h: Hash, s: Store, act: Action)
    requires StoreInv(h, s) && Step(h, s, act).Some?
    ensures StoreInv(h, Step(h, s, act).value)
  {
    hide StoreInv, Step;
    match act {
      case Begin(p, bytes) => BeginKeeps(h, s, p, bytes);
      case Look(p) => LookKeeps(h, s, p);
      case SyncFound(p) => SyncFoundKeeps(h, s, p);
      case CreateStage(p, token, file) => CreateKeeps(h, s, p, token, file);
      case Write(p) => WriteKeeps(h, s, p);
      case SyncFile(p) => SyncFileKeeps(h, s, p);
      case Link(p) => LinkKeeps(h, s, p);
      case Verify(p) => VerifyKeeps(h, s, p);
      case Discard(p) => DiscardKeeps(h, s, p);
      case SyncDirectory(p) => SyncDirectoryKeeps(h, s, p);
      case Abandon(p) => AbandonKeeps(h, s, p);
      case Kill(p) => KillKeeps(h, s, p);
      case Crash(after) => CrashKeeps(h, s, after);
    }
  }

  // ----- whole histories ------------------------------------------------------------------------

  const EMPTY: Store := Store(Disk(map[], map[], {}, map[], {}), map[], {})

  ghost function After(h: Hash, s: Store, act: Action): Store {
    match Step(h, s, act)
    case None => s
    case Some(later) => later
  }

  ghost function History(h: Hash, acts: seq<Action>): Store {
    if acts == [] then EMPTY else After(h, History(h, acts[..|acts| - 1]), acts[|acts| - 1])
  }

  lemma {:induction false} HistoryInv(h: Hash, acts: seq<Action>)
    ensures StoreInv(h, History(h, acts))
  {
    if acts != [] {
      HistoryInv(h, acts[..|acts| - 1]);
      var s, act := History(h, acts[..|acts| - 1]), acts[|acts| - 1];
      if Step(h, s, act).Some? {
        StepKeeps(h, s, act);
      }
    }
  }

  /** At every moment of every history, also right after a crash, each object entry holds bytes hashing to its name. */
  lemma EveryVisibleObjectIsSound(h: Hash, acts: seq<Action>, digest: Digest)
    requires Object(digest) in History(h, acts).disk.dir
    ensures Holds(h, History(h, acts).disk, digest, History(h, acts).disk.dir[Object(digest)])
  {
    HistoryInv(h, acts);
    var disk := History(h, acts).disk;
    assert (Object(digest), disk.dir[Object(digest)]) in disk.maybe;
  }

  // ----- staging entries ------------------------------------------------------------------------

  /** The staging entry of a `put`: its token and its file. */
  function StageOf(pc: Pc): Option<(Id, Id)> {
    match pc
    case Staged(_, token, file) => Some((token, file))
    case Written(_, token, file) => Some((token, file))
    case FileSynced(_, token, file) => Some((token, file))
    case Linked(_, token, file) => Some((token, file))
    case Verified(_, token, file) => Some((token, file))
    case _ => None
  }

  predicate Stages(s: Store, p: Id, token: Id, file: Id) {
    p in s.puts && StageOf(s.puts[p]) == Some((token, file))
  }

  /** Every `put` finds its own staging entry, which is nobody else's. */
  ghost predicate Staging(s: Store) {
    && (forall p, token, file | Stages(s, p, token, file) ::
          Stage(token) in s.disk.dir && s.disk.dir[Stage(token)] == file)
    && (forall p, q, token, file, other | Stages(s, p, token, file) && Stages(s, q, token, other) :: p == q)
  }

  /** Every staging entry is that of a running `put`. */
  ghost predicate Tidy(s: Store) {
    forall token | Stage(token) in s.disk.dir :: exists p :: Stages(s, p, token, s.disk.dir[Stage(token)])
  }

  /** A staging entry is made once, under a token that no entry has. */
  lemma StagesCome(h: Hash, s: Store, act: Action, p: Id, token: Id, file: Id)
    requires Step(h, s, act).Some? && Stages(Step(h, s, act).value, p, token, file)
    ensures Stages(s, p, token, file)
            || (act == CreateStage(p, token, file) && Stage(token) !in s.disk.dir
                && Step(h, s, act).value.disk.dir == s.disk.dir[Stage(token) := file])
  {
    hide ReadsAs, Survives, Unstaged, Cleaned;
    match act {
      case CreateStage(q, drawn, made) =>
        assert q == p ==> token == drawn && file == made;
      case _ =>
    }
  }

  lemma OtherStage(s: Store, p: Id, token: Id, file: Id, q: Id)
    requires Staging(s) && Stages(s, p, token, file)
    ensures q in s.puts && StageOf(s.puts[q]).Some? && StageOf(s.puts[q]).value.0 == token ==> q == p
  {
    if q in s.puts && StageOf(s.puts[q]).Some? {
      assert Stages(s, q, StageOf(s.puts[q]).value.0, StageOf(s.puts[q]).value.1);
    }
  }

  /** A staging entry goes only with its `put`. */
  lemma StagesGo(h: Hash, s: Store, act: Action, p: Id, token: Id, file: Id)
    requires Staging(s) && Step(h, s, act).Some? && Stages(s, p, token, file)
    requires Stages(Step(h, s, act).value, p, token, file)
    ensures Stage(token) in Step(h, s, act).value.disk.dir && Step(h, s, act).value.disk.dir[Stage(token)] == file
  {
    hide ReadsAs, Survives;
    match act {
      case Discard(q) => OtherStage(s, p, token, file, q);
      case Abandon(q) => OtherStage(s, p, token, file, q);
      case _ =>
    }
  }

  lemma StagingKeeps(h: Hash, s: Store, act: Action)
    requires Staging(s) && Step(h, s, act).Some?
    ensures Staging(Step(h, s, act).value)
  {
    hide Step;
    var later := Step(h, s, act).value;
    forall p, token, file | Stages(later, p, token, file)
      ensures Stage(token) in later.disk.dir && later.disk.dir[Stage(token)] == file
    {
      StagesCome(h, s, act, p, token, file);
      if Stages(s, p, token, file) {
        StagesGo(h, s, act, p, token, file);
      }
    }
    forall p, q, token, file, other | Stages(later, p, token, file) && Stages(later, q, token, other) ensures p == q {
      StagesCome(h, s, act, p, token, file);
      StagesCome(h, s, act, q, token, other);
    }
  }

  lemma TidyKeeps(h: Hash, s: Store, act: Action)
    requires Staging(s) && Tidy(s) && Step(h, s, act).Some? && !act.Kill? && !act.Crash?
    ensures Tidy(Step(h, s, act).value)
  {
    hide ReadsAs;
    var later := Step(h, s, act).value;
    forall token | Stage(token) in later.disk.dir
      ensures exists p :: Stages(later, p, token, later.disk.dir[Stage(token)])
    {
      if act.CreateStage? && token == act.freshToken {
        assert Stages(later, act.p, token, act.freshFile);
      } else {
        var p :| Stages(s, p, token, s.disk.dir[Stage(token)]);
        assert Stages(later, p, token, later.disk.dir[Stage(token)]);
      }
    }
  }

  /** Where no `put` was killed, by itself or in a crash, the only staging entries are those of running `put`s: one that
      returned or failed has removed its own. */
  lemma {:induction false} NoLitter(h: Hash, acts: seq<Action>)
    requires forall act | act in acts :: !act.Kill? && !act.Crash?
    ensures Staging(History(h, acts)) && Tidy(History(h, acts))
  {
    hide Step, Staging, Tidy;
    if acts == [] {
      NothingStaged();
    } else {
      NoLitter(h, acts[..|acts| - 1]);
      var s, act := History(h, acts[..|acts| - 1]), acts[|acts| - 1];
      if Step(h, s, act).Some? {
        StagingKeeps(h, s, act);
        TidyKeeps(h, s, act);
      }
    }
  }

  lemma NothingStaged()
    ensures Staging(EMPTY) && Tidy(EMPTY)
  {
  }

  ghost predicate Same(disk: Disk, later: Disk, digest: Digest) {
    && Object(digest) in disk.dir && disk.dir[Object(digest)] in disk.data
    && Object(digest) in later.dir && later.dir[Object(digest)] == disk.dir[Object(digest)]
    && later.dir[Object(digest)] in later.data
    && later.data[later.dir[Object(digest)]] == disk.data[disk.dir[Object(digest)]]
  }

  lemma WriteSpares(h: Hash, s: Store, p: Id, digest: Digest)
    requires StoreInv(h, s) && Step(h, s, Write(p)).Some? && Object(digest) in s.disk.dir
    ensures s.puts[p].file != s.disk.dir[Object(digest)]
  {
    assert Unsynced(s.puts[p]).Some?;
    assert (Object(digest), s.disk.dir[Object(digest)]) in s.disk.maybe;
  }

  /** Without a crash, an object name is never removed and never bound to another file or other bytes. */
  lemma NeverRebound(h: Hash, acts: seq<Action>, act: Action, digest: Digest)
    requires !act.Crash? && Object(digest) in History(h, acts).disk.dir
    ensures Same(History(h, acts).disk, After(h, History(h, acts), act).disk, digest)
  {
    hide StoreInv, ObjectsOk, Private, PutOk, History;
    HistoryInv(h, acts);
    var s := History(h, acts);
    EveryVisibleObjectIsSound(h, acts, digest);
    if act.Write? && Step(h, s, act).Some? {
      WriteSpares(h, s, act.p, digest);
    }
  }

  /** Once some `put` returned a digest, on either path, its object survives every later step and crash unchanged. */
  lemma {:induction false} ReturnedSurvives(h: Hash, acts: seq<Action>, more: seq<Action>, digest: Digest)
    requires digest in History(h, acts).returned
    ensures Same(History(h, acts).disk, History(h, acts + more).disk, digest)
    ensures digest in History(h, acts + more).returned
  {
    hide ObjectsOk, Private, PutOk, Step, Move, Survives;
    HistoryInv(h, acts);
    assert Object(digest) in History(h, acts).disk.firm;
    FirmIsVisible(h, History(h, acts), digest);
    EveryVisibleObjectIsSound(h, acts, digest);
    if more == [] {
      assert acts + more == acts;
    } else {
      var front, act := more[..|more| - 1], more[|more| - 1];
      ReturnedSurvives(h, acts, front, digest);
      assert (acts + more)[..|acts + more| - 1] == acts + front;
      OneMoreSurvives(h, acts + front, act, digest);
    }
  }

  lemma FirmIsVisible(h: Hash, s: Store, digest: Digest)
    requires StoreInv(h, s) && Object(digest) in s.disk.firm
    ensures Object(digest) in s.disk.dir
  {
  }

  lemma OneMoreSurvives(h: Hash, acts: seq<Action>, act: Action, digest: Digest)
    requires digest in History(h, acts).returned
    ensures var s, later := History(h, acts), After(h, History(h, acts), act);
      Same(s.disk, later.disk, digest) && digest in later.returned
  {
    hide History, Private, PutOk;
    HistoryInv(h, acts);
    var s := History(h, acts);
    assert Object(digest) in s.disk.firm;
    EveryVisibleObjectIsSound(h, acts, digest);
    if !act.Crash? {
      NeverRebound(h, acts, act, digest);
    }
  }

  /** With distinct bytes hashing apart, a `put` never meets foreign bytes under its digest. */
  lemma NoMismatch(h: Hash, acts: seq<Action>, p: Id)
    requires forall x, y :: h(x) == h(y) ==> x == y
    requires p in History(h, acts).puts && (History(h, acts).puts[p].Linked? || History(h, acts).puts[p].Checking?)
    ensures var s := History(h, acts);
      s.puts[p].Linked? ==> Step(h, s, Verify(p)).Some?
    ensures var s := History(h, acts);
      s.puts[p].Checking? ==> Step(h, s, Look(p)).Some?
  {
    HistoryInv(h, acts);
    var s := History(h, acts);
    var digest := h(s.puts[p].data);
    assert PutOk(h, s.disk, s.puts[p]);
    if Object(digest) in s.disk.dir {
      EveryVisibleObjectIsSound(h, acts, digest);
      assert ReadsAs(h, s.disk, digest, s.puts[p].data);
    }
  }

  // ----- progress ---------------------------------------------------------------------------------

  /** What a `put` does next when nothing fails. */
  function NextAction(pc: Pc, p: Id, token: Id, file: Id): Action {
    match pc
    case Checking(_) => Look(p)
    case Found(_, _) => SyncFound(p)
    case FoundSynced(_, _) => SyncDirectory(p)
    case Missing(_) => CreateStage(p, token, file)
    case Staged(_, _, _) => Write(p)
    case Written(_, _, _) => SyncFile(p)
    case FileSynced(_, _, _) => Link(p)
    case Linked(_, _, _) => Verify(p)
    case Verified(_, _, _) => Discard(p)
    case Discarded(_) => SyncDirectory(p)
    case Done(_) => Look(p)
  }

  /** Steps still to make at most. */
  function Left(pc: Pc): nat {
    match pc
    case Checking(_) => 9
    case Missing(_) => 8
    case Staged(_, _, _) => 7
    case Written(_, _, _) => 6
    case FileSynced(_, _, _) => 5
    case Linked(_, _, _) => 4
    case Verified(_, _, _) => 3
    case Found(_, _) => 2
    case FoundSynced(_, _) => 1
    case Discarded(_) => 1
    case Done(_) => 0
  }

  /** Whatever the other writers do and whenever a crash happened before, a running `put` can always take its next step
      with a fresh staging name, comes nearer to its end by it,
      and its last step returns the digest of its own bytes. */
  lemma PutNeverStuck(h: Hash, acts: seq<Action>, p: Id, token: Id, file: Id)
    requires forall x, y :: h(x) == h(y) ==> x == y
    requires p in History(h, acts).puts && !History(h, acts).puts[p].Done?
    requires Stage(token) !in History(h, acts).disk.dir && file !in History(h, acts).disk.data
    ensures var s := History(h, acts); var act := NextAction(s.puts[p], p, token, file);
      && Step(h, s, act).Some?
      && var later := Step(h, s, act).value;
        && p in later.puts && Left(later.puts[p]) < Left(s.puts[p]) && later.puts[p].data == s.puts[p].data
        && (later.puts[p].Done? ==> h(s.puts[p].data) in later.returned)
  {
    hide History, StoreInv, ReadsAs;
    var s := History(h, acts);
    if s.puts[p].Linked? || s.puts[p].Checking? {
      NoMismatch(h, acts, p);
    }
  }

  // ----- one writer at work ----------------------------------------------------------------------

  lemma FreshNames(disk: Disk)
    ensures exists token, file :: Stage(token) !in disk.dir && file !in disk.data
  {
    UnusedExists(disk.data.Keys);
    var file :| file !in disk.data;
    var tokens := set n | n in disk.dir && n.Stage? :: n.token;
    UnusedExists(tokens);
    var token :| token !in tokens;
    assert Stage(token) !in disk.dir;
  }

  /** Where the steps of a staged `put` lead when they succeed. */
  function NextPc(pc: Pc, token: Id, file: Id): Pc {
    match pc
    case Missing(bytes) => Staged(bytes, token, file)
    case Staged(bytes, t, f) => Written(bytes, t, f)
    case Written(bytes, t, f) => FileSynced(bytes, t, f)
    case FileSynced(bytes, t, f) => Linked(bytes, t, f)
    case Linked(bytes, t, f) => Verified(bytes, t, f)
    case Verified(bytes, _, _) => Discarded(bytes)
    case _ => pc
  }

  lemma StagedGoes(h: Hash, s: Store, p: Id, token: Id, file: Id)
    requires p in s.puts && NextPc(s.puts[p], token, file) != s.puts[p]
    requires Stage(token) !in s.disk.dir && file !in s.disk.data
    requires s.puts[p].Linked? ==> ReadsAs(h, s.disk, h(s.puts[p].data), s.puts[p].data)
    ensures var r := Move(h, s, NextAction(s.puts[p], p, token, file));
      r.Some? && r.value.puts == s.puts[p := NextPc(s.puts[p], token, file)] && r.value.returned == s.returned
  {
    hide ReadsAs;
  }

  /** The writers of one directory, of which one acts at a time. */
  class Writers {
    const hash: Hash
    var store: Store
    ghost var acts: seq<Action>

    ghost predicate Valid()
      reads this
    {
      store == History(hash, acts) && forall x, y :: hash(x) == hash(y) ==> x == y
    }

    constructor (hash: Hash)
      requires forall x, y :: hash(x) == hash(y) ==> x == y
      ensures Valid() && this.hash == hash && store == EMPTY
    {
      this.hash, store, acts := hash, EMPTY, [];
    }

    /** One system call. */
    method Call(act: Action)
      requires Valid() && Move(hash, store, act).Some?
      modifies this
      ensures Valid() && store == Move(hash, old(store), act).value
    {
      hide Move;
      assert (acts + [act])[..|acts|] == acts;
      MoveIsStep(hash, store, act);
      store, acts := Move(hash, store, act).value, acts + [act];
    }

    /** Publish bytes: over an existing object sync it and the directory, else stage, write, sync, link, check,
        discard, sync. */
    method Put(p: Id, bytes: Bytes) returns (r: Option<Digest>)
      requires Valid() && p !in store.puts
      modifies this
      ensures Valid()
      ensures r == if bytes.size <= MAX_OBJECT_BYTES then Some(hash(bytes)) else None
      ensures r.None? ==> store == old(store)
      ensures r.Some? ==>
        Object(hash(bytes)) in store.disk.firm && store.returned == old(store.returned) + {hash(bytes)}
      ensures r.Some? ==> ReadsAs(hash, store.disk, hash(bytes), bytes)
    {
      hide History, ReadsAs;
      if bytes.size > MAX_OBJECT_BYTES {
        return None;
      }
      Call(Begin(p, bytes));
      NoMismatch(hash, acts, p);
      Call(Look(p));
      if store.puts[p].Found? {
        Call(SyncFound(p));
      } else {
        Publish(p, bytes);
      }
      Call(SyncDirectory(p));
      StoredReads(hash, acts, bytes);
      return Some(hash(bytes));
    }

    /** One more step of a staged `put`; the fresh names matter to the first only. */
    method Advance(p: Id)
      requires Valid() && p in store.puts && NextPc(store.puts[p], p, p) != store.puts[p]
      modifies this
      ensures Valid() && p in store.puts && store.returned == old(store.returned)
      ensures exists token, file :: store.puts[p] == NextPc(old(store.puts[p]), token, file)
    {
      hide Move, History, ReadsAs, NextAction;
      FreshNames(store.disk);
      var token, file :| Stage(token) !in store.disk.dir && file !in store.disk.data;
      if store.puts[p].Linked? {
        LinkedReads(hash, acts, p);
      }
      StagedGoes(hash, store, p, token, file);
      Call(NextAction(store.puts[p], p, token, file));
    }

    /** Stage, write, sync, link, check and discard. */
    method Publish(p: Id, bytes: Bytes)
      requires Valid() && p in store.puts && store.puts[p] == Missing(bytes)
      modifies this
      ensures Valid() && p in store.puts && store.puts[p] == Discarded(bytes) && store.returned == old(store.returned)
    {
      hide History;
      Advance(p);  // create the staging entry
      Advance(p);  // write
      Advance(p);  // sync the file
      Advance(p);  // link without replacing
      Advance(p);  // read the object back
      Advance(p);  // unlink the staging entry
    }
  }

  lemma LinkedReads(h: Hash, acts: seq<Action>, p: Id)
    requires forall x, y :: h(x) == h(y) ==> x == y
    requires p in History(h, acts).puts && History(h, acts).puts[p].Linked?
    ensures var s := History(h, acts); ReadsAs(h, s.disk, h(s.puts[p].data), s.puts[p].data)
  {
    hide History, ReadsAs;
    NoMismatch(h, acts, p);
  }

  lemma MoveIsStep(h: Hash, s: Store, act: Action)
    requires Move(h, s, act).Some?
    ensures Step(h, s, act) == Move(h, s, act)
  {
  }

  /** A returned object reads back as the bytes it was stored from. */
  lemma StoredReads(h: Hash, acts: seq<Action>, bytes: Bytes)
    requires forall x, y :: h(x) == h(y) ==> x == y
    requires h(bytes) in History(h, acts).returned
    ensures Object(h(bytes)) in History(h, acts).disk.firm && ReadsAs(h, History(h, acts).disk, h(bytes), bytes)
  {
    HistoryInv(h, acts);
    var disk := History(h, acts).disk;
    assert Object(h(bytes)) in disk.firm && disk.dir[Object(h(bytes))] == disk.firm[Object(h(bytes))];
    EveryVisibleObjectIsSound(h, acts, h(bytes));
  }
}
