/** What every reachable state of the recovery machine keeps, crash or no crash. */
module RecoveryInvariant {
  import opened Optional
  import opened RecoveryMachine

  // ---------- the durable part ----------

  /** The journal row agrees with its request and with the archive bound at the archive path. */
  predicate RowOk(w: World, j: Journal) {
    && StaticRequest(w.home, j.request)
    && At(w, Named(j.request.archive)) == Some(Container(j.archiveDigest))
    && j.archiveDigest == Archive(j.request, j.snapshotDigest, w.file) && j.file == w.file
    && j.oldIdentity == OldIdentity(j.request) && j.targetIdentity == NewIdentity(j.request)
    && j.retiredIdentity == Tombstone(j.request.operation, j.archiveDigest)
    && j.snapshotDigest.identity == j.oldIdentity && RowIds(j.snapshotDigest) == DecidedIds(j.request)
  }

  /** A retired source is the archived snapshot under the tombstone; retirement precedes every later phase. */
  predicate SourceOk(w: World, j: Journal) {
    Rank(j.phase) > 0 || w.source.identity == j.retiredIdentity ==>
      w.source == WithIdentity(j.snapshotDigest, j.retiredIdentity)
  }

  function Accepted(j: Journal, which: Which): Cleanup {
    Cleanup(which, (if which.OldSession? then j.request.oldSession else j.request.newSession).clientId, true)
  }

  predicate LogOk(w: World, j: Journal) {
    && (Rank(j.phase) < 2 ==> w.cleanups == [])
    && (Rank(j.phase) < 4 ==> forall k :: 0 <= k < |w.cleanups| ==> w.cleanups[k].which.OldSession?)
    && (Rank(j.phase) >= 3 ==> Accepted(j, OldSession) in w.cleanups)
    && (Rank(j.phase) >= 5 ==> Accepted(j, NewSession) in w.cleanups)
    && (forall k :: 0 <= k < |w.cleanups| ==>
          w.cleanups[k] == Accepted(j, w.cleanups[k].which).(accepted := w.cleanups[k].accepted))
    && OldBeforeNew(w.cleanups, j)
  }

  /** Every handshake for the new session follows an accepted one for the old session. */
  predicate OldBeforeNew(log: seq<Cleanup>, j: Journal) {
    forall k :: 0 <= k < |log| && log[k].which.NewSession? ==> Accepted(j, OldSession) in log[..k]
  }

  predicate Shares(w: World, p: Path, q: Path) {
    p in w.names && q in w.names && w.names[p] == w.names[q]
  }

  /** No path a client could open leads to the file staged at `p`, except possibly the path `but`. */
  predicate PrivateBut(w: World, p: Path, but: Path) {
    forall q :: q in w.names && q.Named? && Shares(w, p, q) ==> q == but
  }

  predicate Private(w: World, p: Path) {
    forall q :: q in w.names && q.Named? ==> !Shares(w, p, q)
  }

  predicate StagingOk(w: World, j: Journal) {
    && (Rank(j.phase) < 6 ==> j.staged.None?)
    && (Rank(j.phase) >= 6 ==> j.staged.Some? && StageRecorded(w, j, j.staged.value))
    && (Rank(j.phase) >= 7 ==> HasIdentity(At(w, Named(j.request.target)), j.targetIdentity))
  }

  predicate StageRecorded(w: World, j: Journal, s: Staging) {
    && s.path.Temporary? && s.path.owner == j.request.target && s.path.serial < w.next
    && s.digest.store == Replacement(j.targetIdentity)
    && PrivateBut(w, s.path, Named(j.request.target))
    && (s.path in w.names && !Shares(w, s.path, Named(j.request.target)) ==> At(w, s.path) == Some(Database(s.digest)))
  }

  predicate JournalOk(w: World, j: Journal) {
    RowOk(w, j) && SourceOk(w, j) && LogOk(w, j) && StagingOk(w, j)
  }

  predicate WorldOk(w: World) {
    && FilesOk(w)
    && (w.journal.None? ==> w.cleanups == [])
    && (w.journal.Some? ==> JournalOk(w, w.journal.value))
  }

  // ---------- the volatile part ----------

  /** A process that has checked the source but not yet published its journal. */
  predicate Preparing(w: World, r: Request) {
    && w.journal.None? && StaticRequest(w.home, r)
    && w.source.identity == OldIdentity(r) && RowIds(w.source) == DecidedIds(r)
  }

  function OwnArchive(w: World, r: Request): Body { Container(Archive(r, w.source, w.file)) }

  /** A process that has opened its own journal over an untouched source. */
  predicate Opened(w: World, r: Request) {
    && w.journal.Some? && w.journal.value.request == r
    && w.source in {w.journal.value.snapshotDigest,
                    WithIdentity(w.journal.value.snapshotDigest, w.journal.value.retiredIdentity)}
  }

  predicate ProcessOk(w: World, p: Process) {
    match p
    case Idle(_) => true
    case Entered(r) => StaticRequest(w.home, r)
    case ArchiveStaged(r, stage) =>
      Preparing(w, r) && At(w, stage) == Some(OwnArchive(w, r)) && stage.Temporary?
    case ArchiveLinked(r, stage) =>
      Preparing(w, r) && At(w, Named(r.archive)) == Some(OwnArchive(w, r)) && stage.Temporary?
    case ArchiveReady(r) => Preparing(w, r) && At(w, Named(r.archive)) == Some(OwnArchive(w, r))
    case JournalStaged(r, stage, row) =>
      && Preparing(w, r) && At(w, Named(r.archive)) == Some(OwnArchive(w, r)) && stage.Temporary?
      && row == NewJournal(w, r, Archive(r, w.source, w.file))
    case JournalLinked(r, stage) =>
      StaticRequest(w.home, r) && w.journal.Some? && stage.Temporary? && Rank(w.journal.value.phase) < 6
    case Advancing(r) => Opened(w, r)
    case Cleaned(r) =>
      && Opened(w, r)
      && ((InPhase(w, OldCleanRequested) && Accepted(w.journal.value, OldSession) in w.cleanups)
          || (InPhase(w, NewCleanRequested) && Accepted(w.journal.value, NewSession) in w.cleanups))
    case ReplacementStaged(r, stage) =>
      && Opened(w, r) && (InPhase(w, NewCleanConfirmed) || InPhase(w, ReplacementReady))
      && stage.Temporary? && stage.owner == r.target && stage.serial < w.next && Private(w, stage)
      && At(w, stage).Some? && At(w, stage).value.Database?
      && At(w, stage).value.image.store == Replacement(w.journal.value.targetIdentity)
    case Publishing(r) =>
      && Opened(w, r) && InPhase(w, ReplacementReady)
      && w.journal.value.staged.Some? && w.journal.value.staged.value.path in w.names
      && Private(w, w.journal.value.staged.value.path)
    case Unlinking(r) => Opened(w, r) && TargetInPlace(w)
    case Unlinked(r) => Opened(w, r) && TargetInPlace(w)
  }

  predicate TargetInPlace(w: World) {
    && InPhase(w, ReplacementReady)
    && HasIdentity(At(w, Named(w.journal.value.request.target)), w.journal.value.targetIdentity)
  }

  // ---------- cleanup counting ----------

  function Count(log: seq<Cleanup>, which: Which): nat {
    if log == [] then 0 else Count(log[..|log| - 1], which) + (if log[|log| - 1].which == which then 1 else 0)
  }

  /** A window contributes one handshake once its phase is confirmed or its CONNACK was just accepted. */
  function Confirmed(s: System, which: Which): nat {
    var requested := if which.OldSession? then OldCleanRequested else NewCleanRequested;
    if s.world.journal.None? then 0
    else if Rank(s.world.journal.value.phase) > Rank(requested) then 1
    else if InPhase(s.world, requested) && s.process.Cleaned? then 1
    else 0
  }

  predicate CountsOk(s: System) {
    && Count(s.world.cleanups, OldSession) <= s.oldStops + Confirmed(s, OldSession)
    && Count(s.world.cleanups, NewSession) <= s.newStops + Confirmed(s, NewSession)
  }

  predicate Inv(s: System) {
    WorldOk(s.world) && ProcessOk(s.world, s.process) && CountsOk(s)
  }

  // ---------- preservation ----------

  lemma BindKeeps(w: World, p: Path, body: Body)
    requires WorldOk(w) && p !in w.names
    requires p.Temporary? ==> p.serial == w.next
    ensures WorldOk(Bind(w, p, body)) && At(Bind(w, p, body), p) == Some(body)
    ensures forall q :: q in w.names ==> At(Bind(w, p, body), q) == At(w, q)
    ensures forall q :: q in w.names ==> !Shares(Bind(w, p, body), p, q)
  {
    BindFiles(w, p, body);
    if w.journal.Some? {
      BindJournal(w, p, body, w.journal.value);
    }
  }

  lemma BindFiles(w: World, p: Path, body: Body)
    requires FilesOk(w) && p !in w.names && (p.Temporary? ==> p.serial == w.next)
    ensures FilesOk(Bind(w, p, body)) && At(Bind(w, p, body), p) == Some(body)
    ensures forall q :: q in w.names ==> At(Bind(w, p, body), q) == At(w, q)
    ensures forall q :: q in w.names ==> !Shares(Bind(w, p, body), p, q)
    ensures forall q, t :: q in w.names && t in w.names ==> Shares(Bind(w, p, body), q, t) == Shares(w, q, t)
  {
    var v := Bind(w, p, body);
    assert forall q :: q in w.names ==> v.names[q] == w.names[q] < w.next;
  }

  lemma BindJournal(w: World, p: Path, body: Body, j: Journal)
    requires FilesOk(w) && JournalOk(w, j) && p !in w.names && (p.Temporary? ==> p.serial == w.next)
    ensures JournalOk(Bind(w, p, body), j)
  {
    var v := Bind(w, p, body);
    BindFiles(w, p, body);
    assert RowOk(v, j) && SourceOk(v, j) && LogOk(v, j);
    if j.staged.Some? && Rank(j.phase) >= 6 {
      BindStage(w, p, body, j);
    }
  }

  lemma BindStage(w: World, p: Path, body: Body, j: Journal)
    requires FilesOk(w) && p !in w.names && (p.Temporary? ==> p.serial == w.next)
    requires j.staged.Some? && StageRecorded(w, j, j.staged.value)
    ensures StageRecorded(Bind(w, p, body), j, j.staged.value)
  {
    BindFiles(w, p, body);
  }

  lemma UnlinkKeeps(w: World, p: Path)
    requires WorldOk(w) && p.Temporary?
    ensures WorldOk(Unlink(w, p))
    ensures forall q :: q != p ==> At(Unlink(w, p), q) == At(w, q)
  {
    var v := Unlink(w, p);
    if w.journal.Some? && w.journal.value.staged.Some? {
      assert forall q, t :: q in v.names && t in v.names ==> Shares(v, q, t) == Shares(w, q, t);
    }
  }

  /** `v` is `w` after strangers created files or clients wrote stores they may open. */
  predicate Outlives(w: World, v: World) {
    && v.(names := w.names, inodes := w.inodes, next := w.next) == w && w.next <= v.next
    && (forall q :: q in w.names ==> q in v.names && v.names[q] == w.names[q])
    && (forall q :: q in v.names && q !in w.names ==> q.Named? && Private(w, q) && v.names[q] >= w.next)
    && (forall q :: q in w.names ==> At(v, q) == At(w, q) || (!Private(w, q) && SameOwner(At(w, q), At(v, q))))
  }

  predicate SameOwner(before: Option<Body>, after: Option<Body>) {
    && before.Some? && before.value.Database?
    && HasIdentity(after, before.value.image.store.identity)
  }

  lemma OutlivesShares(w: World, v: World)
    requires FilesOk(w) && Outlives(w, v)
    ensures forall p, q :: p in w.names && q in v.names ==> Shares(v, p, q) == Shares(w, p, q)
  {
  }

  lemma OutlivesWorld(w: World, v: World)
    requires WorldOk(w) && FilesOk(v) && Outlives(w, v)
    ensures WorldOk(v)
  {
    OutlivesShares(w, v);
    if w.journal.Some? {
      var j := w.journal.value;
      assert RowOk(v, j);
      if j.staged.Some? {
        OutlivesStage(w, v, j);
      }
    }
  }

  lemma OutlivesStage(w: World, v: World, j: Journal)
    requires FilesOk(w) && FilesOk(v) && Outlives(w, v)
    requires j.staged.Some? && StageRecorded(w, j, j.staged.value)
    ensures StageRecorded(v, j, j.staged.value)
  {
    OutlivesShares(w, v);
    var p := j.staged.value.path;
    if p in v.names && !Shares(v, p, Named(j.request.target)) {
      assert p in w.names;
      assert forall q :: q in w.names && q.Named? && Shares(w, p, q) ==> q == Named(j.request.target);
      assert Private(w, p);
    }
  }

  lemma OutlivesProcess(w: World, v: World, p: Process)
    requires FilesOk(w) && FilesOk(v) && Outlives(w, v) && ProcessOk(w, p)
    ensures ProcessOk(v, p)
  {
    OutlivesShares(w, v);
  }

  lemma AppearOutlives(w: World, name: string, body: Body)
    requires FilesOk(w) && Named(name) !in w.names
    ensures Outlives(w, Bind(w, Named(name), body)) && FilesOk(Bind(w, Named(name), body))
  {
  }

  lemma AppearKeeps(s: System, name: string, body: Body)
    requires Inv(s)
    ensures Inv(Step(s, Appear(name, body)))
  {
    var w, v := s.world, Step(s, Appear(name, body)).world;
    if v != w {
      AppearOutlives(w, name, body);
      OutlivesKeeps(s, v);
    }
  }

  lemma OutlivesKeeps(s: System, v: World)
    requires Inv(s) && FilesOk(v) && Outlives(s.world, v)
    ensures Inv(s.(world := v))
  {
    OutlivesWorld(s.world, v);
    OutlivesProcess(s.world, v, s.process);
  }

  lemma SourceClientKeeps(s: System, store: Store)
    requires Inv(s)
    ensures Inv(Step(s, SourceClient(store)))
  {
  }

  lemma OutboxClientOutlives(w: World, name: string, image: Image, store: Store, salt: nat)
    requires FilesOk(w) && At(w, Named(name)) == Some(Database(image)) && ClientMay(image.store, store)
    ensures var v := w.(inodes := w.inodes[w.names[Named(name)] := Database(Image(store, salt))]);
            Outlives(w, v) && FilesOk(v)
  {
    var n := Named(name);
    var v := w.(inodes := w.inodes[w.names[n] := Database(Image(store, salt))]);
    forall q | q in w.names
      ensures At(v, q) == At(w, q) || (!Private(w, q) && SameOwner(At(w, q), At(v, q)))
    {
      if w.names[q] == w.names[n] {
        assert Shares(w, q, n);
      }
    }
  }

  lemma OutboxClientKeeps(s: System, name: string, store: Store, salt: nat)
    requires Inv(s)
    ensures Inv(Step(s, OutboxClient(name, store, salt)))
  {
    var w, v := s.world, Step(s, OutboxClient(name, store, salt)).world;
    if v != w {
      OutboxClientOutlives(w, name, At(w, Named(name)).value.image, store, salt);
      OutlivesKeeps(s, v);
    }
  }

  lemma LaunchKeeps(s: System, r: Request)
    requires Inv(s)
    ensures Inv(Step(s, Launch(r)))
  {
  }

  lemma KillKeeps(s: System)
    requires Inv(s)
    ensures Inv(Step(s, Kill))
  {
  }

  // Each of the next lemmas takes one kind of step of the running process.

  predicate Good(m: Move) { WorldOk(m.world) && ProcessOk(m.world, m.process) }

  lemma EnteredKeeps(w: World, r: Request)
    requires WorldOk(w) && ProcessOk(w, Entered(r))
    ensures Good(Proceed(w, Entered(r), 0, false))
  {
    if w.journal.None? && Named(r.archive) !in w.names {
      BindKeeps(w, Temporary(r.archive, w.next), OwnArchive(w, r));
    }
  }

  lemma ArchiveStagedKeeps(w: World, r: Request, stage: Path)
    requires WorldOk(w) && ProcessOk(w, ArchiveStaged(r, stage))
    ensures Good(PublishArchive(w, r, stage))
  {
    UnlinkKeeps(w, stage);
  }

  lemma ArchiveLinkedKeeps(w: World, r: Request, stage: Path)
    requires WorldOk(w) && ProcessOk(w, ArchiveLinked(r, stage))
    ensures Good(Move(Unlink(w, stage), ArchiveReady(r)))
  {
    UnlinkKeeps(w, stage);
  }

  lemma ArchiveReadyKeeps(w: World, r: Request)
    requires WorldOk(w) && ProcessOk(w, ArchiveReady(r))
    ensures Good(StageJournal(w, r))
  {
    BindKeeps(w, Temporary(SidecarPath(w.home), w.next), Other(0));
  }

  lemma JournalKeeps(w: World, p: Process)
    requires WorldOk(w) && ProcessOk(w, p)
    requires p.JournalStaged? || p.JournalLinked?
    ensures Good(Proceed(w, p, 0, false))
  {
    UnlinkKeeps(w, p.stage);
  }

  lemma AppendedLog(log: seq<Cleanup>, c: Cleanup, j: Journal)
    requires OldBeforeNew(log, j)
    requires c.which.NewSession? ==> Accepted(j, OldSession) in log
    ensures OldBeforeNew(log + [c], j)
  {
    var log' := log + [c];
    forall k | 0 <= k < |log'| && log'[k].which.NewSession?
      ensures Accepted(j, OldSession) in log'[..k]
    {
      assert log'[..k] == log[..k];
      assert log[..|log|] == log;
    }
  }

  lemma CleanKeeps(w: World, r: Request, which: Which, accepted: bool)
    requires WorldOk(w) && Opened(w, r)
    requires InPhase(w, if which.OldSession? then OldCleanRequested else NewCleanRequested)
    ensures Good(Clean(w, r, which, accepted))
  {
    var j := w.journal.value;
    var c := Accepted(j, which).(accepted := accepted);
    AppendedLog(w.cleanups, c, j);
    var v := w.(cleanups := w.cleanups + [c]);
    assert LogOk(v, j);
    assert RowOk(v, j) && StagingOk(v, j);
  }

  lemma StageReplacementKeeps(w: World, r: Request, salt: nat)
    requires WorldOk(w) && Opened(w, r) && (InPhase(w, NewCleanConfirmed) || InPhase(w, ReplacementReady))
    ensures Good(StageReplacement(w, r, w.journal.value, salt))
  {
    BindKeeps(w, Temporary(r.target, w.next), Database(Image(Replacement(w.journal.value.targetIdentity), salt)));
  }

  lemma ReadyKeeps(w: World, r: Request, salt: nat)
    requires WorldOk(w) && Opened(w, r) && InPhase(w, ReplacementReady)
    ensures Good(Ready(w, r, w.journal.value, salt))
  {
    if Named(r.target) !in w.names {
      StageReplacementKeeps(w, r, salt);
    }
  }

  /** A phase commit that records no staging file. */
  lemma CommitKeeps(w: World, phase: Phase)
    requires WorldOk(w) && w.journal.Some?
    requires Rank(phase) == Rank(w.journal.value.phase) + 1 && !phase.ReplacementReady?
    requires SourceOk(w, w.journal.value.(phase := phase)) && LogOk(w, w.journal.value.(phase := phase))
    requires phase.ReplacementPublished? ==> TargetInPlace(w)
    ensures WorldOk(Commit(w, w.journal.value, phase))
  {
    var j := w.journal.value;
    var j', v := j.(phase := phase), Commit(w, j, phase);
    assert RowOk(v, j');
    assert StagingOk(v, j');
  }

  /** The source transaction and, once it is done, the commit that says so. */
  lemma RetiringKeeps(w: World, r: Request)
    requires WorldOk(w) && Opened(w, r) && InPhase(w, Prepared)
    ensures Good(Advance(w, r, w.journal.value, 0, false))
  {
    var j := w.journal.value;
    if w.source.identity == j.oldIdentity {
      var v := w.(source := WithIdentity(w.source, j.retiredIdentity));
      assert RowOk(v, j) && LogOk(v, j) && StagingOk(v, j);
    } else {
      CommitKeeps(w, SourceRetired);
    }
  }

  lemma AdvancingKeeps(w: World, r: Request, salt: nat, accepted: bool)
    requires WorldOk(w) && Opened(w, r)
    ensures Good(Advance(w, r, w.journal.value, salt, accepted))
  {
    var j := w.journal.value;
    match j.phase
    case Prepared => RetiringKeeps(w, r);
    case SourceRetired => CommitKeeps(w, OldCleanRequested);
    case OldCleanRequested => CleanKeeps(w, r, OldSession, accepted);
    case OldCleanConfirmed => CommitKeeps(w, NewCleanRequested);
    case NewCleanRequested => CleanKeeps(w, r, NewSession, accepted);
    case NewCleanConfirmed => StageReplacementKeeps(w, r, salt);
    case ReplacementReady => ReadyKeeps(w, r, salt);
    case ReplacementPublished => CommitKeeps(w, Complete);
    case Complete =>
  }

  lemma CleanedKeeps(w: World, r: Request)
    requires WorldOk(w) && ProcessOk(w, Cleaned(r))
    ensures Good(Proceed(w, Cleaned(r), 0, false))
  {
    CommitKeeps(w, ConfirmedPhase(w.journal.value.phase));
  }

  lemma RecordedRow(w: World, v: World, j: Journal, staged: Staging)
    requires FilesOk(w) && w.journal.Some? && JournalOk(w, w.journal.value)
        && (InPhase(w, NewCleanConfirmed) || InPhase(w, ReplacementReady))
    requires j == w.journal.value.(phase := ReplacementReady, staged := Some(staged)) && v == w.(journal := Some(j))
    ensures FilesOk(v) && RowOk(v, j) && SourceOk(v, j) && LogOk(v, j)
  {
  }

  /** Recording the stage in the journal moves no file. */
  lemma RecordedFiles(w: World, v: World, r: Request, stage: Path, image: Image)
    requires WorldOk(w) && Opened(w, r) && (InPhase(w, NewCleanConfirmed) || InPhase(w, ReplacementReady))
    requires stage.Temporary? && stage.owner == r.target && stage.serial < w.next && Private(w, stage)
    requires At(w, stage) == Some(Database(image)) && image.store == Replacement(w.journal.value.targetIdentity)
    requires v == w.(journal := Some(w.journal.value.(phase := ReplacementReady,
        staged := Some(Staging(stage, image)))))
    ensures WorldOk(v) && Private(v, stage)
  {
    var j := v.journal.value;
    RecordedRow(w, v, j, j.staged.value);
    RecordedStage(w, v, j, stage, image);
  }

  lemma RecordedStage(w: World, v: World, j: Journal, stage: Path, image: Image)
    requires v == w.(journal := Some(j)) && j.staged == Some(Staging(stage, image))
    requires stage.Temporary? && stage.owner == j.request.target && stage.serial < w.next && Private(w, stage)
    requires At(w, stage) == Some(Database(image)) && image.store == Replacement(j.targetIdentity)
    ensures StageRecorded(v, j, j.staged.value) && Private(v, stage)
  {
    assert forall p, q :: Shares(v, p, q) == Shares(w, p, q);
  }

  lemma RecordStageKeeps(w: World, r: Request, stage: Path)
    requires WorldOk(w) && ProcessOk(w, ReplacementStaged(r, stage))
    ensures Good(RecordStage(w, r, w.journal.value, stage))
  {
    var j := w.journal.value;
    var image := At(w, stage).value.image;
    RecordedFiles(w, w.(journal := Some(j.(phase := ReplacementReady, staged := Some(Staging(stage, image))))), r,
        stage, image);
  }

  lemma PublishingKeeps(w: World, r: Request)
    requires WorldOk(w) && ProcessOk(w, Publishing(r))
    ensures Good(PublishTarget(w, r, w.journal.value))
  {
    var j := w.journal.value;
    var stage, target := j.staged.value.path, Named(r.target);
    if target !in w.names {
      var v := Link(w, stage, target);
      LinkFiles(w, stage, target);
      assert RowOk(v, j) && SourceOk(v, j) && LogOk(v, j);
      LinkStage(w, j);
    }
  }

  lemma LinkFiles(w: World, stage: Path, target: Path)
    requires FilesOk(w) && stage in w.names && target !in w.names && target.Named?
    ensures FilesOk(Link(w, stage, target)) && At(Link(w, stage, target), target) == At(w, stage)
    ensures forall q :: q in w.names ==> At(Link(w, stage, target), q) == At(w, q)
  {
  }

  lemma LinkStage(w: World, j: Journal)
    requires FilesOk(w) && j.staged.Some? && StageRecorded(w, j, j.staged.value) && j.staged.value.path in w.names
    requires Private(w, j.staged.value.path) && Named(j.request.target) !in w.names
    ensures var v := Link(w, j.staged.value.path, Named(j.request.target));
            StageRecorded(v, j, j.staged.value) && HasIdentity(At(v, Named(j.request.target)), j.targetIdentity)
  {
    var stage, target := j.staged.value.path, Named(j.request.target);
    var v := Link(w, stage, target);
    assert forall q :: q in v.names && q.Named? && Shares(v, stage, q) ==> q == target || Shares(w, stage, q);
    assert At(v, target) == At(w, stage) && !Shares(w, stage, target);
  }

  lemma UnlinkingKeeps(w: World, r: Request)
    requires WorldOk(w) && ProcessOk(w, Unlinking(r))
    ensures Good(Proceed(w, Unlinking(r), 0, false))
  {
    UnlinkKeeps(w, w.journal.value.staged.value.path);
  }

  lemma UnlinkedKeeps(w: World, r: Request)
    requires WorldOk(w) && ProcessOk(w, Unlinked(r))
    ensures Good(Proceed(w, Unlinked(r), 0, false))
  {
    CommitKeeps(w, ReplacementPublished);
  }

  lemma ProceedKeeps(w: World, p: Process, salt: nat, accepted: bool)
    requires WorldOk(w) && ProcessOk(w, p)
    ensures Good(Proceed(w, p, salt, accepted))
  {
    match p
    case Idle(_) =>
    case Entered(r) => EnteredKeeps(w, r);
    case ArchiveStaged(r, stage) => ArchiveStagedKeeps(w, r, stage);
    case ArchiveLinked(r, stage) => ArchiveLinkedKeeps(w, r, stage);
    case ArchiveReady(r) => ArchiveReadyKeeps(w, r);
    case JournalStaged(_, _, _) | JournalLinked(_, _) => JournalKeeps(w, p);
    case Advancing(r) => AdvancingKeeps(w, r, salt, accepted);
    case Cleaned(r) => CleanedKeeps(w, r);
    case ReplacementStaged(r, stage) => RecordStageKeeps(w, r, stage);
    case Publishing(r) => PublishingKeeps(w, r);
    case Unlinking(r) => UnlinkingKeeps(w, r);
    case Unlinked(r) => UnlinkedKeeps(w, r);
  }

  lemma {:induction false} CountAppended(log: seq<Cleanup>, c: Cleanup, which: Which)
    ensures Count(log + [c], which) == Count(log, which) + (if c.which == which then 1 else 0)
  {
    assert (log + [c])[..|log + [c]| - 1] == log;
  }

  function RankOf(w: World): int { if w.journal.None? then -1 else Rank(w.journal.value.phase) }

  predicate InWindow(w: World, p: Process) {
    p.Advancing? && (InPhase(w, OldCleanRequested) || InPhase(w, NewCleanRequested))
  }

  /** How one step moves the phase: forward by at most one, and past a window only from `Cleaned`. */
  predicate PhaseEffect(w: World, p: Process, m: Move) {
    && (RankOf(m.world) == RankOf(w) || RankOf(m.world) == RankOf(w) + 1)
    && (p.Cleaned? ==> RankOf(m.world) == RankOf(w) + 1)
    && (InWindow(w, p) ==> m.world.journal == w.journal)
    && (!InWindow(w, p) ==> m.world.cleanups == w.cleanups)
  }

  lemma AdvancePhase(w: World, r: Request, salt: nat, accepted: bool)
    requires w.journal.Some?
    ensures PhaseEffect(w, Advancing(r), Advance(w, r, w.journal.value, salt, accepted))
  {
  }

  /** The little of the invariant that the phase of a step depends on. */
  predicate PhaseOk(w: World, p: Process) {
    match p
    case Cleaned(_) => InPhase(w, OldCleanRequested) || InPhase(w, NewCleanRequested)
    case ReplacementStaged(_, _) => InPhase(w, NewCleanConfirmed) || InPhase(w, ReplacementReady)
    case Unlinked(_) => InPhase(w, ReplacementReady)
    case JournalStaged(_, _, row) => row.phase.Prepared?
    case _ => true
  }

  lemma ProceedPhase(w: World, p: Process, salt: nat, accepted: bool)
    requires PhaseOk(w, p)
    ensures PhaseEffect(w, p, Proceed(w, p, salt, accepted))
  {
    match p
    case Advancing(r) =>
      if w.journal.Some? {
        AdvancePhase(w, r, salt, accepted);
      }
    case Entered(r) => EnteredPhase(w, r);
    case _ =>
  }

  lemma EnteredPhase(w: World, r: Request)
    ensures PhaseEffect(w, Entered(r), Proceed(w, Entered(r), 0, false))
  {
  }

  /** A handshake adds one attempt and either earns its confirmation or stops the process in its window. */
  lemma HandshakeCounts(s: System, t: System, which: Which, c: Cleanup)
    requires CountsOk(s) && s.process.Advancing?
        && InPhase(s.world, if which.OldSession? then OldCleanRequested else NewCleanRequested)
    requires c.which == which && t.world == s.world.(cleanups := s.world.cleanups + [c])
    requires t.process.Cleaned? || t.process.Idle?
    requires t.oldStops == s.oldStops + (if which.OldSession? && t.process.Idle? then 1 else 0)
    requires t.newStops == s.newStops + (if which.NewSession? && t.process.Idle? then 1 else 0)
    ensures CountsOk(t)
  {
    CountAppended(s.world.cleanups, c, OldSession);
    CountAppended(s.world.cleanups, c, NewSession);
  }

  /** A handshake is paid for by the confirmation it earns or by the stop it causes. */
  lemma WindowCounts(s: System, salt: nat, accepted: bool)
    requires CountsOk(s) && InWindow(s.world, s.process) && Acting(s.world, s.process)
    ensures CountsOk(Settle(s, Proceed(s.world, s.process, salt, accepted)))
  {
    var w, r := s.world, s.process.request;
    var which := if w.journal.value.phase.OldCleanRequested? then OldSession else NewSession;
    var c := Cleanup(which, if which.OldSession? then r.oldSession.clientId else r.newSession.clientId, accepted);
    assert Proceed(w, s.process, salt, accepted) == Clean(w, r, which, accepted);
    HandshakeCounts(s, Settle(s, Clean(w, r, which, accepted)), which, c);
  }

  lemma SettleCounts(s: System, m: Move)
    requires CountsOk(s) && !s.process.Idle? && !InWindow(s.world, s.process)
    requires m.world.cleanups == s.world.cleanups
    requires RankOf(m.world) == RankOf(s.world) || RankOf(m.world) == RankOf(s.world) + 1
    requires s.process.Cleaned? ==> RankOf(m.world) == RankOf(s.world) + 1
    ensures CountsOk(Settle(s, m))
  {
    var s' := Settle(s, m);
    assert Confirmed(s', OldSession) + (s'.oldStops - s.oldStops) >= Confirmed(s, OldSession);
    assert Confirmed(s', NewSession) + (s'.newStops - s.newStops) >= Confirmed(s, NewSession);
  }

  /** Every step, whoever takes it, keeps the invariant. */
  lemma StepKeeps(s: System, i: Input)
    requires Inv(s)
    ensures Inv(Step(s, i))
  {
    match i
    case Launch(r) => LaunchKeeps(s, r);
    case Kill => KillKeeps(s);
    case Appear(name, body) => AppearKeeps(s, name, body);
    case SourceClient(store) => SourceClientKeeps(s, store);
    case OutboxClient(name, store, salt) => OutboxClientKeeps(s, name, store, salt);
    case Go(salt, accepted) =>
      ProceedKeeps(s.world, s.process, salt, accepted);
      if !s.process.Idle? {
        assert PhaseOk(s.world, s.process);
        ProceedPhase(s.world, s.process, salt, accepted);
        if InWindow(s.world, s.process) {
          WindowCounts(s, salt, accepted);
        } else {
          SettleCounts(s, Proceed(s.world, s.process, salt, accepted));
        }
      }
  }

  lemma {:induction false} RunKeeps(s: System, inputs: seq<Input>)
    requires Inv(s)
    ensures Inv(Run(s, inputs))
    decreases |inputs|
  {
    if inputs != [] {
      StepKeeps(s, inputs[0]);
      RunKeeps(Step(s, inputs[0]), inputs[1..]);
    }
  }
}
