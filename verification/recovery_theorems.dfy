/** The guarantees of the recovery protocol over every run, with a crash between any two effects. */
module RecoveryTheorems {
  import opened Optional
  import opened RecoveryMachine
  import opened RecoveryInvariant

  lemma InitialInv(w: World)
    requires Initial(w)
    ensures Inv(Start(w))
  {
  }

  // ---------- nothing is undone or overwritten ----------

  function Frozen(j: Journal): Journal { j.(phase := Prepared, staged := None) }

  /** Everything a later state owes to an earlier one. */
  predicate Extends(w: World, v: World) {
    && v.home == w.home && v.file == w.file
    && RankOf(w) <= RankOf(v)
    && (w.journal.Some? ==> v.journal.Some? && Frozen(v.journal.value) == Frozen(w.journal.value))
    && w.cleanups <= v.cleanups
    && PathsKept(w, v)
    && (w.source.identity.Tombstone? ==> v.source == w.source)
    && (v.source.identity != w.source.identity ==>
          && v.journal.Some? && w.source.identity == v.journal.value.oldIdentity
          && v.source.identity == v.journal.value.retiredIdentity)
  }

  /** A caller's path keeps its file; only a client that owns an outbox changes what the file holds. */
  predicate PathsKept(w: World, v: World) {
    forall p :: p in w.names && p.Named? ==>
      && p in v.names && v.names[p] == w.names[p]
      && (At(v, p) == At(w, p) || SameOwner(At(w, p), At(v, p)))
  }

  lemma ExtendsTransitive(u: World, v: World, w: World)
    requires Extends(u, v) && Extends(v, w)
    ensures Extends(u, w)
  {
    assert forall p :: p in u.names && p.Named? ==> p in v.names;
  }

  /** New files and links never rebind a path, and only temporary paths are unlinked. */
  lemma FilesKeepPaths(w: World, p: Path, q: Path, body: Body)
    requires FilesOk(w)
    ensures p.Temporary? && p.serial >= w.next ==> PathsKept(w, Bind(w, p, body))
    ensures q !in w.names ==> PathsKept(w, Link(w, p, q))
    ensures p.Temporary? ==> PathsKept(w, Unlink(w, p))
  {
  }

  lemma AdvanceKeepsPaths(w: World, r: Request, salt: nat, accepted: bool)
    requires FilesOk(w) && w.journal.Some?
    ensures PathsKept(w, Advance(w, r, w.journal.value, salt, accepted).world)
  {
    AdvanceFiles(w, r, w.journal.value, salt, accepted);
    FilesKeepPaths(w, Temporary(r.target, w.next), Named(r.target),
        Database(Image(Replacement(w.journal.value.targetIdentity), salt)));
  }

  /** Between opening the journal and publishing, the only file effect is a new staging file. */
  lemma AdvanceFiles(w: World, r: Request, j: Journal, salt: nat, accepted: bool)
    ensures var v := Advance(w, r, j, salt, accepted).world;
            (v.names == w.names && v.inodes == w.inodes) || v == StageReplacement(w, r, j, salt).world
  {
  }

  lemma PublishKeepsPaths(w: World, p: Process)
    requires FilesOk(w) && w.journal.Some?
        && (p.Cleaned? || p.ReplacementStaged? || p.Publishing? || p.Unlinking? || p.Unlinked?)
    requires p.Unlinking? && w.journal.value.staged.Some? ==> w.journal.value.staged.value.path.Temporary?
    ensures PathsKept(w, AfterOpen(w, p, w.journal.value, 0, false).world)
  {
    PublishFiles(w, p, w.journal.value);
    var j := w.journal.value;
    if j.staged.Some? {
      FilesKeepPaths(w, j.staged.value.path, Named(p.request.target), Other(0));
    }
  }

  /** While publishing, a step links the stage at the unbound target, unlinks the stage or touches no file. */
  lemma PublishFiles(w: World, p: Process, j: Journal)
    requires p.Cleaned? || p.ReplacementStaged? || p.Publishing? || p.Unlinking? || p.Unlinked?
    ensures var v := AfterOpen(w, p, j, 0, false).world;
            || (v.names == w.names && v.inodes == w.inodes)
            || (j.staged.Some? && Named(p.request.target) !in w.names
                && v == Link(w, j.staged.value.path, Named(p.request.target)))
            || (p.Unlinking? && j.staged.Some? && v == Unlink(w, j.staged.value.path))
  {
  }

  lemma PrepareKeepsPaths(w: World, p: Process)
    requires FilesOk(w) && (p.ArchiveStaged? || p.ArchiveLinked? || p.JournalStaged? || p.JournalLinked?
        ==> p.stage.Temporary?)
    requires p.Entered? || p.ArchiveStaged? || p.ArchiveLinked? || p.ArchiveReady? || p.JournalStaged?
        || p.JournalLinked?
    ensures PathsKept(w, Proceed(w, p, 0, false).world)
  {
    if p.Entered? || p.ArchiveReady? {
      StagingKeepsPaths(w, p);
    } else {
      PrepareFiles(w, p);
      FilesKeepPaths(w, p.stage, Named(p.request.archive), Other(0));
    }
  }

  /** A process that holds a stage links it at the unbound archive path, unlinks it or touches no file. */
  lemma PrepareFiles(w: World, p: Process)
    requires p.ArchiveStaged? || p.ArchiveLinked? || p.JournalStaged? || p.JournalLinked?
    ensures var v := Proceed(w, p, 0, false).world;
            || (v.names == w.names && v.inodes == w.inodes)
            || (Named(p.request.archive) !in w.names && v == Link(w, p.stage, Named(p.request.archive)))
            || v == Unlink(w, p.stage)
  {
  }

  lemma StagingKeepsPaths(w: World, p: Process)
    requires FilesOk(w) && (p.Entered? || p.ArchiveReady?)
    ensures PathsKept(w, Proceed(w, p, 0, false).world)
  {
    StagingFiles(w, p);
    var owner := if p.Entered? then p.request.archive else SidecarPath(w.home);
    var body := if p.Entered? then OwnArchive(w, p.request) else Other(0);
    FilesKeepPaths(w, Temporary(owner, w.next), Temporary(owner, w.next), body);
  }

  /** Preparing an archive or a journal makes at most one new staging file. */
  lemma StagingFiles(w: World, p: Process)
    requires p.Entered? || p.ArchiveReady?
    ensures var v := Proceed(w, p, 0, false).world;
            || v == w
            || v == if p.Entered? then Bind(w, Temporary(p.request.archive, w.next), OwnArchive(w, p.request))
                    else Bind(w, Temporary(SidecarPath(w.home), w.next), Other(0))
  {
  }

  lemma ProceedKeepsPaths(w: World, p: Process, salt: nat, accepted: bool)
    requires FilesOk(w) && (p.ArchiveStaged? || p.ArchiveLinked? || p.JournalStaged? || p.JournalLinked?
        ==> p.stage.Temporary?)
    requires p.Unlinking? && w.journal.Some? && w.journal.value.staged.Some?
        ==> w.journal.value.staged.value.path.Temporary?
    ensures PathsKept(w, Proceed(w, p, salt, accepted).world)
  {
    match p
    case Advancing(r) => if w.journal.Some? { AdvanceKeepsPaths(w, r, salt, accepted); }
    case Cleaned(_) | ReplacementStaged(_, _) | Publishing(_) | Unlinking(_) | Unlinked(_) =>
      if w.journal.Some? { PublishKeepsPaths(w, p); }
    case Idle(_) =>
    case _ => PrepareKeepsPaths(w, p);
  }

  /** What one step of the process does to the rest of the world. */
  predicate RowKept(w: World, v: World) {
    && v.home == w.home && v.file == w.file && w.cleanups <= v.cleanups
    && (w.journal.Some? ==> v.journal.Some? && Frozen(v.journal.value) == Frozen(w.journal.value))
    && (v.source == w.source || (w.journal.Some? && w.source.identity == w.journal.value.oldIdentity
                                 && v.source == WithIdentity(w.source, w.journal.value.retiredIdentity)))
  }

  lemma AdvanceKeepsRow(w: World, r: Request, salt: nat, accepted: bool)
    requires w.journal.Some?
    ensures RowKept(w, Advance(w, r, w.journal.value, salt, accepted).world)
  {
  }

  lemma ProceedKeepsRow(w: World, p: Process, salt: nat, accepted: bool)
    ensures RowKept(w, Proceed(w, p, salt, accepted).world)
  {
    match p
    case Advancing(r) =>
      if w.journal.Some? {
        AdvanceKeepsRow(w, r, salt, accepted);
      }
    case _ =>
  }

  lemma GoExtends(s: System, salt: nat, accepted: bool)
    requires Inv(s)
    ensures Extends(s.world, Step(s, Go(salt, accepted)).world)
  {
    var w := s.world;
    assert PhaseOk(w, s.process);
    ProceedPhase(w, s.process, salt, accepted);
    ProceedKeepsPaths(w, s.process, salt, accepted);
    ProceedKeepsRow(w, s.process, salt, accepted);
  }

  lemma OutsideExtends(s: System, i: Input)
    requires Inv(s) && (i.Appear? || i.SourceClient? || i.OutboxClient?)
    ensures Extends(s.world, Step(s, i).world)
  {
    if Step(s, i).world != s.world {
      match i
      case Appear(name, body) =>
        AppearOutlives(s.world, name, body);
        OutlivesExtends(s.world, Step(s, i).world);
      case OutboxClient(name, store, salt) =>
        OutboxClientOutlives(s.world, name, At(s.world, Named(name)).value.image, store, salt);
        OutlivesExtends(s.world, Step(s, i).world);
      case SourceClient(_) =>
    }
  }

  lemma OutlivesExtends(w: World, v: World)
    requires Outlives(w, v)
    ensures Extends(w, v)
  {
  }

  /** One step of anybody. */
  lemma StepExtends(s: System, i: Input)
    requires Inv(s)
    ensures Extends(s.world, Step(s, i).world)
  {
    match i
    case Go(salt, accepted) => GoExtends(s, salt, accepted);
    case Appear(_, _) | SourceClient(_) | OutboxClient(_, _, _) => OutsideExtends(s, i);
    case _ =>
  }

  lemma {:induction false} RunExtends(s: System, inputs: seq<Input>)
    requires Inv(s)
    ensures Extends(s.world, Run(s, inputs).world)
    decreases |inputs|
  {
    if inputs != [] {
      StepKeeps(s, inputs[0]);
      StepExtends(s, inputs[0]);
      RunExtends(Step(s, inputs[0]), inputs[1..]);
      ExtendsTransitive(s.world, Step(s, inputs[0]).world, Run(s, inputs).world);
    }
  }

  // ---------- fencing, order and conservation ----------

  /** The source is the archived snapshot and carries this operation's tombstone. */
  predicate RetiredAsArchived(w: World, j: Journal) {
    && At(w, Named(j.request.archive)) == Some(Container(j.archiveDigest))
    && j.archiveDigest.snapshot.identity == OldIdentity(j.request)
    && w.source == WithIdentity(j.archiveDigest.snapshot, Tombstone(j.request.operation, j.archiveDigest))
  }

  /**
   Fencing and order, in every reachable state: a handshake was sent only after
   the source was retired with every archived row in place; a new-session
   handshake only after an accepted old-session one, each for its own client id;
   and only processes that stopped inside a window repeat its handshake.
   */
  lemma {:induction false} Fencing(w0: World, inputs: seq<Input>)
    requires Initial(w0)
    ensures var s := Run(Start(w0), inputs); var w := s.world;
            w.cleanups != [] ==>
              && w.journal.Some? && var j := w.journal.value;
              && RetiredAsArchived(w, j)
              && (forall k :: 0 <= k < |w.cleanups| ==>
                    w.cleanups[k].clientId ==
                      (if w.cleanups[k].which.OldSession? then j.request.oldSession else j.request.newSession).clientId)
              && (forall k :: 0 <= k < |w.cleanups| && w.cleanups[k].which.NewSession? ==>
                    Cleanup(OldSession, j.request.oldSession.clientId, true) in w.cleanups[..k])
              && Count(w.cleanups, OldSession) <= 1 + s.oldStops && Count(w.cleanups, NewSession) <= 1 + s.newStops
  {
    InitialInv(w0);
    RunKeeps(Start(w0), inputs);
    var w := Run(Start(w0), inputs).world;
    if w.cleanups != [] {
      var j := w.journal.value;
      assert LogOk(w, j);
      forall k | 0 <= k < |w.cleanups| && w.cleanups[k].which.NewSession?
        ensures Cleanup(OldSession, j.request.oldSession.clientId, true) in w.cleanups[..k]
      {
        assert Accepted(j, OldSession) in w.cleanups[..k];
      }
    }
  }

  /** A retired source is the archive's snapshot for ever, whatever happens next. */
  lemma {:induction false} Conservation(w0: World, before: seq<Input>, after: seq<Input>)
    requires Initial(w0)
    requires var w := Run(Start(w0), before).world;
             w.journal.Some? && w.source.identity == w.journal.value.retiredIdentity
    ensures var w := Run(Start(w0), before).world; var v := Run(Run(Start(w0), before), after).world;
            && RetiredAsArchived(w, w.journal.value) && v.source == w.source
            && v.journal.Some? && Frozen(v.journal.value) == Frozen(w.journal.value)
            && RetiredAsArchived(v, v.journal.value)
            && Rank(w.journal.value.phase) <= Rank(v.journal.value.phase)
  {
    InitialInv(w0);
    RunKeeps(Start(w0), before);
    RunExtends(Run(Start(w0), before), after);
    RunKeeps(Run(Start(w0), before), after);
  }

  /** The paths a process binds: the archive while preparing, the empty replacement from `ReplacementReady` on. */
  lemma OnlyPublishes(s: System, salt: nat, accepted: bool, p: Path)
    requires Inv(s) && p.Named?
    requires p !in s.world.names && p in Step(s, Go(salt, accepted)).world.names
    ensures var w, v := s.world, Step(s, Go(salt, accepted)).world;
            && v.next == w.next
            && if w.journal.None? then
                 s.process.ArchiveStaged? && p == Named(s.process.request.archive)
                     && At(v, p) == Some(OwnArchive(w, s.process.request))
               else
                 && w.journal.value.phase == ReplacementReady && p == Named(w.journal.value.request.target)
                 && At(v, p).Some? && At(v, p).value.Database?
                 && At(v, p).value.image.store == Store(NewIdentity(w.journal.value.request), 1, false, [])
  {
    var w := s.world;
    BindsWhileLinking(w, s.process, salt, accepted, p);
    if s.process.Publishing? {
      assert StageRecorded(w, w.journal.value, w.journal.value.staged.value);
    } else {
      assert Preparing(w, s.process.request);
    }
  }

  lemma BindsWhileLinking(w: World, p: Process, salt: nat, accepted: bool, q: Path)
    requires q.Named? && q !in w.names && q in Proceed(w, p, salt, accepted).world.names
    ensures (p.ArchiveStaged? && q == Named(p.request.archive)) || (p.Publishing? && q == Named(p.request.target))
  {
    if p.Advancing? && w.journal.Some? {
      AdvancingBindsNothing(w, p.request, salt, accepted, q);
    }
  }

  lemma AdvancingBindsNothing(w: World, r: Request, salt: nat, accepted: bool, p: Path)
    requires w.journal.Some? && p.Named? && p !in w.names
    ensures p !in Advance(w, r, w.journal.value, salt, accepted).world.names
  {
  }

  /** Once a journal exists, launching any other request changes nothing, however far it gets. */
  lemma {:induction false} OtherRequestsAreInert(s: System, r: Request, i: Input)
    requires Inv(s) && s.process.Idle? && s.world.journal.Some? && s.world.journal.value.request != r
    requires i.Go? || i.Kill?
    ensures Run(s, [Launch(r)]).world == s.world
    ensures Run(s, [Launch(r), i]).world == s.world && Run(s, [Launch(r), i]).process.Idle?
  {
    var s1 := Step(s, Launch(r));
    assert [Launch(r)][1..] == [] && [Launch(r), i][1..] == [i] && [i][1..] == [];
    assert Run(s1, [i]) == Step(s1, i);
  }

  // ---------- progress ----------

  /**
   What an operator can check before resuming: the request is the prepared one; a
   source not yet retired still equals the archive; nobody else holds the target
   before `ReplacementReady`; and at `ReplacementReady` a bound target is the
   recorded staged file. Later phases need nothing.
   */
  predicate Viable(w: World, r: Request) {
    if w.journal.None? then
      && ValidRequest(w, r) && Named(r.target) !in w.names
      && w.source.identity == OldIdentity(r) && RowIds(w.source) == DecidedIds(r)
      && (Named(r.archive) in w.names ==> At(w, Named(r.archive)) == Some(OwnArchive(w, r)))
    else
      var j := w.journal.value;
      && j.request == r
      && (j.phase.Prepared? && w.source.identity != j.retiredIdentity ==> w.source == j.snapshotDigest)
      && (Rank(j.phase) < 6 ==> Named(r.target) !in w.names)
      && (Rank(j.phase) == 6 && Named(r.target) in w.names ==>
            TargetVerified(w, r, j)
                && (j.staged.value.path in w.names ==> Shares(w, j.staged.value.path, Named(r.target))))
  }

  /** What a process has already checked, as long as nobody interferes. */
  predicate Calm(w: World, p: Process) {
    match p
    case Entered(r) => w.journal.None? ==> ValidRequest(w, r) && Named(r.target) !in w.names
    case ArchiveStaged(r, _) => Named(r.archive) !in w.names && Named(r.target) !in w.names
    case ArchiveLinked(r, _) => Named(r.target) !in w.names
    case ArchiveReady(r) => Named(r.target) !in w.names
    case JournalStaged(r, _, _) => Named(r.target) !in w.names
    case JournalLinked(r, _) => Viable(w, r)
    case ReplacementStaged(r, _) => Named(r.target) !in w.names
    case Publishing(r) => Named(r.target) !in w.names
    case Unlinking(r) => Viable(w, r)
    case Unlinked(r) => Viable(w, r)
    case _ => true
  }

  predicate Hopeful(w: World, p: Process) {
    p.ArchiveStaged? || p.ArchiveLinked? || p.ArchiveReady? || p.JournalStaged?
    || (!p.Idle? && Viable(w, p.request))
  }

  /** Effects left, phase by phase; `ReplacementReady` may commit itself once more. */
  function Remaining(w: World, p: Process): nat {
    var phases := if w.journal.None? then 60 else 6 * (8 - Rank(w.journal.value.phase));
    match p
    case Idle(_) => 0
    case Entered(_) => phases + 6
    case ArchiveStaged(_, _) => 64
    case ArchiveLinked(_, _) => 63
    case ArchiveReady(_) => 62
    case JournalStaged(_, _, _) => 61
    case JournalLinked(_, _) => phases + 7
    case Advancing(_) =>
      if w.journal.Some? && w.source.identity == w.journal.value.retiredIdentity then phases + 4 else phases + 5
    case Cleaned(_) => phases
    case ReplacementStaged(_, _) => phases + 3
    case Publishing(_) => phases + 2
    case Unlinking(_) => phases + 1
    case Unlinked(_) => phases
  }

  /** The verdict of one uninterrupted step with an accepting broker. */
  predicate Onward(w: World, p: Process, m: Move) {
    if p.Idle? then false
    else if m.process.Idle? then
      if Hopeful(w, p) then m.process == Idle(Done) && InPhase(m.world, Complete)
      else m.process.outcome.Refused?
    else
      && Calm(m.world, m.process) && m.process.request == p.request
      && Remaining(m.world, m.process) < Remaining(w, p)
      && Hopeful(m.world, m.process) == Hopeful(w, p)
  }

  lemma PreparingOnward(w: World, p: Process, salt: nat)
    requires WorldOk(w) && ProcessOk(w, p) && Calm(w, p)
    requires p.Entered? || p.ArchiveStaged? || p.ArchiveLinked? || p.ArchiveReady?
    ensures Onward(w, p, Proceed(w, p, salt, true))
  {
    if p.Entered? {
      EnteredOnward(w, p.request);
    }
  }

  lemma EnteredOnward(w: World, r: Request)
    requires WorldOk(w) && ProcessOk(w, Entered(r)) && Calm(w, Entered(r))
    ensures Onward(w, Entered(r), Proceed(w, Entered(r), 0, true))
  {
  }

  lemma JournalOnward(w: World, p: Process, salt: nat)
    requires WorldOk(w) && ProcessOk(w, p) && Calm(w, p)
    requires p.JournalStaged? || p.JournalLinked?
    ensures Onward(w, p, Proceed(w, p, salt, true))
  {
  }

  lemma ReadyOnward(w: World, r: Request, salt: nat)
    requires WorldOk(w) && Opened(w, r) && InPhase(w, ReplacementReady)
    ensures Onward(w, Advancing(r), Ready(w, r, w.journal.value, salt))
  {
    var j := w.journal.value;
    var stage := j.staged.value.path;
    assert StageRecorded(w, j, j.staged.value);
    if Named(r.target) !in w.names && stage in w.names {
      assert !Shares(w, stage, Named(r.target));
      assert StageVerified(w, j);
    }
  }

  lemma AdvancingOnward(w: World, r: Request, salt: nat)
    requires WorldOk(w) && Opened(w, r) && !InPhase(w, ReplacementReady)
    ensures Onward(w, Advancing(r), Advance(w, r, w.journal.value, salt, true))
  {
    var j := w.journal.value;
    if Rank(j.phase) < 5 {
      EarlyOnward(w, r, salt);
    } else {
      LateOnward(w, r, salt);
    }
  }

  lemma LateOnward(w: World, r: Request, salt: nat)
    requires WorldOk(w) && Opened(w, r) && Rank(w.journal.value.phase) >= 5 && !InPhase(w, ReplacementReady)
    ensures Onward(w, Advancing(r), Advance(w, r, w.journal.value, salt, true))
  {
    assert SourceOk(w, w.journal.value) && StagingOk(w, w.journal.value);
  }

  lemma EarlyOnward(w: World, r: Request, salt: nat)
    requires WorldOk(w) && Opened(w, r) && Rank(w.journal.value.phase) < 5
    ensures Onward(w, Advancing(r), Advance(w, r, w.journal.value, salt, true))
  {
    var j := w.journal.value;
    assert SourceOk(w, j);
    if j.phase.Prepared? {
      RetiringOnward(w, r);
    }
  }

  lemma RetiringOnward(w: World, r: Request)
    requires Opened(w, r) && InPhase(w, Prepared) && RowOk(w, w.journal.value) && SourceOk(w, w.journal.value)
    ensures Onward(w, Advancing(r), Advance(w, r, w.journal.value, 0, true))
  {
  }

  lemma CleanedOnward(w: World, r: Request)
    requires WorldOk(w) && ProcessOk(w, Cleaned(r))
    ensures Onward(w, Cleaned(r), Proceed(w, Cleaned(r), 0, true))
  {
    assert SourceOk(w, w.journal.value);
  }

  lemma RecordStageOnward(w: World, r: Request, stage: Path)
    requires WorldOk(w) && ProcessOk(w, ReplacementStaged(r, stage)) && Calm(w, ReplacementStaged(r, stage))
    ensures Onward(w, ReplacementStaged(r, stage), RecordStage(w, r, w.journal.value, stage))
  {
    var j := w.journal.value;
    var image := At(w, stage).value.image;
    assert SourceOk(w, j);
    RecordedOnward(w, r, j, stage, image);
  }

  lemma RecordedOnward(w: World, r: Request, j: Journal, stage: Path, image: Image)
    requires w.journal == Some(j) && j.request == r && w.source.identity == j.retiredIdentity
    requires Named(r.target) !in w.names && (j.phase.NewCleanConfirmed? || j.phase.ReplacementReady?)
    requires At(w, stage) == Some(Database(image)) && image.store == Replacement(j.targetIdentity)
    ensures Onward(w, ReplacementStaged(r, stage), RecordStage(w, r, j, stage))
  {
  }

  lemma LinkOnward(w: World, r: Request)
    requires WorldOk(w) && ProcessOk(w, Publishing(r)) && Calm(w, Publishing(r))
    ensures Onward(w, Publishing(r), PublishTarget(w, r, w.journal.value))
  {
    var j := w.journal.value;
    assert StageRecorded(w, j, j.staged.value);
    assert !Shares(w, j.staged.value.path, Named(r.target));
    var v := Link(w, j.staged.value.path, Named(r.target));
    assert At(v, Named(r.target)) == At(w, j.staged.value.path) == Some(Database(j.staged.value.digest));
  }

  lemma UnlinkOnward(w: World, r: Request)
    requires WorldOk(w) && ProcessOk(w, Unlinking(r)) && Calm(w, Unlinking(r))
    ensures Onward(w, Unlinking(r), Proceed(w, Unlinking(r), 0, true))
  {
    assert SourceOk(w, w.journal.value);
  }

  lemma PublishedOnward(w: World, r: Request)
    requires WorldOk(w) && ProcessOk(w, Unlinked(r)) && Calm(w, Unlinked(r))
    ensures Onward(w, Unlinked(r), Proceed(w, Unlinked(r), 0, true))
  {
    assert SourceOk(w, w.journal.value);
  }

  lemma AfterOpenOnward(w: World, p: Process, salt: nat)
    requires WorldOk(w) && ProcessOk(w, p) && Calm(w, p) && w.journal.Some?
    requires p.Cleaned? || p.ReplacementStaged? || p.Publishing? || p.Unlinking? || p.Unlinked?
    ensures Onward(w, p, Proceed(w, p, salt, true))
  {
    match p
    case Cleaned(r) => CleanedOnward(w, r);
    case ReplacementStaged(r, stage) => RecordStageOnward(w, r, stage);
    case Publishing(r) => LinkOnward(w, r);
    case Unlinking(r) => UnlinkOnward(w, r);
    case Unlinked(r) => PublishedOnward(w, r);
  }

  lemma ProceedOnward(w: World, p: Process, salt: nat)
    requires WorldOk(w) && ProcessOk(w, p) && Calm(w, p) && !p.Idle?
    ensures Onward(w, p, Proceed(w, p, salt, true))
  {
    if p.Entered? || p.ArchiveStaged? || p.ArchiveLinked? || p.ArchiveReady? {
      PreparingOnward(w, p, salt);
    } else if p.JournalStaged? || p.JournalLinked? {
      JournalOnward(w, p, salt);
    } else if p.Advancing? {
      OpenedOnward(w, p.request, salt);
    } else {
      AfterOpenOnward(w, p, salt);
    }
  }

  lemma OpenedOnward(w: World, r: Request, salt: nat)
    requires WorldOk(w) && Opened(w, r)
    ensures Onward(w, Advancing(r), Proceed(w, Advancing(r), salt, true))
  {
    if InPhase(w, ReplacementReady) {
      ReadyOnward(w, r, salt);
    } else {
      AdvancingOnward(w, r, salt);
    }
  }

  /** Uninterrupted steps that the broker accepts. */
  predicate Straight(inputs: seq<Input>) {
    forall k :: 0 <= k < |inputs| ==> inputs[k].Go? && inputs[k].accepted
  }

  lemma {:induction false} Drive(s: System, inputs: seq<Input>)
    requires Inv(s) && Calm(s.world, s.process) && Straight(inputs) && !s.process.Idle?
    requires |inputs| >= Remaining(s.world, s.process) + 1
    ensures var t := Run(s, inputs);
            if Hopeful(s.world, s.process)
            then t.process == Idle(Done) && InPhase(t.world, Complete)
                && t.world.journal.value.request == s.process.request
            else t.process.Idle? && t.process.outcome.Refused?
    decreases |inputs|
  {
    var i := inputs[0];
    assert i.Go? && i.accepted && Straight(inputs[1..]);
    ProceedOnward(s.world, s.process, i.salt);
    StepKeeps(s, i);
    var s' := Step(s, i);
    if s'.process.Idle? {
      IdleStays(s', inputs[1..]);
      DoneMeansOwn(s.world, s.process, i.salt);
    } else {
      Drive(s', inputs[1..]);
    }
  }

  lemma {:induction false} IdleStays(s: System, inputs: seq<Input>)
    requires s.process.Idle? && Straight(inputs)
    ensures Run(s, inputs) == s
    decreases |inputs|
  {
    if inputs != [] {
      assert inputs[0].Go? && Straight(inputs[1..]);
      IdleStays(s, inputs[1..]);
    }
  }

  /** Only a process that has opened its own journal reports completion. */
  lemma DoneMeansOwn(w: World, p: Process, salt: nat)
    requires ProcessOk(w, p) && !p.Idle?
    ensures var m := Proceed(w, p, salt, true);
            m.process == Idle(Done) ==> m.world == w && w.journal.Some? && w.journal.value.request == p.request
  {
    if p.Advancing? {
      assert Opened(w, p.request);
    }
  }

  /**
   Progress, from every reachable state in which no process runs, wherever the last
   one died: one uninterrupted resume with an accepting broker completes exactly
   when the operation is still viable; otherwise it is refused.
   */
  lemma {:induction false} Progress(s: System, r: Request, inputs: seq<Input>)
    requires Inv(s) && s.process.Idle? && Straight(inputs) && |inputs| >= 70
    ensures var t := Run(s, [Launch(r)] + inputs);
            && (Viable(s.world, r) <==> t.process == Idle(Done))
            && (Viable(s.world, r) ==> InPhase(t.world, Complete) && t.world.journal.value.request == r)
            && (!Viable(s.world, r) ==> t.process.Idle? && t.process.outcome.Refused?)
  {
    var s1 := Step(s, Launch(r));
    assert ([Launch(r)] + inputs)[1..] == inputs;
    LaunchKeeps(s, r);
    if s1.process.Idle? {
      IdleStays(s1, inputs);
    } else {
      Drive(s1, inputs);
    }
    EnterVerdict(s.world, r);
  }

  lemma EnterVerdict(w: World, r: Request)
    requires WorldOk(w)
    ensures var m := Enter(w, r);
            if m.process.Idle? then !Viable(w, r) && m.process.outcome.Refused?
            else m.process == Entered(r) && Calm(w, m.process) && Remaining(w, m.process) <= 66
  {
    if w.journal.Some? && Viable(w, r) {
      var j := w.journal.value;
      assert At(w, Named(r.archive)) == Some(Container(j.archiveDigest));
    }
  }

  /** The same from a fresh start: any history of crashes, refusals and outside writes may come first. */
  lemma {:induction false} ResumeAfterAnything(w0: World, history: seq<Input>, r: Request, inputs: seq<Input>)
    requires Initial(w0) && Run(Start(w0), history).process.Idle? && Straight(inputs) && |inputs| >= 70
    ensures var s := Run(Start(w0), history); var t := Run(s, [Launch(r)] + inputs);
            && (Viable(s.world, r) <==> t.process == Idle(Done))
            && (Viable(s.world, r) ==> InPhase(t.world, Complete))
            && (!Viable(s.world, r) ==> t.process.Idle? && t.process.outcome.Refused?)
  {
    InitialInv(w0);
    RunKeeps(Start(w0), history);
    Progress(Run(Start(w0), history), r, inputs);
  }
}
