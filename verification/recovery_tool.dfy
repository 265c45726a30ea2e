/**
 `resolve` as the tool runs it: straight-line code over mutable files and rows.
 Every effect first asks whether the process is still alive, and `Resolve` is
 proved to leave exactly the state in which the step machine dies or stops.
 */
module RecoveryTool {
  import opened Optional
  import opened RecoveryMachine
  import opened RecoveryInvariant

  /** What one process meets: effects it survives, bytes of a new file, and the broker's two answers. */
  datatype Fate = Fate(effects: nat, salt: nat, acceptsOld: bool, acceptsNew: bool)

  function Answer(w: World, f: Fate): bool {
    if InPhase(w, OldCleanRequested) then f.acceptsOld else f.acceptsNew
  }

  /** The step machine, run until it stops or its last effect is spent. */
  function Until(w: World, p: Process, f: Fate): Move
    decreases f.effects
  {
    if p.Idle? then Move(w, p)
    else if f.effects == 0 then Move(w, Idle(Crashed))
    else
      var m := Proceed(w, p, f.salt, Answer(w, f));
      Until(m.world, m.process, f.(effects := f.effects - 1))
  }

  /** Recording a fresh staging file succeeds. */
  lemma StageIsRecorded(w: World, r: Request, j: Journal, stage: Path, image: Image)
    requires At(w, stage) == Some(Database(image)) && image.store == Replacement(j.targetIdentity)
    ensures RecordStage(w, r, j, stage)
         == Move(w.(journal := Some(j.(phase := ReplacementReady, staged := Some(Staging(stage, image))))),
                 if j.phase.NewCleanConfirmed? then Advancing(r) else Publishing(r))
  {
  }

  /** Inside a window the next effect is its handshake. */
  lemma HandshakeIsNext(w: World, r: Request, which: Which, f: Fate)
    requires InPhase(w, if which.OldSession? then OldCleanRequested else NewCleanRequested)
    ensures Proceed(w, Advancing(r), f.salt, Answer(w, f))
         == Clean(w, r, which, if which.OldSession? then f.acceptsOld else f.acceptsNew)
  {
  }

  /** ... and after an accepted CONNACK it is the confirming commit. */
  lemma ConfirmationIsNext(w: World, r: Request, f: Fate)
    requires w.journal.Some?
    ensures Proceed(w, Cleaned(r), f.salt, Answer(w, f))
         == Move(Commit(w, w.journal.value, ConfirmedPhase(w.journal.value.phase)), Advancing(r))
  {
  }

  class Tool {
    const home: string
    const file: nat
    var source: Store
    var names: map<Path, nat>
    var inodes: map<nat, Body>
    var next: nat
    var journal: Option<Journal>
    var cleanups: seq<Cleanup>
    var fate: Fate
    ghost var goal: Move

    function State(): World
      reads this
    {
      World(home, source, file, names, inodes, next, journal, cleanups)
    }

    constructor (w: World)
      ensures State() == w
    {
      home, file, source, names, inodes, next := w.home, w.file, w.source, w.names, w.inodes, w.next;
      journal, cleanups := w.journal, w.cleanups;
      fate := Fate(0, 0, false, false);
      goal := Move(w, Idle(NotStarted));
    }

    /** The machine, continued from here as process `p`, still ends where the whole call must end. */
    ghost predicate Tracks(p: Process)
      reads this
    {
      Until(State(), p, fate) == goal
    }

    ghost predicate Stopped(outcome: Outcome)
      reads this
    {
      goal == Move(State(), Idle(outcome))
    }

    /** The step the machine takes next has been paid for. */
    ghost predicate Due(p: Process)
      reads this
    {
      var m := Proceed(State(), p, fate.salt, Answer(State(), fate));
      Until(m.world, m.process, fate) == goal
    }

    predicate Distinct()
      reads this
    {
      journal.Some? ==> journal.value.oldIdentity != journal.value.retiredIdentity
    }

    method Survive(ghost p: Process) returns (alive: bool)
      requires Tracks(p) && !p.Idle?
      modifies this`fate
      ensures fate == old(fate).(effects := fate.effects)
      ensures alive ==> Due(p)
      ensures !alive ==> Stopped(Crashed)
    {
      alive := fate.effects > 0;
      if alive {
        fate := fate.(effects := fate.effects - 1);
      }
    }

    /** `tempfile.mkstemp`, then the finished content. */
    method CreateTemporary(owner: string, body: Body) returns (stage: Path)
      modifies this`names, this`inodes, this`next
      ensures State() == Bind(old(State()), stage, body) && stage == Temporary(owner, old(next))
    {
      stage := Temporary(owner, next);
      names, inodes, next := names[stage := next], inodes[next := body], next + 1;
    }

    /** `os.link`: create-new, never a replacement. */
    method CreateLink(stage: Path, destination: Path) returns (linked: bool)
      modifies this`names
      ensures linked == (destination !in old(names))
      ensures State() == if linked then Link(old(State()), stage, destination) else old(State())
    {
      linked := destination !in names;
      if linked && stage in names {
        names := names[destination := names[stage]];
      }
    }

    method Remove(stage: Path)
      modifies this`names
      ensures State() == Unlink(old(State()), stage)
    {
      names := names - {stage};
    }

    /** `update_phase`: one committed row update. */
    method UpdatePhase(phase: Phase)
      requires journal.Some?
      modifies this`journal
      ensures State() == Commit(old(State()), old(journal).value, phase)
      ensures journal.Some? && journal.value.phase == phase
      ensures journal.value.(phase := old(journal).value.phase) == old(journal).value
      ensures State().(journal := old(journal)) == old(State())
    {
      journal := Some(journal.value.(phase := phase));
    }

    method PrepareResolution(r: Request) returns (stopped: Option<Outcome>)
      requires Tracks(Entered(r)) && journal.None?
      modifies this`names, this`inodes, this`next, this`journal, this`fate
      ensures stopped.Some? ==> Stopped(stopped.value)
      ensures stopped.None? ==> Tracks(Entered(r)) && journal.Some? && Distinct()
    {
      var alive := Survive(Entered(r));
      if !alive { return Some(Crashed); }
      if source.identity != OldIdentity(r) { return Some(Refused(SourceIdentityDiffers)); }
      if RowIds(source) != DecidedIds(r) { return Some(Refused(DecisionsIncomplete)); }
      var evidence := Container(Archive(r, source, file));
      if Named(r.archive) in names {
        if At(State(), Named(r.archive)) != Some(evidence) { return Some(Refused(ArchiveDiffers)); }
      } else {
        var stage := CreateTemporary(r.archive, evidence);
        stopped := BuildArchive(r, stage);
        if stopped.Some? { return; }
      }
      stopped := CreateJournal(r);
    }

    /** Publish the staged container at the archive path and drop the staging link. */
    method BuildArchive(r: Request, stage: Path) returns (stopped: Option<Outcome>)
      requires Tracks(ArchiveStaged(r, stage)) && journal.None?
      modifies this`names, this`fate
      ensures stopped.Some? ==> Stopped(stopped.value)
      ensures stopped.None? ==> Tracks(ArchiveReady(r))
    {
      var alive := Survive(ArchiveStaged(r, stage));
      if !alive { return Some(Crashed); }
      var linked := CreateLink(stage, Named(r.archive));
      if !linked {
        Remove(stage);
        return Some(Refused(ArchiveRaced));
      }
      alive := Survive(ArchiveLinked(r, stage));
      if !alive { return Some(Crashed); }
      Remove(stage);
      stopped := None;
    }

    method CreateJournal(r: Request) returns (stopped: Option<Outcome>)
      requires Tracks(ArchiveReady(r)) && journal.None?
      modifies this`names, this`inodes, this`next, this`journal, this`fate
      ensures stopped.Some? ==> Stopped(stopped.value)
      ensures stopped.None? ==> Tracks(Entered(r)) && journal.Some? && Distinct()
    {
      var alive := Survive(ArchiveReady(r));
      if !alive { return Some(Crashed); }
      var evidence := At(State(), Named(r.archive));
      if evidence.None? || !evidence.value.Container? || evidence.value.archive.request != r {
        return Some(Refused(ArchiveDiffers));
      }
      var row := NewJournal(State(), r, evidence.value.archive);
      var stage := CreateTemporary(SidecarPath(home), Other(0));
      stopped := PublishJournal(r, stage, row);
    }

    method PublishJournal(r: Request, stage: Path, row: Journal) returns (stopped: Option<Outcome>)
      requires Tracks(JournalStaged(r, stage, row)) && journal.None? && row.oldIdentity != row.retiredIdentity
      modifies this`names, this`journal, this`fate
      ensures stopped.Some? ==> Stopped(stopped.value)
      ensures stopped.None? ==> Tracks(Entered(r)) && journal.Some? && Distinct()
    {
      var alive := Survive(JournalStaged(r, stage, row));
      if !alive { return Some(Crashed); }
      journal := Some(row);
      alive := Survive(JournalLinked(r, stage));
      if !alive { return Some(Crashed); }
      Remove(stage);
      stopped := None;
    }

    /** `open_journal`, `verify_archive` and the first `reconcile_source`: checks without effects. */
    method OpenJournal(r: Request) returns (stopped: Option<Outcome>)
      requires Tracks(Entered(r)) && journal.Some?
      modifies this`fate
      ensures stopped.Some? ==> Stopped(stopped.value)
      ensures stopped.None? ==> Tracks(Advancing(r)) && journal.value.request == r
    {
      var alive := Survive(Entered(r));
      if !alive { return Some(Crashed); }
      var j := journal.value;
      if At(State(), Named(j.request.archive)) != Some(Container(j.archiveDigest)) {
        return Some(Refused(ArchiveDiffers));
      }
      if j.request != r { return Some(Refused(RequestDiffers)); }
      if j.archiveDigest.request != r { return Some(Refused(ArchiveDiffers)); }
      if !Reconciles(State(), j) { return Some(Refused(SourceChanged)); }
      stopped := None;
    }

    method RetireSource(r: Request) returns (stopped: Option<Outcome>)
      requires Tracks(Advancing(r)) && journal.Some? && Distinct() && journal.value.phase.Prepared?
      modifies this`source, this`journal, this`fate
      ensures stopped.Some? ==> Stopped(stopped.value)
      ensures stopped.None? ==> Tracks(Advancing(r)) && journal.Some? && journal.value.phase == SourceRetired
    {
      var j := journal.value;
      var alive;
      if source.identity == j.oldIdentity {
        alive := Survive(Advancing(r));
        if !alive { return Some(Crashed); }
        source := WithIdentity(source, j.retiredIdentity);
      }
      alive := Survive(Advancing(r));
      if !alive { return Some(Crashed); }
      UpdatePhase(SourceRetired);
      if !Reconciles(State(), j) { return Some(Refused(SourceChanged)); }
      stopped := None;
    }

    /** A commit of the next intent, with no effect in between. */
    method RecordIntent(r: Request, phase: Phase) returns (stopped: Option<Outcome>)
      requires Tracks(Advancing(r)) && journal.Some?
      requires (journal.value.phase.SourceRetired? && phase == OldCleanRequested)
               || (journal.value.phase.OldCleanConfirmed? && phase == NewCleanRequested)
      modifies this`journal, this`fate
      ensures stopped.Some? ==> Stopped(stopped.value)
      ensures stopped.None? ==> Tracks(Advancing(r)) && journal.Some? && journal.value.phase == phase
    {
      var alive := Survive(Advancing(r));
      if !alive { return Some(Crashed); }
      UpdatePhase(phase);
      stopped := None;
    }

    /** One handshake and, once its CONNACK is accepted, the confirming commit. */
    method CleanBrokerSession(r: Request, which: Which) returns (stopped: Option<Outcome>)
      requires Tracks(Advancing(r)) && journal.Some?
      requires journal.value.phase == if which.OldSession? then OldCleanRequested else NewCleanRequested
      modifies this`cleanups, this`journal, this`fate
      ensures stopped.Some? ==> Stopped(stopped.value)
      ensures stopped.None? ==> Tracks(Advancing(r)) && journal.Some?
      ensures stopped.None? ==>
        journal.value.phase == if which.OldSession? then OldCleanConfirmed else NewCleanConfirmed
    {
      var alive := Survive(Advancing(r));
      if !alive { return Some(Crashed); }
      HandshakeIsNext(State(), r, which, fate);
      var session := if which.OldSession? then r.oldSession else r.newSession;
      var accepted := if which.OldSession? then fate.acceptsOld else fate.acceptsNew;
      cleanups := cleanups + [Cleanup(which, session.clientId, accepted)];
      if !accepted { return Some(Refused(CleanupRejected)); }
      ConfirmationIsNext(State(), r, fate);
      alive := Survive(Cleaned(r));
      if !alive { return Some(Crashed); }
      UpdatePhase(if which.OldSession? then OldCleanConfirmed else NewCleanConfirmed);
      stopped := None;
    }

    /** `create_replacement` and the commit that records where it is and what it holds. */
    method CreateReplacement(r: Request) returns (stopped: Option<Outcome>)
      requires Due(Advancing(r)) && journal.Some?
      requires Proceed(State(), Advancing(r), fate.salt, Answer(State(), fate)) == StageReplacement(State(), r,
          journal.value, fate.salt)
      modifies this`names, this`inodes, this`next, this`journal, this`fate
      ensures stopped.Some? ==> Stopped(stopped.value)
      ensures stopped.None? ==> journal.Some? && journal.value.phase.ReplacementReady? && journal.value.staged.Some?
      ensures stopped.None?
          ==> Tracks(if old(journal.value.phase).NewCleanConfirmed? then Advancing(r) else Publishing(r))
    {
      var image := Image(Replacement(journal.value.targetIdentity), fate.salt);
      var stage := CreateTemporary(r.target, Database(image));
      var alive := Survive(ReplacementStaged(r, stage));
      if !alive { return Some(Crashed); }
      StageIsRecorded(State(), r, journal.value, stage, image);
      journal := Some(journal.value.(phase := ReplacementReady, staged := Some(Staging(stage, image))));
      stopped := None;
    }

    method PublishReplacement(r: Request) returns (stopped: Option<Outcome>)
      requires Tracks(Advancing(r)) && journal.Some? && journal.value.phase.ReplacementReady?
      modifies this`names, this`inodes, this`next, this`journal, this`fate
      ensures stopped.Some? ==> Stopped(stopped.value)
      ensures stopped.None? ==> Tracks(Advancing(r)) && journal.Some? && journal.value.phase == ReplacementPublished
    {
      var alive := Survive(Advancing(r));
      if !alive { return Some(Crashed); }
      var j, target := journal.value, Named(r.target);
      if j.staged.None? || !j.staged.value.path.Temporary? || j.staged.value.path.owner != r.target {
        return Some(Refused(StagingInvalid));
      }
      var recorded := j.staged.value.path;
      if target in names {
        if !TargetVerified(State(), r, j) { return Some(Refused(TargetDiffers)); }
        if recorded in names && names[recorded] != names[target] { return Some(Refused(TargetDiffers)); }
      } else {
        if recorded !in names {
          stopped := CreateReplacement(r);
          if stopped.Some? { return; }
        } else if !StageVerified(State(), j) {
          return Some(Refused(StagingChanged));
        }
        stopped := LinkTarget(r);
        if stopped.Some? { return; }
      }
      stopped := FinishPublication(r);
    }

    method LinkTarget(r: Request) returns (stopped: Option<Outcome>)
      requires Tracks(Publishing(r)) && journal.Some? && journal.value.staged.Some?
      modifies this`names, this`fate
      ensures stopped.Some? ==> Stopped(stopped.value)
      ensures stopped.None? ==> Tracks(Unlinking(r))
    {
      var alive := Survive(Publishing(r));
      if !alive { return Some(Crashed); }
      var linked := CreateLink(journal.value.staged.value.path, Named(r.target));
      if !linked && !TargetVerified(State(), r, journal.value) { return Some(Refused(TargetDiffers)); }
      stopped := None;
    }

    method FinishPublication(r: Request) returns (stopped: Option<Outcome>)
      requires Tracks(Unlinking(r)) && journal.Some? && journal.value.staged.Some?
      modifies this`names, this`journal, this`fate
      ensures stopped.Some? ==> Stopped(stopped.value)
      ensures stopped.None? ==> Tracks(Advancing(r)) && journal.Some? && journal.value.phase == ReplacementPublished
    {
      var alive := Survive(Unlinking(r));
      if !alive { return Some(Crashed); }
      Remove(journal.value.staged.value.path);
      alive := Survive(Unlinked(r));
      if !alive { return Some(Crashed); }
      UpdatePhase(ReplacementPublished);
      stopped := None;
    }

    method Conclude(r: Request) returns (outcome: Outcome)
      requires Tracks(Advancing(r)) && journal.Some?
      requires journal.value.phase.ReplacementPublished? || journal.value.phase.Complete?
      modifies this`journal, this`fate
      ensures Stopped(outcome)
    {
      var alive;
      if journal.value.phase.ReplacementPublished? {
        alive := Survive(Advancing(r));
        if !alive { return Crashed; }
        if !HasIdentity(At(State(), Named(r.target)), journal.value.targetIdentity) { return Refused(TargetDiffers); }
        UpdatePhase(Complete);
      }
      alive := Survive(Advancing(r));
      if !alive { return Crashed; }
      if !HasIdentity(At(State(), Named(r.target)), journal.value.targetIdentity) { return Refused(TargetDiffers); }
      outcome := Done;
    }

    /** The fencing half of `advance_resolution`: retirement and the two handshakes. */
    method Fence(r: Request) returns (stopped: Option<Outcome>)
      requires Tracks(Advancing(r)) && journal.Some? && Distinct()
      modifies this`source, this`journal, this`cleanups, this`fate
      ensures stopped.Some? ==> Stopped(stopped.value)
      ensures stopped.None? ==> Tracks(Advancing(r)) && journal.Some? && Rank(journal.value.phase) >= 5
    {
      stopped := None;
      if journal.value.phase.Prepared? {
        stopped := RetireSource(r);
        if stopped.Some? { return; }
      }
      if journal.value.phase.SourceRetired? {
        stopped := RecordIntent(r, OldCleanRequested);
        if stopped.Some? { return; }
      }
      if journal.value.phase.OldCleanRequested? {
        stopped := CleanBrokerSession(r, OldSession);
        if stopped.Some? { return; }
      }
      stopped := FenceNew(r);
    }

    method FenceNew(r: Request) returns (stopped: Option<Outcome>)
      requires Tracks(Advancing(r)) && journal.Some? && Rank(journal.value.phase) >= 3
      modifies this`journal, this`cleanups, this`fate
      ensures stopped.Some? ==> Stopped(stopped.value)
      ensures stopped.None? ==> Tracks(Advancing(r)) && journal.Some? && Rank(journal.value.phase) >= 5
    {
      stopped := None;
      if journal.value.phase.OldCleanConfirmed? {
        stopped := RecordIntent(r, NewCleanRequested);
        if stopped.Some? { return; }
      }
      if journal.value.phase.NewCleanRequested? {
        stopped := CleanBrokerSession(r, NewSession);
        if stopped.Some? { return; }
      }
    }

    method AdvanceResolution(r: Request) returns (outcome: Outcome)
      requires Tracks(Advancing(r)) && journal.Some? && Distinct()
      modifies this`source, this`names, this`inodes, this`next, this`journal, this`cleanups, this`fate
      ensures Stopped(outcome)
    {
      var stopped := Fence(r);
      if stopped.Some? { return stopped.value; }
      if journal.value.phase.NewCleanConfirmed? {
        var alive := Survive(Advancing(r));
        if !alive { return Crashed; }
        if Named(r.target) in names { return Refused(TargetExists); }
        stopped := CreateReplacement(r);
        if stopped.Some? { return stopped.value; }
      }
      if journal.value.phase.ReplacementReady? {
        stopped := PublishReplacement(r);
        if stopped.Some? { return stopped.value; }
      }
      outcome := Conclude(r);
    }

    /** `resolve`, which is also `resume`. */
    method Resolve(r: Request, f: Fate) returns (outcome: Outcome)
      requires WorldOk(State())
      modifies this
      ensures var m := Enter(old(State()), r);
              if m.process.Idle? then State() == old(State()) && m.process == Idle(outcome)
              else Until(old(State()), Entered(r), f) == Move(State(), Idle(outcome))
    {
      if !ValidRequest(State(), r) { return Refused(InvalidRequest); }
      if journal.None? && Named(r.target) in names { return Refused(TargetExists); }
      fate := f;
      goal := Until(State(), Entered(r), f);
      var stopped: Option<Outcome>;
      if journal.None? {
        stopped := PrepareResolution(r);
        if stopped.Some? { return stopped.value; }
      }
      stopped := OpenJournal(r);
      if stopped.Some? { return stopped.value; }
      outcome := AdvanceResolution(r);
    }
  }

  /** The machine inputs that one process amounts to: its effects and, if it outlives them, nothing more. */
  function InputsOf(w: World, p: Process, f: Fate): seq<Input>
    decreases f.effects
  {
    if p.Idle? then []
    else if f.effects == 0 then [Kill]
    else
      var m := Proceed(w, p, f.salt, Answer(w, f));
      [Go(f.salt, Answer(w, f))] + InputsOf(m.world, m.process, f.(effects := f.effects - 1))
  }

  /** What a call leaves behind is a reachable state of the machine, so every theorem about runs applies to it. */
  lemma {:induction false} UntilIsRun(s: System, f: Fate)
    ensures var t := Run(s, InputsOf(s.world, s.process, f)); var m := Until(s.world, s.process, f);
            t.world == m.world && t.process == m.process && t.process.Idle?
    decreases f.effects
  {
    if !s.process.Idle? {
      var inputs := InputsOf(s.world, s.process, f);
      if f.effects == 0 {
        assert inputs[1..] == [];
        assert Run(Step(s, Kill), []) == Step(s, Kill);
      } else {
        var s' := Step(s, inputs[0]);
        assert inputs[1..] == InputsOf(s'.world, s'.process, f.(effects := f.effects - 1));
        UntilIsRun(s', f.(effects := f.effects - 1));
      }
    }
  }
}
