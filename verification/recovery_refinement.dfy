/** Crash refinement: a run with crashes ends where a run without crashes ends. */
module RecoveryRefinement {
  import opened Optional
  import opened RecoveryMachine
  import opened RecoveryInvariant
  import opened RecoveryTheorems

  /** Only the tool acts: launches of any requests, effects with any broker answers, and crashes. */
  predicate ToolOnly(inputs: seq<Input>) {
    forall k :: 0 <= k < |inputs| ==> inputs[k].Launch? || inputs[k].Go? || inputs[k].Kill?
  }

  /** What a finished operation leaves behind, up to staging files, their bytes and repeated handshakes. */
  datatype Result = Result(source: Store, archive: Option<Body>, journal: Journal, target: Store)

  function Final(w: World): Result
    requires w.journal.Some?
        && HasIdentity(At(w, Named(w.journal.value.request.target)), w.journal.value.targetIdentity)
  {
    var j := w.journal.value;
    Result(w.source, At(w, Named(j.request.archive)), j.(staged := None),
        At(w, Named(j.request.target)).value.image.store)
  }

  /** The one result that request `r` can have on the source of `w0`. */
  function Expected(w0: World, r: Request): Result {
    var a := Archive(r, w0.source, w0.file);
    var tombstone := Tombstone(r.operation, a);
    Result(WithIdentity(w0.source, tombstone), Some(Container(a)),
           Journal(r, a, w0.source, w0.file, OldIdentity(r), NewIdentity(r), tombstone, Complete, None),
           Replacement(NewIdentity(r)))
  }

  /** The target holds exactly the recorded replacement. */
  predicate TargetStaged(w: World, j: Journal) {
    j.staged.Some? && At(w, Named(j.request.target)) == Some(Database(j.staged.value.digest))
  }

  predicate QuietWorld(w0: World, w: World) {
    && w.file == w0.file && w.home == w0.home
    && (w.journal.None? ==> w.source == w0.source)
    && (w.journal.Some? ==>
          && w.journal.value.snapshotDigest == w0.source
          && w.source in {w0.source, WithIdentity(w0.source, w.journal.value.retiredIdentity)}
          && Named(w.journal.value.request.target) !in w0.names
          && (Rank(w.journal.value.phase) >= 7 ==> TargetStaged(w, w.journal.value)))
  }

  predicate QuietProcess(w0: World, w: World, p: Process) {
    && (!p.Idle? && w.journal.None? ==> Named(p.request.target) !in w0.names)
    && (p.Unlinking? || p.Unlinked? ==> w.journal.Some? && TargetStaged(w, w.journal.value))
  }

  predicate Quiet(w0: World, w: World, p: Process) {
    QuietWorld(w0, w) && QuietProcess(w0, w, p)
  }

  lemma QuietAdvance(w0: World, w: World, r: Request, salt: nat, accepted: bool)
    requires WorldOk(w) && Opened(w, r) && QuietWorld(w0, w)
    ensures var m := Advance(w, r, w.journal.value, salt, accepted); Quiet(w0, m.world, m.process)
  {
    var j := w.journal.value;
    if Rank(j.phase) < 5 {
      QuietFencing(w0, w, r, salt, accepted);
    } else if j.phase.ReplacementReady? {
      QuietReady(w0, w, r, salt);
    } else {
      QuietConclusion(w0, w, r, salt, accepted);
    }
  }

  /** Before publication a world stays quiet as long as only phase, staging and files change. */
  lemma QuietRow(w0: World, w: World, v: World)
    requires QuietWorld(w0, w) && w.journal.Some? && v.journal.Some? && Rank(v.journal.value.phase) < 7
    requires v.home == w.home && v.file == w.file && v.source == w.source
    requires Frozen(v.journal.value) == Frozen(w.journal.value)
    ensures QuietWorld(w0, v)
  {
  }

  lemma QuietFencing(w0: World, w: World, r: Request, salt: nat, accepted: bool)
    requires WorldOk(w) && Opened(w, r) && QuietWorld(w0, w) && Rank(w.journal.value.phase) < 5
    ensures var m := Advance(w, r, w.journal.value, salt, accepted); Quiet(w0, m.world, m.process)
  {
    var v := Advance(w, r, w.journal.value, salt, accepted).world;
    if v.source == w.source {
      QuietRow(w0, w, v);
    }
  }

  lemma QuietReady(w0: World, w: World, r: Request, salt: nat)
    requires QuietWorld(w0, w) && InPhase(w, ReplacementReady)
    ensures var m := Ready(w, r, w.journal.value, salt);
            w.journal.value.request == r ==> Quiet(w0, m.world, m.process)
  {
    QuietRow(w0, w, StageReplacement(w, r, w.journal.value, salt).world);
  }

  lemma QuietConclusion(w0: World, w: World, r: Request, salt: nat, accepted: bool)
    requires QuietWorld(w0, w) && w.journal.Some?
    requires w.journal.value.phase.NewCleanConfirmed? || Rank(w.journal.value.phase) >= 7
    ensures var m := Advance(w, r, w.journal.value, salt, accepted); Quiet(w0, m.world, m.process)
  {
  }

  lemma QuietPrepare(w0: World, w: World, p: Process)
    requires WorldOk(w) && ProcessOk(w, p) && Quiet(w0, w, p)
    requires p.Entered? || p.ArchiveStaged? || p.ArchiveLinked? || p.ArchiveReady?
    ensures var m := Proceed(w, p, 0, false); Quiet(w0, m.world, m.process)
  {
    if p.Entered? {
      QuietEntered(w0, w, p.request);
    }
  }

  lemma QuietEntered(w0: World, w: World, r: Request)
    requires Quiet(w0, w, Entered(r))
    ensures var m := Proceed(w, Entered(r), 0, false); Quiet(w0, m.world, m.process)
  {
  }

  lemma QuietJournal(w0: World, w: World, p: Process)
    requires WorldOk(w) && ProcessOk(w, p) && Quiet(w0, w, p)
    requires p.JournalStaged? || p.JournalLinked?
    ensures var m := Proceed(w, p, 0, false); Quiet(w0, m.world, m.process)
  {
    if p.JournalLinked? {
      UnlinkKeeps(w, p.stage);
    }
  }

  lemma QuietPublishing(w0: World, w: World, r: Request)
    requires WorldOk(w) && ProcessOk(w, Publishing(r)) && Quiet(w0, w, Publishing(r))
    ensures var m := Proceed(w, Publishing(r), 0, false); Quiet(w0, m.world, m.process)
  {
    var j := w.journal.value;
    assert StageRecorded(w, j, j.staged.value);
    var stage, target := j.staged.value.path, Named(r.target);
    if target !in w.names {
      assert At(Link(w, stage, target), target) == At(w, stage);
    }
  }

  lemma QuietUnlinking(w0: World, w: World, r: Request)
    requires WorldOk(w) && ProcessOk(w, Unlinking(r)) && Quiet(w0, w, Unlinking(r))
    ensures var m := Proceed(w, Unlinking(r), 0, false); Quiet(w0, m.world, m.process)
  {
    UnlinkKeeps(w, w.journal.value.staged.value.path);
  }

  lemma QuietRecord(w0: World, w: World, r: Request, stage: Path)
    requires QuietWorld(w0, w) && (InPhase(w, NewCleanConfirmed) || InPhase(w, ReplacementReady))
    ensures var m := RecordStage(w, r, w.journal.value, stage); Quiet(w0, m.world, m.process)
  {
    QuietRow(w0, w, RecordStage(w, r, w.journal.value, stage).world);
  }

  lemma QuietCleaned(w0: World, w: World, r: Request)
    requires QuietWorld(w0, w) && (InPhase(w, OldCleanRequested) || InPhase(w, NewCleanRequested))
    ensures var m := Proceed(w, Cleaned(r), 0, false); Quiet(w0, m.world, m.process)
  {
    QuietRow(w0, w, Commit(w, w.journal.value, ConfirmedPhase(w.journal.value.phase)));
  }

  lemma QuietUnlinked(w0: World, w: World, r: Request)
    requires QuietWorld(w0, w) && InPhase(w, ReplacementReady) && TargetStaged(w, w.journal.value)
    ensures var m := Proceed(w, Unlinked(r), 0, false); Quiet(w0, m.world, m.process)
  {
  }

  lemma QuietPublish(w0: World, w: World, p: Process)
    requires WorldOk(w) && ProcessOk(w, p) && Quiet(w0, w, p)
    requires p.Cleaned? || p.ReplacementStaged? || p.Publishing? || p.Unlinking? || p.Unlinked?
    ensures var m := Proceed(w, p, 0, false); Quiet(w0, m.world, m.process)
  {
    match p
    case Publishing(r) => QuietPublishing(w0, w, r);
    case Unlinking(r) => QuietUnlinking(w0, w, r);
    case ReplacementStaged(r, stage) => QuietRecord(w0, w, r, stage);
    case Cleaned(r) => QuietCleaned(w0, w, r);
    case Unlinked(r) => QuietUnlinked(w0, w, r);
  }

  lemma QuietProceed(w0: World, w: World, p: Process, salt: nat, accepted: bool)
    requires WorldOk(w) && ProcessOk(w, p) && Quiet(w0, w, p) && !p.Idle?
    ensures var m := Proceed(w, p, salt, accepted); Quiet(w0, m.world, m.process)
  {
    match p
    case Entered(_) | ArchiveStaged(_, _) | ArchiveLinked(_, _) | ArchiveReady(_) => QuietPrepare(w0, w, p);
    case JournalStaged(_, _, _) | JournalLinked(_, _) => QuietJournal(w0, w, p);
    case Advancing(r) => QuietAdvance(w0, w, r, salt, accepted);
    case _ => QuietPublish(w0, w, p);
  }

  /** One step of the tool keeps everything quiet. */
  lemma QuietStep(w0: World, s: System, i: Input)
    requires Inv(s) && Quiet(w0, s.world, s.process) && Extends(w0, s.world) && (i.Launch? || i.Go? || i.Kill?)
    ensures var t := Step(s, i); Inv(t) && Quiet(w0, t.world, t.process) && Extends(w0, t.world)
  {
    StepKeeps(s, i);
    StepExtends(s, i);
    ExtendsTransitive(w0, s.world, Step(s, i).world);
    if i.Go? && !s.process.Idle? {
      QuietProceed(w0, s.world, s.process, i.salt, i.accepted);
    } else {
      QuietLaunch(w0, s, i);
    }
  }

  lemma FirstOfTool(inputs: seq<Input>)
    requires ToolOnly(inputs) && inputs != []
    ensures ToolOnly(inputs[1..]) && (inputs[0].Launch? || inputs[0].Go? || inputs[0].Kill?)
  {
  }

  lemma {:induction false} QuietRun(w0: World, s: System, inputs: seq<Input>)
    requires Inv(s) && Quiet(w0, s.world, s.process) && Extends(w0, s.world) && ToolOnly(inputs)
    ensures var t := Run(s, inputs); Inv(t) && Quiet(w0, t.world, t.process) && Extends(w0, t.world)
    decreases |inputs|
  {
    if inputs != [] {
      FirstOfTool(inputs);
      QuietStep(w0, s, inputs[0]);
      QuietRun(w0, Step(s, inputs[0]), inputs[1..]);
    }
  }

  lemma QuietLaunch(w0: World, s: System, i: Input)
    requires Quiet(w0, s.world, s.process) && Extends(w0, s.world)
    requires i.Launch? || i.Kill? || (i.Go? && s.process.Idle?)
    ensures Quiet(w0, Step(s, i).world, Step(s, i).process)
  {
  }

  /** Any run of the tool alone that has completed request `r` has its one result. */
  lemma {:induction false} OneResult(w0: World, inputs: seq<Input>)
    requires Initial(w0) && ToolOnly(inputs)
    requires InPhase(Run(Start(w0), inputs).world, Complete)
    ensures var w := Run(Start(w0), inputs).world; var r := w.journal.value.request;
            && HasIdentity(At(w, Named(r.target)), w.journal.value.targetIdentity)
            && Final(w) == Expected(w0, r)
            && Viable(w0, r)
  {
    InitialInv(w0);
    QuietRun(w0, Start(w0), inputs);
    var w := Run(Start(w0), inputs).world;
    var j := w.journal.value;
    assert JournalOk(w, j);
    assert StageRecorded(w, j, j.staged.value);
    var archive := Named(j.request.archive);
    if archive in w0.names {
      assert At(w, archive) == At(w0, archive) || SameOwner(At(w0, archive), At(w, archive));
    }
  }

  /**
   Crash refinement. Take any run of launches, effects, broker answers and crashes
   that reaches `Complete`. Then one launch of the same request from the same start,
   never interrupted, completes too, and leaves the same source, archive, journal
   and target.
   */
  lemma {:induction false} CrashRefinement(w0: World, crashy: seq<Input>, straight: seq<Input>)
    requires Initial(w0) && ToolOnly(crashy) && Straight(straight) && |straight| >= 70
    requires InPhase(Run(Start(w0), crashy).world, Complete)
    ensures var w := Run(Start(w0), crashy).world;
            var s := Run(Start(w0), [Launch(w.journal.value.request)] + straight);
            && s.process == Idle(Done) && InPhase(s.world, Complete)
            && HasIdentity(At(w, Named(w.journal.value.request.target)), w.journal.value.targetIdentity)
            && HasIdentity(At(s.world, Named(s.world.journal.value.request.target)),
                s.world.journal.value.targetIdentity)
            && Final(w) == Final(s.world)
  {
    var r := Run(Start(w0), crashy).world.journal.value.request;
    OneResult(w0, crashy);
    InitialInv(w0);
    Progress(Start(w0), r, straight);
    var inputs := [Launch(r)] + straight;
    assert ToolOnly(inputs);
    OneResult(w0, inputs);
  }
}
