/**
 The crash-resumable resolution of one durable source (`scripts/durable_recovery.py`)
 as a machine over atomic durable effects. A process may die between any two steps;
 everything it knew is lost and only the `World` remains.

 SHA-256 is taken to be injective, so a digest is represented by the value it digests.
 */
module RecoveryMachine {
  import opened Optional
  import Identity

  // ---------- durable data ----------

  /** The text in `durable_meta.identity`; `Identity.TombstonesAreFenced` justifies the two cases. */
  datatype StoredIdentity = Text(text: string) | Tombstone(operation: string, archive: Archive)

  datatype Row = Row(
    deliveryId: string, packetId: int, sequence: int, topic: string, payload: seq<int>, properties: seq<int>,
    messageExpiry: Option<int>, retain: bool, expiresAt: int, attempts: int, everStarted: bool,
    blocked: bool, cause: string)

  datatype Store = Store(identity: StoredIdentity, nextSequence: int, knownSession: bool, rows: seq<Row>)

  datatype Broker = Broker(host: string, port: nat, protocol: Identity.Protocol, username: Option<string>)
  datatype Session = Session(clientId: string, expiry: nat)
  datatype Disposition = ConfirmedApplied | ConfirmedNotApplied | AbandonedUnknown
  datatype Decision = Decision(deliveryId: string, disposition: Disposition)

  datatype Request = Request(
    operation: string, archive: string, target: string, broker: Broker,
    oldSession: Session, newSession: Session, decisions: seq<Decision>)

  datatype Archive = Archive(request: Request, snapshot: Store, file: nat)

  /** The bytes of a SQLite file: its logical content and whatever else the bytes depend on. */
  datatype Image = Image(store: Store, salt: nat)

  datatype Body = Container(archive: Archive) | Database(image: Image) | Other(tag: nat)

  /** A caller's path, or a file made by mkstemp beside `owner`. */
  datatype Path = Named(name: string) | Temporary(owner: string, serial: nat)

  datatype Phase =
    | Prepared | SourceRetired | OldCleanRequested | OldCleanConfirmed | NewCleanRequested
    | NewCleanConfirmed | ReplacementReady | ReplacementPublished | Complete

  function Rank(p: Phase): nat {
    match p
    case Prepared => 0
    case SourceRetired => 1
    case OldCleanRequested => 2
    case OldCleanConfirmed => 3
    case NewCleanRequested => 4
    case NewCleanConfirmed => 5
    case ReplacementReady => 6
    case ReplacementPublished => 7
    case Complete => 8
  }

  datatype Staging = Staging(path: Path, digest: Image)

  datatype Journal = Journal(
    request: Request, archiveDigest: Archive, snapshotDigest: Store, file: nat,
    oldIdentity: StoredIdentity, targetIdentity: StoredIdentity, retiredIdentity: StoredIdentity,
    phase: Phase, staged: Option<Staging>)

  datatype Which = OldSession | NewSession

  /** One cleanup handshake attempted with the broker, and whether its CONNACK was accepted. */
  datatype Cleanup = Cleanup(which: Which, clientId: string, accepted: bool)

  /**
   Everything that survives a process: the source database at path `home`, the
   other files (hard links from `names` to `inodes`), the journal, and the
   handshakes the broker has seen. `next` numbers the next new file.
   */
  datatype World = World(
    home: string, source: Store, file: nat, names: map<Path, nat>, inodes: map<nat, Body>, next: nat,
    journal: Option<Journal>, cleanups: seq<Cleanup>)

  // ---------- requests ----------

  function SessionIdentity(b: Broker, s: Session): StoredIdentity {
    Text(Identity.ToolIdentity(b.protocol, s.expiry, b.host, b.port, s.clientId, b.username))
  }

  function OldIdentity(r: Request): StoredIdentity { SessionIdentity(r.broker, r.oldSession) }
  function NewIdentity(r: Request): StoredIdentity { SessionIdentity(r.broker, r.newSession) }

  function SidecarPath(home: string): string { home + ".recovery.sqlite3" }

  /** What `validate_request` asks of the request alone. */
  predicate StaticRequest(home: string, r: Request) {
    && r.archive != r.target
    && r.archive !in {home, SidecarPath(home)} && r.target !in {home, SidecarPath(home)}
    && r.oldSession.clientId != r.newSession.clientId
    && (forall i, j :: 0 <= i < j < |r.decisions| ==> r.decisions[i].deliveryId != r.decisions[j].deliveryId)
  }

  /** ... and of the files it names: no two existing paths may be one file. */
  predicate ValidRequest(w: World, r: Request) {
    && StaticRequest(w.home, r)
    && (Named(r.archive) in w.names && Named(r.target) in w.names ==>
          w.names[Named(r.archive)] != w.names[Named(r.target)])
  }

  function DecidedIds(r: Request): set<string> { set d | d in r.decisions :: d.deliveryId }
  function RowIds(s: Store): set<string> { set row | row in s.rows :: row.deliveryId }

  // ---------- files ----------

  function At(w: World, p: Path): Option<Body> {
    if p in w.names && w.names[p] in w.inodes then Some(w.inodes[w.names[p]]) else None
  }

  function Bind(w: World, p: Path, body: Body): World {
    w.(names := w.names[p := w.next], inodes := w.inodes[w.next := body], next := w.next + 1)
  }

  function Link(w: World, from: Path, to: Path): World {
    if from in w.names then w.(names := w.names[to := w.names[from]]) else w
  }

  function Unlink(w: World, p: Path): World {
    w.(names := w.names - {p})
  }

  // ---------- one process ----------

  datatype Refusal =
    | InvalidRequest | TargetExists | SourceIdentityDiffers | DecisionsIncomplete | ArchiveDiffers | ArchiveRaced
    | JournalExists | RequestDiffers | SourceChanged | CleanupRejected | StagingInvalid | StagingChanged
    | TargetDiffers

  datatype Outcome = NotStarted | Done | Crashed | Refused(reason: Refusal)

  /** Where a running process stands between two durable effects. */
  datatype Process =
    | Idle(outcome: Outcome)
    | Entered(request: Request)
    | ArchiveStaged(request: Request, stage: Path)
    | ArchiveLinked(request: Request, stage: Path)
    | ArchiveReady(request: Request)
    | JournalStaged(request: Request, stage: Path, row: Journal)
    | JournalLinked(request: Request, stage: Path)
    | Advancing(request: Request)
    | Cleaned(request: Request)
    | ReplacementStaged(request: Request, stage: Path)
    | Publishing(request: Request)
    | Unlinking(request: Request)
    | Unlinked(request: Request)

  datatype Move = Move(world: World, process: Process)

  function Stop(w: World, reason: Refusal): Move { Move(w, Idle(Refused(reason))) }

  function Enter(w: World, r: Request): Move {
    if !ValidRequest(w, r) then Stop(w, InvalidRequest)
    else if w.journal.None? && Named(r.target) in w.names then Stop(w, TargetExists)
    else Move(w, Entered(r))
  }

  function NewJournal(w: World, r: Request, a: Archive): Journal {
    Journal(r, a, w.source, w.file, OldIdentity(r), NewIdentity(r), Tombstone(r.operation, a), Prepared, None)
  }

  function Prepare(w: World, r: Request): Move {
    if w.source.identity != OldIdentity(r) then Stop(w, SourceIdentityDiffers)
    else if RowIds(w.source) != DecidedIds(r) then Stop(w, DecisionsIncomplete)
    else if Named(r.archive) in w.names then
      if At(w, Named(r.archive)) == Some(Container(Archive(r, w.source, w.file))) then Move(w, ArchiveReady(r))
      else Stop(w, ArchiveDiffers)
    else
      var stage := Temporary(r.archive, w.next);
      Move(Bind(w, stage, Container(Archive(r, w.source, w.file))), ArchiveStaged(r, stage))
  }

  function PublishArchive(w: World, r: Request, stage: Path): Move {
    if Named(r.archive) in w.names then Stop(Unlink(w, stage), ArchiveRaced)
    else Move(Link(w, stage, Named(r.archive)), ArchiveLinked(r, stage))
  }

  function StageJournal(w: World, r: Request): Move {
    match At(w, Named(r.archive))
    case Some(Container(a)) =>
      if a.request != r then Stop(w, ArchiveDiffers)
      else if w.journal.Some? then Stop(w, JournalExists)
      else
        var stage := Temporary(SidecarPath(w.home), w.next);
        Move(Bind(w, stage, Other(0)), JournalStaged(r, stage, NewJournal(w, r, a)))
    case _ => Stop(w, ArchiveDiffers)
  }

  function PublishJournal(w: World, r: Request, stage: Path, row: Journal): Move {
    if w.journal.Some? then Stop(Unlink(w, stage), JournalExists)
    else Move(w.(journal := Some(row)), JournalLinked(r, stage))
  }

  function WithIdentity(s: Store, i: StoredIdentity): Store { s.(identity := i) }

  /** The source is the archived one, under its own identity or this operation's tombstone. */
  predicate Reconciles(w: World, j: Journal) {
    && w.file == j.file && j.archiveDigest.file == j.file
    && WithIdentity(w.source, j.oldIdentity) == WithIdentity(j.archiveDigest.snapshot, j.oldIdentity)
    && w.source.identity in {j.oldIdentity, j.retiredIdentity}
    && j.snapshotDigest == j.archiveDigest.snapshot
  }

  function Open(w: World, r: Request, j: Journal): Move {
    if At(w, Named(j.request.archive)) != Some(Container(j.archiveDigest)) then Stop(w, ArchiveDiffers)
    else if j.request != r then Stop(w, RequestDiffers)
    else if j.archiveDigest.request != r then Stop(w, ArchiveDiffers)
    else if !Reconciles(w, j) then Stop(w, SourceChanged)
    else Move(w, Advancing(r))
  }

  /** One committed update of the journal row. */
  function Commit(w: World, j: Journal, phase: Phase): World {
    w.(journal := Some(j.(phase := phase)))
  }

  function Replacement(identity: StoredIdentity): Store { Store(identity, 1, false, []) }

  predicate Pristine(body: Option<Body>, identity: StoredIdentity) {
    && body.Some? && body.value.Database?
    && body.value.image.store.identity == identity
    && !body.value.image.store.knownSession && body.value.image.store.rows == []
  }

  predicate HasIdentity(body: Option<Body>, identity: StoredIdentity) {
    body.Some? && body.value.Database? && body.value.image.store.identity == identity
  }

  function Clean(w: World, r: Request, which: Which, accepted: bool): Move {
    var id := if which.OldSession? then r.oldSession.clientId else r.newSession.clientId;
    var w' := w.(cleanups := w.cleanups + [Cleanup(which, id, accepted)]);
    if accepted then Move(w', Cleaned(r)) else Stop(w', CleanupRejected)
  }

  function StageReplacement(w: World, r: Request, j: Journal, salt: nat): Move {
    var stage := Temporary(r.target, w.next);
    Move(Bind(w, stage, Database(Image(Replacement(j.targetIdentity), salt))), ReplacementStaged(r, stage))
  }

  predicate StageVerified(w: World, j: Journal) {
    && j.staged.Some? && Pristine(At(w, j.staged.value.path), j.targetIdentity)
    && At(w, j.staged.value.path) == Some(Database(j.staged.value.digest))
  }

  /** The file at the target path has exactly the recorded replacement's bytes. */
  predicate TargetVerified(w: World, r: Request, j: Journal) {
    && j.staged.Some? && Pristine(At(w, Named(r.target)), j.targetIdentity)
    && At(w, Named(r.target)) == Some(Database(j.staged.value.digest))
  }

  function Ready(w: World, r: Request, j: Journal, salt: nat): Move {
    if j.staged.None? || !j.staged.value.path.Temporary? || j.staged.value.path.owner != r.target then
      Stop(w, StagingInvalid)
    else
      var stage := j.staged.value.path;
      if Named(r.target) in w.names then
        if !TargetVerified(w, r, j) then Stop(w, TargetDiffers)
        else if stage in w.names && w.names[stage] != w.names[Named(r.target)] then Stop(w, TargetDiffers)
        else Move(w, Unlinking(r))
      else if stage !in w.names then StageReplacement(w, r, j, salt)
      else if StageVerified(w, j) then Move(w, Publishing(r))
      else Stop(w, StagingChanged)
  }

  function RecordStage(w: World, r: Request, j: Journal, stage: Path): Move {
    match At(w, stage)
    case Some(Database(image)) =>
      var j' := j.(phase := ReplacementReady, staged := Some(Staging(stage, image)));
      var w' := w.(journal := Some(j'));
      if j.phase.NewCleanConfirmed? then Move(w', Advancing(r))
      else if StageVerified(w', j') then Move(w', Publishing(r))
      else Stop(w', StagingChanged)
    case _ => Stop(w, StagingChanged)
  }

  function PublishTarget(w: World, r: Request, j: Journal): Move {
    if j.staged.None? then Stop(w, StagingInvalid)
    else if Named(r.target) in w.names then
      if TargetVerified(w, r, j) then Move(w, Unlinking(r)) else Stop(w, TargetDiffers)
    else Move(Link(w, j.staged.value.path, Named(r.target)), Unlinking(r))
  }

  /** The next effect of a process whose journal is open. */
  function Advance(w: World, r: Request, j: Journal, salt: nat, accepted: bool): Move {
    match j.phase
    case Prepared =>
      if w.source.identity == j.oldIdentity then
        Move(w.(source := WithIdentity(w.source, j.retiredIdentity)), Advancing(r))
      else if Reconciles(Commit(w, j, SourceRetired), j) then Move(Commit(w, j, SourceRetired), Advancing(r))
      else Stop(Commit(w, j, SourceRetired), SourceChanged)
    case SourceRetired => Move(Commit(w, j, OldCleanRequested), Advancing(r))
    case OldCleanRequested => Clean(w, r, OldSession, accepted)
    case OldCleanConfirmed => Move(Commit(w, j, NewCleanRequested), Advancing(r))
    case NewCleanRequested => Clean(w, r, NewSession, accepted)
    case NewCleanConfirmed =>
      if Named(r.target) in w.names then Stop(w, TargetExists) else StageReplacement(w, r, j, salt)
    case ReplacementReady => Ready(w, r, j, salt)
    case ReplacementPublished =>
      if HasIdentity(At(w, Named(r.target)), j.targetIdentity) then Move(Commit(w, j, Complete), Advancing(r))
      else Stop(w, TargetDiffers)
    case Complete =>
      if HasIdentity(At(w, Named(r.target)), j.targetIdentity) then Move(w, Idle(Done)) else Stop(w, TargetDiffers)
  }

  function ConfirmedPhase(p: Phase): Phase {
    if p.OldCleanRequested? then OldCleanConfirmed else NewCleanConfirmed
  }

  /** One step of a running process: at most one durable effect. */
  function Proceed(w: World, p: Process, salt: nat, accepted: bool): Move {
    match p
    case Idle(_) => Move(w, p)
    case Entered(r) => if w.journal.None? then Prepare(w, r) else Open(w, r, w.journal.value)
    case ArchiveStaged(r, stage) => PublishArchive(w, r, stage)
    case ArchiveLinked(r, stage) => Move(Unlink(w, stage), ArchiveReady(r))
    case ArchiveReady(r) => StageJournal(w, r)
    case JournalStaged(r, stage, row) => PublishJournal(w, r, stage, row)
    case JournalLinked(r, stage) => Move(Unlink(w, stage), Entered(r))
    case Advancing(_) | Cleaned(_) | ReplacementStaged(_, _) | Publishing(_) | Unlinking(_) | Unlinked(_) =>
      if w.journal.None? then Stop(w, RequestDiffers) else AfterOpen(w, p, w.journal.value, salt, accepted)
  }

  function AfterOpen(w: World, p: Process, j: Journal, salt: nat, accepted: bool): Move {
    match p
    case Advancing(r) => Advance(w, r, j, salt, accepted)
    case Cleaned(r) => Move(Commit(w, j, ConfirmedPhase(j.phase)), Advancing(r))
    case ReplacementStaged(r, stage) => RecordStage(w, r, j, stage)
    case Publishing(r) => PublishTarget(w, r, j)
    case Unlinking(r) =>
      if j.staged.None? then Stop(w, StagingInvalid) else Move(Unlink(w, j.staged.value.path), Unlinked(r))
    case Unlinked(r) => Move(Commit(w, j, ReplacementPublished), Advancing(r))
    case _ => Move(w, p)
  }

  // ---------- runs ----------

  /** `oldStops` and `newStops` count processes that had opened their journal and ended inside a cleanup window. */
  datatype System = System(world: World, process: Process, oldStops: nat, newStops: nat)

  datatype Input =
    | Launch(request: Request)                     // `resolve` or `resume`
    | Go(salt: nat, accepted: bool)                // the process reaches its next effect
    | Kill                                         // the process dies where it stands
    | Appear(name: string, body: Body)             // someone else creates a file
    | SourceClient(store: Store)                   // an MQTT client scope writes the source
    | OutboxClient(name: string, store: Store, salt: nat)  // a client scope writes another outbox

  function InPhase(w: World, phase: Phase): bool { w.journal.Some? && w.journal.value.phase == phase }

  /** The process acts on the journal of its own request; others have not got past opening it. */
  predicate Acting(w: World, p: Process) {
    (p.Advancing? || p.Cleaned?) && w.journal.Some? && w.journal.value.request == p.request
  }

  function Settle(s: System, m: Move): System {
    var stopped := m.process.Idle? && Acting(m.world, s.process);
    System(m.world, m.process,
           s.oldStops + (if stopped && InPhase(m.world, OldCleanRequested) then 1 else 0),
           s.newStops + (if stopped && InPhase(m.world, NewCleanRequested) then 1 else 0))
  }

  /** A client scope opens only a store that carries its own printed identity, and never changes it. */
  predicate ClientMay(before: Store, after: Store) {
    before.identity.Text? && after.identity == before.identity
  }

  /** What may happen outside the tool: it never rebinds a path, and the source lock keeps clients out. */
  function Outside(s: System, i: Input): World {
    var w := s.world;
    match i
    case Appear(name, body) =>
      if Named(name) in w.names || name in {w.home, SidecarPath(w.home)} then w else Bind(w, Named(name), body)
    case SourceClient(store) =>
      if s.process.Idle? && ClientMay(w.source, store) then w.(source := store) else w
    case OutboxClient(name, store, salt) =>
      (match At(w, Named(name))
       case Some(Database(image)) =>
         if ClientMay(image.store, store)
         then w.(inodes := w.inodes[w.names[Named(name)] := Database(Image(store, salt))]) else w
       case _ => w)
    case _ => w
  }

  function Step(s: System, i: Input): System {
    match i
    case Launch(r) =>
      if !s.process.Idle? then s           // the source is locked: refused without effect
      else
        s.(process := Enter(s.world, r).process)
    case Go(salt, accepted) => if s.process.Idle? then s else Settle(s, Proceed(s.world, s.process, salt, accepted))
    case Kill => if s.process.Idle? then s else Settle(s, Move(s.world, Idle(Crashed)))
    case _ => s.(world := Outside(s, i))
  }

  function Run(s: System, inputs: seq<Input>): System
    decreases |inputs|
  {
    if inputs == [] then s else Run(Step(s, inputs[0]), inputs[1..])
  }

  predicate FilesOk(w: World) {
    && (forall p :: p in w.names ==> w.names[p] in w.inodes)
    && (forall n :: n in w.inodes ==> n < w.next)
    && (forall p :: p in w.names && p.Temporary? ==> p.serial < w.next)
  }

  /** No operation has been prepared for this source yet. */
  predicate Initial(w: World) {
    && FilesOk(w) && w.journal.None? && w.cleanups == []
    && Named(w.home) !in w.names && Named(SidecarPath(w.home)) !in w.names
  }

  function Start(w: World): System { System(w, Idle(NotStarted), 0, 0) }
}
