/**
 Progress without looking at the state a crash leaves behind: whatever the tool itself
 does, however often it dies and whatever the broker answers, an operation that could
 complete at the start can complete at any later point.
 */
module RecoveryProgress {
  import opened Optional
  import opened RecoveryMachine
  import opened RecoveryInvariant
  import opened RecoveryTheorems
  import opened RecoveryRefinement
  import Identity

  // ---------- one step ----------

  /** A process that still has hope is working on a viable operation. */
  lemma HopefulViable(w: World, p: Process)
    requires WorldOk(w) && ProcessOk(w, p) && Calm(w, p) && Hopeful(w, p)
    ensures Viable(w, p.request)
  {
    if w.journal.None? {
      assert Preparing(w, p.request) || p.Entered?;
    }
  }

  /** Only a cleanup depends on the broker's answer, and a refused one changes nothing but the log. */
  lemma RefusedCleanup(w: World, p: Process, salt: nat)
    ensures if InWindow(w, p) then
              var m := Proceed(w, p, salt, false);
              m.process.Idle? && m.world == w.(cleanups := m.world.cleanups)
            else Proceed(w, p, salt, false) == Proceed(w, p, salt, true)
  {
  }

  /** What every state of a run of the tool alone keeps: the journal's operation can complete. */
  predicate OnTrack(w: World, p: Process) {
    Calm(w, p) && (w.journal.Some? ==> Viable(w, w.journal.value.request))
  }

  /** A process that has got past opening works on the request of the journal, if there is one. */
  lemma OwnRequest(w: World, p: Process)
    requires WorldOk(w) && ProcessOk(w, p) && Calm(w, p) && w.journal.Some? && !p.Idle? && !p.Entered?
    ensures p.request == w.journal.value.request
  {
  }

  lemma AcceptedStep(w: World, p: Process, salt: nat)
    requires WorldOk(w) && ProcessOk(w, p) && OnTrack(w, p) && !p.Idle?
    requires w.journal.Some? ==> p.request == w.journal.value.request
    ensures var m := Proceed(w, p, salt, true);
            && OnTrack(m.world, m.process)
            && (Hopeful(w, p) ==> Viable(m.world, p.request) && (m.process.Idle? || m.process.request == p.request))
  {
    var m := Proceed(w, p, salt, true);
    ProceedOnward(w, p, salt);
    ProceedKeeps(w, p, salt, true);
    ProceedKeepsRow(w, p, salt, true);
    if m.process.Idle? {
      DoneMeansOwn(w, p, salt);
      if w.journal.None? {
        StoppedEarly(w, p, salt);
      }
    } else if Hopeful(m.world, m.process) {
      HopefulViable(m.world, m.process);
      JournalOfProcess(w, p, salt);
    } else {
      JournalOfProcess(w, p, salt);
    }
  }

  /** A process that stops without a journal leaves none. */
  lemma StoppedEarly(w: World, p: Process, salt: nat)
    requires w.journal.None? && Proceed(w, p, salt, true).process.Idle?
    ensures Proceed(w, p, salt, true).world.journal.None?
  {
  }

  /** A journal appears only for the process that publishes it, which then reopens it. */
  lemma JournalOfProcess(w: World, p: Process, salt: nat)
    requires WorldOk(w) && ProcessOk(w, p) && OnTrack(w, p) && !p.Idle?
    requires w.journal.Some? ==> p.request == w.journal.value.request
    ensures var m := Proceed(w, p, salt, true);
            m.world.journal.Some? ==> m.world.journal.value.request == p.request && Hopeful(w, p)
  {
    ProceedKeepsRow(w, p, salt, true);
  }

  /** A process whose request is not the journal's is refused on opening. */
  lemma StrangersStop(w: World, p: Process, salt: nat, accepted: bool)
    requires WorldOk(w) && ProcessOk(w, p) && Calm(w, p) && !p.Idle?
    requires w.journal.Some? && p.request != w.journal.value.request
    ensures Proceed(w, p, salt, accepted).world == w && Proceed(w, p, salt, accepted).process.Idle?
  {
    if !p.Entered? {
      OwnRequest(w, p);
    }
  }

  lemma GoOnTrack(w: World, p: Process, salt: nat, accepted: bool)
    requires WorldOk(w) && ProcessOk(w, p) && OnTrack(w, p) && !p.Idle?
    ensures var m := Proceed(w, p, salt, accepted);
            && OnTrack(m.world, m.process)
            && (Hopeful(w, p) ==> Viable(m.world, p.request) && (m.process.Idle? || m.process.request == p.request))
  {
    if w.journal.Some? && p.request != w.journal.value.request {
      StrangersStop(w, p, salt, accepted);
      NoHope(w, p);
    } else {
      AcceptedStep(w, p, salt);
      if !accepted {
        RefusedCleanup(w, p, salt);
        if InWindow(w, p) {
          LogIsIrrelevant(w, Proceed(w, p, salt, false).world, p.request);
        }
      }
    }
  }

  lemma NoHope(w: World, p: Process)
    requires WorldOk(w) && ProcessOk(w, p) && Calm(w, p) && !p.Idle?
    requires w.journal.Some? && p.request != w.journal.value.request
    ensures !Hopeful(w, p)
  {
  }

  lemma LogIsIrrelevant(w: World, v: World, r: Request)
    requires v == w.(cleanups := v.cleanups)
    ensures Viable(v, r) == Viable(w, r)
  {
  }

  // ---------- runs ----------

  lemma StepOnTrack(s: System, i: Input)
    requires Inv(s) && OnTrack(s.world, s.process) && (i.Launch? || i.Go? || i.Kill?)
    ensures Inv(Step(s, i)) && OnTrack(Step(s, i).world, Step(s, i).process)
  {
    StepKeeps(s, i);
    if i.Launch? {
      EnterVerdict(s.world, i.request);
    } else if i.Go? && !s.process.Idle? {
      GoOnTrack(s.world, s.process, i.salt, i.accepted);
    }
  }

  lemma {:induction false} RunOnTrack(s: System, inputs: seq<Input>)
    requires Inv(s) && OnTrack(s.world, s.process) && ToolOnly(inputs)
    ensures Inv(Run(s, inputs)) && OnTrack(Run(s, inputs).world, Run(s, inputs).process)
    decreases |inputs|
  {
    if inputs != [] {
      assert inputs[0].Launch? || inputs[0].Go? || inputs[0].Kill?;
      StepOnTrack(s, inputs[0]);
      RunOnTrack(Step(s, inputs[0]), inputs[1..]);
    }
  }

  /** The tool works on one request: launches of it, effects with any broker answers, and crashes. */
  predicate OnlyOf(inputs: seq<Input>, r: Request) {
    ToolOnly(inputs) && forall k :: 0 <= k < |inputs| && inputs[k].Launch? ==> inputs[k].request == r
  }

  /** ... and the operation of that request can complete at every point. */
  predicate OnTrackOf(w: World, p: Process, r: Request) {
    OnTrack(w, p) && Viable(w, r) && (p.Idle? || (p.request == r && Hopeful(w, p)))
  }

  lemma StepOnTrackOf(s: System, i: Input, r: Request)
    requires Inv(s) && OnTrackOf(s.world, s.process, r) && (i.Go? || i.Kill? || i == Launch(r))
    ensures Inv(Step(s, i)) && OnTrackOf(Step(s, i).world, Step(s, i).process, r)
  {
    StepOnTrack(s, i);
    if i.Launch? {
      EnterVerdict(s.world, r);
    } else if i.Go? && !s.process.Idle? {
      GoOnTrack(s.world, s.process, i.salt, i.accepted);
    }
  }

  lemma {:induction false} RunOnTrackOf(s: System, inputs: seq<Input>, r: Request)
    requires Inv(s) && OnTrackOf(s.world, s.process, r) && OnlyOf(inputs, r)
    ensures Inv(Run(s, inputs)) && OnTrackOf(Run(s, inputs).world, Run(s, inputs).process, r)
    decreases |inputs|
  {
    if inputs != [] {
      assert inputs[0].Launch? || inputs[0].Go? || inputs[0].Kill?;
      StepOnTrackOf(s, inputs[0], r);
      RunOnTrackOf(Step(s, inputs[0]), inputs[1..], r);
    }
  }

  /** Crashes and refused handshakes, wherever they fall, never make an operation impossible to complete. */
  lemma {:induction false} StaysViable(w0: World, r: Request, inputs: seq<Input>)
    requires Initial(w0) && Viable(w0, r) && OnlyOf(inputs, r)
    ensures Viable(Run(Start(w0), inputs).world, r)
  {
    InitialInv(w0);
    RunOnTrackOf(Start(w0), inputs, r);
  }

  lemma {:induction false} RunJoins(s: System, a: seq<Input>, b: seq<Input>)
    ensures Run(s, a + b) == Run(Run(s, a), b)
    decreases |a|
  {
    if a == [] {
      assert a + b == b;
    } else {
      assert (a + b)[0] == a[0] && (a + b)[1..] == a[1..] + b;
      RunJoins(Step(s, a[0]), a[1..], b);
    }
  }

  /** What is left to do after a crash: launch the request once more and let it go on. */
  function Resumed(r: Request, straight: seq<Input>): seq<Input> { [Kill, Launch(r)] + straight }

  lemma {:induction false} ResumedRun(s: System, r: Request, straight: seq<Input>)
    ensures Run(s, Resumed(r, straight)) == Run(Step(s, Kill), [Launch(r)] + straight)
  {
    assert Resumed(r, straight)[1..] == [Launch(r)] + straight;
  }

  /**
   Progress: let an operation be possible at the start, and let the tool work on it
   in any way, dying between any two effects and meeting any broker answers, up to any
   point, a last crash there included. Then one uninterrupted resume with an accepting
   broker reaches `Complete`, and it leaves the one result of the operation.
   */
  lemma {:induction false} CrashProgress(w0: World, r: Request, crashy: seq<Input>, straight: seq<Input>)
    requires Initial(w0) && Viable(w0, r) && OnlyOf(crashy, r) && Straight(straight) && |straight| >= 70
    ensures var t := Run(Start(w0), crashy + Resumed(r, straight));
            && t.process == Idle(Done) && InPhase(t.world, Complete) && t.world.journal.value.request == r
            && HasIdentity(At(t.world, Named(r.target)), t.world.journal.value.targetIdentity)
            && Final(t.world) == Expected(w0, r)
  {
    ResumeCompletes(w0, r, crashy, straight);
    OnlyTool(crashy, r, straight);
    OneResult(w0, crashy + Resumed(r, straight));
  }

  lemma OnlyTool(crashy: seq<Input>, r: Request, straight: seq<Input>)
    requires ToolOnly(crashy) && Straight(straight)
    ensures ToolOnly(crashy + Resumed(r, straight))
  {
  }

  lemma {:induction false} ResumeCompletes(w0: World, r: Request, crashy: seq<Input>, straight: seq<Input>)
    requires Initial(w0) && Viable(w0, r) && OnlyOf(crashy, r) && Straight(straight) && |straight| >= 70
    ensures var t := Run(Start(w0), crashy + Resumed(r, straight));
            t.process == Idle(Done) && InPhase(t.world, Complete) && t.world.journal.value.request == r
  {
    InitialInv(w0);
    RunOnTrackOf(Start(w0), crashy, r);
    var s := Run(Start(w0), crashy);
    RunJoins(Start(w0), crashy, Resumed(r, straight));
    ResumedRun(s, r, straight);
    KillKeeps(s);
    Progress(Step(s, Kill), r, straight);
  }

  /**
   The same from any start and for launches of any requests: as soon as a journal exists,
   its operation completes on the next uninterrupted resume.
   */
  lemma {:induction false} PreparedProgress(w0: World, crashy: seq<Input>, straight: seq<Input>)
    requires Initial(w0) && ToolOnly(crashy) && Straight(straight) && |straight| >= 70
    requires Run(Start(w0), crashy).world.journal.Some?
    ensures var r := Run(Start(w0), crashy).world.journal.value.request;
            var t := Run(Start(w0), crashy + Resumed(r, straight));
            t.process == Idle(Done) && InPhase(t.world, Complete) && t.world.journal.value.request == r
  {
    InitialInv(w0);
    RunOnTrack(Start(w0), crashy);
    var s := Run(Start(w0), crashy);
    var r := s.world.journal.value.request;
    RunJoins(Start(w0), crashy, Resumed(r, straight));
    ResumedRun(s, r, straight);
    KillKeeps(s);
    Progress(Step(s, Kill), r, straight);
  }

  // ---------- interference ----------

  /** A stranger's file at the target path, created while the tool is down after making the archive. */
  function Interference(r: Request, body: Body): seq<Input> {
    [Launch(r)] + ([Go(0, true)] + ([Go(0, true)] + ([Kill] + ([Appear(r.target, body)] + []))))
  }

  lemma {:induction false} RunCons(s: System, i: Input, rest: seq<Input>)
    ensures Run(s, [i] + rest) == Run(Step(s, i), rest)
  {
    assert ([i] + rest)[1..] == rest;
  }

  /** After it no resume completes, whatever it meets; each is refused on entry and changes nothing. */
  lemma StrangerBlocks(w0: World, r: Request, body: Body)
    requires Initial(w0) && Viable(w0, r) && Named(r.archive) !in w0.names
    ensures var s := Run(Start(w0), Interference(r, body));
            && Named(r.archive) in s.world.names && s.world.journal.None? && s.process.Idle?
            && !Viable(s.world, r)
            && Step(s, Launch(r)) == s.(process := Idle(Refused(TargetExists)))
  {
    var a := Step(Start(w0), Launch(r));
    var b := Step(a, Go(0, true));
    var c := Step(b, Go(0, true));
    var d := Step(c, Kill);
    var e := Step(d, Appear(r.target, body));
    RunCons(Start(w0), Launch(r), [Go(0, true)] + ([Go(0, true)] + ([Kill] + ([Appear(r.target, body)] + []))));
    RunCons(a, Go(0, true), [Go(0, true)] + ([Kill] + ([Appear(r.target, body)] + [])));
    RunCons(b, Go(0, true), [Kill] + ([Appear(r.target, body)] + []));
    RunCons(c, Kill, [Appear(r.target, body)] + []);
    RunCons(d, Appear(r.target, body), []);
    assert a.process == Entered(r) && b.process.ArchiveStaged? && c.process.ArchiveLinked?;
    assert Named(r.target) in e.world.names;
    assert ValidRequest(e.world, r);
  }

  /** One request on an empty outbox, with nothing else on the disk. */
  function SmallRequest(): Request {
    Request("op-1", "/a", "/t", Broker("h", 1883, Identity.Mqtt5, None), Session("old", 60), Session("new", 60), [])
  }

  function SmallWorld(): World {
    World("/s", Store(OldIdentity(SmallRequest()), 1, false, []), 1, map[], map[], 0, None, [])
  }

  /** A concrete operation that is possible at the start and is blocked by one stranger's file. */
  lemma StrangerExample()
    ensures Initial(SmallWorld()) && Viable(SmallWorld(), SmallRequest())
    ensures var s := Run(Start(SmallWorld()), Interference(SmallRequest(), Other(0)));
            !Viable(s.world, SmallRequest()) && Step(s, Launch(SmallRequest())).process == Idle(Refused(TargetExists))
  {
    assert |SidecarPath("/s")| > 2 && "/a"[1] != "/t"[1] && "/a"[1] != "/s"[1] && "/t"[1] != "/s"[1];
    assert "old"[0] != "new"[0];
    StrangerBlocks(SmallWorld(), SmallRequest(), Other(0));
  }
}
