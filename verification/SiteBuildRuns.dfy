/**
 * Ticks that overlap each other and the people: `site-builds.run` is a `standard` queue, and every write of a stage
 * is unconditional. A job reads its build once and writes from what it read; between the two, anything may happen.
 */
module SiteBuildRuns {

  import opened SiteBuilds
  import opened Wrappers

  /** A row and its audit log, every stage it has been at, the current one last; and the emails its client was sent. */
  datatype Row = Row(build: Build, log: seq<Stage>, emails: nat)

  /**
   * What is under way for a build: a tick's work on it, from reading to writing, and the notice to the owner after the
   * write to `Review`; a press of the tell button, from reading to claiming, and the email after the claim.
   */
  datatype Job = Working(id: Id, read: Build) | Telling(id: Id) | Claiming(id: Id) | Emailing(id: Id)

  datatype World = World(rows: map<Id, Row>, jobs: map<nat, Job>)

  datatype Event =
    | Starts(id: Id, hasLead: bool)
    | Picks(job: nat, id: Id)
    | Writes(job: nat, answers: Answers)
    | Tells(job: nat, result: Result<()>)
    | Dies(job: nat)
    | Approves(id: Id)
    | Cancels(id: Id)
    | TellsClient(job: nat, id: Id)
    | Claims(job: nat)
    | Sends(job: nat)
    | SendFails(job: nat, reason: string)

  function WriteRow(row: Row, write: Write): Row {
    var build := Written(row.build, write);
    row.(build := build, log := row.log + [build.stage])
  }

  function WithRow(w: World, id: Id, write: Write): World
    requires id in w.rows
  {
    w.(rows := w.rows[id := WriteRow(w.rows[id], write)])
  }

  function Without(w: World, job: nat): World { w.(jobs := w.jobs - {job}) }

  /** A person's writes: approving and cancelling ask nothing of the row. */
  function PersonWrites(w: World, id: Id, stage: Stage): World {
    if id in w.rows then WithRow(w, id, Advance(stage, None, None)) else w
  }

  function Apply(w: World, e: Event): World {
    match e
    case Starts(id, hasLead) =>
      if id in w.rows then w else w.(rows := w.rows[id := Row(NewBuild(hasLead), [Queued], 0)])
    case Picks(job, id) =>
      if job in w.jobs || id !in w.rows || !InProgress(w.rows[id].build.stage) then w
      else w.(jobs := w.jobs[job := Working(id, w.rows[id].build)])
    case Writes(job, answers) => if job in w.jobs then JobWrites(w, job, answers) else w
    case Tells(job, result) => if job in w.jobs then JobTells(w, job, result) else w
    case Dies(job) => Without(w, job)
    case Approves(id) => PersonWrites(w, id, Approved)
    case Cancels(id) => PersonWrites(w, id, Cancelled)
    case TellsClient(job, id) =>
      if job !in w.jobs && id in w.rows && MayTell(w.rows[id].build) then w.(jobs := w.jobs[job := Claiming(id)]) else w
    case Claims(job) => if job in w.jobs then JobClaims(w, job) else w
    case Sends(job) => if job in w.jobs then JobSends(w, job, None) else w
    case SendFails(job, reason) => if job in w.jobs then JobSends(w, job, Some(reason)) else w
  }

  /** Approved, or told before with an error left on the row. */
  predicate MayTell(build: Build) { build.stage == Approved || (build.stage == Notified && build.error.Some?) }

  function JobWrites(w: World, job: nat, answers: Answers): World
    requires job in w.jobs
  {
    var j := w.jobs[job];
    if j.Working? && j.id in w.rows && InProgress(j.read.stage) then
      var write := WriteFor(j.read, answers);
      var after := WithRow(w, j.id, write);
      if write.Advance? && write.stage == Review then after.(jobs := after.jobs[job := Telling(j.id)]) else Without(after, job)
    else w
  }

  /** The claim transaction reads the row without locking it, and then updates it by its id alone. */
  function JobClaims(w: World, job: nat): World
    requires job in w.jobs
  {
    var j := w.jobs[job];
    if j.Claiming? && j.id in w.rows then
      var after := WithRow(w, j.id, Advance(Notified, None, None));
      after.(jobs := after.jobs[job := Emailing(j.id)])
    else w
  }

  /** The email goes out, or its failure is written on the row as an error, whatever stage the row is at by then. */
  function JobSends(w: World, job: nat, failure: Option<string>): World
    requires job in w.jobs
  {
    var j := w.jobs[job];
    if j.Emailing? && j.id in w.rows then
      var row := w.rows[j.id];
      var after := if failure.Some? then row.(build := row.build.(error := failure)) else row.(emails := row.emails + 1);
      Without(w.(rows := w.rows[j.id := after]), job)
    else w
  }

  function JobTells(w: World, job: nat, result: Result<()>): World
    requires job in w.jobs
  {
    var j := w.jobs[job];
    if j.Telling? && j.id in w.rows then
      Without(if result.Threw? then WithRow(w, j.id, Fail(result.reason)) else w, job)
    else w
  }

  function Exec(w: World, events: seq<Event>): World
    decreases |events|
  {
    if events == [] then w else Exec(Apply(w, events[0]), events[1..])
  }

  const EMPTY := World(map[], map[])

  // ---------------------------------------------------------------- a tick is a job nobody disturbs

  /** Picked, written and told with nothing between, a job does to its build what one tick does. */
  lemma UndisturbedJobIsATick(w: World, job: nat, id: Id, answers: Answers)
    requires id in w.rows && job !in w.jobs && InProgress(w.rows[id].build.stage)
    ensures var end := Apply(Apply(Apply(w, Picks(job, id)), Writes(job, answers)), Tells(job, answers.tellOwner));
      end.jobs == w.jobs && end.rows.Keys == w.rows.Keys && end.rows[id].build == Ticked(w.rows[id].build, answers) &&
      forall other :: other in w.rows && other != id ==> end.rows[other] == w.rows[other]
  {
    var w1 := Apply(w, Picks(job, id));
    var w2 := Apply(w1, Writes(job, answers));
    var w3 := Apply(w2, Tells(job, answers.tellOwner));
    assert w1.jobs[job] == Working(id, w.rows[id].build);
    assert w3.jobs == w.jobs;
  }

  // ---------------------------------------------------------------- what holds however they overlap

  /** The stage a build must have been at before it can be at this one, when there is such a stage. */
  function Before(stage: Stage): Option<Stage> {
    match stage
    case Generating => Some(Queued)
    case Provisioning => Some(Generating)
    case Uploading => Some(Provisioning)
    case Review => Some(Uploading)
    case Notified => Some(Approved)
    case _ => None
  }

  ghost predicate Earned(log: seq<Stage>, j: nat)
    requires j < |log|
  {
    Before(log[j]).Some? ==> Before(log[j]).value in log[..j]
  }

  ghost predicate NothingSkipped(log: seq<Stage>) { forall j: nat :: j < |log| ==> Earned(log, j) }

  /** A build that got as far as being provisioned has its generated site stored, whatever came after. */
  ghost predicate SoundRow(row: Row) {
    |row.log| > 0 && row.log[|row.log| - 1] == row.build.stage && NothingSkipped(row.log) &&
    (Provisioning in row.log ==> row.build.generated.Some?)
  }

  ghost predicate SoundJob(w: World, j: Job) {
    j.id in w.rows &&
    match j
    case Working(id, read) => InProgress(read.stage) && read.stage in w.rows[id].log
    case Telling(id) => Review in w.rows[id].log
    case Claiming(id) => Approved in w.rows[id].log
    case Emailing(id) => true
  }

  ghost predicate Sound(w: World) {
    (forall id :: id in w.rows ==> SoundRow(w.rows[id])) && (forall k :: k in w.jobs ==> SoundJob(w, w.jobs[k]))
  }

  /** The write is to a stage whose predecessor the row has been at, and brings the site when it must. */
  ghost predicate Fits(row: Row, write: Write) {
    var stage := Written(row.build, write).stage;
    (Before(stage).Some? ==> Before(stage).value in row.log) && (stage == Provisioning ==> write.Advance? && write.site.Some?)
  }

  lemma WriteKeepsRowSound(row: Row, write: Write)
    requires SoundRow(row) && Fits(row, write)
    ensures SoundRow(WriteRow(row, write)) && forall s :: s in row.log ==> s in WriteRow(row, write).log
  {
    var after := WriteRow(row, write);
    forall j: nat | j < |after.log| ensures Earned(after.log, j) {
      if j < |row.log| {
        assert Earned(row.log, j) && after.log[..j] == row.log[..j];
      } else {
        assert after.log[..j] == row.log;
      }
    }
  }

  lemma WriteKeepsSound(w: World, id: Id, write: Write)
    requires Sound(w) && id in w.rows && Fits(w.rows[id], write)
    ensures Sound(WithRow(w, id, write))
  {
    WriteKeepsRowSound(w.rows[id], write);
    var after := WithRow(w, id, write);
    forall k | k in after.jobs ensures SoundJob(after, after.jobs[k]) {
      assert SoundJob(w, w.jobs[k]);
    }
  }

  lemma JobKeepsSound(w: World, job: nat, j: Job)
    requires Sound(w) && SoundJob(w, j)
    ensures Sound(w.(jobs := w.jobs[job := j])) && Sound(Without(w, job))
  {
    var more, less := w.(jobs := w.jobs[job := j]), Without(w, job);
    forall k | k in more.jobs ensures SoundJob(more, more.jobs[k]) { assert SoundJob(w, more.jobs[k]); }
    forall k | k in less.jobs ensures SoundJob(less, less.jobs[k]) { assert SoundJob(w, less.jobs[k]); }
  }

  lemma WritesKeepSound(w: World, job: nat, answers: Answers)
    requires Sound(w) && job in w.jobs
    ensures Sound(JobWrites(w, job, answers))
  {
    var j := w.jobs[job];
    if j.Working? {
      assert SoundJob(w, j);
      var write := WriteFor(j.read, answers);
      WriteKeepsSound(w, j.id, write);
      var after := WithRow(w, j.id, write);
      assert write.Advance? ==> write.stage in after.rows[j.id].log;
      JobKeepsSound(after, job, if write.Advance? && write.stage == Review then Telling(j.id) else after.jobs[job]);
    }
  }

  lemma TellsKeepSound(w: World, job: nat, result: Result<()>)
    requires Sound(w) && job in w.jobs
    ensures Sound(JobTells(w, job, result))
  {
    var j := w.jobs[job];
    assert SoundJob(w, j);
    if result.Threw? { WriteKeepsSound(w, j.id, Fail(result.reason)); }
    var after := if result.Threw? then WithRow(w, j.id, Fail(result.reason)) else w;
    JobKeepsSound(after, job, after.jobs[job]);
  }

  /** Only what was approved at some time may be told. */
  lemma ToldWasApproved(row: Row)
    requires SoundRow(row) && MayTell(row.build)
    ensures Approved in row.log
  {
    assert Earned(row.log, |row.log| - 1);
  }

  lemma ClaimsKeepSound(w: World, job: nat)
    requires Sound(w) && job in w.jobs
    ensures Sound(JobClaims(w, job))
  {
    var j := w.jobs[job];
    if j.Claiming? {
      assert SoundJob(w, j);
      WriteKeepsSound(w, j.id, Advance(Notified, None, None));
      JobKeepsSound(WithRow(w, j.id, Advance(Notified, None, None)), job, Emailing(j.id));
    }
  }

  lemma SendsKeepSound(w: World, job: nat, failure: Option<string>)
    requires Sound(w) && job in w.jobs
    ensures Sound(JobSends(w, job, failure))
  {
    var j := w.jobs[job];
    assert SoundJob(w, j);
    if j.Emailing? {
      assert SoundRow(w.rows[j.id]);
      var after := JobSends(w, job, failure);
      forall k | k in after.jobs ensures SoundJob(after, after.jobs[k]) { assert SoundJob(w, w.jobs[k]); }
    }
  }

  lemma PressKeepsSound(w: World, e: Event)
    requires Sound(w) && (e.Approves? || e.Cancels? || e.TellsClient?)
    ensures Sound(Apply(w, e))
  {
    match e
    case Approves(id) => if id in w.rows { WriteKeepsSound(w, id, Advance(Approved, None, None)); }
    case Cancels(id) => if id in w.rows { WriteKeepsSound(w, id, Advance(Cancelled, None, None)); }
    case TellsClient(job, id) =>
      if Apply(w, e) != w {
        ToldWasApproved(w.rows[id]);
        JobKeepsSound(w, job, Claiming(id));
      }
  }

  lemma ApplyKeepsSound(w: World, e: Event)
    requires Sound(w)
    ensures Sound(Apply(w, e))
  {
    match e
    case Starts(id, hasLead) =>
      var after := Apply(w, e);
      forall k | k in after.jobs ensures SoundJob(after, after.jobs[k]) { assert SoundJob(w, w.jobs[k]); }
    case Picks(job, id) => if Apply(w, e) != w { JobKeepsSound(w, job, Working(id, w.rows[id].build)); }
    case Writes(job, answers) => if job in w.jobs { WritesKeepSound(w, job, answers); }
    case Tells(job, result) => if job in w.jobs { TellsKeepSound(w, job, result); }
    case Dies(job) => if job in w.jobs { JobKeepsSound(w, job, w.jobs[job]); } else { assert w.jobs - {job} == w.jobs; }
    case Claims(job) => if job in w.jobs { ClaimsKeepSound(w, job); }
    case Sends(job) => if job in w.jobs { SendsKeepSound(w, job, None); }
    case SendFails(job, reason) => if job in w.jobs { SendsKeepSound(w, job, Some(reason)); }
    case _ => PressKeepsSound(w, e);
  }

  lemma {:induction false} RunsKeepSound(w: World, events: seq<Event>)
    requires Sound(w)
    ensures Sound(Exec(w, events))
    decreases |events|
  {
    if events != [] {
      ApplyKeepsSound(w, events[0]);
      RunsKeepSound(Apply(w, events[0]), events[1..]);
    }
  }

  lemma StageWasEarned(log: seq<Stage>, j: nat) returns (i: nat)
    requires NothingSkipped(log) && j < |log| && Before(log[j]).Some?
    ensures i < j && log[i] == Before(log[j]).value
  {
    assert Earned(log, j);
    i :| 0 <= i < j && log[i] == Before(log[j]).value;
  }

  /**
   * Whatever overlaps, dies or throws, a build reaches review only through every stage before it, in order, and
   * from `provisioning` onward its generated site is stored.
   */
  lemma ReviewIsEarned(events: seq<Event>, id: Id, review: nat) returns (q: nat, g: nat, p: nat, u: nat)
    requires id in Exec(EMPTY, events).rows && review < |Exec(EMPTY, events).rows[id].log|
    requires Exec(EMPTY, events).rows[id].log[review] == Review
    ensures var row := Exec(EMPTY, events).rows[id];
      q < g < p < u < review && row.log[q] == Queued && row.log[g] == Generating && row.log[p] == Provisioning &&
      row.log[u] == Uploading && row.build.generated.Some?
  {
    RunsKeepSound(EMPTY, events);
    var row := Exec(EMPTY, events).rows[id];
    assert SoundRow(row);
    u := StageWasEarned(row.log, review);
    p := StageWasEarned(row.log, u);
    g := StageWasEarned(row.log, p);
    q := StageWasEarned(row.log, g);
  }

  lemma ProvisionedMeansGenerated(events: seq<Event>, id: Id)
    requires id in Exec(EMPTY, events).rows
    ensures var row := Exec(EMPTY, events).rows[id];
      row.build.stage in {Provisioning, Uploading, Review} ==> row.build.generated.Some?
  {
    RunsKeepSound(EMPTY, events);
    var log := Exec(EMPTY, events).rows[id].log;
    assert SoundRow(Exec(EMPTY, events).rows[id]);
    if log[|log| - 1] == Uploading {
      var p := StageWasEarned(log, |log| - 1);
    } else if log[|log| - 1] == Review {
      var u := StageWasEarned(log, |log| - 1);
      var p := StageWasEarned(log, u);
    }
  }

  ghost predicate HasBeen(w: World, id: Id, stage: Stage) { id in w.rows && stage in w.rows[id].log }

  lemma {:induction false} ApprovedNeedsAPress(w: World, events: seq<Event>, id: Id) returns (i: nat)
    requires HasBeen(Exec(w, events), id, Approved) && !HasBeen(w, id, Approved)
    ensures i < |events| && events[i] == Approves(id)
    decreases |events|
  {
    var w' := Apply(w, events[0]);
    if HasBeen(w', id, Approved) {
      i := 0;
    } else {
      var k := ApprovedNeedsAPress(w', events[1..], id);
      i := k + 1;
    }
  }

  ghost predicate BeingTold(w: World, id: Id) { exists k :: k in w.jobs && w.jobs[k] == Claiming(id) }

  lemma StepTowardsTelling(w: World, e: Event, id: Id)
    requires !BeingTold(w, id) && !HasBeen(w, id, Notified)
    ensures !HasBeen(Apply(w, e), id, Notified)
    ensures BeingTold(Apply(w, e), id) ==> e.TellsClient? && e.id == id && id in w.rows && MayTell(w.rows[id].build)
  {
  }

  lemma {:induction false} NotifiedNeedsAPress(w: World, events: seq<Event>, id: Id) returns (j: nat)
    requires HasBeen(Exec(w, events), id, Notified) && !HasBeen(w, id, Notified) && !BeingTold(w, id)
    ensures j < |events| && events[j].TellsClient? && events[j].id == id
    ensures id in Exec(w, events[..j]).rows && MayTell(Exec(w, events[..j]).rows[id].build)
    decreases |events|
  {
    StepTowardsTelling(w, events[0], id);
    if BeingTold(Apply(w, events[0]), id) {
      j := 0;
      assert events[..0] == [];
    } else {
      var k := NotifiedNeedsAPress(Apply(w, events[0]), events[1..], id);
      j := k + 1;
      assert events[..j][0] == events[0] && events[..j][1..] == events[1..][..k];
    }
  }

  /**
   * The job approves nothing and tells no client: a client who was told was told by a person who pressed for it, after
   * a person had approved.
   */
  lemma PeopleDecide(events: seq<Event>, id: Id) returns (i: nat, j: nat)
    requires HasBeen(Exec(EMPTY, events), id, Notified)
    ensures i < j < |events| && events[i] == Approves(id) && events[j].TellsClient? && events[j].id == id
  {
    j := NotifiedNeedsAPress(EMPTY, events, id);
    var mid := Exec(EMPTY, events[..j]);
    RunsKeepSound(EMPTY, events[..j]);
    ToldWasApproved(mid.rows[id]);
    i := ApprovedNeedsAPress(EMPTY, events[..j], id);
  }

  // ---------------------------------------------------------------- the whole chain, undisturbed

  function OneTick(id: Id, answers: Answers): seq<Event> { [Picks(0, id), Writes(0, answers), Tells(0, answers.tellOwner)] }

  /** One undisturbed tick of a build in progress, with nothing else under way. */
  lemma TickRuns(w: World, id: Id, answers: Answers)
    requires id in w.rows && w.jobs == map[] && InProgress(w.rows[id].build.stage)
    ensures var end := Exec(w, OneTick(id, answers));
      end.jobs == map[] && id in end.rows && end.rows[id].build == Ticked(w.rows[id].build, answers) &&
      end.rows[id].emails == w.rows[id].emails &&
      (Ticked(w.rows[id].build, answers).stage != Failed ==>
        end.rows[id].log == w.rows[id].log + [Ticked(w.rows[id].build, answers).stage])
  {
    var e := OneTick(id, answers);
    var w1 := Apply(w, e[0]);
    var w2 := Apply(w1, e[1]);
    UndisturbedJobIsATick(w, 0, id, answers);
    ExecStep(w, e);
    ExecStep(w1, e[1..]);
    ExecStep(w2, e[2..]);
    assert e[1..][1..] == e[2..] && e[2..][1..] == [];
    assert w1.jobs[0] == Working(id, w.rows[id].build);
  }

  /** And the gate: at review a person approves, a person presses, and the client is emailed. */
  function Release(id: Id): seq<Event> { [Approves(id), TellsClient(0, id), Claims(0), Sends(0)] }

  lemma PressRuns(w: World, id: Id)
    requires id in w.rows && w.jobs == map[] && w.rows[id].build.stage == Approved
    ensures var end := Apply(Apply(Apply(w, TellsClient(0, id)), Claims(0)), Sends(0));
      id in end.rows && end.rows[id].log == w.rows[id].log + [Notified] && end.rows[id].emails == w.rows[id].emails + 1
  {
    var w1 := Apply(w, TellsClient(0, id));
    assert w1.jobs[0] == Claiming(id) && w1.rows == w.rows;
    var w2 := Apply(w1, Claims(0));
    assert w2.jobs[0] == Emailing(id);
  }

  lemma ReleaseRuns(w: World, id: Id)
    requires id in w.rows && w.jobs == map[]
    ensures var end := Exec(w, Release(id));
      id in end.rows && end.rows[id].log == w.rows[id].log + [Approved, Notified] && end.rows[id].emails == w.rows[id].emails + 1
  {
    var e := Release(id);
    var w1 := Apply(w, e[0]);
    PressRuns(w1, id);
    ExecStep(w, e);
    ExecStep(w1, e[1..]);
    ExecStep(Apply(w1, e[1]), e[2..]);
    ExecStep(Apply(Apply(w1, e[1]), e[2]), e[3..]);
    assert e[1..][1..] == e[2..] && e[2..][1..] == e[3..] && e[3..][1..] == [];
  }

  /** Four ticks in which everything comes back, and what is to follow them. */
  lemma FourTicksRun(w: World, answers: Answers, rest: seq<Event>) returns (end: World)
    requires 0 in w.rows && w.jobs == map[] && w.rows[0] == Row(NewBuild(true), [Queued], 0)
    requires GoesRight(NewBuild(true), [answers, answers, answers, answers])
    ensures var t := OneTick(0, answers); Exec(w, t + (t + (t + (t + rest)))) == Exec(end, rest)
    ensures 0 in end.rows && end.jobs == map[] && end.rows[0].log == [Queued, Generating, Provisioning, Uploading, Review] && end.rows[0].emails == 0
  {
    var t := OneTick(0, answers);
    TickRuns(w, 0, answers);
    var w1 := Exec(w, t);
    TickRuns(w1, 0, answers);
    var w2 := Exec(w1, t);
    TickRuns(w2, 0, answers);
    var w3 := Exec(w2, t);
    TickRuns(w3, 0, answers);
    end := Exec(w3, t);
    ExecAppend(w, t, t + (t + (t + rest)));
    ExecAppend(w1, t, t + (t + rest));
    ExecAppend(w2, t, t + rest);
    ExecAppend(w3, t, rest);
  }

  /** A build started with a lead, whose every call comes back, goes through each stage once and its client is told once. */
  lemma ChainReachesTheClient(answers: Answers)
    requires GoesRight(NewBuild(true), [answers, answers, answers, answers])
    ensures var t := OneTick(0, answers);
      var end := Exec(Apply(EMPTY, Starts(0, true)), t + (t + (t + (t + Release(0)))));
      0 in end.rows && end.rows[0].emails == 1 &&
      end.rows[0].log == [Queued, Generating, Provisioning, Uploading, Review, Approved, Notified]
  {
    var end := FourTicksRun(Apply(EMPTY, Starts(0, true)), answers, Release(0));
    ReleaseRuns(end, 0);
  }

  // ---------------------------------------------------------------- when a decision stands

  ghost predicate Held(w: World, id: Id) { exists k :: k in w.jobs && w.jobs[k].id == id }

  predicate Presses(e: Event, id: Id) { e in {Approves(id), Cancels(id)} || (e.TellsClient? && e.id == id) }

  ghost predicate NobodyPresses(events: seq<Event>, id: Id) { forall e :: e in events ==> !Presses(e, id) }

  lemma StepLeavesItAlone(w: World, e: Event, id: Id)
    requires id in w.rows && !InProgress(w.rows[id].build.stage) && !Held(w, id) && !Presses(e, id)
    ensures var w' := Apply(w, e); id in w'.rows && w'.rows[id] == w.rows[id] && !Held(w', id)
  {
    var w' := Apply(w, e);
    forall k | k in w'.jobs ensures w'.jobs[k].id != id { if k in w.jobs { assert w.jobs[k].id != id; } }
  }

  lemma {:induction false} RunLeavesItAlone(w: World, events: seq<Event>, id: Id)
    requires id in w.rows && !InProgress(w.rows[id].build.stage) && !Held(w, id) && NobodyPresses(events, id)
    ensures id in Exec(w, events).rows && Exec(w, events).rows[id] == w.rows[id]
    decreases |events|
  {
    if events != [] {
      StepLeavesItAlone(w, events[0], id);
      RunLeavesItAlone(Apply(w, events[0]), events[1..], id);
    }
  }

  ghost predicate StaysAfter(w: World, events: seq<Event>, id: Id)
    requires id in w.rows
  {
    id in Exec(w, events).rows && Exec(w, events).rows[id].build == w.rows[id].build && Exec(w, events).rows[id].log == w.rows[id].log
  }

  /** The next write of whoever holds the build: one more line in the audit log, or an error on the row. */
  function HoldersWrite(w: World, id: Id, k: nat): Event
    requires id in w.rows && k in w.jobs
  {
    match w.jobs[k]
    case Working(_, _) => Writes(k, Answers(Threw(""), Threw(""), Threw(""), Threw("")))
    case Telling(_) => Tells(k, Threw(""))
    case Claiming(_) => Claims(k)
    case Emailing(_) => SendFails(k, if w.rows[id].build.error == Some("refused") then "timed out" else "refused")
  }

  lemma HolderCanWrite(w: World, id: Id, k: nat)
    requires Sound(w) && id in w.rows && k in w.jobs && w.jobs[k].id == id
    ensures var e := HoldersWrite(w, id, k);
      !Presses(e, id) && id in Apply(w, e).rows &&
      (Apply(w, e).rows[id].log != w.rows[id].log || Apply(w, e).rows[id].build != w.rows[id].build)
  {
    assert SoundJob(w, w.jobs[k]);
    var e := HoldersWrite(w, id, k);
    if w.jobs[k].Emailing? {
      assert |"refused"| != |"timed out"|;
    } else {
      assert |Apply(w, e).rows[id].log| == |w.rows[id].log| + 1;
    }
  }

  /**
   * A build that waits on a person or is finished, whatever put it there, keeps its row for as long as nobody
   * presses anything, exactly when nothing in flight still holds it: no tick, no press that has read it, no email to
   * its client. A cancel or an approval made while one does can be written over.
   */
  lemma DecisionStands(w: World, id: Id)
    requires Sound(w) && id in w.rows && !InProgress(w.rows[id].build.stage)
    ensures (forall events :: NobodyPresses(events, id) ==> StaysAfter(w, events, id)) <==> !Held(w, id)
  {
    if Held(w, id) {
      var k :| k in w.jobs && w.jobs[k].id == id;
      HolderCanWrite(w, id, k);
      var e := HoldersWrite(w, id, k);
      assert Exec(w, [e]) == Apply(w, e) by { assert [e][1..] == []; }
      assert NobodyPresses([e], id) && !StaysAfter(w, [e], id);
    } else {
      forall events | NobodyPresses(events, id) ensures StaysAfter(w, events, id) { RunLeavesItAlone(w, events, id); }
    }
  }

  /**
   * A failed email leaves the build `notified` with an error, and that is what lets a person try again; a claim, and an
   * email that went out, leave nothing to press.
   */
  lemma OnlyAFailedEmailReopens(w: World, k: nat, reason: string)
    requires k in w.jobs && w.jobs[k].Emailing? && w.jobs[k].id in w.rows && w.rows[w.jobs[k].id].build.stage == Notified
    ensures var id := w.jobs[k].id;
      MayTell(Apply(w, SendFails(k, reason)).rows[id].build) &&
      (MayTell(Apply(w, Sends(k)).rows[id].build) <==> w.rows[id].build.error.Some?)
  {
  }

  // ---------------------------------------------------------------- when nothing overlaps

  /** The stages one write may lead to, for a build only one tick at a time works on. */
  ghost predicate Follows(a: Stage, b: Stage) {
    (InProgress(a) && (b == Next(a) || b == Failed)) || (a == Review && b == Failed) ||
    b in {Approved, Cancelled} || (b == Notified && a in {Approved, Notified})
  }

  ghost predicate Stepwise(log: seq<Stage>) { forall j :: 0 < j < |log| ==> Follows(log[j - 1], log[j]) }

  /** Nobody picks up or presses anything about a build a tick is at work on. */
  ghost predicate Waits(w: World, e: Event) {
    match e
    case Picks(_, id) => !Held(w, id)
    case Approves(id) => !Held(w, id)
    case Cancels(id) => !Held(w, id)
    case TellsClient(_, id) => !Held(w, id)
    case _ => true
  }

  ghost predicate AllWait(w: World, events: seq<Event>)
    decreases |events|
  {
    events == [] || (Waits(w, events[0]) && AllWait(Apply(w, events[0]), events[1..]))
  }

  ghost predicate FreshJob(w: World, j: Job) {
    j.id in w.rows &&
    match j
    case Working(id, read) => w.rows[id].build == read && InProgress(read.stage)
    case Telling(id) => w.rows[id].build.stage == Review
    case Claiming(id) => MayTell(w.rows[id].build)
    case Emailing(id) => w.rows[id].build.stage == Notified && w.rows[id].build.error.None?
  }

  ghost predicate OrderlyRow(row: Row) {
    |row.log| > 0 && row.log[|row.log| - 1] == row.build.stage && Stepwise(row.log)
  }

  /** No stale reads, and no build in two hands. */
  ghost predicate Orderly(w: World) {
    (forall id :: id in w.rows ==> OrderlyRow(w.rows[id])) &&
    (forall k :: k in w.jobs ==> FreshJob(w, w.jobs[k])) &&
    (forall k, l :: k in w.jobs && l in w.jobs && w.jobs[k].id == w.jobs[l].id ==> k == l)
  }

  lemma WriteKeepsRowOrderly(row: Row, write: Write)
    requires OrderlyRow(row) && Follows(row.build.stage, Written(row.build, write).stage)
    ensures OrderlyRow(WriteRow(row, write))
  {
    var log := WriteRow(row, write).log;
    forall j | 0 < j < |log| ensures Follows(log[j - 1], log[j]) {
      if j < |row.log| { assert Follows(row.log[j - 1], row.log[j]); }
    }
  }

  /** A press on a build nobody holds. */
  lemma PressKeepsOrderly(w: World, id: Id, stage: Stage)
    requires Orderly(w) && id in w.rows && !Held(w, id) && Follows(w.rows[id].build.stage, stage)
    ensures Orderly(PersonWrites(w, id, stage))
  {
    WriteKeepsRowOrderly(w.rows[id], Advance(stage, None, None));
    var after := PersonWrites(w, id, stage);
    forall k | k in after.jobs ensures FreshJob(after, after.jobs[k]) { assert FreshJob(w, w.jobs[k]) && w.jobs[k].id != id; }
  }

  /** The write of the one job that holds a build, and the job afterwards: gone, or on to telling somebody. */
  lemma HolderKeepsOrderly(w: World, job: nat, write: Write, after: World)
    requires Orderly(w) && job in w.jobs
    requires var id := w.jobs[job].id;
      Follows(w.rows[id].build.stage, Written(w.rows[id].build, write).stage) &&
      after.rows == WithRow(w, id, write).rows && after.jobs.Keys <= w.jobs.Keys &&
      (forall k :: k in after.jobs && k != job ==> after.jobs[k] == w.jobs[k]) &&
      (job in after.jobs ==> after.jobs[job].id == id && FreshJob(after, after.jobs[job]))
    ensures Orderly(after)
  {
    var id := w.jobs[job].id;
    WriteKeepsRowOrderly(w.rows[id], write);
    forall k | k in after.jobs ensures FreshJob(after, after.jobs[k]) {
      if k != job { assert FreshJob(w, w.jobs[k]) && w.jobs[k].id != id; }
    }
  }

  lemma DyingKeepsOrderly(w: World, job: nat)
    requires Orderly(w)
    ensures Orderly(Without(w, job))
  {
    var after := Without(w, job);
    forall k | k in after.jobs ensures FreshJob(after, after.jobs[k]) { assert FreshJob(w, w.jobs[k]); }
  }

  lemma JobKeepsOrderly(w: World, job: nat, answers: Answers, result: Result<()>)
    requires Orderly(w) && job in w.jobs
    ensures Orderly(JobWrites(w, job, answers)) && Orderly(JobTells(w, job, result))
  {
    assert FreshJob(w, w.jobs[job]);
    if w.jobs[job].Working? {
      HolderKeepsOrderly(w, job, WriteFor(w.jobs[job].read, answers), JobWrites(w, job, answers));
    } else if !w.jobs[job].Telling? {
    } else if result.Threw? {
      HolderKeepsOrderly(w, job, Fail(result.reason), JobTells(w, job, result));
    } else {
      DyingKeepsOrderly(w, job);
    }
  }

  lemma EmailKeepsOrderly(w: World, job: nat, failure: Option<string>)
    requires Orderly(w) && job in w.jobs
    ensures Orderly(JobClaims(w, job)) && Orderly(JobSends(w, job, failure))
  {
    var j := w.jobs[job];
    assert FreshJob(w, j);
    if j.Claiming? {
      HolderKeepsOrderly(w, job, Advance(Notified, None, None), JobClaims(w, job));
    } else if j.Emailing? {
      assert OrderlyRow(w.rows[j.id]);
      var after := JobSends(w, job, failure);
      forall k | k in after.jobs ensures FreshJob(after, after.jobs[k]) { assert FreshJob(w, w.jobs[k]) && w.jobs[k].id != j.id; }
    }
  }

  lemma PickKeepsOrderly(w: World, e: Event)
    requires Orderly(w) && (e.Starts? || e.Picks? || e.TellsClient?) && Waits(w, e)
    ensures Orderly(Apply(w, e))
  {
    var after := Apply(w, e);
    forall k | k in after.jobs ensures FreshJob(after, after.jobs[k]) { if k in w.jobs { assert FreshJob(w, w.jobs[k]); } }
  }

  lemma ApplyKeepsOrderly(w: World, e: Event)
    requires Orderly(w) && Waits(w, e)
    ensures Orderly(Apply(w, e))
  {
    match e
    case Starts(id, hasLead) => PickKeepsOrderly(w, e);
    case Picks(job, id) => PickKeepsOrderly(w, e);
    case Writes(job, answers) => if job in w.jobs { JobKeepsOrderly(w, job, answers, Ok(())); }
    case Tells(job, result) => if job in w.jobs { JobKeepsOrderly(w, job, Answers(Threw(""), Threw(""), Threw(""), Threw("")), result); }
    case Dies(job) => DyingKeepsOrderly(w, job);
    case Approves(id) => if id in w.rows { PressKeepsOrderly(w, id, Approved); }
    case Cancels(id) => if id in w.rows { PressKeepsOrderly(w, id, Cancelled); }
    case TellsClient(job, id) => PickKeepsOrderly(w, e);
    case Claims(job) => if job in w.jobs { EmailKeepsOrderly(w, job, None); }
    case Sends(job) => if job in w.jobs { EmailKeepsOrderly(w, job, None); }
    case SendFails(job, reason) => if job in w.jobs { EmailKeepsOrderly(w, job, Some(reason)); }
  }

  lemma {:induction false} RunsKeepOrderly(w: World, events: seq<Event>)
    requires Orderly(w) && AllWait(w, events)
    ensures Orderly(Exec(w, events))
    decreases |events|
  {
    if events != [] {
      ApplyKeepsOrderly(w, events[0]);
      RunsKeepOrderly(Apply(w, events[0]), events[1..]);
    }
  }

  /**
   * When ticks and people wait for each other, a build's audit log moves one stage at a time and never back: no
   * job writes to a build it found, or would now find, at review, approved or finished, but for the owner's
   * notice that threw and turned review into failed.
   */
  lemma OneStageAtATime(events: seq<Event>, id: Id)
    requires AllWait(EMPTY, events) && id in Exec(EMPTY, events).rows
    ensures Stepwise(Exec(EMPTY, events).rows[id].log)
  {
    RunsKeepOrderly(EMPTY, events);
    assert OrderlyRow(Exec(EMPTY, events).rows[id]);
  }

  // ---------------------------------------------------------------- one email for each approval

  ghost predicate BeingEmailed(w: World, id: Id) {
    exists k :: k in w.jobs && w.jobs[k].id == id && (w.jobs[k].Claiming? || w.jobs[k].Emailing?)
  }

  /** An email may still go out without another approval. */
  ghost predicate Owed(w: World, id: Id)
    requires id in w.rows
  {
    MayTell(w.rows[id].build) || BeingEmailed(w, id)
  }

  ghost predicate PaidFor(w: World, id: Id)
    requires id in w.rows
  {
    w.rows[id].emails + (if Owed(w, id) then 1 else 0) <= multiset(w.rows[id].log)[Approved]
  }

  ghost predicate AllPaidFor(w: World) { forall id :: id in w.rows ==> PaidFor(w, id) }

  /** A row and jobs that say no more of a build than they did. */
  lemma StaysPaidFor(w: World, w': World, id: Id)
    requires id in w.rows && id in w'.rows && PaidFor(w, id)
    requires w'.rows[id].emails <= w.rows[id].emails && multiset(w.rows[id].log)[Approved] <= multiset(w'.rows[id].log)[Approved]
    requires Owed(w', id) ==> Owed(w, id)
    ensures PaidFor(w', id)
  {
  }

  lemma NobodyElse(w: World, k: nat, id: Id)
    requires Orderly(w) && k in w.jobs && w.jobs[k].id == id && !w.jobs[k].Claiming? && !w.jobs[k].Emailing?
    ensures !BeingEmailed(w, id)
  {
  }

  lemma TickStaysPaidFor(w: World, job: nat, answers: Answers, id: Id)
    requires Orderly(w) && job in w.jobs && id in w.rows && PaidFor(w, id)
    ensures PaidFor(JobWrites(w, job, answers), id)
  {
    var j := w.jobs[job];
    assert FreshJob(w, j);
    if j.Working? {
      NobodyElse(w, job, j.id);
      StaysPaidFor(w, JobWrites(w, job, answers), id);
    }
  }

  lemma NoticeStaysPaidFor(w: World, job: nat, result: Result<()>, id: Id)
    requires Orderly(w) && job in w.jobs && id in w.rows && PaidFor(w, id)
    ensures PaidFor(JobTells(w, job, result), id)
  {
    var j := w.jobs[job];
    assert FreshJob(w, j);
    if j.Telling? {
      NobodyElse(w, job, j.id);
      StaysPaidFor(w, JobTells(w, job, result), id);
    }
  }

  lemma EmailStaysPaidFor(w: World, job: nat, failure: Option<string>, id: Id)
    requires Orderly(w) && job in w.jobs && id in w.rows && PaidFor(w, id)
    ensures PaidFor(JobClaims(w, job), id) && PaidFor(JobSends(w, job, failure), id)
  {
    var j := w.jobs[job];
    assert FreshJob(w, j);
    if j.id != id {
      StaysPaidFor(w, JobClaims(w, job), id);
      StaysPaidFor(w, JobSends(w, job, failure), id);
    } else if j.Claiming? {
      assert BeingEmailed(w, id);
      StaysPaidFor(w, JobClaims(w, job), id);
    } else if j.Emailing? {
      assert BeingEmailed(w, id) && !BeingEmailed(JobSends(w, job, failure), id);
    }
  }

  lemma ApprovalPays(w: World, id: Id)
    requires Orderly(w) && Waits(w, Approves(id)) && id in w.rows && PaidFor(w, id)
    ensures PaidFor(Apply(w, Approves(id)), id)
  {
    assert !BeingEmailed(Apply(w, Approves(id)), id);
  }

  lemma PressStaysPaidFor(w: World, e: Event, id: Id)
    requires Orderly(w) && Waits(w, e) && (e.Approves? || e.Cancels? || e.TellsClient? || e.Picks? || e.Dies?)
    requires id in w.rows && PaidFor(w, id)
    ensures PaidFor(Apply(w, e), id)
  {
    if e == Approves(id) { ApprovalPays(w, id); } else { StaysPaidFor(w, Apply(w, e), id); }
  }

  lemma StartIsPaidFor(w: World, e: Event, id: Id)
    requires Orderly(w) && AllPaidFor(w) && e.Starts? && id in Apply(w, e).rows
    ensures PaidFor(Apply(w, e), id)
  {
    if id in w.rows { StaysPaidFor(w, Apply(w, e), id); } else { assert forall k :: k in w.jobs ==> FreshJob(w, w.jobs[k]); }
  }

  lemma ApplyKeepsPaidFor(w: World, e: Event)
    requires Orderly(w) && AllPaidFor(w) && Waits(w, e)
    ensures AllPaidFor(Apply(w, e))
  {
    var after := Apply(w, e);
    forall id | id in after.rows ensures PaidFor(after, id) {
      match e
      case Starts(_, _) => StartIsPaidFor(w, e, id);
      case Writes(job, answers) => if job in w.jobs { TickStaysPaidFor(w, job, answers, id); }
      case Tells(job, result) => if job in w.jobs { NoticeStaysPaidFor(w, job, result, id); }
      case Claims(job) => if job in w.jobs { EmailStaysPaidFor(w, job, None, id); }
      case Sends(job) => if job in w.jobs { EmailStaysPaidFor(w, job, None, id); }
      case SendFails(job, reason) => if job in w.jobs { EmailStaysPaidFor(w, job, Some(reason), id); }
      case _ => PressStaysPaidFor(w, e, id);
    }
  }

  lemma {:induction false} RunsKeepPaidFor(w: World, events: seq<Event>)
    requires Orderly(w) && AllPaidFor(w) && AllWait(w, events)
    ensures AllPaidFor(Exec(w, events))
    decreases |events|
  {
    if events != [] {
      ApplyKeepsPaidFor(w, events[0]);
      ApplyKeepsOrderly(w, events[0]);
      RunsKeepPaidFor(Apply(w, events[0]), events[1..]);
    }
  }

  /** When ticks and people wait for each other, a client is emailed at most once for each approval, failed tries aside. */
  lemma OneEmailPerApproval(events: seq<Event>, id: Id)
    requires AllWait(EMPTY, events) && id in Exec(EMPTY, events).rows
    ensures var row := Exec(EMPTY, events).rows[id]; row.emails <= multiset(row.log)[Approved]
  {
    RunsKeepPaidFor(EMPTY, events);
    assert PaidFor(Exec(EMPTY, events), id);
  }

  // ---------------------------------------------------------------- and what overlapping does

  lemma ExecStep(w: World, events: seq<Event>)
    requires events != []
    ensures Exec(w, events) == Exec(Apply(w, events[0]), events[1..])
  {
  }

  lemma {:induction false} ExecAppend(w: World, a: seq<Event>, b: seq<Event>)
    ensures Exec(w, a + b) == Exec(Exec(w, a), b)
    decreases |a|
  {
    if a == [] {
      assert a + b == b;
    } else {
      assert (a + b)[1..] == a[1..] + b;
      ExecAppend(Apply(w, a[0]), a[1..], b);
    }
  }

  /**
   * What a stale reading costs, exactly. The write of a job keeps the audit log stepwise just when the row is still at
   * the stage that was read, or, if the write is a failure, at any stage a build can fail from.
   */
  lemma StaleWriteExactly(w: World, job: nat, answers: Answers)
    requires job in w.jobs && w.jobs[job].Working? && w.jobs[job].id in w.rows && InProgress(w.jobs[job].read.stage)
    requires OrderlyRow(w.rows[w.jobs[job].id])
    ensures var j := w.jobs[job];
      Stepwise(Apply(w, Writes(job, answers)).rows[j.id].log) <==>
        if WriteFor(j.read, answers).Advance? then w.rows[j.id].build.stage == j.read.stage
        else InProgress(w.rows[j.id].build.stage) || w.rows[j.id].build.stage == Review
  {
    var j := w.jobs[job];
    var row, write := w.rows[j.id], WriteFor(j.read, answers);
    var log := Apply(w, Writes(job, answers)).rows[j.id].log;
    assert log == row.log + [Written(row.build, write).stage];
    var n := |row.log|;
    assert Stepwise(log) ==> Follows(log[n - 1], log[n]);
    if Follows(row.build.stage, Written(row.build, write).stage) { WriteKeepsRowOrderly(row, write); }
  }

  function LateCancel(answers: Answers): seq<Event> { [Starts(0, true), Picks(0, 0), Cancels(0), Writes(0, answers)] }

  /** A build cancelled while a tick holds it carries on as if nobody had pressed anything. */
  lemma CancelledBuildComesBack(answers: Answers)
    ensures var end := Exec(EMPTY, LateCancel(answers)); 0 in end.rows && end.rows[0].log == [Queued, Cancelled, Generating]
  {
    var e := LateCancel(answers);
    var w1 := Apply(EMPTY, e[0]);
    var w2 := Apply(w1, e[1]);
    var w3 := Apply(w2, e[2]);
    ExecStep(EMPTY, e);
    ExecStep(w1, e[1..]);
    ExecStep(w2, e[2..]);
    ExecStep(w3, e[3..]);
    assert e[1..][1..] == e[2..] && e[2..][1..] == e[3..] && e[3..][1..] == [];
    assert w3.rows[0].log == [Queued, Cancelled] && w3.jobs[0] == Working(0, NewBuild(true));
  }

  /** Up to two ticks that both hold one reading of a build at `generating`. */
  function TwoReaders(answers: Answers): seq<Event> {
    [Starts(0, true), Picks(0, 0), Writes(0, answers), Picks(1, 0), Picks(2, 0)]
  }

  lemma TwoReadersRead(answers: Answers)
    ensures var w := Exec(EMPTY, TwoReaders(answers));
      0 in w.rows && w.rows[0].log == [Queued, Generating] && w.rows[0].build.stage == Generating && w.rows[0].build.hasLead &&
      1 in w.jobs && 2 in w.jobs && w.jobs[1] == w.jobs[2] == Working(0, w.rows[0].build) && 3 !in w.jobs
  {
    var e := TwoReaders(answers);
    var w1 := Apply(EMPTY, e[0]);
    var w2 := Apply(w1, e[1]);
    var w3 := Apply(w2, e[2]);
    var w4 := Apply(w3, e[3]);
    ExecStep(EMPTY, e);
    ExecStep(w1, e[1..]);
    ExecStep(w2, e[2..]);
    ExecStep(w3, e[3..]);
    ExecStep(w4, e[4..]);
    assert e[1..][1..] == e[2..] && e[2..][1..] == e[3..] && e[3..][1..] == e[4..] && e[4..][1..] == [];
    assert w3.rows[0].log == [Queued, Generating] && w3.jobs == map[];
  }

  function TwoTicks(answers: Answers): seq<Event> { [Writes(1, answers), Picks(3, 0), Writes(3, answers), Writes(2, answers)] }

  lemma SlowerGoesBack(w: World, row: Row, answers: Answers)
    requires 0 in w.rows && w.rows[0] == row && row.build.stage == Generating && row.build.hasLead
    requires 1 in w.jobs && 2 in w.jobs && w.jobs[1] == w.jobs[2] == Working(0, row.build) && 3 !in w.jobs
    requires answers.generate.Ok? && answers.provision.Ok?
    ensures var end := Exec(w, TwoTicks(answers));
      0 in end.rows && end.rows[0].log == row.log + [Provisioning, Uploading, Provisioning]
  {
    var e := TwoTicks(answers);
    var w1 := Apply(w, e[0]);
    var w2 := Apply(w1, e[1]);
    var w3 := Apply(w2, e[2]);
    ExecStep(w, e);
    ExecStep(w1, e[1..]);
    ExecStep(w2, e[2..]);
    ExecStep(w3, e[3..]);
    assert e[1..][1..] == e[2..] && e[2..][1..] == e[3..] && e[3..][1..] == [];
    assert w1.rows[0].log == row.log + [Provisioning] && w2.jobs[3] == Working(0, w1.rows[0].build);
    assert w3.rows[0].log == row.log + [Provisioning, Uploading] && w3.jobs[2] == Working(0, row.build);
  }

  /** Two ticks that both read a build at `generating`: the slower one sends it back from `uploading`. */
  lemma OverlapGoesBack(answers: Answers)
    requires answers.generate.Ok? && answers.provision.Ok?
    ensures var end := Exec(EMPTY, TwoReaders(answers) + TwoTicks(answers));
      0 in end.rows && end.rows[0].log == [Queued, Generating, Provisioning, Uploading, Provisioning]
  {
    TwoReadersRead(answers);
    var w := Exec(EMPTY, TwoReaders(answers));
    ExecAppend(EMPTY, TwoReaders(answers), TwoTicks(answers));
    SlowerGoesBack(w, w.rows[0], answers);
  }

  function TwoPresses(a: nat, b: nat, id: Id): seq<Event> {
    [TellsClient(a, id), TellsClient(b, id), Claims(a), Claims(b), Sends(a), Sends(b)]
  }

  /** Nor is one press enough of a lock: two that both read before either claims send the client two emails on one approval. */
  lemma TwoPressesTwoEmails(w: World, a: nat, b: nat, id: Id)
    requires id in w.rows && MayTell(w.rows[id].build) && a != b && a !in w.jobs && b !in w.jobs
    ensures var end := Exec(w, TwoPresses(a, b, id));
      id in end.rows && end.rows[id].emails == w.rows[id].emails + 2 && end.rows[id].log == w.rows[id].log + [Notified, Notified]
  {
    var e := TwoPresses(a, b, id);
    var w1 := Apply(w, e[0]);
    var w2 := Apply(w1, e[1]);
    var w3 := Apply(w2, e[2]);
    var w4 := Apply(w3, e[3]);
    var w5 := Apply(w4, e[4]);
    ExecStep(w, e);
    ExecStep(w1, e[1..]);
    ExecStep(w2, e[2..]);
    ExecStep(w3, e[3..]);
    ExecStep(w4, e[4..]);
    ExecStep(w5, e[5..]);
    assert e[1..][1..] == e[2..] && e[2..][1..] == e[3..] && e[3..][1..] == e[4..] && e[4..][1..] == e[5..] && e[5..][1..] == [];
    assert w2.rows == w.rows && w2.jobs[a] == w2.jobs[b] == Claiming(id);
    assert w4.rows[id].log == w.rows[id].log + [Notified, Notified] && w4.jobs[a] == w4.jobs[b] == Emailing(id);
  }
}
