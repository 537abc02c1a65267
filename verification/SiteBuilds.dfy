/**
 * The pipeline that builds a website one stage per tick and stops at review: `site-build-run.ts`, the writes of
 * `packages/core/src/site-builds/site-builds.ts` under it, and the people who approve, cancel and tell the client.
 */
module SiteBuilds {

  import opened Wrappers

  type Id = nat

  datatype Stage = Queued | Generating | Provisioning | Uploading | Review | Approved | Notified | Failed | Cancelled

  datatype Site = Site(hasPages: bool, model: string)
  datatype Hosting = Hosting(username: Option<string>, rootDirectory: Option<string>)
  datatype Build = Build(stage: Stage, hasLead: bool, generated: Option<Site>, hosting: Hosting, error: Option<string>)

  const NO_HOSTING := Hosting(None, None)

  function NewBuild(hasLead: bool): Build { Build(Queued, hasLead, None, NO_HOSTING, None) }

  /** What the calls a tick makes for one build come back with. */
  datatype Answers = Answers(generate: Result<Site>, provision: Result<Hosting>, upload: Result<()>, tellOwner: Result<()>)

  /** The stages the query for active builds selects. */
  predicate Active(stage: Stage) { stage !in {Notified, Failed, Cancelled} }

  /** The stages the job moves on from; `Review` and `Approved` are active too, but wait on a person. */
  predicate InProgress(stage: Stage) { stage in {Queued, Generating, Provisioning, Uploading} }

  function Next(stage: Stage): Stage
    requires InProgress(stage)
  {
    match stage
    case Queued => Generating
    case Generating => Provisioning
    case Provisioning => Uploading
    case Uploading => Review
  }

  // ---------------------------------------------------------------- one build, one tick

  /** One write of the row: a new stage with what the stage produced, or the words it failed in. */
  datatype Write = Advance(stage: Stage, site: Option<Site>, hosting: Option<Hosting>) | Fail(reason: string)

  function Written(row: Build, write: Write): Build {
    match write
    case Fail(reason) => row.(stage := Failed, error := Some(reason))
    case Advance(stage, site, hosting) =>
      row.(stage := stage, error := None,
        generated := if site.Some? then site else row.generated,
        hosting := if hosting.Some? then hosting.value else row.hosting)
  }

  predicate HasPages(build: Build) { build.generated.Some? && build.generated.value.hasPages }

  /** A document root that is neither missing nor empty. */
  predicate HasRoot(build: Build) { build.hosting.rootDirectory.Some? && build.hosting.rootDirectory.value != "" }

  /** The write a tick ends in for the build it read. */
  function WriteFor(build: Build, answers: Answers): Write
    requires InProgress(build.stage)
  {
    match build.stage
    case Queued => Advance(Generating, None, None)
    case Generating =>
      if !build.hasLead then Fail("the build has no lead to write a brief from")
      else if answers.generate.Threw? then Fail(answers.generate.reason)
      else Advance(Provisioning, Some(answers.generate.value), None)
    case Provisioning =>
      if answers.provision.Threw? then Fail(answers.provision.reason)
      else Advance(Uploading, None, Some(answers.provision.value))
    case Uploading =>
      if !HasPages(build) then Fail("the build has nothing generated to upload")
      else if !HasRoot(build) then Fail("the build has no document root to upload into")
      else if answers.upload.Threw? then Fail(answers.upload.reason)
      else Advance(Review, None, None)
  }

  /** A build after one tick that nobody disturbed. */
  function Ticked(build: Build, answers: Answers): Build {
    if !InProgress(build.stage) then build
    else
      var after := Written(build, WriteFor(build, answers));
      if after.stage == Review && answers.tellOwner.Threw? then Written(after, Fail(answers.tellOwner.reason)) else after
  }

  /** What a tick counts a build it was given as. */
  datatype Tally = Advanced | Broke | AwaitingReview | Uncounted

  function TallyOf(build: Build, answers: Answers): Tally {
    if InProgress(build.stage) then (if Ticked(build, answers).stage == Failed then Broke else Advanced)
    else if build.stage == Review then AwaitingReview
    else Uncounted
  }

  // ---------------------------------------------------------------- the table and the job

  ghost predicate Lists(order: seq<Id>, rows: map<Id, Build>) {
    (forall i, j :: 0 <= i < j < |order| ==> order[i] != order[j]) &&
    forall id :: id in order <==> id in rows && Active(rows[id].stage)
  }

  class SiteBuildTable {
    var rows: map<Id, Build>

    constructor ()
      ensures rows == map[]
    {
      rows := map[];
    }

    /** Whatever stage the row is at; a build that is not there is an error to the caller. */
    method AdvanceSiteBuild(id: Id, write: Write) returns (found: bool)
      modifies this
      ensures found == (id in old(rows))
      ensures rows == if found then old(rows)[id := Written(old(rows)[id], write)] else old(rows)
    {
      if id !in rows { return false; }
      rows := rows[id := Written(rows[id], write)];
      return true;
    }

    /** Throws what a call threw; by then the stage write may have happened, when only telling the owner failed. */
    method AdvanceOne(id: Id, answers: Answers) returns (result: Result<bool>)
      requires id in rows
      modifies this
      ensures rows.Keys == old(rows.Keys) && forall other :: other in rows && other != id ==> rows[other] == old(rows)[other]
      ensures result == Ok(true) <==> TallyOf(old(rows[id]), answers) == Advanced
      ensures result == Ok(false) <==> !InProgress(old(rows[id]).stage)
      ensures result.Ok? ==> rows[id] == Ticked(old(rows[id]), answers)
      ensures result.Threw? ==> Written(rows[id], Fail(result.reason)) == Ticked(old(rows[id]), answers)
    {
      var build := rows[id];
      match build.stage {
      case Queued =>
        var found := AdvanceSiteBuild(id, Advance(Generating, None, None));
      case Generating =>
        if !build.hasLead { return Threw("the build has no lead to write a brief from"); }
        if answers.generate.Threw? { return Threw(answers.generate.reason); }
        var found := AdvanceSiteBuild(id, Advance(Provisioning, Some(answers.generate.value), None));
      case Provisioning =>
        if answers.provision.Threw? { return Threw(answers.provision.reason); }
        var found := AdvanceSiteBuild(id, Advance(Uploading, None, Some(answers.provision.value)));
      case Uploading =>
        if !HasPages(build) { return Threw("the build has nothing generated to upload"); }
        if !HasRoot(build) { return Threw("the build has no document root to upload into"); }
        if answers.upload.Threw? { return Threw(answers.upload.reason); }
        var found := AdvanceSiteBuild(id, Advance(Review, None, None));
        if answers.tellOwner.Threw? { return Threw(answers.tellOwner.reason); }
      case _ =>
        return Ok(false);
      }
      return Ok(true);
    }

    /** One turn of the loop, with its failure boundary: nothing is thrown out of it, and no other build is touched. */
    method HandleOne(id: Id, answers: Answers) returns (tally: Tally)
      requires id in rows
      modifies this
      ensures rows == old(rows)[id := Ticked(old(rows[id]), answers)] && tally == TallyOf(old(rows[id]), answers)
    {
      var build := rows[id];
      if build.stage == Review || build.stage == Approved {
        return if build.stage == Review then AwaitingReview else Uncounted;
      }
      var result := AdvanceOne(id, answers);
      if result.Ok? { return if result.value then Advanced else Uncounted; }
      var found := AdvanceSiteBuild(id, Fail(result.reason));
      return Broke;
    }

    /**
     * One tick over every active build. What becomes of a build depends on its own row and its own answers only,
     * so one that fails takes nothing else with it, whatever the order; and the three counts are exact.
     */
    method RunSiteBuilds(order: seq<Id>, answers: Id -> Answers) returns (advanced: nat, failed: nat, awaitingReview: nat)
      requires Lists(order, rows)
      modifies this
      ensures AllTicked(old(rows), rows, old(rows.Keys), answers)
      ensures advanced == |set id | id in old(rows) && Means(Advanced, old(rows)[id], rows[id])|
      ensures failed == |set id | id in old(rows) && Means(Broke, old(rows)[id], rows[id])|
      ensures awaitingReview == |set id | id in old(rows) && Means(AwaitingReview, old(rows)[id], rows[id])|
    {
      advanced, failed, awaitingReview := 0, 0, 0;
      ghost var start, seen: set<Id> := rows, {};
      for i := 0 to |order|
        invariant forall id :: id in seen <==> id in order[..i]
        invariant seen <= start.Keys && AllTicked(start, rows, seen, answers)
        invariant Counts(start, seen, answers, advanced, failed, awaitingReview)
      {
        var id := order[i];
        assert order[..i + 1] == order[..i] + [id] && id !in order[..i];
        OneMoreTicked(start, rows, seen, answers, id);
        OneMoreCounted(start, seen, answers, id, advanced, failed, awaitingReview);
        var tally := HandleOne(id, answers(id));
        match tally {
        case Advanced => advanced := advanced + 1;
        case Broke => failed := failed + 1;
        case AwaitingReview => awaitingReview := awaitingReview + 1;
        case Uncounted =>
        }
        seen := seen + {id};
      }
      assert order[..|order|] == order;
      RestIsLeftAlone(start, rows, seen, answers, advanced, failed, awaitingReview);
      CountsMean(start, rows, answers, advanced, failed, awaitingReview);
    }
  }

  /** On to its next stage. */
  ghost predicate HasAdvanced(before: Build, after: Build) { InProgress(before.stage) && after.stage == Next(before.stage) }

  ghost predicate HasFailed(before: Build, after: Build) { InProgress(before.stage) && after.stage == Failed }

  lemma TallyMeans(build: Build, answers: Answers)
    ensures TallyOf(build, answers) == Advanced <==> HasAdvanced(build, Ticked(build, answers))
    ensures TallyOf(build, answers) == Broke <==> HasFailed(build, Ticked(build, answers))
    ensures TallyOf(build, answers) == AwaitingReview <==> build.stage == Review
  {
    OneStageATick(build, answers);
  }

  /** What each count is of: builds that went on, builds that failed, builds found at review. */
  ghost predicate Means(tally: Tally, before: Build, after: Build) {
    match tally
    case Advanced => HasAdvanced(before, after)
    case Broke => HasFailed(before, after)
    case AwaitingReview => before.stage == Review
    case Uncounted => true
  }

  lemma TalliedMeans(start: map<Id, Build>, rows: map<Id, Build>, answers: Id -> Answers, tally: Tally)
    requires AllTicked(start, rows, start.Keys, answers) && tally != Uncounted
    ensures Tallied(start, start.Keys, answers, tally) == set id | id in start && Means(tally, start[id], rows[id])
  {
    forall id | id in start ensures TallyOf(start[id], answers(id)) == tally <==> Means(tally, start[id], rows[id]) {
      TallyMeans(start[id], answers(id));
    }
  }

  /** The tallies are of what became of the rows. */
  lemma CountsMean(start: map<Id, Build>, rows: map<Id, Build>, answers: Id -> Answers, a: nat, f: nat, w: nat)
    requires AllTicked(start, rows, start.Keys, answers) && Counts(start, start.Keys, answers, a, f, w)
    ensures a == |set id | id in start && Means(Advanced, start[id], rows[id])|
    ensures f == |set id | id in start && Means(Broke, start[id], rows[id])|
    ensures w == |set id | id in start && Means(AwaitingReview, start[id], rows[id])|
  {
    TalliedMeans(start, rows, answers, Advanced);
    TalliedMeans(start, rows, answers, Broke);
    TalliedMeans(start, rows, answers, AwaitingReview);
  }

  /** The builds of `ids` have had their tick; the rest are as they were. */
  ghost predicate AllTicked(start: map<Id, Build>, rows: map<Id, Build>, ids: set<Id>, answers: Id -> Answers) {
    rows.Keys == start.Keys &&
    forall id :: id in rows ==> rows[id] == (if id in ids then Ticked(start[id], answers(id)) else start[id])
  }

  ghost function Tallied(rows: map<Id, Build>, ids: set<Id>, answers: Id -> Answers, tally: Tally): set<Id>
    requires ids <= rows.Keys
  {
    set id | id in ids && TallyOf(rows[id], answers(id)) == tally
  }

  ghost predicate Counts(rows: map<Id, Build>, ids: set<Id>, answers: Id -> Answers, advanced: nat, failed: nat, awaitingReview: nat)
    requires ids <= rows.Keys
  {
    advanced == |Tallied(rows, ids, answers, Advanced)| && failed == |Tallied(rows, ids, answers, Broke)| &&
    awaitingReview == |Tallied(rows, ids, answers, AwaitingReview)|
  }

  lemma OneMoreTicked(start: map<Id, Build>, rows: map<Id, Build>, ids: set<Id>, answers: Id -> Answers, id: Id)
    requires id in start && id !in ids && AllTicked(start, rows, ids, answers)
    ensures rows[id] == start[id] && AllTicked(start, rows[id := Ticked(start[id], answers(id))], ids + {id}, answers)
  {
  }

  lemma OneMoreTallied(rows: map<Id, Build>, ids: set<Id>, answers: Id -> Answers, id: Id, tally: Tally)
    requires ids <= rows.Keys && id in rows && id !in ids
    ensures |Tallied(rows, ids + {id}, answers, tally)| ==
      |Tallied(rows, ids, answers, tally)| + (if TallyOf(rows[id], answers(id)) == tally then 1 else 0)
  {
    var before, after := Tallied(rows, ids, answers, tally), Tallied(rows, ids + {id}, answers, tally);
    if TallyOf(rows[id], answers(id)) == tally {
      assert after == before + {id};
    } else {
      assert after == before;
    }
  }

  lemma OneMoreCounted(rows: map<Id, Build>, ids: set<Id>, answers: Id -> Answers, id: Id, a: nat, f: nat, w: nat)
    requires ids <= rows.Keys && id in rows && id !in ids && Counts(rows, ids, answers, a, f, w)
    ensures var tally := TallyOf(rows[id], answers(id));
      Counts(rows, ids + {id}, answers, if tally == Advanced then a + 1 else a, if tally == Broke then f + 1 else f,
        if tally == AwaitingReview then w + 1 else w)
  {
    OneMoreTallied(rows, ids, answers, id, Advanced);
    OneMoreTallied(rows, ids, answers, id, Broke);
    OneMoreTallied(rows, ids, answers, id, AwaitingReview);
  }

  lemma RestIsUncounted(rows: map<Id, Build>, ids: set<Id>, answers: Id -> Answers, tally: Tally)
    requires tally != Uncounted && ids <= rows.Keys && forall id :: id in rows && id !in ids ==> !Active(rows[id].stage)
    ensures Tallied(rows, ids, answers, tally) == Tallied(rows, rows.Keys, answers, tally)
  {
  }

  lemma RestIsLeftAlone(start: map<Id, Build>, rows: map<Id, Build>, ids: set<Id>, answers: Id -> Answers, a: nat, f: nat, w: nat)
    requires AllTicked(start, rows, ids, answers) && forall id :: id in ids <==> id in start && Active(start[id].stage)
    requires Counts(start, ids, answers, a, f, w)
    ensures AllTicked(start, rows, start.Keys, answers) && Counts(start, start.Keys, answers, a, f, w)
  {
    RestIsUncounted(start, ids, answers, Advanced);
    RestIsUncounted(start, ids, answers, Broke);
    RestIsUncounted(start, ids, answers, AwaitingReview);
  }

  // ---------------------------------------------------------------- four ticks

  function Ticks(build: Build, answers: seq<Answers>): Build
    decreases |answers|
  {
    if answers == [] then build else Ticks(Ticked(build, answers[0]), answers[1..])
  }

  lemma TicksUnfold(build: Build, answers: seq<Answers>)
    requires answers != []
    ensures Ticks(build, answers) == Ticks(Ticked(build, answers[0]), answers[1..])
  {
  }

  /** Everything four ticks ask for a queued build comes back. */
  predicate GoesRight(build: Build, answers: seq<Answers>)
    requires |answers| == 4
  {
    build.hasLead && answers[1].generate.Ok? && answers[1].generate.value.hasPages &&
    answers[2].provision.Ok? && answers[2].provision.value.rootDirectory.Some? && answers[2].provision.value.rootDirectory.value != "" &&
    answers[3].upload.Ok? && answers[3].tellOwner.Ok?
  }

  /**
   * A stage is left behind at every tick and none is skipped, and no old error outlives the move. A failure says why
   * and forgets nothing: the hosting an orphaned website is found by stays on the row. A build at rest stays as it is.
   */
  lemma OneStageATick(build: Build, answers: Answers)
    ensures var after := Ticked(build, answers);
      if !InProgress(build.stage) then after == build
      else if after.stage == Failed then
        after.error.Some? && after.generated == build.generated && after.hosting == build.hosting
      else after.stage == Next(build.stage) && after.error.None?
  {
  }

  /**
   * What a tick leaves on the row, stage by stage. A move stores what the stage produced, the generated site or the
   * hosting the host answered with, whole, and nothing else; a failure carries the words of what stopped it.
   */
  lemma WhatAStageStores(build: Build, answers: Answers)
    ensures Stores(build, answers, Ticked(build, answers))
  {
    if build.stage == Uploading { WhatUploadingStores(build, answers); }
  }

  lemma WhatUploadingStores(build: Build, answers: Answers)
    requires build.stage == Uploading
    ensures Stores(build, answers, Ticked(build, answers))
  {
  }

  ghost predicate FailedSaying(after: Build, reason: string) { after.stage == Failed && after.error == Some(reason) }

  ghost predicate MovedTo(after: Build, stage: Stage) { after.stage == stage && after.error.None? }

  ghost predicate Stores(build: Build, answers: Answers, after: Build) {
    after.hasLead == build.hasLead &&
    (!(build.stage == Generating && after.stage == Provisioning) ==> after.generated == build.generated) &&
    (!(build.stage == Provisioning && after.stage == Uploading) ==> after.hosting == build.hosting) &&
    match build.stage
    case Queued => MovedTo(after, Generating)
    case Generating =>
      if !build.hasLead then FailedSaying(after, "the build has no lead to write a brief from")
      else if answers.generate.Threw? then FailedSaying(after, answers.generate.reason)
      else MovedTo(after, Provisioning) && after.generated == Some(answers.generate.value)
    case Provisioning =>
      if answers.provision.Threw? then FailedSaying(after, answers.provision.reason)
      else MovedTo(after, Uploading) && after.hosting == answers.provision.value
    case Uploading =>
      if build.generated.None? || !build.generated.value.hasPages then
        FailedSaying(after, "the build has nothing generated to upload")
      else if build.hosting.rootDirectory.None? || build.hosting.rootDirectory.value == "" then
        FailedSaying(after, "the build has no document root to upload into")
      else if answers.upload.Threw? then FailedSaying(after, answers.upload.reason)
      else if answers.tellOwner.Threw? then FailedSaying(after, answers.tellOwner.reason)
      else MovedTo(after, Review)
    case _ => after == build
  }

  /**
   * A queued build is at review after four ticks, and no sooner, exactly when everything goes right: it has a lead,
   * the generated site has pages, the host names a document root, and the owner could be told. Otherwise it has
   * failed by then, and no number of ticks brings it back.
   */
  lemma FourTicksToReview(build: Build, answers: seq<Answers>)
    requires build.stage == Queued && |answers| == 4
    ensures Ticks(build, answers).stage == (if GoesRight(build, answers) then Review else Failed)
    ensures forall n :: 0 <= n < 4 ==> Ticks(build, answers[..n]).stage != Review
  {
    var a, b, c, d := answers[0], answers[1], answers[2], answers[3];
    var b1 := Ticked(build, a);
    var b2 := Ticked(b1, b);
    var b3 := Ticked(b2, c);
    var b4 := Ticked(b3, d);
    assert answers == [a, b, c, d];
    TicksUnfold(build, [a, b, c, d]);
    TicksUnfold(b1, [b, c, d]);
    TicksUnfold(b2, [c, d]);
    TicksUnfold(b3, [d]);
    assert Ticks(build, answers) == b4;
    assert answers[..0] == [] && answers[..1] == [a] && answers[..2] == [a, b] && answers[..3] == [a, b, c];
    TicksUnfold(build, [a]);
    TicksUnfold(build, [a, b]);
    TicksUnfold(b1, [b]);
    TicksUnfold(build, [a, b, c]);
    TicksUnfold(b1, [b, c]);
    TicksUnfold(b2, [c]);
  }

  lemma {:induction false} RestIsFinal(build: Build, answers: seq<Answers>)
    requires !InProgress(build.stage)
    ensures Ticks(build, answers) == build
    decreases |answers|
  {
    if answers != [] { RestIsFinal(build, answers[1..]); }
  }
}
