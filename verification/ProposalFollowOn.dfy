/**
 * What happens after a client accepts a proposal: `apps/worker/src/jobs/proposals-accepted.ts`. Any number of runs of the job interleave, each holding what it read
 * when it started; every read, external call and conditional write is one step, and a run can die before any
 * of them.
 */
module ProposalFollowOn {

  import opened Wrappers

  // ---------------------------------------------------------------- the payment decision

  datatype Job = Job(client: Option<nat>, duePence: nat, recurringPence: nat, package: Option<nat>)

  datatype PaymentStep = Nothing | Manual | Checkout(price: Option<nat>)

  function PaymentStepFor(duePence: nat, recurringPence: nat, price: Option<nat>): PaymentStep {
    if duePence == 0 then Nothing
    else if recurringPence > 0 then (if price.None? then Manual else Checkout(price))
    else Checkout(None)
  }

  /** What the Checkout session is asked to collect: a price to subscribe to, and pence to take at once. */
  datatype Request = Request(subscribeTo: Option<nat>, oneOffPence: nat)

  function RequestFor(step: PaymentStep, duePence: nat): Request
    requires step.Checkout?
  {
    Request(step.price, duePence)
  }

  /** What a client pays on completing the session, when each price costs so much a month. */
  function FirstPayment(request: Request, monthly: nat -> nat): nat {
    request.oneOffPence + if request.subscribeTo.Some? then monthly(request.subscribeTo.value) else 0
  }

  // ---------------------------------------------------------------- the payload

  datatype Shape = MonthlyOnDelivery | SetupPlusMonthly | OneOff
  datatype LineKind = SetupLine | MonthlyLine | OneOffLine
  datatype Line = Line(kind: LineKind, quantity: nat, unitPence: nat)
  datatype Proposal = Proposal(client: Option<nat>, shape: Shape, lines: seq<Line>, package: Option<nat>)

  function SumOf(lines: seq<Line>, kind: LineKind): nat {
    if lines == [] then 0
    else (if lines[0].kind == kind then lines[0].quantity * lines[0].unitPence else 0) + SumOf(lines[1..], kind)
  }

  function DueOnAcceptance(p: Proposal): nat {
    match p.shape
    case SetupPlusMonthly => SumOf(p.lines, SetupLine)
    case OneOff => SumOf(p.lines, OneOffLine)
    case MonthlyOnDelivery => 0
  }

  function RecurringMonthly(p: Proposal): nat {
    if p.shape == OneOff then 0 else SumOf(p.lines, MonthlyLine)
  }

  /** The client acceptance settles on: the proposal's own, or the one its lead became. */
  function EnsureClient(before: Proposal, converted: Option<nat>): Option<nat> {
    if before.client.Some? then before.client else converted
  }

  /** The row acceptance commits. */
  function Accepted(before: Proposal, converted: Option<nat>): Proposal {
    var client := EnsureClient(before, converted);
    if client.Some? && before.client.None? then before.(client := client) else before
  }

  /** What `acceptProposal` hands on, from what it held in memory. */
  function HandOnJob(before: Proposal, converted: Option<nat>): Job {
    Job(EnsureClient(before, converted), DueOnAcceptance(before), RecurringMonthly(before), before.package)
  }

  /** What `followOnJobFor` rebuilds from the rows, later. */
  function FollowOnJobFor(row: Proposal): Job {
    Job(row.client, DueOnAcceptance(row), RecurringMonthly(row), row.package)
  }

  lemma {:induction false} SumAppend(lines: seq<Line>, line: Line, kind: LineKind)
    ensures SumOf(lines + [line], kind) == SumOf(lines, kind) + (if line.kind == kind then line.quantity * line.unitPence else 0)
  {
    if lines == [] {
      assert lines + [line] == [line];
    } else {
      assert (lines + [line])[0] == lines[0] && (lines + [line])[1..] == lines[1..] + [line];
      SumAppend(lines[1..], line, kind);
    }
  }

  /** A payload and the one for the same proposal with a line more: what the line is worth goes where its kind says, or nowhere. */
  ghost predicate CountsLine(p: Proposal, line: Line, less: Job, more: Job) {
    var worth := line.quantity * line.unitPence;
    var dueNow := (p.shape == SetupPlusMonthly && line.kind == SetupLine) || (p.shape == OneOff && line.kind == OneOffLine);
    var monthly := p.shape != OneOff && line.kind == MonthlyLine;
    more.duePence == less.duePence + (if dueNow then worth else 0) &&
    more.recurringPence == less.recurringPence + (if monthly then worth else 0) &&
    more.client == less.client && more.package == less.package
  }

  /**
   * What both payloads ask for, line by line. A setup fee is due on acceptance where the shape has one, and so is a
   * one-off price; a monthly line recurs under either monthly shape; a line the shape does not carry counts for nothing;
   * with no lines nothing is asked. The package is the proposal's, the client its own or the one its lead became.
   */
  lemma PayloadCountsLines(p: Proposal, converted: Option<nat>, line: Line)
    ensures var q := p.(lines := p.lines + [line]);
      CountsLine(p, line, HandOnJob(p, converted), HandOnJob(q, converted)) && CountsLine(p, line, FollowOnJobFor(p), FollowOnJobFor(q))
    ensures p.lines == [] ==> HandOnJob(p, converted).duePence == HandOnJob(p, converted).recurringPence == 0
    ensures p.lines == [] ==> FollowOnJobFor(p).duePence == FollowOnJobFor(p).recurringPence == 0
    ensures HandOnJob(p, converted).package == FollowOnJobFor(p).package == p.package
    ensures FollowOnJobFor(p).client == p.client && HandOnJob(p, converted).client == if p.client.Some? then p.client else converted
  {
    SumAppend(p.lines, line, SetupLine);
    SumAppend(p.lines, line, MonthlyLine);
    SumAppend(p.lines, line, OneOffLine);
  }

  /** What may reach a stored proposal: edits, and clients and packages that are merged or deleted under it. */
  datatype RowEvent =
    | Edit(shape: Shape, lines: seq<Line>, package: Option<nat>)
    | MergeClients(gone: nat, kept: nat)
    | DropClient(id: nat)
    | DropPackage(id: nat)

  /** An edit is refused on anything but a draft; the references follow their rows. */
  function Stored(p: Proposal, draft: bool, e: RowEvent): Proposal {
    match e
    case Edit(shape, lines, package) => if draft then p.(shape := shape, lines := lines, package := package) else p
    case MergeClients(gone, kept) => if p.client == Some(gone) then p.(client := Some(kept)) else p
    case DropClient(id) => if p.client == Some(id) then p.(client := None) else p
    case DropPackage(id) => if p.package == Some(id) then p.(package := None) else p
  }

  function StoredAfter(p: Proposal, draft: bool, events: seq<RowEvent>): Proposal
    decreases |events|
  {
    if events == [] then p else StoredAfter(Stored(p, draft, events[0]), draft, events[1..])
  }

  function ClientAfter(client: Option<nat>, events: seq<RowEvent>): Option<nat>
    decreases |events|
  {
    if events == [] then client
    else
      var e := events[0];
      ClientAfter(if e.MergeClients? && client == Some(e.gone) then Some(e.kept)
        else if e.DropClient? && client == Some(e.id) then None else client, events[1..])
  }

  function PackageAfter(package: Option<nat>, events: seq<RowEvent>): Option<nat>
    decreases |events|
  {
    if events == [] then package
    else PackageAfter(if events[0].DropPackage? && package == Some(events[0].id) then None else package, events[1..])
  }

  lemma {:induction false} AcceptedRowsAreFrozen(p: Proposal, events: seq<RowEvent>)
    ensures StoredAfter(p, false, events) == p.(client := ClientAfter(p.client, events), package := PackageAfter(p.package, events))
    decreases |events|
  {
    if events != [] { AcceptedRowsAreFrozen(Stored(p, false, events[0]), events[1..]); }
  }

  /**
   * However long after acceptance a payload is rebuilt and whatever was tried on the row meanwhile, the amounts are
   * those the client agreed to. The client and the package are the ones the row has come to, so the payload is the
   * original exactly when neither was merged away or deleted.
   */
  lemma RebuiltUpToMerges(before: Proposal, converted: Option<nat>, events: seq<RowEvent>)
    ensures var original := HandOnJob(before, converted);
      var rebuilt := FollowOnJobFor(StoredAfter(Accepted(before, converted), false, events));
      rebuilt == original.(client := ClientAfter(original.client, events), package := PackageAfter(original.package, events)) &&
      (rebuilt == original <==>
        ClientAfter(original.client, events) == original.client && PackageAfter(original.package, events) == original.package)
  {
    AcceptedRowsAreFrozen(Accepted(before, converted), events);
  }

  // ---------------------------------------------------------------- the rows and the runs

  /** A Checkout session: its id, which stands for its URL as well. */
  type Session = nat

  datatype Task = Task(project: Option<nat>)

  /** What a run read when it started. */
  datatype Snapshot = Snapshot(session: Option<Session>, recipient: bool, placeholder: bool)

  datatype Pc =
    | ReadAcceptance
    | Countersign(filed: bool)
    | StampDocument(doc: nat)
    | AuditDocument(doc: nat)
    | Payment
    | Bell(step: PaymentStep)
    | OpenSession
    | StampSession(session: Session)
    | Emit
    | Project
    | SeedProject
    | InsertProject
    | Raced
    | Record(project: nat)
    | Adopt(project: nat)
    | Finish
    | Done
    | Skipped
    | Died

  /** How the payment step came out for a run that got past it. */
  datatype Outcome = Pending | NothingDue | ByHand | NoRecipient | Opened | Already

  datatype Run = Run(job: Job, snap: Snapshot, pc: Pc, outcome: Outcome)

  /** What acceptance settled, once and for all. */
  datatype Facts = Facts(acceptance: bool, proposalClient: Option<nat>, placeholder: bool)

  /** What people may change at any time. */
  datatype Outer = Outer(recipient: bool, prices: map<nat, nat>)

  /** The countersigned copy. */
  datatype Paper = Paper(documentId: Option<nat>, audits: seq<nat>, rendered: nat)

  /** The payment step: the stamp, the notices queued to the client, the owner's bells, the sessions ever opened. */
  datatype Money = Money(session: Option<Session>, notices: seq<Session>, audits: nat, bells: nat, minted: nat)

  /** The work: the project rows carrying this proposal, and the placeholder's tasks. */
  datatype Work = Work(projects: seq<nat>, tasks: seq<Task>, created: nat)

  datatype Rows = Rows(facts: Facts, outer: Outer, paper: Paper, money: Money, work: Work, done: bool)

  function PriceOf(outer: Outer, package: Option<nat>): Option<nat> {
    if package.Some? && package.value in outer.prices then Some(outer.prices[package.value]) else None
  }

  function Decision(outer: Outer, job: Job): PaymentStep {
    PaymentStepFor(job.duePence, job.recurringPence, PriceOf(outer, job.package))
  }

  /**
   * A session is opened exactly when something is due and any monthly fee has its package's price. It then collects what
   * the proposal said, the part due and one month of the rest, exactly when there is no monthly fee or the package's price
   * is that fee: nothing in the job compares the two. Otherwise nothing is due, or the fee is raised by hand.
   */
  lemma CheckoutCollectsWhatWasAgreed(outer: Outer, job: Job, monthly: nat -> nat)
    ensures var step, priced := Decision(outer, job), job.package.Some? && job.package.value in outer.prices;
      (step.Checkout? <==> job.duePence > 0 && (job.recurringPence == 0 || priced)) &&
      (step.Nothing? <==> job.duePence == 0) &&
      (step.Checkout? ==>
        (FirstPayment(RequestFor(step, job.duePence), monthly) == job.duePence + job.recurringPence <==>
          job.recurringPence == 0 || monthly(outer.prices[job.package.value]) == job.recurringPence))
  {
  }

  function AdoptAll(tasks: seq<Task>, project: nat): (adopted: seq<Task>)
    ensures |adopted| == |tasks|
    ensures forall i :: 0 <= i < |tasks| ==> adopted[i] == if tasks[i].project.None? then Task(Some(project)) else tasks[i]
  {
    seq(|tasks|, i requires 0 <= i < |tasks| => if tasks[i].project.None? then Task(Some(project)) else tasks[i])
  }

  function Begin(w: Rows, job: Job): Run {
    Run(job, Snapshot(w.money.session, w.outer.recipient, w.facts.placeholder), ReadAcceptance, Pending)
  }

  predicate AtPaper(pc: Pc) { pc.ReadAcceptance? || pc.Countersign? || pc.StampDocument? || pc.AuditDocument? }

  predicate AtMoney(pc: Pc) { pc.Payment? || pc.Bell? || pc.OpenSession? || pc.StampSession? || pc.Emit? }

  predicate AtWork(pc: Pc) {
    pc.Project? || pc.SeedProject? || pc.InsertProject? || pc.Raced? || pc.Record? || pc.Adopt?
  }

  function PaperStep(facts: Facts, p: Paper, pc: Pc): (Paper, Pc)
    requires AtPaper(pc)
  {
    match pc
    case ReadAcceptance => (p, if facts.acceptance then Countersign(p.documentId.Some?) else Skipped)
    case Countersign(filed) =>
      if filed then (p, Payment) else (p.(rendered := p.rendered + 1), StampDocument(p.rendered))
    case StampDocument(doc) =>
      if p.documentId.None? then (p.(documentId := Some(doc)), AuditDocument(doc)) else (p, Payment)
    case AuditDocument(doc) => (p.(audits := p.audits + [doc]), Payment)
  }

  function MoneyStep(outer: Outer, m: Money, run: Run): (Money, Run)
    requires AtMoney(run.pc)
  {
    match run.pc
    case Payment =>
      if run.snap.session.Some? then (m, run.(pc := Project, outcome := Already))
      else
        var step := Decision(outer, run.job);
        if !step.Checkout? then (m, run.(pc := Bell(step)))
        else if !run.snap.recipient then (m, run.(pc := Project, outcome := NoRecipient))
        else (m, run.(pc := OpenSession))
    case Bell(step) =>
      (m.(bells := m.bells + 1), run.(pc := Project, outcome := if step.Nothing? then NothingDue else ByHand))
    case OpenSession => (m.(minted := m.minted + 1), run.(pc := StampSession(m.minted)))
    case StampSession(session) =>
      if m.session.None? then
        (m.(session := Some(session), notices := m.notices + [session], audits := m.audits + 1), run.(pc := Emit))
      else (m, run.(pc := Project, outcome := Already))
    case Emit => (m, run.(pc := Project, outcome := Opened))
  }

  function WorkStep(facts: Facts, k: Work, run: Run): (Work, Pc)
    requires AtWork(run.pc)
  {
    match run.pc
    case Project =>
      (k, if run.job.client.None? then Finish else if k.projects != [] then Adopt(k.projects[0]) else SeedProject)
    case SeedProject =>
      (k, if facts.proposalClient.None? then Died else if k.projects != [] then Raced else InsertProject)
    case Raced => (k, if k.projects != [] then Adopt(k.projects[0]) else Died)
    case InsertProject =>
      // The unique index speaks here as a database error, not as a refusal: the loser of this race dies.
      if k.projects != [] then (k, Died)
      else (k.(projects := [k.created], created := k.created + 1), Record(k.created))
    case Record(project) => (k, Adopt(project))
    case Adopt(project) => (if run.snap.placeholder then k.(tasks := AdoptAll(k.tasks, project)) else k, Finish)
  }

  /** A run with the rows as it leaves them. */
  datatype Moved = Moved(rows: Rows, run: Run)

  /** One step of one run. */
  function Step(w: Rows, run: Run): Moved {
    if AtPaper(run.pc) then
      var (paper, pc) := PaperStep(w.facts, w.paper, run.pc);
      Moved(w.(paper := paper), run.(pc := pc))
    else if AtMoney(run.pc) then
      var (money, run') := MoneyStep(w.outer, w.money, run);
      Moved(w.(money := money), run')
    else if AtWork(run.pc) then
      var (work, pc) := WorkStep(w.facts, w.work, run);
      Moved(w.(work := work), run.(pc := pc))
    else if run.pc.Finish? then Moved(w.(done := true), run.(pc := Done))
    else Moved(w, run)
  }

  datatype World = World(rows: Rows, runs: map<nat, Run>)

  datatype Event =
    | Start(run: nat, job: Job)
    | Next(run: nat)
    | Crash(run: nat)
    | SetPrice(package: nat, price: Option<nat>)
    | SetRecipient(present: bool)
    | MoveTask(task: nat, project: nat)

  /** What people do to the rows. */
  function Outside(w: Rows, e: Event): Rows {
    match e
    case SetPrice(package, price) =>
      w.(outer := w.outer.(prices :=
        if price.Some? then w.outer.prices[package := price.value] else w.outer.prices - {package}))
    case SetRecipient(present) => w.(outer := w.outer.(recipient := present))
    case MoveTask(task, project) =>
      if task < |w.work.tasks| then w.(work := w.work.(tasks := w.work.tasks[task := Task(Some(project))])) else w
    case _ => w
  }

  function Apply(w: World, e: Event): World {
    match e
    case Start(r, job) => if r in w.runs then w else w.(runs := w.runs[r := Begin(w.rows, job)])
    case Next(r) => if r in w.runs then Put(w, r, Step(w.rows, w.runs[r])) else w
    case Crash(r) =>
      if r in w.runs && !w.runs[r].pc.Done? then Put(w, r, Moved(w.rows, w.runs[r].(pc := Died))) else w
    case _ => w.(rows := Outside(w.rows, e))
  }

  function Put(w: World, r: nat, m: Moved): World { World(m.rows, w.runs[r := m.run]) }

  function Exec(w: World, events: seq<Event>): World
    decreases |events|
  {
    if events == [] then w else Exec(Apply(w, events[0]), events[1..])
  }

  lemma {:induction false} ExecAppend(w: World, a: seq<Event>, b: seq<Event>)
    ensures Exec(w, a + b) == Exec(Exec(w, a), b)
    decreases |a|
  {
    if a == [] {
      assert a + b == b;
    } else {
      assert (a + b)[1..] == a[1..] + b;
      ExecAppend(Apply(w, a[0]), a[1..], b);
    }
  }

  // ---------------------------------------------------------------- the invariant

  /** Nothing has been done for the proposal yet and no run has started. */
  predicate Initial(w: World) {
    w.rows.paper.documentId.None? && w.rows.paper.audits == [] &&
    w.rows.money.session.None? && w.rows.money.notices == [] && w.rows.money.audits == 0 &&
    w.rows.work.projects == [] && !w.rows.done && w.runs == map[]
  }

  predicate PastCountersign(pc: Pc) {
    !pc.ReadAcceptance? && !pc.Countersign? && !pc.StampDocument? && !pc.Skipped? && !pc.Died?
  }

  predicate PastPayment(pc: Pc) {
    pc.Project? || pc.SeedProject? || pc.InsertProject? || pc.Raced? || pc.Record? || pc.Adopt? || pc.Finish? || pc.Done?
  }

  predicate PastProject(pc: Pc) { pc.Record? || pc.Adopt? || pc.Finish? || pc.Done? }

  predicate TasksPlaced(k: Work) {
    forall i :: 0 <= i < |k.tasks| ==> k.tasks[i].project.Some?
  }

  /** The countersigning is audited once at most, for the document that was filed. */
  predicate PaperInv(p: Paper) {
    (p.audits == [] || (p.documentId.Some? && p.audits == [p.documentId.value])) &&
    (p.documentId.Some? ==> p.documentId.value < p.rendered)
  }

  /** One notice at most, carrying the stamped session. */
  predicate MoneyInv(m: Money) {
    m.notices == (if m.session.Some? then [m.session.value] else []) && m.audits == |m.notices|
  }

  predicate RowsInv(w: Rows) { PaperInv(w.paper) && MoneyInv(w.money) && |w.work.projects| <= 1 }

  predicate PaperRun(facts: Facts, p: Paper, pc: Pc) {
    (pc.Countersign? || pc.StampDocument? ==> facts.acceptance) &&
    (pc.Countersign? && pc.filed ==> p.documentId.Some?) &&
    (pc.StampDocument? || pc.AuditDocument? ==> pc.doc < p.rendered) &&
    (pc.AuditDocument? ==> p.documentId == Some(pc.doc) && p.audits == []) &&
    (PastCountersign(pc) ==> facts.acceptance && p.documentId.Some?)
  }

  /** Why a run asked nobody for money: what its payload said is due, and whom it knew of when it started. */
  predicate Excuse(run: Run) {
    (run.outcome.NothingDue? && run.job.duePence == 0) ||
    (run.outcome.ByHand? && run.job.duePence > 0 && run.job.recurringPence > 0) ||
    (run.outcome.NoRecipient? && run.job.duePence > 0 && !run.snap.recipient)
  }

  predicate MoneyRun(m: Money, run: Run) {
    (run.snap.session.Some? ==> run.snap.session == m.session) &&
    (run.pc.Bell? ==> !run.pc.step.Checkout? && (run.pc.step.Nothing? <==> run.job.duePence == 0)) &&
    (run.pc.Bell? && run.pc.step.Manual? ==> run.job.recurringPence > 0) &&
    (run.outcome.NothingDue? || run.outcome.ByHand? || run.outcome.NoRecipient? ==> Excuse(run)) &&
    (run.pc.Emit? ==> m.session.Some?) &&
    (PastPayment(run.pc) ==> !run.outcome.Pending? && (run.outcome.Opened? || run.outcome.Already? ==> m.session.Some?))
  }

  predicate WorkRun(facts: Facts, k: Work, done: bool, run: Run) {
    run.snap.placeholder == facts.placeholder &&
    (PastProject(run.pc) && run.job.client.Some? ==> |k.projects| == 1) &&
    (run.pc.SeedProject? || run.pc.InsertProject? || run.pc.Raced? ==> run.job.client.Some?) &&
    (run.pc.InsertProject? || run.pc.Raced? ==> facts.proposalClient.Some?) && (run.pc.Raced? ==> k.projects != []) &&
    (run.pc.Record? || run.pc.Adopt? ==> run.job.client.Some? && k.projects == [run.pc.project]) &&
    (run.pc.Finish? || run.pc.Done? ==> (run.job.client.Some? && facts.placeholder ==> TasksPlaced(k))) &&
    (run.pc.Done? ==> done)
  }

  predicate RunInv(w: Rows, run: Run) {
    PaperRun(w.facts, w.paper, run.pc) && MoneyRun(w.money, run) && WorkRun(w.facts, w.work, w.done, run)
  }

  /** The document a run may still stamp or audit. */
  predicate Holds(pc: Pc, doc: nat) {
    (pc.StampDocument? && pc.doc == doc) || (pc.AuditDocument? && pc.doc == doc)
  }

  ghost predicate Apart(a: Pc, b: Pc) {
    forall doc :: !(Holds(a, doc) && Holds(b, doc))
  }

  ghost predicate Inv(w: World) {
    RowsInv(w.rows) &&
    (forall r :: r in w.runs ==> RunInv(w.rows, w.runs[r])) &&
    (forall r, s :: r in w.runs && s in w.runs && r != s ==> Apart(w.runs[r].pc, w.runs[s].pc)) &&
    (w.rows.done ==> exists r :: r in w.runs && w.runs[r].pc.Done?)
  }

  lemma PaperStepKeeps(facts: Facts, p: Paper, pc: Pc, other: Pc)
    requires AtPaper(pc) && PaperInv(p) && PaperRun(facts, p, pc)
    requires PaperRun(facts, p, other) && Apart(pc, other)
    ensures var (p', pc') := PaperStep(facts, p, pc);
      PaperInv(p') && PaperRun(facts, p', pc') && !AtWork(pc') && !pc'.Emit? && !pc'.Finish? && !pc'.Done? &&
      PaperRun(facts, p', other) && Apart(pc', other) && Apart(other, pc')
  {
    if pc.StampDocument? || pc.AuditDocument? { assert Holds(pc, pc.doc); }
  }

  lemma MoneyStepKeeps(outer: Outer, m: Money, run: Run, other: Run)
    requires AtMoney(run.pc) && MoneyInv(m) && MoneyRun(m, run) && MoneyRun(m, other)
    ensures var (m', run') := MoneyStep(outer, m, run);
      MoneyInv(m') && MoneyRun(m', run') && MoneyRun(m', other) &&
      (AtMoney(run'.pc) || run'.pc.Project?) && run'.job == run.job && run'.snap == run.snap
  {
  }

  lemma WorkStepKeeps(facts: Facts, k: Work, done: bool, run: Run, other: Run)
    requires AtWork(run.pc) && |k.projects| <= 1 && WorkRun(facts, k, done, run) && WorkRun(facts, k, done, other)
    ensures var (k', pc') := WorkStep(facts, k, run);
      |k'.projects| <= 1 && WorkRun(facts, k', done, run.(pc := pc')) && WorkRun(facts, k', done, other) &&
      (AtWork(pc') || pc'.Finish? || pc'.Died?)
  {
  }

  ghost predicate StepIsSound(w: Rows, run: Run, other: Run) {
    var m := Step(w, run);
    RowsInv(m.rows) && RunInv(m.rows, m.run) && RunInv(m.rows, other) && Apart(m.run.pc, other.pc) && Apart(other.pc, m.run.pc)
  }

  lemma PaperKeeps(w: Rows, run: Run, other: Run)
    requires RowsInv(w) && RunInv(w, run) && RunInv(w, other) && Apart(run.pc, other.pc) && AtPaper(run.pc)
    ensures StepIsSound(w, run, other)
  {
    PaperStepKeeps(w.facts, w.paper, run.pc, other.pc);
  }

  lemma MoneyKeeps(w: Rows, run: Run, other: Run)
    requires RowsInv(w) && RunInv(w, run) && RunInv(w, other) && Apart(run.pc, other.pc) && AtMoney(run.pc)
    ensures StepIsSound(w, run, other)
  {
    MoneyStepKeeps(w.outer, w.money, run, other);
  }

  lemma WorkKeeps(w: Rows, run: Run, other: Run)
    requires RowsInv(w) && RunInv(w, run) && RunInv(w, other) && Apart(run.pc, other.pc) && AtWork(run.pc)
    ensures StepIsSound(w, run, other)
  {
    WorkStepKeeps(w.facts, w.work, w.done, run, other);
  }

  lemma StepKeeps(w: Rows, run: Run, other: Run)
    requires RowsInv(w) && RunInv(w, run) && RunInv(w, other) && Apart(run.pc, other.pc)
    ensures StepIsSound(w, run, other)
  {
    if AtPaper(run.pc) { PaperKeeps(w, run, other); }
    if AtMoney(run.pc) { MoneyKeeps(w, run, other); }
    if AtWork(run.pc) { WorkKeeps(w, run, other); }
  }

  lemma OutsideKeepsInv(w: Rows, run: Run, e: Event)
    requires RowsInv(w) && RunInv(w, run)
    ensures RowsInv(Outside(w, e)) && RunInv(Outside(w, e), run)
  {
  }

  lemma NextKeepsInv(w: World, r: nat)
    requires Inv(w) && r in w.runs
    ensures Inv(Apply(w, Next(r)))
  {
    var run := w.runs[r];
    var m, w' := Step(w.rows, run), Apply(w, Next(r));
    StepKeeps(w.rows, run, run.(pc := Died));
    forall s | s in w'.runs && s != r
      ensures RunInv(w'.rows, w'.runs[s]) && Apart(m.run.pc, w'.runs[s].pc) && Apart(w'.runs[s].pc, m.run.pc)
    {
      StepKeeps(w.rows, run, w.runs[s]);
    }
    NextKeepsDone(w, r);
  }

  /** The done stamp keeps a run to vouch for it. */
  lemma NextKeepsDone(w: World, r: nat)
    requires r in w.runs && (w.rows.done ==> exists d :: d in w.runs && w.runs[d].pc.Done?)
    ensures var w' := Apply(w, Next(r)); w'.rows.done ==> exists d :: d in w'.runs && w'.runs[d].pc.Done?
  {
    var w' := Apply(w, Next(r));
    if w.rows.done {
      var d :| d in w.runs && w.runs[d].pc.Done?;
      assert w'.runs[d].pc.Done?;
    } else if w'.rows.done {
      assert w'.runs[r].pc.Done?;
    }
  }

  lemma CrashKeepsInv(w: World, r: nat)
    requires Inv(w)
    ensures Inv(Apply(w, Crash(r)))
  {
    if w.rows.done {
      var d :| d in w.runs && w.runs[d].pc.Done?;
      assert Apply(w, Crash(r)).runs[d].pc.Done?;
    }
  }

  lemma ApplyKeepsInv(w: World, e: Event)
    requires Inv(w)
    ensures Inv(Apply(w, e))
  {
    match e {
      case Next(r) => if r in w.runs { NextKeepsInv(w, r); }
      case Crash(r) => CrashKeepsInv(w, r);
      case Start(r, job) => StartKeepsInv(w, r, job);
      case _ =>
        forall r | r in w.runs ensures RunInv(Outside(w.rows, e), w.runs[r]) {
          OutsideKeepsInv(w.rows, w.runs[r], e);
        }
    }
  }

  lemma StartKeepsInv(w: World, r: nat, job: Job)
    requires Inv(w)
    ensures Inv(Apply(w, Start(r, job)))
  {
    var w' := Apply(w, Start(r, job));
    if w.rows.done {
      var d :| d in w.runs && w.runs[d].pc.Done?;
      assert w'.runs[d].pc.Done?;
    }
  }

  lemma {:induction false} ExecKeepsInv(w: World, events: seq<Event>)
    requires Inv(w)
    ensures Inv(Exec(w, events))
    decreases |events|
  {
    if events != [] {
      ApplyKeepsInv(w, events[0]);
      ExecKeepsInv(Apply(w, events[0]), events[1..]);
    }
  }

  /**
   * Whatever runs interleave, whatever they read stale and wherever they die: at most one payment notice, always
   * for the stamped session; at most one project; the countersigning audited at most once.
   */
  lemma AtMostOnce(w: World, events: seq<Event>)
    requires Initial(w)
    ensures var end := Exec(w, events).rows;
      |end.money.notices| <= 1 && (end.money.notices != [] <==> end.money.session.Some?) &&
      (forall n :: n in end.money.notices ==> end.money.session == Some(n)) &&
      end.money.audits == |end.money.notices| && |end.work.projects| <= 1 && |end.paper.audits| <= 1
  {
    ExecKeepsInv(w, events);
  }

  // ---------------------------------------------------------------- what never changes once written

  predicate Preserved(w: Rows, w': Rows) {
    (w.paper.documentId.Some? ==> w'.paper.documentId == w.paper.documentId) &&
    (w.money.session.Some? ==> w'.money.session == w.money.session) &&
    (w.work.projects != [] ==> w'.work.projects == w.work.projects) &&
    (w.done ==> w'.done) && w'.facts == w.facts && w.money.bells <= w'.money.bells
  }

  lemma ApplyPreserves(w: World, e: Event)
    ensures Preserved(w.rows, Apply(w, e).rows)
  {
  }

  lemma {:induction false} ExecPreserves(w: World, events: seq<Event>)
    ensures Preserved(w.rows, Exec(w, events).rows)
    decreases |events|
  {
    if events != [] {
      ApplyPreserves(w, events[0]);
      ExecPreserves(Apply(w, events[0]), events[1..]);
    }
  }

  /** The signed copy, the session with its one notice, and the project are fixed the moment they are first written. */
  lemma StampsNeverChange(w: World, before: seq<Event>, after: seq<Event>)
    requires Initial(w)
    ensures var mid, end := Exec(w, before).rows, Exec(w, before + after).rows;
      (mid.paper.documentId.Some? ==> end.paper.documentId == mid.paper.documentId) &&
      (mid.money.session.Some? ==> end.money.session == mid.money.session && end.money.notices == mid.money.notices) &&
      (mid.work.projects != [] ==> end.work.projects == mid.work.projects)
  {
    ExecAppend(w, before, after);
    ExecKeepsInv(w, before);
    ExecKeepsInv(w, before + after);
    ExecPreserves(Exec(w, before), after);
  }

  /** A task that is on a project already is never moved by the job; the rest go onto the one project. */
  lemma JobMovesOnlyUnplacedTasks(w: Rows, run: Run, i: nat)
    requires RowsInv(w) && RunInv(w, run) && i < |w.work.tasks|
    ensures var k, k' := w.work, Step(w, run).rows.work;
      |k'.tasks| == |k.tasks| && (k'.tasks[i] != k.tasks[i] ==>
        k.tasks[i].project.None? && |k.projects| == 1 && k'.tasks[i].project == Some(k.projects[0]))
  {
  }

  // ---------------------------------------------------------------- what the done stamp means

  /** What a finished run vouches for: the one session, or a reason for none. */
  predicate Vouches(w: Rows, run: Run) {
    run.pc.Done? && w.paper.documentId.Some? &&
    (w.money.session.Some? || Excuse(run)) &&
    (run.job.client.Some? ==> |w.work.projects| == 1) &&
    (run.job.client.Some? && w.facts.placeholder ==> TasksPlaced(w.work))
  }

  lemma DoneMeansDone(w: World, events: seq<Event>)
    requires Initial(w) && Exec(w, events).rows.done
    ensures var end := Exec(w, events); exists r :: r in end.runs && Vouches(end.rows, end.runs[r])
  {
    ExecKeepsInv(w, events);
    var end := Exec(w, events);
    var r :| r in end.runs && end.runs[r].pc.Done?;
    assert RunInv(end.rows, end.runs[r]);
  }

  // ---------------------------------------------------------------- and what the reasons rest on

  /** The world after the first `k` events of a history. */
  function At(w: World, events: seq<Event>, k: nat): World
    requires k <= |events|
  {
    Exec(w, events[..k])
  }

  lemma AtNext(w: World, events: seq<Event>, k: nat)
    requires k < |events|
    ensures At(w, events, k + 1) == Apply(At(w, events, k), events[k])
  {
    assert events[..k + 1] == events[..k] + [events[k]];
    ExecAppend(w, events[..k], [events[k]]);
    var mid := At(w, events, k);
    assert [events[k]][1..] == [];
    assert Exec(mid, [events[k]]) == Exec(Apply(mid, events[k]), []);
  }

  /** At some moment this was the decision for the payload. */
  ghost predicate Decides(w: World, events: seq<Event>, upTo: nat, job: Job, step: PaymentStep)
    requires upTo <= |events|
  {
    exists k: nat :: k <= upTo && Decision(At(w, events, k).rows.outer, job) == step
  }

  /** At some moment there was nobody to tell. */
  ghost predicate NobodyOnce(w: World, events: seq<Event>, upTo: nat)
    requires upTo <= |events|
  {
    exists k: nat :: k <= upTo && !At(w, events, k).rows.outer.recipient
  }

  /** What a run acts on was so when it read it. */
  ghost predicate ReadThen(w: World, events: seq<Event>, upTo: nat, run: Run)
    requires upTo <= |events|
  {
    (run.pc.Bell? ==> Decides(w, events, upTo, run.job, run.pc.step)) &&
    (run.outcome.NothingDue? ==> Decides(w, events, upTo, run.job, Nothing)) &&
    (run.outcome.ByHand? ==> Decides(w, events, upTo, run.job, Manual)) &&
    (!run.snap.recipient ==> NobodyOnce(w, events, upTo))
  }

  /** Later is no less. */
  lemma ReadThenStays(w: World, events: seq<Event>, k: nat, run: Run)
    requires k < |events| && ReadThen(w, events, k, run)
    ensures ReadThen(w, events, k + 1, run)
  {
  }

  lemma StepReads(w: World, events: seq<Event>, k: nat, r: nat)
    requires k < |events| && r in At(w, events, k).runs && ReadThen(w, events, k, At(w, events, k).runs[r])
    requires MoneyRun(At(w, events, k).rows.money, At(w, events, k).runs[r])
    ensures ReadThen(w, events, k + 1, Step(At(w, events, k).rows, At(w, events, k).runs[r]).run)
  {
    var mid := At(w, events, k);
    var run := mid.runs[r];
    assert Decides(w, events, k + 1, run.job, Decision(mid.rows.outer, run.job));
    ReadThenStays(w, events, k, run);
  }

  lemma {:induction false} RunsReadThen(w: World, events: seq<Event>, k: nat, r: nat)
    requires Initial(w) && k <= |events| && r in At(w, events, k).runs
    ensures ReadThen(w, events, k, At(w, events, k).runs[r])
    decreases k
  {
    if k > 0 {
      var mid, e := At(w, events, k - 1), events[k - 1];
      AtNext(w, events, k - 1);
      if r in mid.runs {
        RunsReadThen(w, events, k - 1, r);
        ExecKeepsInv(w, events[..k - 1]);
        assert RunInv(mid.rows, mid.runs[r]);
        if e == Next(r) { StepReads(w, events, k - 1, r); } else { ReadThenStays(w, events, k - 1, mid.runs[r]); }
      } else {
        assert !mid.rows.outer.recipient ==> NobodyOnce(w, events, k);
      }
    }
  }

  /** At some moment the payload had no checkout due, or there was nobody to send a link to. */
  ghost predicate Excused(w: World, events: seq<Event>, job: Job) {
    exists k: nat :: k <= |events| &&
      (!Decision(At(w, events, k).rows.outer, job).Checkout? || !At(w, events, k).rows.outer.recipient)
  }

  /**
   * The done stamp over every history, whatever prices, recipients and payloads did: a signed copy is filed, some run
   * finished with its client's one project in place, and the client has the one notice of the stamped session, unless
   * at some moment of that history no checkout was due on that run's payload or there was nobody to tell.
   */
  lemma DoneMeansEverythingDone(w: World, events: seq<Event>) returns (r: nat)
    requires Initial(w) && Exec(w, events).rows.done
    ensures var end := Exec(w, events);
      r in end.runs && end.runs[r].pc.Done? && end.rows.paper.documentId.Some? &&
      (end.runs[r].job.client.Some? ==> |end.rows.work.projects| == 1) &&
      (!Excused(w, events, end.runs[r].job) ==>
        end.rows.money.session.Some? && end.rows.money.notices == [end.rows.money.session.value])
  {
    DoneMeansDone(w, events);
    ExecKeepsInv(w, events);
    var end := Exec(w, events);
    r :| r in end.runs && Vouches(end.rows, end.runs[r]);
    assert events[..|events|] == events;
    RunsReadThen(w, events, |events|, r);
    if end.rows.money.session.None? {
      var run := end.runs[r];
      assert Excuse(run);
      if run.outcome.NoRecipient? {
        var k: nat :| k <= |events| && !At(w, events, k).rows.outer.recipient;
      } else {
        var step := if run.outcome.NothingDue? then Nothing else Manual;
        var k: nat :| k <= |events| && Decision(At(w, events, k).rows.outer, run.job) == step;
      }
      assert Excused(w, events, run.job);
    }
  }

  // ---------------------------------------------------------------- when nothing moves

  /** Events that leave the price and the recipient alone, and start runs on one payload only. */
  predicate Frozen(e: Event, job: Job) {
    match e
    case SetPrice(_, _) => false
    case SetRecipient(_) => false
    case Start(_, j) => j == job
    case _ => true
  }

  /** While price and recipient stand still, a run comes to the one decision. */
  predicate Decided(outer: Outer, run: Run, job: Job) {
    run.job == job && run.snap.recipient == outer.recipient &&
    (run.pc.Bell? ==> run.pc.step == Decision(outer, job) && !run.pc.step.Checkout?) &&
    (run.outcome.NothingDue? ==> Decision(outer, job).Nothing?) &&
    (run.outcome.ByHand? ==> Decision(outer, job).Manual?) &&
    (run.outcome.NoRecipient? ==> !outer.recipient)
  }

  ghost predicate AllDecided(w: World, job: Job) {
    forall r :: r in w.runs ==> Decided(w.rows.outer, w.runs[r], job)
  }

  lemma StepKeepsDecided(w: Rows, run: Run, job: Job)
    requires Decided(w.outer, run, job)
    ensures Decided(w.outer, Step(w, run).run, job) && Step(w, run).rows.outer == w.outer
  {
  }

  lemma ApplyKeepsDecided(w: World, e: Event, job: Job)
    requires AllDecided(w, job) && Frozen(e, job)
    ensures AllDecided(Apply(w, e), job) && Apply(w, e).rows.outer == w.rows.outer
  {
    if e.Next? && e.run in w.runs {
      StepKeepsDecided(w.rows, w.runs[e.run], job);
    }
  }

  lemma {:induction false} ExecKeepsDecided(w: World, events: seq<Event>, job: Job)
    requires AllDecided(w, job) && forall i :: 0 <= i < |events| ==> Frozen(events[i], job)
    ensures AllDecided(Exec(w, events), job) && Exec(w, events).rows.outer == w.rows.outer
    decreases |events|
  {
    if events != [] {
      ApplyKeepsDecided(w, events[0], job);
      ExecKeepsDecided(Apply(w, events[0]), events[1..], job);
    }
  }

  /**
   * With price and recipient unchanged, the done stamp means: signed copy filed, the client told where to pay
   * whenever a checkout was due and there was anyone to tell, the project there whenever there is a client.
   */
  lemma DoneWhenNothingMoves(w: World, events: seq<Event>, job: Job)
    requires Initial(w) && (forall i :: 0 <= i < |events| ==> Frozen(events[i], job))
    requires Exec(w, events).rows.done
    ensures var end := Exec(w, events).rows;
      end.paper.documentId.Some? &&
      (Decision(w.rows.outer, job).Checkout? && w.rows.outer.recipient ==>
        end.money.session.Some? && end.money.notices == [end.money.session.value]) &&
      (job.client.Some? ==> |end.work.projects| == 1)
  {
    DoneMeansDone(w, events);
    ExecKeepsDecided(w, events, job);
    ExecKeepsInv(w, events);
  }

  // ---------------------------------------------------------------- one run left alone

  function Steps(m: Moved, n: nat): Moved
    decreases n
  {
    if n == 0 then m else Steps(Step(m.rows, m.run), n - 1)
  }

  lemma {:induction false} StepsAdd(m: Moved, a: nat, b: nat)
    ensures Steps(m, a + b) == Steps(Steps(m, a), b)
    decreases a
  {
    if a > 0 { StepsAdd(Step(m.rows, m.run), a - 1, b); }
  }

  function Nexts(r: nat, n: nat): (events: seq<Event>)
    ensures |events| == n
  {
    if n == 0 then [] else [Next(r)] + Nexts(r, n - 1)
  }

  lemma {:induction false} ExecNexts(w: World, r: nat, n: nat)
    requires r in w.runs
    ensures Exec(w, Nexts(r, n)) == Put(w, r, Steps(Moved(w.rows, w.runs[r]), n))
    decreases n
  {
    if n == 0 {
      assert w.runs[r := w.runs[r]] == w.runs;
    } else {
      var m := Step(w.rows, w.runs[r]);
      var w' := Put(w, r, m);
      assert Nexts(r, n)[1..] == Nexts(r, n - 1);
      ExecNexts(w', r, n - 1);
      var end := Steps(m, n - 1);
      assert w'.runs[r := end.run] == w.runs[r := end.run];
    }
  }

  lemma PaperAlone(w: Rows, run: Run) returns (n: nat)
    requires run.pc.ReadAcceptance? && w.facts.acceptance
    ensures var m := Steps(Moved(w, run), n);
      m.run == run.(pc := Payment) && m.rows == w.(paper := m.rows.paper) && m.rows.paper.documentId.Some? &&
      (if w.paper.documentId.Some? then m.rows.paper == w.paper
       else m.rows.paper.documentId == Some(w.paper.rendered) && m.rows.paper.audits == w.paper.audits + [w.paper.rendered])
  {
    var m1 := Step(w, run);
    var m2 := Step(m1.rows, m1.run);
    if w.paper.documentId.Some? {
      n := 2;
      assert Steps(Moved(w, run), 2) == Steps(m1, 1) == Steps(m2, 0);
    } else {
      var m3 := Step(m2.rows, m2.run);
      var m4 := Step(m3.rows, m3.run);
      n := 4;
      assert Steps(Moved(w, run), 4) == Steps(m1, 3) == Steps(m2, 2);
      assert Steps(m2, 2) == Steps(m3, 1) == Steps(m4, 0);
    }
  }

  /** The money rows after a run that nothing interrupts. */
  function MoneyAfter(outer: Outer, m: Money, job: Job): Money {
    if m.session.Some? then m
    else if !Decision(outer, job).Checkout? then m.(bells := m.bells + 1)
    else if !outer.recipient then m
    else m.(minted := m.minted + 1, session := Some(m.minted), notices := m.notices + [m.minted], audits := m.audits + 1)
  }

  lemma MoneyAlone(w: Rows, run: Run) returns (n: nat)
    requires run.pc.Payment? && run.snap.session == w.money.session && run.snap.recipient == w.outer.recipient
    ensures var m := Steps(Moved(w, run), n);
      m.run.pc.Project? && m.run.job == run.job && m.run.snap == run.snap &&
      m.rows == w.(money := MoneyAfter(w.outer, w.money, run.job))
  {
    var m1 := Step(w, run);
    var m2 := Step(m1.rows, m1.run);
    if m1.run.pc.Project? {
      n := 1;
      assert Steps(Moved(w, run), 1) == Steps(m1, 0);
    } else if m1.run.pc.Bell? {
      n := 2;
      assert Steps(Moved(w, run), 2) == Steps(m1, 1) == Steps(m2, 0);
    } else {
      var m3 := Step(m2.rows, m2.run);
      var m4 := Step(m3.rows, m3.run);
      n := 4;
      assert Steps(Moved(w, run), 4) == Steps(m1, 3) == Steps(m2, 2);
      assert Steps(m2, 2) == Steps(m3, 1) == Steps(m4, 0);
    }
  }

  /** Whether the work can be started: no client to start it for, a project already there, or a client on the row. */
  predicate CanStartWork(w: Rows, job: Job) {
    job.client.None? || w.work.projects != [] || w.facts.proposalClient.Some?
  }

  lemma AdoptAlone(w: Rows, run: Run)
    requires run.pc.Adopt? && run.snap.placeholder == w.facts.placeholder
    ensures var m := Steps(Moved(w, run), 2);
      m.run == run.(pc := Done) && m.rows == w.(work := m.rows.work, done := true) &&
      m.rows.work.projects == w.work.projects && (w.facts.placeholder ==> TasksPlaced(m.rows.work))
  {
    var m1 := Step(w, run);
    var m2 := Step(m1.rows, m1.run);
    assert Steps(Moved(w, run), 2) == Steps(m1, 1) == Steps(m2, 0);
  }

  /** How the work ends for a run nothing interrupts. */
  predicate WorkEnds(w: Rows, m: Moved) {
    var job := m.run.job;
    m.rows == w.(work := m.rows.work, done := m.rows.done) &&
    if CanStartWork(w, job) then
      m.run.pc.Done? && m.rows.done && (job.client.Some? ==> m.rows.work.projects != []) &&
      (w.work.projects != [] ==> m.rows.work.projects == w.work.projects) &&
      (job.client.Some? && w.facts.placeholder ==> TasksPlaced(m.rows.work))
    else m.run.pc.Died? && m.rows == w
  }

  lemma WorkAlone(w: Rows, run: Run) returns (n: nat)
    requires run.pc.Project? && run.snap.placeholder == w.facts.placeholder
    ensures Steps(Moved(w, run), n).run.job == run.job && WorkEnds(w, Steps(Moved(w, run), n))
  {
    var m0, m1 := Moved(w, run), Step(w, run);
    assert Steps(m0, 1) == Steps(m1, 0);
    var m2 := Step(m1.rows, m1.run);
    assert Steps(m1, 1) == Steps(m2, 0);
    if run.job.client.None? {
      n := 2;
    } else if w.work.projects != [] {
      AdoptAlone(m1.rows, m1.run);
      n := 3;
    } else if w.facts.proposalClient.None? {
      n := 2;
    } else {
      var m3 := Step(m2.rows, m2.run);
      var m4 := Step(m3.rows, m3.run);
      assert Steps(m2, 4) == Steps(m3, 3) == Steps(m4, 2);
      AdoptAlone(m4.rows, m4.run);
      n := 6;
      StepsAdd(m0, 1, 5);
      StepsAdd(m1, 1, 4);
      assert Steps(m0, 6) == Steps(m1, 5) == Steps(m2, 4);
    }
  }

  /**
   * From any state the job can be left in, crashes and all, one run that nothing interrupts finishes the job:
   * exactly when the work can be started at all. It files a signed copy if there is none, opens one payment if
   * one is due and none was opened, adopts what is already there, and changes nothing that was stamped.
   */
  lemma OneCleanRunFinishes(w: World, r: nat, job: Job) returns (n: nat)
    requires Inv(w) && r !in w.runs && w.rows.facts.acceptance
    ensures var end := Exec(w, [Start(r, job)] + Nexts(r, n));
      r in end.runs && (end.runs[r].pc.Done? <==> CanStartWork(w.rows, job)) &&
      (CanStartWork(w.rows, job) ==> end.rows.done && (job.client.Some? ==> |end.rows.work.projects| == 1)) &&
      (CanStartWork(w.rows, job) && job.client.Some? && w.rows.facts.placeholder ==> TasksPlaced(end.rows.work)) &&
      (if w.rows.paper.documentId.Some? then end.rows.paper == w.rows.paper
       else end.rows.paper.documentId.Some? && end.rows.paper.audits == w.rows.paper.audits + [end.rows.paper.documentId.value]) &&
      end.rows.money == MoneyAfter(w.rows.outer, w.rows.money, job)
  {
    var w1 := Apply(w, Start(r, job));
    var run := w1.runs[r];
    var m0 := Moved(w.rows, run);
    var n1 := PaperAlone(w.rows, run);
    var m1 := Steps(m0, n1);
    var n2 := MoneyAlone(m1.rows, m1.run);
    var m2 := Steps(m1, n2);
    var n3 := WorkAlone(m2.rows, m2.run);
    StepsAdd(m0, n1, n2);
    StepsAdd(m0, n1 + n2, n3);
    n := n1 + n2 + n3;
    var m3 := Steps(m0, n);
    assert m3 == Steps(m2, n3);
    assert ([Start(r, job)] + Nexts(r, n))[1..] == Nexts(r, n);
    ExecNexts(w1, r, n);
    ExecKeepsInv(w, [Start(r, job)] + Nexts(r, n));
  }

  // ---------------------------------------------------------------- where the code and its comments part

  lemma FreshRun(w: World) returns (r: nat)
    ensures r !in w.runs
  {
    r := FreshFor(w.runs.Keys);
  }

  lemma {:induction false} FreshFor(used: set<nat>) returns (r: nat)
    ensures forall x :: x in used ==> x < r
    decreases used
  {
    if used == {} {
      r := 0;
    } else {
      var x :| x in used;
      r := FreshFor(used - {x});
      r := if r > x then r else x + 1;
      assert forall y :: y in used ==> y == x || y in used - {x};
    }
  }

  /** One uninterrupted re-run. */
  lemma BellRingsAgain(w: World, job: Job) returns (events: seq<Event>)
    requires Inv(w) && w.rows.facts.acceptance && w.rows.done
    requires w.rows.money.session.None? && !Decision(w.rows.outer, job).Checkout?
    ensures var end := Exec(w, events);
      Inv(end) && end.rows.facts.acceptance && end.rows.done && end.rows.outer == w.rows.outer &&
      end.rows.money == w.rows.money.(bells := w.rows.money.bells + 1)
    ensures |events| >= 1 && forall e :: e in events ==> e.Next? || e.Start?
  {
    var r := FreshRun(w);
    var n := OneCleanRunFinishes(w, r, job);
    events := [Start(r, job)] + Nexts(r, n);
    ExecKeepsInv(w, events);
    ExecPreserves(w, events);
    RerunIsFrozen(r, job, n);
    OuterIsKept(w, events);
  }

  /**
   * And so a finished proposal whose payment is not a checkout rings the owner's bell again on every re-run, as
   * often as you like: the one part of the job no stamp guards.
   */
  lemma {:induction false} BellRingsOnEveryRerun(w: World, job: Job, times: nat) returns (events: seq<Event>)
    requires Inv(w) && w.rows.facts.acceptance && w.rows.done
    requires w.rows.money.session.None? && !Decision(w.rows.outer, job).Checkout?
    ensures var end := Exec(w, events);
      end.rows.money == w.rows.money.(bells := w.rows.money.bells + times) && end.rows.done
    ensures |events| >= times && forall e :: e in events ==> e.Next? || e.Start?
    decreases times
  {
    if times == 0 {
      events := [];
    } else {
      var rerun := BellRingsAgain(w, job);
      var more := BellRingsOnEveryRerun(Exec(w, rerun), job, times - 1);
      events := rerun + more;
      ExecAppend(w, rerun, more);
    }
  }

  lemma {:induction false} RerunIsFrozen(r: nat, job: Job, n: nat)
    ensures forall e :: e in [Start(r, job)] + Nexts(r, n) ==> e.Next? || e.Start?
    decreases n
  {
    if n > 0 { RerunIsFrozen(r, job, n - 1); }
  }

  lemma {:induction false} OuterIsKept(w: World, events: seq<Event>)
    requires forall e :: e in events ==> e.Next? || e.Start?
    ensures Exec(w, events).rows.outer == w.rows.outer
    decreases |events|
  {
    if events != [] {
      assert events[0] in events;
      OuterIsKept(Apply(w, events[0]), events[1..]);
    }
  }

  // ---------------------------------------------------------------- when a run dies

  /** The project step cannot go on: no client on the proposal, or a project where the seed had read none. */
  predicate Stuck(w: Rows, run: Run) {
    (run.pc.SeedProject? && w.facts.proposalClient.None?) || (run.pc.InsertProject? && w.work.projects != [])
  }

  lemma StepDiesExactly(w: Rows, run: Run)
    requires RunInv(w, run) && !run.pc.Died?
    ensures Step(w, run).run.pc.Died? <==> Stuck(w, run)
  {
  }

  ghost predicate StuckAt(w: World, events: seq<Event>, r: nat, k: nat)
    requires k < |events|
  {
    events[k] == Next(r) && r in At(w, events, k).runs && Stuck(At(w, events, k).rows, At(w, events, k).runs[r])
  }

  lemma OthersLeaveRun(w: World, e: Event, r: nat)
    requires r in w.runs && e != Next(r) && e != Crash(r)
    ensures r in Apply(w, e).runs && Apply(w, e).runs[r] == w.runs[r]
  {
  }

  lemma {:induction false} DeathsHaveCauses(w: World, events: seq<Event>, r: nat, n: nat)
    requires Initial(w) && n <= |events| && Crash(r) !in events && r in At(w, events, n).runs
    ensures At(w, events, n).runs[r].pc.Died? <==> exists k: nat :: k < n && StuckAt(w, events, r, k)
    decreases n
  {
    if n > 0 {
      var mid, e := At(w, events, n - 1), events[n - 1];
      AtNext(w, events, n - 1);
      if r in mid.runs {
        DeathsHaveCauses(w, events, r, n - 1);
        ExecKeepsInv(w, events[..n - 1]);
        if e == Next(r) {
          if !mid.runs[r].pc.Died? { StepDiesExactly(mid.rows, mid.runs[r]); }
          assert StuckAt(w, events, r, n - 1) <==> Stuck(mid.rows, mid.runs[r]);
        } else {
          OthersLeaveRun(mid, e, r);
        }
      } else {
        NotYetStarted(w, events, r, n - 1);
      }
    }
  }

  lemma {:induction false} NotYetStarted(w: World, events: seq<Event>, r: nat, n: nat)
    requires n <= |events| && r !in At(w, events, n).runs
    ensures forall k: nat :: k <= n ==> r !in At(w, events, k).runs
    decreases n
  {
    if n > 0 {
      AtNext(w, events, n - 1);
      NotYetStarted(w, events, r, n - 1);
    }
  }

  /** The run's last empty read of the project, and after it another run's insert. */
  ghost predicate Overtaken(w: World, events: seq<Event>, r: nat, i: nat, j: nat, s: nat)
    requires i < j < |events|
  {
    events[i] == Next(r) && r in At(w, events, i).runs && At(w, events, i).runs[r].pc.SeedProject? &&
    At(w, events, i).rows.work.projects == [] &&
    s != r && events[j] == Next(s) && s in At(w, events, j).runs && At(w, events, j).runs[s].pc.InsertProject? &&
    At(w, events, j).rows.work.projects == []
  }

  /** A run about to insert read no project, and has stood there since. */
  lemma {:induction false} EmptyRead(w: World, events: seq<Event>, r: nat, k: nat) returns (i: nat)
    requires Initial(w) && k <= |events| && r in At(w, events, k).runs && At(w, events, k).runs[r].pc.InsertProject?
    ensures i < k && events[i] == Next(r) && r in At(w, events, i).runs && At(w, events, i).runs[r].pc.SeedProject?
    ensures At(w, events, i).rows.work.projects == [] && At(w, events, i + 1).rows.work.projects == []
    ensures forall m: nat :: i < m <= k ==> r in At(w, events, m).runs && At(w, events, m).runs[r].pc.InsertProject?
    decreases k
  {
    var mid, e := At(w, events, k - 1), events[k - 1];
    AtNext(w, events, k - 1);
    if r in mid.runs && mid.runs[r].pc.InsertProject? {
      i := EmptyRead(w, events, r, k - 1);
    } else {
      i := k - 1;
    }
  }

  /** Projects come from inserts: somewhere between none and some, a run inserted the first. */
  lemma {:induction false} FirstInsert(w: World, events: seq<Event>, i: nat, k: nat) returns (j: nat, s: nat)
    requires i <= k <= |events| && At(w, events, i).rows.work.projects == [] && At(w, events, k).rows.work.projects != []
    ensures i <= j < k && events[j] == Next(s) && s in At(w, events, j).runs && At(w, events, j).runs[s].pc.InsertProject?
    ensures At(w, events, j).rows.work.projects == []
    ensures s in At(w, events, j + 1).runs && At(w, events, j + 1).runs[s].pc.Record?
    decreases k
  {
    AtNext(w, events, k - 1);
    if At(w, events, k - 1).rows.work.projects == [] {
      j, s := k - 1, events[k - 1].run;
    } else {
      j, s := FirstInsert(w, events, i, k - 1);
    }
  }

  /**
   * Over every history, a run that nobody crashed is dead exactly when its project seed found no client on the proposal,
   * or it went to insert after another run had inserted behind its last, empty, read.
   */
  lemma RunDiesExactly(w: World, events: seq<Event>, r: nat)
    requires Initial(w) && Crash(r) !in events && r in Exec(w, events).runs
    ensures Exec(w, events).runs[r].pc.Died? <==>
      exists k: nat :: k < |events| && StuckAt(w, events, r, k) &&
        (At(w, events, k).runs[r].pc.SeedProject? || exists i: nat, j: nat, s: nat :: i < j < k && Overtaken(w, events, r, i, j, s))
  {
    assert events[..|events|] == events;
    DeathsHaveCauses(w, events, r, |events|);
    if Exec(w, events).runs[r].pc.Died? {
      var k: nat :| k < |events| && StuckAt(w, events, r, k);
      if At(w, events, k).runs[r].pc.InsertProject? {
        var i := EmptyRead(w, events, r, k);
        var j, s := FirstInsert(w, events, i + 1, k);
        assert s != r;
        assert Overtaken(w, events, r, i, j, s);
      }
    }
  }

  /**
   * And the work does not die with it: while the proposal has a client, a run that died of itself leaves the one project
   * behind, and any later run that is left alone finishes the job on it.
   */
  lemma LaterRunFinishes(w: World, events: seq<Event>, r: nat, later: nat, job: Job) returns (n: nat)
    requires Initial(w) && Crash(r) !in events && w.rows.facts.proposalClient.Some?
    requires r in Exec(w, events).runs && Exec(w, events).runs[r].pc.Died? && later !in Exec(w, events).runs
    ensures var end := Exec(w, events + ([Start(later, job)] + Nexts(later, n)));
      later in end.runs && end.runs[later].pc.Done? && end.rows.done &&
      |Exec(w, events).rows.work.projects| == 1 && end.rows.work.projects == Exec(w, events).rows.work.projects
  {
    assert events[..|events|] == events;
    DeathsHaveCauses(w, events, r, |events|);
    var k: nat :| k < |events| && StuckAt(w, events, r, k);
    ExecKeepsInv(w, events[..k]);
    ExecPreserves(w, events[..k]);
    assert events == events[..k] + events[k..];
    ExecAppend(w, events[..k], events[k..]);
    ExecPreserves(At(w, events, k), events[k..]);
    ExecKeepsInv(w, events);
    assert At(w, events, k).rows.facts.acceptance;
    n := OneCleanRunFinishes(Exec(w, events), later, job);
    var rerun := [Start(later, job)] + Nexts(later, n);
    ExecAppend(w, events, rerun);
    ExecPreserves(Exec(w, events), rerun);
  }

  // ---------------------------------------------------------------- the race, for any payload

  /** From the payment on, whatever was read before, the run comes to the project with nothing changed but the money. */
  lemma PaymentIsPassed(w: Rows, run: Run) returns (n: nat)
    requires run.pc.Payment?
    ensures var m := Steps(Moved(w, run), n);
      m.run.pc.Project? && m.run.job == run.job && m.run.snap == run.snap && m.rows == w.(money := m.rows.money)
  {
    var m1 := Step(w, run);
    var m2 := Step(m1.rows, m1.run);
    if m1.run.pc.Project? {
      n := 1;
      assert Steps(Moved(w, run), 1) == Steps(m1, 0);
    } else if m1.run.pc.Bell? {
      n := 2;
      assert Steps(Moved(w, run), 2) == Steps(m1, 1) == Steps(m2, 0);
    } else {
      var m3 := Step(m2.rows, m2.run);
      var m4 := Step(m3.rows, m3.run);
      n := if m3.run.pc.Project? then 3 else 4;
      assert Steps(Moved(w, run), 4) == Steps(m1, 3) == Steps(m2, 2);
      assert Steps(Moved(w, run), 3) == Steps(m1, 2) == Steps(m2, 1);
      assert Steps(m2, 2) == Steps(m3, 1) == Steps(m4, 0) && Steps(m2, 1) == Steps(m3, 0);
    }
  }

  lemma StepsToInsert(w: Rows, run: Run) returns (n: nat)
    requires run.pc.ReadAcceptance? && w.facts.acceptance && w.facts.proposalClient.Some? && run.job.client.Some?
    requires w.work.projects == []
    ensures var m := Steps(Moved(w, run), n);
      m.run.pc.InsertProject? && m.run.job == run.job && m.rows.work == w.work && m.rows.facts == w.facts
  {
    var n1 := PaperAlone(w, run);
    var m1 := Steps(Moved(w, run), n1);
    var n2 := PaymentIsPassed(m1.rows, m1.run);
    var m2 := Steps(m1, n2);
    StepsAdd(Moved(w, run), n1, n2);
    var m3 := Step(m2.rows, m2.run);
    var m4 := Step(m3.rows, m3.run);
    assert Steps(m2, 2) == Steps(m3, 1) == Steps(m4, 0);
    StepsAdd(Moved(w, run), n1 + n2, 2);
    n := n1 + n2 + 2;
  }

  /** Two runs started together, each taken to the point of inserting a project neither has found. */
  lemma BothReachTheInsert(w: World, job: Job) returns (events: seq<Event>)
    requires Initial(w) && w.rows.facts.acceptance && w.rows.facts.proposalClient.Some? && job.client.Some?
    ensures var end := Exec(w, events);
      0 in end.runs && 1 in end.runs && end.runs[0].pc.InsertProject? && end.runs[1].pc.InsertProject? &&
      end.rows.work.projects == []
    ensures Crash(1) !in events
  {
    var w1 := Apply(w, Start(0, job));
    var w2 := Apply(w1, Start(1, job));
    var start := [Start(0, job), Start(1, job)];
    assert start[1..] == [Start(1, job)] && [Start(1, job)][1..] == [];
    assert Exec(w, start) == Exec(w1, start[1..]) == Exec(w2, []) == w2;
    var a := StepsToInsert(w2.rows, w2.runs[0]);
    ExecNexts(w2, 0, a);
    var w3 := Exec(w2, Nexts(0, a));
    var b := StepsToInsert(w3.rows, w3.runs[1]);
    ExecNexts(w3, 1, b);
    events := start + (Nexts(0, a) + Nexts(1, b));
    ExecAppend(w, start, Nexts(0, a) + Nexts(1, b));
    ExecAppend(w2, Nexts(0, a), Nexts(1, b));
    NextsAreNexts(0, a);
    NextsAreNexts(1, b);
  }

  /**
   * The race can be lost on any payload with a client: two runs both find no project and both insert, and the loser is
   * not answered with a refusal it can adopt on, it dies on the index.
   */
  lemma LoserOfTheInsertDies(w: World, job: Job) returns (events: seq<Event>)
    requires Initial(w) && w.rows.facts.acceptance && w.rows.facts.proposalClient.Some? && job.client.Some?
    ensures var end := Exec(w, events);
      1 in end.runs && end.runs[1].pc.Died? && |end.rows.work.projects| == 1 && Crash(1) !in events
  {
    var both := BothReachTheInsert(w, job);
    var mid := Exec(w, both);
    var last := [Next(0), Next(1)];
    assert last[1..] == [Next(1)] && [Next(1)][1..] == [];
    var won := Apply(mid, Next(0));
    assert Exec(mid, last) == Exec(won, last[1..]) == Exec(Apply(won, Next(1)), []);
    events := both + last;
    ExecAppend(w, both, last);
  }

  lemma {:induction false} NextsAreNexts(r: nat, n: nat)
    ensures forall e :: e in Nexts(r, n) ==> e == Next(r)
    decreases n
  {
    if n > 0 { NextsAreNexts(r, n - 1); }
  }
}
