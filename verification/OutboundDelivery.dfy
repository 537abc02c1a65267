/**
 * The delivery insurance under outbound messages: the every-minute sweep (`outbound-sweep.ts`), the lossy web
 * enqueue it repairs (`queue.ts`) and the claim, send and release it races with (`send-queued-message.ts`).
 * Times are milliseconds.
 */
module OutboundDelivery {

  import opened Wrappers

  const UNDELIVERED_AFTER_MS := 60_000
  const GIVE_UP_AFTER_MS := 24 * 60 * 60_000
  const CLAIM_TTL_MS := 5 * 60_000
  const MAX_SEND_ATTEMPTS := 5

  datatype Status = Queued | Sent | Failed

  /** `marker` is the give-up stamp; with `claimedAt` and `attempts` it lives in the message's metadata. */
  datatype Message = Message(status: Status, createdAt: int, deleted: bool, claimedAt: Option<int>, attempts: nat, marker: bool)

  // ---------------------------------------------------------------- the queries

  /** Free, or the lease has expired by the database's clock. */
  predicate Unclaimed(m: Message, clock: int) {
    m.claimedAt.None? || m.claimedAt.value < clock - CLAIM_TTL_MS
  }

  predicate Undelivered(m: Message, now: int, clock: int) {
    m.status.Queued? && !m.deleted && m.createdAt < now - UNDELIVERED_AFTER_MS && m.createdAt > now - GIVE_UP_AFTER_MS &&
    Unclaimed(m, clock)
  }

  predicate GivenUp(m: Message, now: int, clock: int) {
    m.status.Queued? && !m.deleted && m.createdAt <= now - GIVE_UP_AFTER_MS && Unclaimed(m, clock) && !m.marker
  }

  /** Queued, unleased, undeleted and older than a minute: a message somebody has to do something about. */
  predicate Overdue(m: Message, now: int) {
    m.status.Queued? && !m.deleted && Unclaimed(m, now) && m.createdAt < now - UNDELIVERED_AFTER_MS
  }

  /** The two queries and the marker split what is overdue: nothing is dropped between them, nothing taken twice. */
  lemma QueriesPartition(m: Message, now: int)
    ensures Overdue(m, now) <==>
      Undelivered(m, now, now) || GivenUp(m, now, now) || (Overdue(m, now) && m.createdAt <= now - GIVE_UP_AFTER_MS && m.marker)
    ensures !(Undelivered(m, now, now) && GivenUp(m, now, now))
    ensures m.marker && m.createdAt <= now - GIVE_UP_AFTER_MS ==> !Undelivered(m, now, now) && !GivenUp(m, now, now)
  {
  }

  // ---------------------------------------------------------------- one tick over the whole table

  type Id = nat

  /** A send under a singleton key: nothing happens while a job with the key is still waiting. */
  function SendKeyed(waiting: multiset<Id>, id: Id): multiset<Id> {
    if id in waiting then waiting else waiting + multiset{id}
  }

  datatype Summary = Summary(processed: nat, failed: nat)

  /** The query for the messages to announce. */
  function GivenUpIds(messages: map<Id, Message>, now: int): set<Id> {
    set id | id in messages && GivenUp(messages[id], now, now)
  }

  /** The query for the messages to send again. */
  function UndeliveredIds(messages: map<Id, Message>, now: int): set<Id> {
    set id | id in messages && Undelivered(messages[id], now, now)
  }

  /** Every message of `sent` has one job waiting, unless its send failed; the queue is otherwise as it was. */
  ghost predicate Requeued(before: multiset<Id>, after: multiset<Id>, sent: set<Id>, sendFails: set<Id>) {
    forall id :: after[id] == (if id in sent && id !in sendFails then 1 else before[id])
  }

  /** The messages of `told` carry the marker, but for those whose marker write was lost; the rest are as they were. */
  ghost predicate Stamped(before: map<Id, Message>, after: map<Id, Message>, told: set<Id>, markFails: set<Id>) {
    after.Keys == before.Keys &&
    forall id :: id in after ==> after[id] == (if id in told && id !in markFails then before[id].(marker := true) else before[id])
  }

  ghost predicate Rung(before: multiset<Id>, after: multiset<Id>, told: set<Id>) {
    forall id :: after[id] == before[id] + (if id in told then 1 else 0)
  }

  class Outbox {
    var messages: map<Id, Message>
    var waiting: multiset<Id>
    var alerts: multiset<Id>

    /** At most one job waits per message. */
    ghost predicate Valid()
      reads this
    {
      forall id :: waiting[id] <= 1
    }

    constructor ()
      ensures Valid() && messages == map[] && waiting == multiset{} && alerts == multiset{}
    {
      messages, waiting, alerts := map[], multiset{}, multiset{};
    }

    /** A reply is committed, then its job is sent; a send that fails is only reported. */
    method QueueMessage(id: Id, now: int, queueUp: bool)
      requires Valid() && id !in messages
      modifies this`messages, this`waiting
      ensures Valid() && messages == old(messages)[id := Message(Queued, now, false, None, 0, false)]
      ensures waiting == if queueUp then SendKeyed(old(waiting), id) else old(waiting)
    {
      messages := messages[id := Message(Queued, now, false, None, 0, false)];
      if queueUp {
        if id !in waiting { waiting := waiting + multiset{id}; }
      }
    }

    /** The alert, then the marker that keeps it from being raised again. */
    method Announce(id: Id, markFails: set<Id>) returns (marked: bool)
      requires id in messages
      modifies this`messages, this`alerts
      ensures marked == (id !in markFails) && alerts == old(alerts) + multiset{id}
      ensures messages == if marked then old(messages)[id := old(messages[id]).(marker := true)] else old(messages)
    {
      alerts := alerts + multiset{id};
      if id in markFails { return false; }
      messages := messages[id := messages[id].(marker := true)];
      return true;
    }

    /** Announces every message past the far edge; a marker write that fails leaves its message to the next tick. */
    method NotifyGivenUpMessages(now: int, markFails: set<Id>) returns (summary: Summary)
      modifies this`messages, this`alerts
      ensures summary.failed == |GivenUpIds(old(messages), now) * markFails|
      ensures summary.processed == |GivenUpIds(old(messages), now) - markFails|
      ensures Stamped(old(messages), messages, GivenUpIds(old(messages), now), markFails)
      ensures Rung(old(alerts), alerts, GivenUpIds(old(messages), now))
    {
      var givenUp := GivenUpIds(messages, now);
      var rest := givenUp;
      ghost var told: set<Id>, start, rung := {}, messages, alerts;
      summary := Summary(0, 0);
      while rest != {}
        invariant GoneThrough(givenUp, rest, told, markFails, summary)
        invariant Stamped(start, messages, told, markFails) && Rung(rung, alerts, told)
        decreases |rest|
      {
        var id :| id in rest;
        OneFewerLeft(givenUp, rest, told, markFails, summary, id);
        OneMoreTold(start, messages, rung, alerts, told, markFails, id);
        var marked := Announce(id, markFails);
        summary := Counted(summary, marked);
        rest, told := rest - {id}, told + {id};
      }
      assert told == givenUp;
    }

    /**
     * One tick. Whatever enqueues were lost before it and whatever becomes of the alerts, every message between
     * the two edges has exactly one job waiting afterwards unless its own send failed; nobody else's queue moves.
     */
    method RunOutboundSweep(now: int, markFails: set<Id>, sendFails: set<Id>) returns (summary: Summary)
      requires Valid()
      modifies this
      ensures Valid()
      ensures Stamped(old(messages), messages, GivenUpIds(old(messages), now), markFails)
      ensures Rung(old(alerts), alerts, GivenUpIds(old(messages), now))
      ensures Requeued(old(waiting), waiting, UndeliveredIds(old(messages), now), sendFails)
      ensures summary.failed == |UndeliveredIds(old(messages), now) * sendFails|
      ensures summary.processed == |UndeliveredIds(old(messages), now) - sendFails|
    {
      var alerted := NotifyGivenUpMessages(now, markFails);
      var pending := UndeliveredIds(messages, now);
      SameUndelivered(old(messages), messages, now, markFails);
      summary := Requeue(pending, sendFails);
    }

    /** The loop over what is to be sent again. */
    method Requeue(pending: set<Id>, sendFails: set<Id>) returns (summary: Summary)
      requires Valid()
      modifies this`waiting
      ensures Valid() && Requeued(old(waiting), waiting, pending, sendFails)
      ensures summary.failed == |pending * sendFails| && summary.processed == |pending - sendFails|
    {
      var rest := pending;
      ghost var sent: set<Id>, before := {}, waiting;
      summary := Summary(0, 0);
      while rest != {}
        invariant GoneThrough(pending, rest, sent, sendFails, summary) && Requeued(before, waiting, sent, sendFails)
        decreases |rest|
      {
        var id :| id in rest;
        OneFewerLeft(pending, rest, sent, sendFails, summary, id);
        OneMoreSent(before, waiting, sent, sendFails, id);
        if id !in sendFails { waiting := SendKeyed(waiting, id); }
        summary := Counted(summary, id !in sendFails);
        rest, sent := rest - {id}, sent + {id};
      }
      assert sent == pending;
    }
  }

  lemma OneMoreSent(before: multiset<Id>, waiting: multiset<Id>, sent: set<Id>, sendFails: set<Id>, id: Id)
    requires Requeued(before, waiting, sent, sendFails) && id !in sent && before[id] <= 1
    ensures Requeued(before, if id in sendFails then waiting else SendKeyed(waiting, id), sent + {id}, sendFails)
  {
  }

  /** Announcing takes nothing out of the window and puts nothing into it. */
  lemma SameUndelivered(before: map<Id, Message>, after: map<Id, Message>, now: int, markFails: set<Id>)
    requires Stamped(before, after, GivenUpIds(before, now), markFails)
    ensures UndeliveredIds(after, now) == UndeliveredIds(before, now)
  {
  }

  /** Where the loop has got to: `told` of `ids` are done, `rest` are left, and the counts are of those done. */
  ghost predicate GoneThrough(ids: set<Id>, rest: set<Id>, told: set<Id>, fails: set<Id>, s: Summary) {
    told == ids - rest && rest <= ids && s.failed == |told * fails| && s.processed == |told - fails|
  }

  function Counted(s: Summary, ok: bool): Summary {
    if ok then s.(processed := s.processed + 1) else s.(failed := s.failed + 1)
  }

  lemma OneMoreIn(told: set<Id>, fails: set<Id>, id: Id)
    requires id !in told && id in fails
    ensures |(told + {id}) * fails| == |told * fails| + 1 && |(told + {id}) - fails| == |told - fails|
  {
    assert (told + {id}) * fails == told * fails + {id};
    assert (told + {id}) - fails == told - fails;
  }

  lemma OneMoreOut(told: set<Id>, fails: set<Id>, id: Id)
    requires id !in told && id !in fails
    ensures |(told + {id}) * fails| == |told * fails| && |(told + {id}) - fails| == |told - fails| + 1
  {
    assert (told + {id}) * fails == told * fails;
    assert (told + {id}) - fails == (told - fails) + {id};
  }

  lemma OneFewerLeft(ids: set<Id>, rest: set<Id>, told: set<Id>, fails: set<Id>, s: Summary, id: Id)
    requires GoneThrough(ids, rest, told, fails, s) && id in rest
    ensures GoneThrough(ids, rest - {id}, told + {id}, fails, Counted(s, id !in fails))
    ensures |rest - {id}| < |rest| && id in ids && id !in told
  {
    if id in fails { OneMoreIn(told, fails, id); } else { OneMoreOut(told, fails, id); }
    assert told + {id} == ids - (rest - {id});
  }

  lemma OneMoreTold(before: map<Id, Message>, after: map<Id, Message>, rung: multiset<Id>, alerts: multiset<Id>, told: set<Id>,
      markFails: set<Id>, id: Id)
    requires Stamped(before, after, told, markFails) && Rung(rung, alerts, told) && id in before && id !in told
    ensures Rung(rung, alerts + multiset{id}, told + {id})
    ensures Stamped(before, if id in markFails then after else after[id := after[id].(marker := true)], told + {id}, markFails)
  {
  }

  // ---------------------------------------------------------------- one message, everything interleaved

  /**
   * A send in flight: what its claim read, to be written back whole, and whether it has written its outcome yet. The
   * audit that follows the write is inside the same `try`, so a send that has recorded can still throw.
   */
  datatype Send = Send(at: int, attempts: nat, marker: bool, recorded: bool)

  /** Where the organisation's one sweep has got to with this message, and the time it started at. */
  datatype Stage = Idle | ToNotify(now: int) | ToMark(now: int) | ToFind(now: int) | ToSend(now: int)

  datatype Life = Life(
    msg: Message, clock: int, sms: bool, waiting: nat, sends: seq<Send>, stage: Stage,
    // What has happened to it so far: alerts raised, marker writes lost, marker writes that settled it and marker
    // writes that did not, sends recorded and refused, and re-enqueues after an alert.
    alerts: nat, lost: nat, clean: nat, overlapped: nat, deliveries: nat, refusals: nat, lateRequeues: nat)

  datatype How = Returns | Throws | Dies

  datatype Event =
    | Pass(ms: nat)
    | Enqueue(ok: bool)
    | Fetch
    | Claim
    | Record(send: nat, delivered: bool)
    | End(send: nat, how: How)
    | Delete
    | SweepStart
    | SweepNext(ok: bool)
    | SweepDies

  function Remove(sends: seq<Send>, i: nat): seq<Send>
    requires i < |sends|
  {
    sends[..i] + sends[i + 1..]
  }

  function Wait(waiting: nat): nat { if waiting == 0 then 1 else waiting }

  /** The outcome, and with it the whole metadata back from the claim's own reading of it. */
  function Recorded(m: Message, send: Send, delivered: bool): Message {
    m.(status := if delivered then Sent else Queued, claimedAt := None, attempts := send.attempts, marker := send.marker)
  }

  /** The catch block: whatever the row says by now, it is queued again or failed. */
  function GivenBack(m: Message, send: Send): Message {
    m.(status := if send.attempts + 1 >= MAX_SEND_ATTEMPTS then Failed else Queued, claimedAt := None,
       attempts := send.attempts + 1, marker := send.marker)
  }

  function SweepStep(l: Life, ok: bool): Life {
    match l.stage
    case Idle => l
    case ToNotify(now) => l.(alerts := l.alerts + 1, stage := ToMark(now))
    case ToMark(now) =>
      var marked := l.(msg := l.msg.(marker := true), stage := ToFind(now));
      if !ok then l.(lost := l.lost + 1, stage := ToFind(now))
      else if CanAlert(marked) then marked.(overlapped := l.overlapped + 1)
      else marked.(clean := l.clean + 1)
    case ToFind(now) => l.(stage := if Undelivered(l.msg, now, l.clock) then ToSend(now) else Idle)
    case ToSend(now) =>
      l.(waiting := if ok then Wait(l.waiting) else l.waiting, stage := Idle,
         lateRequeues := l.lateRequeues + if l.alerts > 0 then 1 else 0)
  }

  function Apply(l: Life, e: Event): Life {
    match e
    case Pass(ms) => l.(clock := l.clock + ms)
    case Enqueue(ok) => if ok then l.(waiting := Wait(l.waiting)) else l
    case Fetch => if l.waiting > 0 then l.(waiting := l.waiting - 1) else l
    case Claim =>
      if l.msg.status.Queued? && Unclaimed(l.msg, l.clock) then
        l.(msg := l.msg.(claimedAt := Some(l.clock)), sends := l.sends + [Send(l.clock, l.msg.attempts, l.msg.marker, false)])
      else l
    case Record(i, delivered) =>
      // Only a text message can come back undelivered without a throw.
      if i < |l.sends| && !l.sends[i].recorded && (delivered || l.sms) then
        l.(msg := Recorded(l.msg, l.sends[i], delivered), sends := l.sends[i := l.sends[i].(recorded := true)],
           deliveries := l.deliveries + (if delivered then 1 else 0))
      else l
    case End(i, how) => if i < |l.sends| then Ended(l, i, how) else l
    case Delete => l.(msg := l.msg.(deleted := true))
    case SweepStart =>
      if l.stage.Idle? then
        l.(stage := if GivenUp(l.msg, l.clock, l.clock) then ToNotify(l.clock) else ToFind(l.clock))
      else l
    case SweepNext(ok) => SweepStep(l, ok)
    case SweepDies =>
      l.(stage := Idle, lost := l.lost + if l.stage.ToMark? then 1 else 0)
  }

  /** A send returns only after it has recorded; it can throw before or after, and die at any time. */
  function Ended(l: Life, i: nat, how: How): Life
    requires i < |l.sends|
  {
    var gone := l.(sends := Remove(l.sends, i));
    match how
    case Returns => if l.sends[i].recorded then gone else l
    case Throws => gone.(msg := GivenBack(l.msg, l.sends[i]), refusals := l.refusals + 1)
    case Dies => gone
  }

  function Exec(l: Life, events: seq<Event>): Life
    decreases |events|
  {
    if events == [] then l else Exec(Apply(l, events[0]), events[1..])
  }

  predicate Fresh(l: Life) {
    l.msg == Message(Queued, l.clock, false, None, 0, false) && l.waiting <= 1 && l.sends == [] && l.stage.Idle? &&
    l.alerts == 0 && l.lost == 0 && l.clean == 0 && l.overlapped == 0 && l.deliveries == 0 && l.refusals == 0 && l.lateRequeues == 0
  }

  /** One event of a run, with the rest still to come. */
  lemma Unfold(l: Life, e: Event, rest: seq<Event>) returns (next: Life)
    ensures next == Apply(l, e) && Exec(l, [e] + rest) == Exec(next, rest)
    ensures Prompt(l, [e] + rest) <==> WithinLease(l) && !LateThrow(l, e) && Prompt(next, rest)
    ensures AlwaysWithinLease(l, [e] + rest) <==> WithinLease(l) && AlwaysWithinLease(next, rest)
  {
    next := Apply(l, e);
    assert ([e] + rest)[1..] == rest;
  }

  // ---------------------------------------------------------------- when another alert can come

  /** The send can still put the message back in the queue: by a throw short of the last, or as a text that did not go. */
  predicate Reopens(sms: bool, send: Send) { send.attempts + 1 < MAX_SEND_ATTEMPTS || (!send.recorded && sms) }

  /** An unmarked message in the queue, or a claim in flight that read it unmarked and can put it back so. */
  predicate CanAlert(l: Life) {
    !l.msg.deleted &&
    ((l.msg.status.Queued? && !l.msg.marker) || exists s | s in l.sends :: !s.marker && Reopens(l.sms, s))
  }

  lemma RemoveKeeps(sends: seq<Send>, i: nat)
    requires i < |sends|
    ensures forall s :: s in Remove(sends, i) ==> s in sends
  {
  }

  /** Once nothing can raise an alert, nothing that happens makes it possible again. */
  lemma SettledStays(l: Life, e: Event)
    requires !CanAlert(l) && !l.stage.ToNotify? && !l.stage.ToMark?
    ensures var l' := Apply(l, e); !CanAlert(l') && !l'.stage.ToNotify? && !l'.stage.ToMark? && l'.alerts == l.alerts
  {
    match e
    case Record(i, delivered) =>
      if i < |l.sends| && !l.sends[i].recorded && (delivered || l.sms) {
        var s, sends := l.sends[i], Apply(l, e).sends;
        assert l.msg.deleted || s.marker || !Reopens(l.sms, s);
        forall t | t in sends ensures l.msg.deleted || t.marker || !Reopens(l.sms, t) {
          assert t == s.(recorded := true) || t in l.sends;
        }
      }
    case End(i, how) => if i < |l.sends| { RemoveKeeps(l.sends, i); assert l.sends[i] in l.sends; }
    case Claim => assert forall s :: s in Apply(l, e).sends ==> s in l.sends || s.marker == l.msg.marker;
    case _ =>
  }

  lemma {:induction false} SettledForGood(l: Life, events: seq<Event>)
    requires !CanAlert(l) && !l.stage.ToNotify? && !l.stage.ToMark?
    ensures Exec(l, events).alerts == l.alerts
    decreases |events|
  {
    if events != [] {
      SettledStays(l, events[0]);
      SettledForGood(Apply(l, events[0]), events[1..]);
    }
  }

  /** A day on, with nothing happening, the sweep finds an unmarked message in the queue. */
  lemma QueuedIsAnnounced(l: Life) returns (events: seq<Event>)
    requires l.stage.Idle? && !l.msg.deleted && l.msg.status.Queued? && !l.msg.marker
    ensures Exec(l, events).alerts == l.alerts + 1 && Exec(l, events).lost == l.lost && SweepDies !in events
  {
    var age := if l.msg.createdAt + GIVE_UP_AFTER_MS > l.clock then l.msg.createdAt + GIVE_UP_AFTER_MS - l.clock else 0;
    var lease :=
      if l.msg.claimedAt.Some? && l.msg.claimedAt.value + CLAIM_TTL_MS + 1 > l.clock
      then l.msg.claimedAt.value + CLAIM_TTL_MS + 1 - l.clock else 0;
    events := [Pass(age + lease)] + ([SweepStart] + ([SweepNext(true)] + []));
    var l1 := Unfold(l, Pass(age + lease), [SweepStart] + ([SweepNext(true)] + []));
    assert GivenUp(l1.msg, l1.clock, l1.clock);
    var l2 := Unfold(l1, SweepStart, [SweepNext(true)] + []);
    var l3 := Unfold(l2, SweepNext(true), []);
  }

  lemma AlertComes(l: Life) returns (events: seq<Event>)
    requires l.stage.Idle? && CanAlert(l)
    ensures Exec(l, events).alerts == l.alerts + 1 && Exec(l, events).lost == l.lost && SweepDies !in events
  {
    if l.msg.status.Queued? && !l.msg.marker {
      events := QueuedIsAnnounced(l);
    } else {
      var s :| s in l.sends && !s.marker && Reopens(l.sms, s);
      var i: nat :| i < |l.sends| && l.sends[i] == s;
      var e := if s.attempts + 1 < MAX_SEND_ATTEMPTS then End(i, Throws) else Record(i, false);
      var rest := QueuedIsAnnounced(Apply(l, e));
      events := [e] + rest;
      var next := Unfold(l, e, rest);
    }
  }

  /**
   * The announce-once law, exactly: between ticks, no further alert will ever be raised, whatever is lost or dies,
   * exactly when the message is deleted, or it is out of the queue or marked and no claim in flight read it unmarked
   * and can still put it back. Where one can come it can come with nothing lost and no sweep cut short.
   */
  lemma NoFurtherAlertExactly(l: Life)
    requires l.stage.Idle?
    ensures (forall events :: Exec(l, events).alerts == l.alerts) <==> !CanAlert(l)
    ensures CanAlert(l) ==>
      exists events :: Exec(l, events).alerts == l.alerts + 1 && Exec(l, events).lost == l.lost && SweepDies !in events
  {
    if CanAlert(l) {
      var events := AlertComes(l);
      assert Exec(l, events).alerts == l.alerts + 1;
    } else {
      forall events ensures Exec(l, events).alerts == l.alerts { SettledForGood(l, events); }
    }
  }

  // ---------------------------------------------------------------- the alert law over whole runs

  predicate Inv(l: Life) {
    // Every alert is accounted for: its marker write was lost, or settled it, or did not, or is about to be tried.
    l.alerts == l.lost + l.clean + l.overlapped + (if l.stage.ToMark? then 1 else 0) &&
    l.clean <= 1 && (l.clean == 1 ==> !CanAlert(l) && !l.stage.ToNotify? && !l.stage.ToMark?) &&
    // An alert says the message is past the far edge, and it stays past it.
    (!l.stage.Idle? ==> l.stage.now <= l.clock) &&
    (l.stage.ToNotify? || l.stage.ToMark? ==> l.msg.createdAt <= l.stage.now - GIVE_UP_AFTER_MS) &&
    (l.alerts > 0 ==> l.msg.createdAt <= l.clock - GIVE_UP_AFTER_MS) &&
    (l.alerts > 0 && !l.stage.Idle? ==> l.msg.createdAt <= l.stage.now - GIVE_UP_AFTER_MS) &&
    (l.stage.ToSend? ==> l.msg.createdAt > l.stage.now - GIVE_UP_AFTER_MS) &&
    l.lateRequeues == 0 && l.waiting <= 1
  }

  lemma ApplyKeepsInv(l: Life, e: Event)
    requires Inv(l)
    ensures Inv(Apply(l, e))
  {
    if l.clean == 1 { SettledStays(l, e); }
  }

  lemma {:induction false} ExecKeepsInv(l: Life, events: seq<Event>)
    requires Inv(l)
    ensures Inv(Exec(l, events))
    decreases |events|
  {
    if events != [] {
      ApplyKeepsInv(l, events[0]);
      ExecKeepsInv(Apply(l, events[0]), events[1..]);
    }
  }

  /**
   * Over any interleaving: every alert but one is paid for by a marker write that was lost, or that a claim in flight
   * could undo; an announced message is never re-enqueued by the sweep; at most one job ever waits.
   */
  lemma AnnouncedOnceButFor(l: Life, events: seq<Event>)
    requires Fresh(l)
    ensures var end := Exec(l, events);
      end.lost + end.overlapped <= end.alerts <= 1 + end.lost + end.overlapped && end.lateRequeues == 0 && end.waiting <= 1
  {
    ExecKeepsInv(l, events);
  }

  /** A claim lands between the sweep's query and its stamp. */
  lemma ClaimBeforeStamp(l: Life, tail: seq<Event>) returns (events: seq<Event>, mid: Life)
    requires Fresh(l) && SweepDies !in tail
    ensures Exec(l, events) == Exec(mid, tail) && (Prompt(mid, tail) ==> Prompt(l, events)) && SweepDies !in events
    ensures mid.msg == Message(Queued, mid.clock - GIVE_UP_AFTER_MS, false, Some(mid.clock), 0, true)
    ensures mid.sends == [Send(mid.clock, 0, false, false)] && mid.stage == ToFind(mid.clock)
    ensures mid.alerts == 1 && mid.lost == 0 && mid.overlapped == 1
  {
    var two := [SweepNext(true)] + ([SweepNext(true)] + tail);
    events := [Pass(GIVE_UP_AFTER_MS)] + ([SweepStart] + ([Claim] + two));
    var l1 := Unfold(l, Pass(GIVE_UP_AFTER_MS), [SweepStart] + ([Claim] + two));
    var l2 := Unfold(l1, SweepStart, [Claim] + two);
    var l3 := Unfold(l2, Claim, two);
    mid := StampOverClaim(l3, tail);
  }

  /** The sweep announces and stamps while the claim's unmarked reading is out. */
  lemma StampOverClaim(l: Life, tail: seq<Event>) returns (mid: Life)
    requires l.sends == [Send(l.clock, 0, false, false)] && l.stage == ToNotify(l.clock) && !l.msg.deleted
    ensures Exec(l, [SweepNext(true)] + ([SweepNext(true)] + tail)) == Exec(mid, tail)
    ensures Prompt(mid, tail) ==> Prompt(l, [SweepNext(true)] + ([SweepNext(true)] + tail))
    ensures mid == l.(msg := l.msg.(marker := true), stage := ToFind(l.clock), alerts := l.alerts + 1, overlapped := l.overlapped + 1)
  {
    var next := Unfold(l, SweepNext(true), [SweepNext(true)] + tail);
    assert next.sends[0] in next.sends;
    mid := Unfold(next, SweepNext(true), tail);
  }

  /**
   * The overlap is real: a claim taken between the sweep's query and its stamp writes the metadata it read back
   * over the stamp, and the message is announced twice with no write lost and no lease outlived.
   */
  lemma OverlapAnnouncesTwice(l: Life) returns (events: seq<Event>)
    requires Fresh(l)
    ensures var end := Exec(l, events);
      end.alerts == 2 && end.lost == 0 && end.overlapped == 1 && SweepDies !in events && Prompt(l, events)
  {
    var again := [SweepStart] + ([SweepNext(true)] + []);
    var tail := [End(0, Throws)] + ([SweepNext(true)] + again);
    var mid;
    events, mid := ClaimBeforeStamp(l, tail);
    var l6 := Unfold(mid, End(0, Throws), [SweepNext(true)] + again);
    var l7 := Unfold(l6, SweepNext(true), again);
    var l8 := Unfold(l7, SweepStart, [SweepNext(true)] + []);
    var l9 := Unfold(l8, SweepNext(true), []);
  }

  // ---------------------------------------------------------------- when an outcome is final

  /**
   * A message recorded as sent stays so, whatever happens, exactly when no send of it is still in flight: any that is
   * can throw, the one that recorded it included, and the catch block puts the message back or fails it.
   */
  lemma SentIsFinalExactly(l: Life)
    requires l.msg.status.Sent?
    ensures (forall events :: Exec(l, events).msg.status.Sent?) <==> l.sends == []
  {
    if l.sends == [] {
      forall events ensures Exec(l, events).msg.status.Sent? { SpentStays(l, events); }
    } else {
      var next := Unfold(l, End(0, Throws), []);
      assert !Exec(l, [End(0, Throws)] + []).msg.status.Sent?;
    }
  }

  /** The send can do nothing but return, die, or fail the message for good. */
  predicate Spent(send: Send) { send.recorded && send.attempts + 1 >= MAX_SEND_ATTEMPTS }

  predicate AllSpent(sends: seq<Send>) { forall s :: s in sends ==> Spent(s) }

  lemma {:induction false} SpentStays(l: Life, events: seq<Event>)
    requires !l.msg.status.Queued? && AllSpent(l.sends)
    ensures Exec(l, events).deliveries == l.deliveries && !Exec(l, events).msg.status.Queued?
    ensures l.msg.status.Failed? || l.sends == [] ==> Exec(l, events).msg.status == l.msg.status
    decreases |events|
  {
    if events != [] {
      var e := events[0];
      if e.End? && e.send < |l.sends| {
        RemoveKeeps(l.sends, e.send);
        assert Spent(l.sends[e.send]);
      }
      if e.Record? && e.send < |l.sends| { assert Spent(l.sends[e.send]); }
      SpentStays(Apply(l, e), events[1..]);
    }
  }

  lemma UnspentDelivers(l: Life, i: nat) returns (events: seq<Event>)
    requires !l.msg.status.Queued? && i < |l.sends| && !Spent(l.sends[i])
    ensures Exec(l, events).deliveries == l.deliveries + 1
  {
    if !l.sends[i].recorded {
      events := [Record(i, true)] + [];
      var next := Unfold(l, Record(i, true), []);
    } else {
      var n := |l.sends| - 1;
      events := [End(i, Throws)] + ([Claim] + ([Record(n, true)] + []));
      var l1 := Unfold(l, End(i, Throws), [Claim] + ([Record(n, true)] + []));
      var l2 := Unfold(l1, Claim, [Record(n, true)] + []);
      var l3 := Unfold(l2, Record(n, true), []);
    }
  }

  /**
   * Out of the queue, a message will not be recorded as sent again exactly when every send in flight has recorded and
   * is on its last attempt; and a failed message stays failed exactly then.
   */
  lemma NoFurtherDeliveryExactly(l: Life)
    requires !l.msg.status.Queued?
    ensures (forall events :: Exec(l, events).deliveries == l.deliveries) <==> AllSpent(l.sends)
    ensures l.msg.status.Failed? ==> ((forall events :: Exec(l, events).msg.status.Failed?) <==> AllSpent(l.sends))
  {
    if AllSpent(l.sends) {
      forall events
        ensures Exec(l, events).deliveries == l.deliveries && (l.msg.status.Failed? ==> Exec(l, events).msg.status.Failed?)
      {
        SpentStays(l, events);
      }
    } else {
      var s :| s in l.sends && !Spent(s);
      var i: nat :| i < |l.sends| && l.sends[i] == s;
      var events := UnspentDelivers(l, i);
      assert Exec(l, events).deliveries != l.deliveries;
      var e := if s.recorded then End(i, Throws) else Record(i, true);
      var next := Unfold(l, e, []);
      assert !Exec(l, [e] + []).msg.status.Failed?;
    }
  }

  // ---------------------------------------------------------------- while no lease is outlived and no record is taken back

  /** No send is past its lease before it has recorded. */
  predicate WithinLease(l: Life) {
    forall i :: 0 <= i < |l.sends| && !l.sends[i].recorded ==> l.clock <= l.sends[i].at + CLAIM_TTL_MS
  }

  predicate AlwaysWithinLease(l: Life, events: seq<Event>)
    decreases |events|
  {
    WithinLease(l) && (events != [] ==> AlwaysWithinLease(Apply(l, events[0]), events[1..]))
  }

  /** The audit throws after the outcome was written. */
  predicate LateThrow(l: Life, e: Event) { e.End? && e.how.Throws? && e.send < |l.sends| && l.sends[e.send].recorded }

  predicate Prompt(l: Life, events: seq<Event>)
    decreases |events|
  {
    WithinLease(l) && (events != [] ==> !LateThrow(l, events[0]) && Prompt(Apply(l, events[0]), events[1..]))
  }

  /** One send yet to record at a time, holding the lease, with the row's own count of attempts. */
  predicate OneSend(l: Life) {
    (forall i, j :: 0 <= i < j < |l.sends| ==> l.sends[i].recorded || l.sends[j].recorded) &&
    (forall i :: 0 <= i < |l.sends| && !l.sends[i].recorded ==>
      l.msg.status.Queued? && l.msg.claimedAt == Some(l.sends[i].at) && l.sends[i].attempts == l.msg.attempts) &&
    l.deliveries == (if l.msg.status.Sent? then 1 else 0) &&
    l.refusals == l.msg.attempts && (l.msg.status.Failed? <==> l.refusals == MAX_SEND_ATTEMPTS) && l.refusals <= MAX_SEND_ATTEMPTS
  }

  lemma EndKeepsOneSend(l: Life, i: nat, how: How)
    requires OneSend(l) && !LateThrow(l, End(i, how)) && i < |l.sends|
    ensures OneSend(Ended(l, i, how))
    ensures !l.msg.status.Queued? ==> Ended(l, i, how).msg.status == l.msg.status
  {
    var rest := Remove(l.sends, i);
    assert forall k :: 0 <= k < |rest| ==> rest[k] == l.sends[if k < i then k else k + 1];
  }

  lemma ClaimKeepsOneSend(l: Life)
    requires OneSend(l) && WithinLease(l)
    ensures OneSend(Apply(l, Claim)) && Apply(l, Claim).msg.status == l.msg.status
  {
    var sends := Apply(l, Claim).sends;
    assert forall i :: 0 <= i < |l.sends| ==> sends[i] == l.sends[i];
  }

  lemma RecordKeepsOneSend(l: Life, i: nat, delivered: bool)
    requires OneSend(l)
    ensures OneSend(Apply(l, Record(i, delivered)))
    ensures !l.msg.status.Queued? ==> Apply(l, Record(i, delivered)).msg.status == l.msg.status
  {
    var sends := Apply(l, Record(i, delivered)).sends;
    assert forall k :: 0 <= k < |l.sends| && k != i ==> sends[k] == l.sends[k];
  }

  lemma ApplyKeepsOneSend(l: Life, e: Event)
    requires OneSend(l) && WithinLease(l) && !LateThrow(l, e)
    ensures OneSend(Apply(l, e))
    ensures !l.msg.status.Queued? ==> Apply(l, e).msg.status == l.msg.status
  {
    match e
    case End(i, how) => if i < |l.sends| { EndKeepsOneSend(l, i, how); }
    case Claim => ClaimKeepsOneSend(l);
    case Record(i, delivered) => RecordKeepsOneSend(l, i, delivered);
    case _ =>
  }

  lemma {:induction false} ExecKeepsOneSend(l: Life, events: seq<Event>)
    requires OneSend(l) && Prompt(l, events)
    ensures OneSend(Exec(l, events))
    ensures !l.msg.status.Queued? ==> Exec(l, events).msg.status == l.msg.status
    decreases |events|
  {
    if events != [] {
      ApplyKeepsOneSend(l, events[0]);
      ExecKeepsOneSend(Apply(l, events[0]), events[1..]);
    }
  }

  /**
   * While every send records within its lease and no audit throws after it: a message is recorded sent at most once,
   * refused at most five times and failed exactly on the fifth, and what it comes to is final.
   */
  lemma PromptSendsAreFinal(l: Life, events: seq<Event>)
    requires Fresh(l) && Prompt(l, events)
    ensures var end := Exec(l, events);
      end.deliveries <= 1 && (end.msg.status.Sent? <==> end.deliveries == 1) &&
      end.refusals <= MAX_SEND_ATTEMPTS && (end.msg.status.Failed? <==> end.refusals == MAX_SEND_ATTEMPTS)
  {
    ExecKeepsOneSend(l, events);
  }

  lemma PromptOutcomeIsFinal(l: Life, before: seq<Event>, after: seq<Event>)
    requires Fresh(l) && Prompt(l, before + after) && !Exec(l, before).msg.status.Queued?
    ensures Exec(l, before + after).msg.status == Exec(l, before).msg.status
  {
    PromptParts(l, before, after);
    ExecKeepsOneSend(l, before);
    ExecAppend(l, before, after);
    ExecKeepsOneSend(Exec(l, before), after);
  }

  lemma {:induction false} PromptParts(l: Life, a: seq<Event>, b: seq<Event>)
    requires Prompt(l, a + b)
    ensures Prompt(l, a) && Prompt(Exec(l, a), b)
    decreases |a|
  {
    if a == [] {
      assert a + b == b;
    } else {
      assert (a + b)[0] == a[0] && (a + b)[1..] == a[1..] + b;
      PromptParts(Apply(l, a[0]), a[1..], b);
    }
  }

  /** A second worker claims once the first one's lease has run out. */
  lemma ClaimAfterLease(l: Life, tail: seq<Event>) returns (events: seq<Event>, mid: Life)
    requires Fresh(l)
    ensures Exec(l, events) == Exec(mid, tail) && mid.deliveries == 0 && forall e :: e in events ==> e in tail || !e.End?
    ensures mid.msg.status.Queued? && mid.sends == [Send(l.clock, 0, false, false), Send(mid.clock, 0, false, false)]
  {
    events := [Claim] + ([Pass(CLAIM_TTL_MS + 1)] + ([Claim] + tail));
    var l1 := Unfold(l, Claim, [Pass(CLAIM_TTL_MS + 1)] + ([Claim] + tail));
    var l2 := Unfold(l1, Pass(CLAIM_TTL_MS + 1), [Claim] + tail);
    mid := Unfold(l2, Claim, tail);
  }

  /** The lease is needed: two sends overlap past it and both record the message sent, with nothing thrown. */
  lemma SlowSendIsSentTwice(l: Life) returns (events: seq<Event>)
    requires Fresh(l)
    ensures Exec(l, events).deliveries == 2 && forall e :: e in events ==> !e.End?
  {
    var tail := [Record(1, true)] + ([Record(0, true)] + []);
    var mid;
    events, mid := ClaimAfterLease(l, tail);
    var l4 := Unfold(mid, Record(1, true), [Record(0, true)] + []);
    var l5 := Unfold(l4, Record(0, true), []);
  }

  /** And so is the audit: one that throws after the record sends the message again, every lease kept. */
  lemma LateThrowIsSentTwice(l: Life) returns (events: seq<Event>)
    requires Fresh(l)
    ensures Exec(l, events).deliveries == 2 && AlwaysWithinLease(l, events)
  {
    var again := [Claim] + ([Record(0, true)] + []);
    events := [Claim] + ([Record(0, true)] + ([End(0, Throws)] + again));
    var l1 := Unfold(l, Claim, [Record(0, true)] + ([End(0, Throws)] + again));
    var l2 := Unfold(l1, Record(0, true), [End(0, Throws)] + again);
    var l3 := Unfold(l2, End(0, Throws), again);
    assert l3.sends == [] && l3.msg.status.Queued? && l3.deliveries == 1;
    var l4 := Unfold(l3, Claim, [Record(0, true)] + []);
    var l5 := Unfold(l4, Record(0, true), []);
  }

  // ---------------------------------------------------------------- the repair

  /**
   * From any state a run can reach, whatever enqueues were lost and whatever its sends did: one sweep that is not
   * cut short leaves a message that is due exactly one waiting job, alert or no alert.
   */
  lemma SweepRepairs(l: Life, before: seq<Event>)
    requires Fresh(l)
    requires var mid := Exec(l, before); mid.stage.Idle? && Undelivered(mid.msg, mid.clock, mid.clock)
    ensures Exec(l, before + [SweepStart, SweepNext(true), SweepNext(true)]).waiting == 1
  {
    ExecKeepsInv(l, before);
    var mid := Exec(l, before);
    var sweep := [SweepStart, SweepNext(true), SweepNext(true)];
    ExecAppend(l, before, sweep);
    var m1 := Apply(mid, sweep[0]);
    var m2 := Apply(m1, sweep[1]);
    var m3 := Apply(m2, sweep[2]);
    assert Exec(mid, sweep) == Exec(m1, sweep[1..]) == Exec(m2, sweep[2..]) == Exec(m3, sweep[3..]) == m3;
  }

  lemma {:induction false} ExecAppend(l: Life, a: seq<Event>, b: seq<Event>)
    ensures Exec(l, a + b) == Exec(Exec(l, a), b)
    decreases |a|
  {
    if a == [] {
      assert a + b == b;
    } else {
      assert (a + b)[1..] == a[1..] + b;
      ExecAppend(Apply(l, a[0]), a[1..], b);
    }
  }
}
