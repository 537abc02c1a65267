/**
 * The two-minute sweep that re-queues lost follow-ons: `runProposalSendSweep` in `proposals-send.ts` over the query
 * `proposalsAwaitingFollowOn`, which takes fifty proposals at a time, the longest decided first. What a re-queued job
 * then does is `ProposalFollowOn`.
 */
module ProposalSweep {

  type Id = nat

  const PER_TICK: nat := 50

  /** An accepted proposal; `queued` is the stamp acceptance writes once its hand-on has reached the queue. */
  datatype Proposal = Proposal(decidedAt: int, queued: bool, deleted: bool)

  type Rows = map<Id, Proposal>

  predicate Awaiting(rows: Rows, id: Id) { id in rows && !rows[id].queued && !rows[id].deleted }

  /** The query's order: by the time of the decision, then by id. */
  predicate Older(rows: Rows, a: Id, b: Id)
    requires a in rows && b in rows
  {
    rows[a].decidedAt < rows[b].decidedAt || (rows[a].decidedAt == rows[b].decidedAt && a < b)
  }

  /** The proposals the query puts before this one. */
  function OlderThan(rows: Rows, id: Id): set<Id>
    requires id in rows
  {
    set x | x in rows && Awaiting(rows, x) && Older(rows, x, id)
  }

  /** Among the `n` oldest of those waiting for their follow-on. */
  predicate AmongOldest(rows: Rows, id: Id, n: nat) { Awaiting(rows, id) && |OlderThan(rows, id)| < n }

  /** An answer to the query: waiting proposals in order, as many as there are up to the limit, and none left out before them. */
  ghost predicate Answers(rows: Rows, due: seq<Id>) {
    (forall i :: 0 <= i < |due| ==> Awaiting(rows, due[i])) &&
    (forall i, j :: 0 <= i < j < |due| ==> Older(rows, due[i], due[j])) &&
    |due| <= PER_TICK &&
    (forall x :: Awaiting(rows, x) && x !in due ==> |due| == PER_TICK && forall i :: 0 <= i < |due| ==> Older(rows, due[i], x))
  }

  lemma {:induction false} ElementsOf(s: seq<Id>) returns (ids: set<Id>)
    requires forall i, j :: 0 <= i < j < |s| ==> s[i] != s[j]
    ensures |ids| == |s| && forall x :: x in ids <==> x in s
  {
    if s == [] {
      ids := {};
    } else {
      var rest := ElementsOf(s[1..]);
      ids := rest + {s[0]};
    }
  }

  lemma SubsetIsNoLarger(a: set<Id>, b: set<Id>)
    requires a <= b
    ensures |a| <= |b|
  {
    assert b == a + (b - a);
  }

  /** The `i`-th of the answer has exactly `i` before it. */
  lemma PlaceInAnswer(rows: Rows, due: seq<Id>, i: nat)
    requires Answers(rows, due) && i < |due|
    ensures |OlderThan(rows, due[i])| == i
  {
    var before := ElementsOf(due[..i]);
    assert OlderThan(rows, due[i]) == before;
  }

  /** The first `n` of the answer are the `n` oldest. */
  lemma AnswerExactly(rows: Rows, due: seq<Id>, n: nat, id: Id)
    requires Answers(rows, due) && (n <= |due| || n == PER_TICK)
    ensures id in due[..if n <= |due| then n else |due|] <==> AmongOldest(rows, id, n)
  {
    if id in due {
      var i: nat :| i < |due| && due[i] == id;
      PlaceInAnswer(rows, due, i);
      if id in due[..if n <= |due| then n else |due|] {
        var j: nat :| j < |due| && j < n && due[j] == id;
        PlaceInAnswer(rows, due, j);
      }
    } else if Awaiting(rows, id) {
      var all := ElementsOf(due);
      SubsetIsNoLarger(all, OlderThan(rows, id));
    }
  }

  // ---------------------------------------------------------------- one tick

  class ProposalQueue {
    var rows: Rows
    /** The proposals with a job waiting under their key. */
    var waiting: set<Id>

    constructor ()
      ensures rows == map[] && waiting == {}
    {
      rows, waiting := map[], {};
    }

    /**
     * One organisation's turn. The approvals before it can throw and cost the whole turn; a send that throws costs the
     * rest. What was sent is the oldest so many, and a key that was waiting is not sent again.
     */
    method RunProposalSendSweep(due: seq<Id>, approvalsThrow: bool, sendThrows: set<Id>) returns (requeued: nat, threw: bool)
      requires Answers(rows, due)
      modifies this`waiting
      ensures threw <==> approvalsThrow || exists id :: id in sendThrows && AmongOldest(rows, id, PER_TICK)
      ensures forall id :: id in waiting <==> id in old(waiting) || AmongOldest(rows, id, if threw then requeued else PER_TICK)
      ensures approvalsThrow ==> requeued == 0
      ensures threw && !approvalsThrow ==> requeued < |due| && due[requeued] in sendThrows
    {
      requeued, threw := 0, approvalsThrow;
      if approvalsThrow {
        forall id ensures !AmongOldest(rows, id, 0) {}
        return;
      }
      for i := 0 to |due|
        invariant requeued == i
        invariant forall id :: id in waiting <==> id in old(waiting) || id in due[..i]
        invariant forall j :: 0 <= j < i ==> due[j] !in sendThrows
      {
        if due[i] in sendThrows {
          threw := true;
          forall id ensures id in due[..i] <==> AmongOldest(rows, id, i) { AnswerExactly(rows, due, i, id); }
          AnswerExactly(rows, due, PER_TICK, due[i]);
          return;
        }
        assert due[..i + 1] == due[..i] + [due[i]];
        waiting := waiting + {due[i]};
        requeued := requeued + 1;
      }
      forall id ensures id in due <==> AmongOldest(rows, id, PER_TICK) {
        AnswerExactly(rows, due, PER_TICK, id);
        assert due[..|due|] == due;
      }
    }
  }

  // ---------------------------------------------------------------- many ticks

  datatype World = World(rows: Rows, waiting: set<Id>)

  /** How the hand-on of an acceptance went: not queued, queued and not stamped, or both. */
  datatype HandOn = Lost | QueuedOnly | Stamped

  /** A worker takes a waiting job; the follow-on itself stamps nothing the sweep looks at. */
  datatype Event = Accept(id: Id, at: int, handOn: HandOn) | Start(id: Id) | Delete(id: Id) | Tick(sends: nat)

  function Picked(rows: Rows, n: nat): set<Id> { set id | id in rows && AmongOldest(rows, id, if n < PER_TICK then n else PER_TICK) }

  function Apply(w: World, e: Event): World {
    match e
    case Accept(id, at, handOn) =>
      if id in w.rows then w
      else World(w.rows[id := Proposal(at, handOn.Stamped?, false)], if handOn.Lost? then w.waiting else w.waiting + {id})
    case Start(id) => w.(waiting := w.waiting - {id})
    case Delete(id) => if id in w.rows then w.(rows := w.rows[id := w.rows[id].(deleted := true)]) else w
    case Tick(sends) => w.(waiting := w.waiting + Picked(w.rows, sends))
  }

  function Exec(w: World, events: seq<Event>): World
    decreases |events|
  {
    if events == [] then w else Exec(Apply(w, events[0]), events[1..])
  }

  lemma {:induction false} ExecAppend(w: World, a: seq<Event>, b: seq<Event>)
    ensures Exec(w, a + b) == Exec(Exec(w, a), b)
    decreases |a|
  {
    if a == [] {
      assert a + b == b;
    } else {
      assert (a + b)[1..] == a[1..] + b;
      ExecAppend(Apply(w, a[0]), a[1..], b);
    }
  }

  /** A proposal without its stamp never comes by one. */
  lemma {:induction false} AwaitingForEver(w: World, events: seq<Event>, id: Id)
    requires Awaiting(w.rows, id) && Delete(id) !in events
    ensures Awaiting(Exec(w, events).rows, id)
    decreases |events|
  {
    if events != [] { AwaitingForEver(Apply(w, events[0]), events[1..], id); }
  }

  /** What acceptance leaves: a job unless the hand-on was lost, and for the sweep to see unless it was stamped. */
  lemma AcceptanceLeaves(w: World, id: Id, at: int, handOn: HandOn)
    requires id !in w.rows && id !in w.waiting
    ensures var after := Apply(w, Accept(id, at, handOn));
      (id in after.waiting <==> handOn in {QueuedOnly, Stamped}) && (Awaiting(after.rows, id) <==> handOn in {Lost, QueuedOnly}) &&
      after.rows[id].decidedAt == at
  {
  }

  /** A stamped proposal is never queued by the sweep: once its job has been taken no other comes. */
  lemma {:induction false} StampedIsLeftAlone(w: World, events: seq<Event>, id: Id)
    requires id in w.rows && w.rows[id].queued && id !in w.waiting
    ensures id !in Exec(w, events).waiting
    decreases |events|
  {
    if events != [] { StampedIsLeftAlone(Apply(w, events[0]), events[1..], id); }
  }

  /** Those that wait for their follow-on and were decided before this one, or at the same moment with a smaller id. */
  ghost function DecidedBefore(rows: Rows, id: Id): set<Id>
    requires id in rows
    ensures DecidedBefore(rows, id) == OlderThan(rows, id)
  {
    set x | x in rows && !rows[x].queued && !rows[x].deleted &&
      (rows[x].decidedAt < rows[id].decidedAt || (rows[x].decidedAt == rows[id].decidedAt && x < id))
  }

  /**
   * The sweep does not stop: whatever has run for a proposal meanwhile, done or not, the next full tick queues it again,
   * exactly when fewer than fifty that wait are older, or its last job is still waiting.
   */
  lemma SweepNeverStops(w: World, events: seq<Event>, id: Id)
    requires Awaiting(w.rows, id) && Delete(id) !in events
    ensures var mid := Exec(w, events);
      id in mid.rows &&
      (id in Exec(w, events + [Tick(50)]).waiting <==> id in mid.waiting || |DecidedBefore(mid.rows, id)| < 50)
  {
    AwaitingForEver(w, events, id);
    ExecAppend(w, events, [Tick(PER_TICK)]);
    var mid := Exec(w, events);
    assert [Tick(PER_TICK)][1..] == [];
    assert Exec(mid, [Tick(PER_TICK)]) == Exec(Apply(mid, Tick(PER_TICK)), []);
  }

  /** A worker taking the job is no end of it: whatever came before, the next full tick after it queues another. */
  lemma EachTickQueuesAnother(w: World, events: seq<Event>, id: Id)
    requires Awaiting(w.rows, id) && Delete(id) !in events
    requires id in Exec(w, events).rows && |DecidedBefore(Exec(w, events).rows, id)| < 50
    ensures id !in Exec(w, events + [Start(id)]).waiting && id in Exec(w, events + [Start(id)] + [Tick(50)]).waiting
  {
    AwaitingForEver(w, events, id);
    ExecAppend(w, events, [Start(id)]);
    var mid := Exec(w, events);
    assert [Start(id)][1..] == [];
    assert Exec(mid, [Start(id)]) == Exec(Apply(mid, Start(id)), []);
    SweepNeverStops(w, events + [Start(id)], id);
  }

  ghost predicate NoneDeleted(events: seq<Event>) { forall e :: e in events ==> !e.Delete? }

  lemma OlderOnesStay(w: World, e: Event, id: Id)
    requires id in w.rows && !e.Delete?
    ensures id in Apply(w, e).rows && OlderThan(w.rows, id) <= OlderThan(Apply(w, e).rows, id)
  {
    var rows' := Apply(w, e).rows;
    forall x | x in OlderThan(w.rows, id) ensures x in OlderThan(rows', id) {
      assert rows'[x] == w.rows[x] && rows'[id] == w.rows[id];
    }
  }

  lemma {:induction false} StarvedForGood(w: World, events: seq<Event>, id: Id)
    requires Awaiting(w.rows, id) && id !in w.waiting && |OlderThan(w.rows, id)| >= PER_TICK && NoneDeleted(events)
    ensures id !in Exec(w, events).waiting
    decreases |events|
  {
    if events != [] {
      var w' := Apply(w, events[0]);
      OlderOnesStay(w, events[0], id);
      SubsetIsNoLarger(OlderThan(w.rows, id), OlderThan(w'.rows, id));
      StarvedForGood(w', events[1..], id);
    }
  }

  /**
   * And since it does not stop for the old, it never reaches the new: a proposal whose hand-on was lost is never queued,
   * by any number of ticks, exactly when fifty unstamped ones were decided before it. Their follow-ons may long be done.
   */
  lemma StarvedExactly(w: World, id: Id)
    requires Awaiting(w.rows, id) && id !in w.waiting
    ensures (forall events :: NoneDeleted(events) ==> id !in Exec(w, events).waiting) <==> |DecidedBefore(w.rows, id)| >= 50
  {
    if |DecidedBefore(w.rows, id)| >= 50 {
      forall events | NoneDeleted(events) ensures id !in Exec(w, events).waiting { StarvedForGood(w, events, id); }
    } else {
      SweepNeverStops(w, [], id);
      assert [] + [Tick(PER_TICK)] == [Tick(PER_TICK)];
      assert NoneDeleted([Tick(PER_TICK)]) && id in Exec(w, [Tick(PER_TICK)]).waiting;
    }
  }
}
