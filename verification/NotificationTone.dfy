/** How urgent a notification is, read off its kind: `apps/web/src/lib/notification-kind.ts`. */
module NotificationTone {
  import opened Text

  const CRITICAL: seq<string> := [
    "send_failed", "reply_rejected", "send_rejected", "undelivered", "stranded", "dropped", "escalated", "overdue",
    "failed", "error", "down", "declined", "expired", "cancelled", "opened", "settle_skipped", "unmatched_inbound",
    "two_factor_reset"]

  const ATTENTION: seq<string> := [
    "approval_requested", "change_requested", "update_requested", "client_review_requested", "requested",
    "suggested", "merged", "archived", "status_changed"]

  const GOOD: seq<string> := [
    "signed_off", "client_review_approved", "milestone_reached", "work_started", "phase_done",
    "onboarding_generated", "accepted", "approved", "converted", "completed", "delivered", "published", "settled",
    "paid", "rated", "sent"]

  datatype Tone = Critical | Attention | Good | Info {
    function Severity(): nat {
      match this
      case Critical => 3
      case Attention => 2
      case Good => 1
      case Info => 0
    }
  }

  // ---------------------------------------------------------------- words

  function Words(s: string): seq<string> { Split(s, '_') }

  predicate RunAt(words: seq<string>, run: seq<string>, i: nat) {
    i + |run| <= |words| && words[i..i + |run|] == run
  }

  /** The words of `token` are a contiguous run of the words of `event`. */
  predicate HasWordRun(event: string, token: string) {
    HasRun(Words(event), Words(token))
  }

  predicate HasRun(words: seq<string>, run: seq<string>) {
    exists i | 0 <= i <= |words| :: RunAt(words, run, i)
  }

  // ---------------------------------------------------------------- the substring search

  predicate Stands(s: string, t: string, i: nat) {
    i + |t| <= |s| && s[i..i + |t|] == t
  }

  /** `s.indexOf(t, from)` for a non-empty `t`. */
  function IndexOf(s: string, t: string, from: nat): (at: int)
    ensures at == -1 || (from <= at && Stands(s, t, at))
    ensures forall i: nat :: from <= i && (at == -1 || i < at) ==> !Stands(s, t, i)
    decreases |s| - from
  {
    if from + |t| > |s| then -1
    else if Stands(s, t, from) then from
    else IndexOf(s, t, from + 1)
  }

  /** `token` stands at `at`, with a boundary either side. */
  predicate OccursAt(event: string, token: string, at: nat) {
    Stands(event, token, at) &&
    (at == 0 || event[at - 1] == '_') &&
    (at + |token| == |event| || event[at + |token|] == '_')
  }

  /** The search ends, and finds exactly the tokens whose words run through the event's words. */
  method HasToken(event: string, token: string) returns (found: bool)
    requires token != ""
    ensures found <==> HasWordRun(event, token)
  {
    OccurrenceIsWordRun(event, token);
    var from := 0;
    while true
      invariant forall i :: 0 <= i < from ==> !OccursAt(event, token, i)
      decreases |event| - from
    {
      var at := IndexOf(event, token, from);
      if at == -1 {
        assert forall i: nat :: !OccursAt(event, token, i);
        return false;
      }
      var startsWord := at == 0 || event[at - 1] == '_';
      var end := at + |token|;
      var endsWord := end == |event| || event[end] == '_';
      if startsWord && endsWord {
        assert OccursAt(event, token, at);
        return true;
      }
      from := at;
      from := from + 1;
    }
  }

  lemma OccurrenceIsWordRun(event: string, token: string)
    ensures HasWordRun(event, token) <==> exists at: nat :: OccursAt(event, token, at)
  {
    forall at: nat | OccursAt(event, token, at) ensures HasWordRun(event, token) {
      RunOfOccurrence(event, token, at);
    }
    if HasWordRun(event, token) {
      var i :| 0 <= i <= |Words(event)| && RunAt(Words(event), Words(token), i);
      var at := OccurrenceOfRun(event, token, i);
      assert OccursAt(event, token, at);
    }
  }

  lemma RunOfOccurrence(event: string, token: string, at: nat)
    requires OccursAt(event, token, at)
    ensures HasWordRun(event, token)
  {
    var end := at + |token|;
    var rest := event[at..];
    if end == |event| {
      assert rest == token;
    } else {
      assert rest == token + "_" + event[end + 1..];
      SplitAppend(token, event[end + 1..], '_');
    }
    assert RunAt(Words(rest), Words(token), 0);
    if at == 0 {
      assert rest == event;
    } else {
      assert event == event[..at - 1] + "_" + rest;
      SplitAppend(event[..at - 1], rest, '_');
      var i := |Words(event[..at - 1])|;
      assert Words(event)[i..] == Words(rest);
      assert RunAt(Words(event), Words(token), i);
    }
  }

  lemma JoinStartsWith(run: seq<string>, post: seq<string>)
    requires run != []
    ensures var rest, first := Join(run + post, '_'), Join(run, '_');
      |first| <= |rest| && rest[..|first|] == first && (|first| == |rest| || rest[|first|] == '_')
  {
    if post != [] { JoinAppend(run, post, '_'); } else { assert run + post == run; }
  }

  lemma JoinEndsWith(pre: seq<string>, post: seq<string>) returns (at: nat)
    requires post != []
    ensures var whole := Join(pre + post, '_');
      at <= |whole| && whole[at..] == Join(post, '_') && (at == 0 || whole[at - 1] == '_')
  {
    if pre == [] {
      assert pre + post == post;
      at := 0;
    } else {
      JoinAppend(pre, post, '_');
      at := |Join(pre, '_')| + 1;
    }
  }

  lemma OccurrenceOfRun(event: string, token: string, i: nat) returns (at: nat)
    requires RunAt(Words(event), Words(token), i)
    ensures OccursAt(event, token, at)
  {
    var words, run := Words(event), Words(token);
    var pre, post := words[..i], words[i + |run|..];
    JoinOfSplit(event, '_');
    JoinOfSplit(token, '_');
    assert words == pre + (run + post);
    JoinStartsWith(run, post);
    at := JoinEndsWith(pre, run + post);
    StandsWhere(event, token, at);
  }

  lemma StandsWhere(event: string, token: string, at: nat)
    requires at <= |event| && (at == 0 || event[at - 1] == '_')
    requires var rest := event[at..]; |token| <= |rest| && rest[..|token|] == token && (|token| == |rest| || rest[|token|] == '_')
    ensures OccursAt(event, token, at)
  {
    assert event[at..][..|token|] == event[at..at + |token|];
  }

  // ---------------------------------------------------------------- what runs of words obey

  lemma RunOfRun(words: seq<string>, long: seq<string>, short: seq<string>, i: nat, j: nat)
    requires RunAt(words, long, i) && RunAt(long, short, j)
    ensures RunAt(words, short, i + j)
  {
    forall k | 0 <= k < |short| ensures words[i + j + k] == short[k] {
      assert words[i + j + k] == words[i..i + |long|][j + k];
      assert short[k] == long[j..j + |short|][k];
    }
  }

  /** A run of a run is a run, so a longer token implies every shorter one inside it. */
  lemma RunsCompose(event: string, long: string, short: string)
    requires HasWordRun(event, long) && HasWordRun(long, short)
    ensures HasWordRun(event, short)
  {
    var i :| 0 <= i <= |Words(event)| && RunAt(Words(event), Words(long), i);
    var j :| 0 <= j <= |Words(long)| && RunAt(Words(long), Words(short), j);
    RunOfRun(Words(event), Words(long), Words(short), i, j);
  }

  /** A one-word token is found as a whole word and never inside one: `rated` is not in `generated`. */
  lemma OneWordToken(event: string, token: string)
    requires '_' !in token
    ensures HasWordRun(event, token) <==> token in Words(event)
  {
    SplitOfFree(token, '_');
    var words := Words(event);
    if token in words {
      var i :| 0 <= i < |words| && words[i] == token;
      assert words[i..i + 1] == [token];
      assert RunAt(words, Words(token), i);
    }
    if HasWordRun(event, token) {
      var i :| 0 <= i <= |words| && RunAt(words, Words(token), i);
      assert words[i] == words[i..i + 1][0] == token;
    }
  }

  lemma WordsAppend(a: string, b: string)
    ensures Words(a + "_" + b) == Words(a) + Words(b)
  {
    SplitAppend(a, b, '_');
  }

  lemma WordsBefore(before: string, event: string, token: string)
    requires HasWordRun(event, token)
    ensures HasWordRun(before + "_" + event, token)
  {
    WordsAppend(before, event);
    RunInside(Words(before), Words(event), [], Words(token));
    assert Words(before) + Words(event) + [] == Words(before) + Words(event);
  }

  lemma WordsAfter(event: string, after: string, token: string)
    requires HasWordRun(event, token)
    ensures HasWordRun(event + "_" + after, token)
  {
    WordsAppend(event, after);
    RunInside([], Words(event), Words(after), Words(token));
    assert [] + Words(event) + Words(after) == Words(event) + Words(after);
  }

  lemma RunInside(pre: seq<string>, words: seq<string>, post: seq<string>, run: seq<string>)
    requires HasRun(words, run)
    ensures HasRun(pre + words + post, run)
  {
    var i :| 0 <= i <= |words| && RunAt(words, run, i);
    assert (pre + words + post)[|pre| + i..|pre| + i + |run|] == words[i..i + |run|];
    assert RunAt(pre + words + post, run, |pre| + i);
  }

  // ---------------------------------------------------------------- the tone

  /** `project.client_review_requested` gives `client_review_requested`; no dot gives nothing. */
  function EventOf(kind: string): string {
    var dot := IndexOf(kind, ".", 0);
    if dot == -1 then "" else kind[dot + 1..]
  }

  ghost predicate Mentions(event: string, tokens: seq<string>) {
    exists i :: 0 <= i < |tokens| && HasWordRun(event, tokens[i])
  }

  ghost function ToneOfEvent(event: string): Tone {
    if Mentions(event, CRITICAL) then Critical
    else if Mentions(event, ATTENTION) then Attention
    else if Mentions(event, GOOD) then Good
    else Info
  }

  method AnyToken(event: string, tokens: seq<string>) returns (any: bool)
    requires forall i :: 0 <= i < |tokens| ==> tokens[i] != ""
    ensures any <==> Mentions(event, tokens)
  {
    for k := 0 to |tokens|
      invariant forall i :: 0 <= i < k ==> !HasWordRun(event, tokens[i])
    {
      var has := HasToken(event, tokens[k]);
      if has { return true; }
    }
    return false;
  }

  method ToneOf(kind: string) returns (tone: Tone)
    ensures tone == ToneOfEvent(EventOf(kind))
    ensures var event := EventOf(kind);
      (tone == Critical <==> Mentions(event, CRITICAL)) &&
      (tone == Attention <==> Mentions(event, ATTENTION) && !Mentions(event, CRITICAL)) &&
      (tone == Good <==> Mentions(event, GOOD) && !Mentions(event, CRITICAL) && !Mentions(event, ATTENTION))
  {
    var event := EventOf(kind);
    var any := AnyToken(event, CRITICAL);
    if any { return Critical; }
    any := AnyToken(event, ATTENTION);
    if any { return Attention; }
    any := AnyToken(event, GOOD);
    if any { return Good; }
    return Info;
  }

  lemma MentionsAround(before: string, event: string, after: string, tokens: seq<string>)
    requires Mentions(event, tokens)
    ensures Mentions(before + "_" + event, tokens) && Mentions(event + "_" + after, tokens)
  {
    var i :| 0 <= i < |tokens| && HasWordRun(event, tokens[i]);
    WordsBefore(before, event, tokens[i]);
    WordsAfter(event, after, tokens[i]);
  }

  /** A kind with no dot names no event, and an event of no name says nothing. */
  lemma NoDotNoEvent(kind: string)
    ensures EventOf(kind) != "" ==> '.' in kind
  {
    if EventOf(kind) != "" {
      var dot := IndexOf(kind, ".", 0);
      assert kind[dot] == kind[dot..dot + 1][0];
    }
  }

  lemma EventOfKind(domain: string, event: string)
    requires '.' !in domain
    ensures EventOf(domain + "." + event) == event
  {
    var kind := domain + "." + event;
    var dot := IndexOf(kind, ".", 0);
    assert Stands(kind, ".", |domain|);
    assert dot != -1 && dot <= |domain|;
    assert kind[dot..dot + 1] == [kind[dot]];
    assert kind[dot + 1..] == event;
  }

  /** Saying more about an event never makes it look less urgent. */
  lemma MoreWordsNeverSoften(domain: string, before: string, event: string, after: string)
    requires '.' !in domain
    ensures ToneOfEvent(EventOf(domain + "." + (before + "_" + event))).Severity()
         >= ToneOfEvent(EventOf(domain + "." + event)).Severity()
    ensures ToneOfEvent(EventOf(domain + "." + (event + "_" + after))).Severity()
         >= ToneOfEvent(EventOf(domain + "." + event)).Severity()
  {
    EventOfKind(domain, event);
    EventOfKind(domain, before + "_" + event);
    EventOfKind(domain, event + "_" + after);
    if Mentions(event, CRITICAL) { MentionsAround(before, event, after, CRITICAL); }
    if Mentions(event, ATTENTION) { MentionsAround(before, event, after, ATTENTION); }
    if Mentions(event, GOOD) { MentionsAround(before, event, after, GOOD); }
  }
}
