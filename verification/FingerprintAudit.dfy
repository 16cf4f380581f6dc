/** The request audit (src/service/fingerprint_audit.rs): guards feeding a bounded lossy queue, and the worker
    that counts what comes out of it and reports every hour. */
module FingerprintAudit {

  const AUDIT_QUEUE_CAPACITY: nat := 1024

  datatype Ending = Response(status: nat) | SendFailed | CancelledBeforeResponse
  datatype Message = Request(account: int) | Terminal(account: int, ending: Ending) | CountTokens(account: int)

  /** The part of an account's hourly counters that requests and their endings feed. */
  datatype Counters = Counters(requests: nat, countTokens: nat, status2xx: nat, status3xx: nat, status403: nat, status429: nat,
                               status4xxOther: nat, status5xx: nat, sendFailed: nat, cancelled: nat)
  {
    function Endings(): nat {
      status2xx + status3xx + status403 + status429 + status4xxOther + status5xx + sendFailed + cancelled
    }
  }

  const NO_COUNTS := Counters(0, 0, 0, 0, 0, 0, 0, 0, 0, 0)

  type Account = int
  type GuardId = nat
  datatype Guard = Guard(account: Account, active: bool)

  /** `processed` and `summaries` are the history of the worker: the messages it has taken, the counters it has reported. */
  datatype Audit = Audit(
    queue: seq<Message>, dropped: nat, guards: map<GuardId, Guard>,
    counters: map<Account, Counters>, inFlight: map<Account, nat>,
    processed: seq<Message>, summaries: seq<map<Account, Counters>>)

  const AUDIT_START := Audit([], 0, map[], map[], map[], [], [])

  datatype Step =
    | Begin(guard: GuardId, account: Account)
    | Finish(guard: GuardId, ending: Ending)     // response, send failure or drop of the guard
    | ObserveCountTokens(account: Account)
    | Process                                    // the worker takes one message
    | Flush                                      // the hourly tick

  function CountersOf(m: map<Account, Counters>, a: Account): Counters { if a in m then m[a] else NO_COUNTS }
  function InFlightOf(m: map<Account, nat>, a: Account): nat { if a in m then m[a] else 0 }

  // ---- the worker's counting ----

  function CountEnding(c: Counters, ending: Ending): Counters {
    match ending
    case Response(status) =>
      if 200 <= status <= 299 then c.(status2xx := c.status2xx + 1)
      else if 300 <= status <= 399 then c.(status3xx := c.status3xx + 1)
      else if status == 403 then c.(status403 := c.status403 + 1)
      else if status == 429 then c.(status429 := c.status429 + 1)
      else if 400 <= status <= 499 then c.(status4xxOther := c.status4xxOther + 1)
      else if 500 <= status <= 599 then c.(status5xx := c.status5xx + 1)
      else c
    case SendFailed => c.(sendFailed := c.sendFailed + 1)
    case CancelledBeforeResponse => c.(cancelled := c.cancelled + 1)
  }

  function Count(c: Counters, m: Message): Counters {
    match m
    case Request(_) => c.(requests := c.requests + 1)
    case Terminal(_, ending) => CountEnding(c, ending)
    case CountTokens(_) => c.(countTokens := c.countTokens + 1)
  }

  /** `saturating_sub(1)`. */
  function SaturatingDecrement(n: nat): nat { if n > 0 then n - 1 else 0 }

  function CountInFlight(inFlight: map<Account, nat>, m: Message): map<Account, nat> {
    match m
    case Request(a) => inFlight[a := InFlightOf(inFlight, a) + 1]
    case Terminal(a, _) => inFlight[a := SaturatingDecrement(InFlightOf(inFlight, a))]
    case CountTokens(_) => inFlight
  }

  /** `try_send` on a full queue drops the message and counts the drop. */
  function TrySend(s: Audit, m: Message): Audit {
    if |s.queue| < AUDIT_QUEUE_CAPACITY then s.(queue := s.queue + [m]) else s.(dropped := s.dropped + 1)
  }

  function Apply(s: Audit, step: Step): Audit {
    match step
    case Begin(g, a) =>
      if g in s.guards then s
      else TrySend(s, Request(a)).(guards := s.guards[g := Guard(a, |s.queue| < AUDIT_QUEUE_CAPACITY)])
    case Finish(g, ending) =>
      if g !in s.guards || !s.guards[g].active then s
      else TrySend(s, Terminal(s.guards[g].account, ending)).(guards := s.guards[g := Guard(s.guards[g].account, false)])
    case ObserveCountTokens(a) => TrySend(s, CountTokens(a))
    case Process =>
      if s.queue == [] then s
      else
        var m := s.queue[0];
        s.(queue := s.queue[1..], processed := s.processed + [m],
           counters := s.counters[m.account := Count(CountersOf(s.counters, m.account), m)],
           inFlight := CountInFlight(s.inFlight, m))
    case Flush => s.(summaries := s.summaries + [s.counters], counters := map[], dropped := 0)
  }

  function Run(steps: seq<Step>): Audit {
    if steps == [] then AUDIT_START else Apply(Run(steps[..|steps| - 1]), steps[|steps| - 1])
  }

  // ---- what the messages say ----

  function Requests(ms: seq<Message>, a: Account): nat {
    if ms == [] then 0 else Requests(ms[..|ms| - 1], a) + (if ms[|ms| - 1] == Request(a) then 1 else 0)
  }

  predicate IsTerminal(m: Message, a: Account) { m.Terminal? && m.account == a }

  function Terminals(ms: seq<Message>, a: Account): nat {
    if ms == [] then 0 else Terminals(ms[..|ms| - 1], a) + (if IsTerminal(ms[|ms| - 1], a) then 1 else 0)
  }

  /** A response status no counter stands for. */
  predicate Unlisted(m: Message, a: Account) {
    IsTerminal(m, a) && m.ending.Response? && !(200 <= m.ending.status <= 599)
  }

  function UnlistedResponses(ms: seq<Message>, a: Account): nat {
    if ms == [] then 0 else UnlistedResponses(ms[..|ms| - 1], a) + (if Unlisted(ms[|ms| - 1], a) then 1 else 0)
  }

  ghost function ActiveGuards(guards: map<GuardId, Guard>, a: Account): set<GuardId> {
    set g | g in guards && guards[g].active && guards[g].account == a
  }

  /** In no prefix has an account more endings than requests. */
  ghost predicate NeverAhead(ms: seq<Message>) {
    forall n, a :: 0 <= n <= |ms| ==> Terminals(ms[..n], a) <= Requests(ms[..n], a)
  }

  function Sent(s: Audit): seq<Message> { s.processed + s.queue }

  /** Each active guard has a request of its account in the queue or processed that no ending has answered yet. */
  ghost predicate Covered(s: Audit) {
    && NeverAhead(Sent(s))
    && forall a :: Terminals(Sent(s), a) + |ActiveGuards(s.guards, a)| <= Requests(Sent(s), a)
  }

  ghost predicate CountedRight(s: Audit) {
    forall a :: InFlightOf(s.inFlight, a) == Requests(s.processed, a) - Terminals(s.processed, a)
  }

  lemma Snoc(ms: seq<Message>, m: Message, a: Account)
    ensures Requests(ms + [m], a) == Requests(ms, a) + (if m == Request(a) then 1 else 0)
    ensures Terminals(ms + [m], a) == Terminals(ms, a) + (if IsTerminal(m, a) then 1 else 0)
    ensures UnlistedResponses(ms + [m], a) == UnlistedResponses(ms, a) + (if Unlisted(m, a) then 1 else 0)
  {
    assert (ms + [m])[..|ms|] == ms;
  }

  lemma NeverAheadSnoc(ms: seq<Message>, m: Message)
    requires NeverAhead(ms)
    requires forall a :: IsTerminal(m, a) ==> Terminals(ms, a) < Requests(ms, a)
    ensures NeverAhead(ms + [m])
  {
    forall n, a | 0 <= n <= |ms| + 1
      ensures Terminals((ms + [m])[..n], a) <= Requests((ms + [m])[..n], a)
    {
      if n <= |ms| {
        assert (ms + [m])[..n] == ms[..n];
      } else {
        assert (ms + [m])[..n] == ms + [m] && ms[..|ms|] == ms;
        Snoc(ms, m, a);
        assert Terminals(ms[..|ms|], a) <= Requests(ms[..|ms|], a);
      }
    }
  }

  lemma GuardsChange(guards: map<GuardId, Guard>, g: GuardId, guard: Guard, a: Account)
    ensures ActiveGuards(guards[g := guard], a)
            == if guard.active && guard.account == a then ActiveGuards(guards, a) + {g} else ActiveGuards(guards, a) - {g}
  {}

  lemma BeginCovered(s: Audit, g: GuardId, a: Account)
    requires Covered(s) && g !in s.guards
    ensures Covered(Apply(s, Begin(g, a)))
  {
    var t := Apply(s, Begin(g, a));
    if |s.queue| < AUDIT_QUEUE_CAPACITY {
      assert Sent(t) == Sent(s) + [Request(a)];
      NeverAheadSnoc(Sent(s), Request(a));
    } else {
      assert Sent(t) == Sent(s);
    }
    forall b
      ensures Terminals(Sent(t), b) + |ActiveGuards(t.guards, b)| <= Requests(Sent(t), b)
    {
      Snoc(Sent(s), Request(a), b);
      GuardsChange(s.guards, g, t.guards[g], b);
      assert g !in ActiveGuards(s.guards, b);
      assert ActiveGuards(s.guards, b) - {g} == ActiveGuards(s.guards, b);
    }
  }

  lemma FinishCovered(s: Audit, g: GuardId, ending: Ending)
    requires Covered(s) && g in s.guards && s.guards[g].active
    ensures Covered(Apply(s, Finish(g, ending)))
  {
    var t, a := Apply(s, Finish(g, ending)), s.guards[g].account;
    var m := Terminal(a, ending);
    assert g in ActiveGuards(s.guards, a) && |ActiveGuards(s.guards, a)| > 0;
    assert Terminals(Sent(s), a) < Requests(Sent(s), a);
    if |s.queue| < AUDIT_QUEUE_CAPACITY {
      assert Sent(t) == Sent(s) + [m];
      NeverAheadSnoc(Sent(s), m);
    } else {
      assert Sent(t) == Sent(s);
    }
    hide Requests, Terminals, NeverAhead;
    forall b
      ensures Terminals(Sent(t), b) + |ActiveGuards(t.guards, b)| <= Requests(Sent(t), b)
    {
      Snoc(Sent(s), m, b);
      GuardsChange(s.guards, g, Guard(a, false), b);
      if b != a { assert ActiveGuards(s.guards, b) - {g} == ActiveGuards(s.guards, b); }
    }
  }

  lemma CountTokensCovered(s: Audit, a: Account)
    requires Covered(s)
    ensures Covered(Apply(s, ObserveCountTokens(a)))
  {
    var t, m := Apply(s, ObserveCountTokens(a)), CountTokens(a);
    if |s.queue| < AUDIT_QUEUE_CAPACITY {
      assert Sent(t) == Sent(s) + [m];
      NeverAheadSnoc(Sent(s), m);
      forall b
        ensures Terminals(Sent(t), b) + |ActiveGuards(t.guards, b)| <= Requests(Sent(t), b)
      {
        Snoc(Sent(s), m, b);
      }
    } else {
      assert Sent(t) == Sent(s);
    }
  }

  lemma ProcessKeepsSent(s: Audit)
    requires s.queue != []
    ensures Sent(Apply(s, Process)) == Sent(s)
  {}

  /** The saturating decrement meets a positive count, so it subtracts. */
  lemma ProcessCounts(s: Audit)
    requires Covered(s) && CountedRight(s) && s.queue != []
    ensures CountedRight(Apply(s, Process))
    ensures s.queue[0].Terminal? ==> InFlightOf(s.inFlight, s.queue[0].account) > 0
  {
    var m, t := s.queue[0], Apply(s, Process);
    var n := |s.processed| + 1;
    assert Sent(s)[..n] == s.processed + [m];
    assert Terminals(Sent(s)[..n], m.account) <= Requests(Sent(s)[..n], m.account);
    Snoc(s.processed, m, m.account);
    hide Requests, Terminals, Covered, Count;
    forall a
      ensures InFlightOf(t.inFlight, a) == Requests(t.processed, a) - Terminals(t.processed, a)
    {
      Snoc(s.processed, m, a);
    }
  }

  lemma {:induction false} RunCovered(steps: seq<Step>)
    ensures Covered(Run(steps)) && CountedRight(Run(steps))
  {
    if steps == [] {
      assert Sent(AUDIT_START) == [];
      assert forall a :: ActiveGuards(map[], a) == {};
    } else {
      var s, step := Run(steps[..|steps| - 1]), steps[|steps| - 1];
      RunCovered(steps[..|steps| - 1]);
      match step
      case Begin(g, a) => if g !in s.guards { BeginCovered(s, g, a); }
      case Finish(g, ending) => if g in s.guards && s.guards[g].active { FinishCovered(s, g, ending); }
      case ObserveCountTokens(a) => CountTokensCovered(s, a);
      case Process => if s.queue != [] { ProcessKeepsSent(s); ProcessCounts(s); }
      case Flush => assert Sent(Apply(s, Flush)) == Sent(s);
    }
  }

  /** However much the queue loses: at every point of the processed messages an account's endings are at most its
      requests, and its in-flight count is exactly the difference, so no decrement was ever clamped. */
  lemma InFlightIsExact(steps: seq<Step>, n: nat, a: Account)
    requires n <= |Run(steps).processed|
    ensures var s := Run(steps);
            && Terminals(s.processed[..n], a) <= Requests(s.processed[..n], a)
            && InFlightOf(s.inFlight, a) == Requests(s.processed, a) - Terminals(s.processed, a)
  {
    var s := Run(steps);
    RunCovered(steps);
    assert Sent(s)[..n] == s.processed[..n];
    assert Terminals(Sent(s)[..n], a) <= Requests(Sent(s)[..n], a);
  }

  // ---- the hourly reports add up ----

  function ReportedRequests(summaries: seq<map<Account, Counters>>, a: Account): nat {
    if summaries == [] then 0
    else ReportedRequests(summaries[..|summaries| - 1], a) + CountersOf(summaries[|summaries| - 1], a).requests
  }

  function ReportedEndings(summaries: seq<map<Account, Counters>>, a: Account): nat {
    if summaries == [] then 0
    else ReportedEndings(summaries[..|summaries| - 1], a) + CountersOf(summaries[|summaries| - 1], a).Endings()
  }

  /** Reported so far, and counted since. */
  function TotalRequests(s: Audit, a: Account): nat { ReportedRequests(s.summaries, a) + CountersOf(s.counters, a).requests }
  function TotalEndings(s: Audit, a: Account): nat { ReportedEndings(s.summaries, a) + CountersOf(s.counters, a).Endings() }

  lemma CountAddsOne(c: Counters, m: Message)
    ensures Count(c, m).requests == c.requests + (if m.Request? then 1 else 0)
    ensures Count(c, m).Endings() == c.Endings() + (if m.Terminal? && !Unlisted(m, m.account) then 1 else 0)
  {}

  ghost predicate TotalsMatch(s: Audit, a: Account) {
    && TotalRequests(s, a) == Requests(s.processed, a)
    && TotalEndings(s, a) + UnlistedResponses(s.processed, a) == Terminals(s.processed, a)
  }

  lemma ProcessMatches(s: Audit, a: Account)
    requires TotalsMatch(s, a) && s.queue != []
    ensures TotalsMatch(Apply(s, Process), a)
  {
    hide Requests, Terminals, UnlistedResponses, TotalRequests, TotalEndings;
    Snoc(s.processed, s.queue[0], a);
    ProcessTotals(s, a);
    assert Apply(s, Process).processed == s.processed + [s.queue[0]];
  }

  lemma ProcessTotals(s: Audit, a: Account)
    requires s.queue != []
    ensures TotalRequests(Apply(s, Process), a) == TotalRequests(s, a) + (if s.queue[0] == Request(a) then 1 else 0)
    ensures TotalEndings(Apply(s, Process), a)
            == TotalEndings(s, a) + (if IsTerminal(s.queue[0], a) && !Unlisted(s.queue[0], a) then 1 else 0)
  {
    hide ReportedRequests, ReportedEndings, Count, Counters.Endings;
    CountAddsOne(CountersOf(s.counters, a), s.queue[0]);
  }

  lemma FlushMatches(s: Audit, a: Account)
    requires TotalsMatch(s, a)
    ensures TotalsMatch(Apply(s, Flush), a)
  {
    hide Requests, Terminals, UnlistedResponses, ReportedRequests, ReportedEndings;
    ReportedSnoc(s.summaries, s.counters, a);
    assert Apply(s, Flush).summaries == s.summaries + [s.counters] && Apply(s, Flush).processed == s.processed;
  }

  lemma ReportedSnoc(summaries: seq<map<Account, Counters>>, counters: map<Account, Counters>, a: Account)
    ensures ReportedRequests(summaries + [counters], a) == ReportedRequests(summaries, a) + CountersOf(counters, a).requests
    ensures ReportedEndings(summaries + [counters], a) == ReportedEndings(summaries, a) + CountersOf(counters, a).Endings()
  {
    assert (summaries + [counters])[..|summaries|] == summaries;
  }

  lemma {:induction false} TotalsMatchMessages(steps: seq<Step>, a: Account)
    ensures TotalsMatch(Run(steps), a)
  {
    if steps != [] {
      var s, step := Run(steps[..|steps| - 1]), steps[|steps| - 1];
      TotalsMatchMessages(steps[..|steps| - 1], a);
      match step
      case Process => if s.queue != [] { ProcessMatches(s, a); }
      case Flush => FlushMatches(s, a);
      case _ => SendingMatches(s, step, a);
    }
  }

  lemma SendingMatches(s: Audit, step: Step, a: Account)
    requires TotalsMatch(s, a) && !step.Process? && !step.Flush?
    ensures TotalsMatch(Apply(s, step), a)
  {
    hide Requests, Terminals, UnlistedResponses, ReportedRequests, ReportedEndings, Counters.Endings;
    var t := Apply(s, step);
    assert t.summaries == s.summaries && t.counters == s.counters && t.processed == s.processed;
  }

  /** Over all hourly clears, the requests reported or still counted minus the endings reported or still counted are
      the requests in flight, plus one for each response whose status has no counter. */
  lemma ReportsConserveRequests(steps: seq<Step>, a: Account)
    ensures var s := Run(steps);
            TotalRequests(s, a) == TotalEndings(s, a) + InFlightOf(s.inFlight, a) + UnlistedResponses(s.processed, a)
  {
    TotalsMatchMessages(steps, a);
    InFlightIsExact(steps, |Run(steps).processed|, a);
  }

  // ---- the audit as it runs ----

  class AuditService {
    var queue: seq<Message>
    var dropped: nat
    var guards: map<GuardId, Guard>
    var counters: map<Account, Counters>
    var inFlight: map<Account, nat>
    var processed: seq<Message>
    var summaries: seq<map<Account, Counters>>

    function State(): Audit
      reads this
    {
      Audit(queue, dropped, guards, counters, inFlight, processed, summaries)
    }

    constructor ()
      ensures State() == AUDIT_START
    {
      queue, dropped, guards, counters, inFlight, processed, summaries := [], 0, map[], map[], map[], [], [];
    }

    method SendOrDrop(m: Message) returns (sent: bool)
      modifies `queue, `dropped
      ensures State() == TrySend(old(State()), m) && sent == (|old(queue)| < AUDIT_QUEUE_CAPACITY)
    {
      if |queue| < AUDIT_QUEUE_CAPACITY {
        queue := queue + [m];
        return true;
      }
      dropped := dropped + 1;
      return false;
    }

    method BeginRequest(g: GuardId, account: Account)
      requires g !in guards
      modifies this
      ensures State() == Apply(old(State()), Begin(g, account))
    {
      var active := SendOrDrop(Request(account));
      guards := guards[g := Guard(account, active)];
    }

    /** `AuditRequestGuard::finish`, reached by a response, a send failure or the drop of the guard. */
    method FinishGuard(g: GuardId, ending: Ending)
      modifies this
      ensures State() == Apply(old(State()), Finish(g, ending))
    {
      if g in guards && guards[g].active {
        var account := guards[g].account;
        guards := guards[g := Guard(account, false)];
        var _ := SendOrDrop(Terminal(account, ending));
      }
    }

    /** The worker takes the next message. */
    method ProcessNext()
      modifies this
      ensures State() == Apply(old(State()), Process)
    {
      if queue == [] { return; }
      var m := queue[0];
      queue, processed := queue[1..], processed + [m];
      counters := counters[m.account := Count(CountersOf(counters, m.account), m)];
      match m {
        case Request(a) => inFlight := inFlight[a := InFlightOf(inFlight, a) + 1];
        case Terminal(a, _) => inFlight := inFlight[a := SaturatingDecrement(InFlightOf(inFlight, a))];
        case CountTokens(_) =>
      }
    }

    method FlushSummaries()
      modifies this
      ensures State() == Apply(old(State()), Flush)
    {
      summaries := summaries + [counters];
      counters := map[];
      dropped := 0;
    }
  }
}
