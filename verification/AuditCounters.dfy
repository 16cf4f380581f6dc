/** What each counter of the request audit counts (src/service/fingerprint_audit.rs), and when messages are lost. */
module AuditCounters {
  import opened FingerprintAudit

  datatype Kind = RequestKind | CountTokensKind | Status2xx | Status3xx | Status403 | Status429 | Status4xxOther | Status5xx
    | SendFailedKind | CancelledKind

  function Shown(c: Counters, kind: Kind): nat {
    match kind
    case RequestKind => c.requests
    case CountTokensKind => c.countTokens
    case Status2xx => c.status2xx
    case Status3xx => c.status3xx
    case Status403 => c.status403
    case Status429 => c.status429
    case Status4xxOther => c.status4xxOther
    case Status5xx => c.status5xx
    case SendFailedKind => c.sendFailed
    case CancelledKind => c.cancelled
  }

  predicate RespondedIn(m: Message, low: nat, high: nat) { m.Terminal? && m.ending.Response? && low <= m.ending.status <= high }

  /** The messages a counter stands for. */
  predicate IsOf(m: Message, kind: Kind) {
    match kind
    case RequestKind => m.Request?
    case CountTokensKind => m.CountTokens?
    case Status2xx => RespondedIn(m, 200, 299)
    case Status3xx => RespondedIn(m, 300, 399)
    case Status403 => RespondedIn(m, 403, 403)
    case Status429 => RespondedIn(m, 429, 429)
    case Status4xxOther => RespondedIn(m, 400, 499) && !RespondedIn(m, 403, 403) && !RespondedIn(m, 429, 429)
    case Status5xx => RespondedIn(m, 500, 599)
    case SendFailedKind => m.Terminal? && m.ending.SendFailed?
    case CancelledKind => m.Terminal? && m.ending.CancelledBeforeResponse?
  }

  function Seen(ms: seq<Message>, a: Account, kind: Kind): nat {
    if ms == [] then 0
    else Seen(ms[..|ms| - 1], a, kind) + (if ms[|ms| - 1].account == a && IsOf(ms[|ms| - 1], kind) then 1 else 0)
  }

  function Reported(summaries: seq<map<Account, Counters>>, a: Account, kind: Kind): nat {
    if summaries == [] then 0
    else Reported(summaries[..|summaries| - 1], a, kind) + Shown(CountersOf(summaries[|summaries| - 1], a), kind)
  }

  lemma CountsItsKind(c: Counters, m: Message, kind: Kind)
    ensures Shown(Count(c, m), kind) == Shown(c, kind) + if IsOf(m, kind) then 1 else 0
  {}

  lemma SeenMore(ms: seq<Message>, m: Message, a: Account, kind: Kind)
    ensures Seen(ms + [m], a, kind) == Seen(ms, a, kind) + if m.account == a && IsOf(m, kind) then 1 else 0
  {
    assert (ms + [m])[..|ms|] == ms;
  }

  lemma ReportedMore(summaries: seq<map<Account, Counters>>, counters: map<Account, Counters>, a: Account, kind: Kind)
    ensures Reported(summaries + [counters], a, kind) == Reported(summaries, a, kind) + Shown(CountersOf(counters, a), kind)
    ensures Shown(CountersOf(map[], a), kind) == 0
  {
    assert (summaries + [counters])[..|summaries|] == summaries;
  }

  /** Over all hourly clears, each counter of each account has counted exactly the processed messages of its kind. */
  lemma {:induction false} CountersCountTheirKind(steps: seq<Step>, a: Account, kind: Kind)
    ensures var s := Run(steps); Reported(s.summaries, a, kind) + Shown(CountersOf(s.counters, a), kind) == Seen(s.processed, a, kind)
  {
    hide Seen, Reported, Shown, IsOf, Count;
    if steps == [] {
      NothingSeen(a, kind);
    } else {
      var s, step := Run(steps[..|steps| - 1]), steps[|steps| - 1];
      CountersCountTheirKind(steps[..|steps| - 1], a, kind);
      match step
      case Process =>
        if s.queue != [] {
          SeenMore(s.processed, s.queue[0], a, kind);
          CountsItsKind(CountersOf(s.counters, a), s.queue[0], kind);
        }
      case Flush => ReportedMore(s.summaries, s.counters, a, kind);
      case _ =>
    }
  }

  lemma NothingSeen(a: Account, kind: Kind)
    ensures Reported([], a, kind) == 0 && Shown(CountersOf(map[], a), kind) == 0 && Seen([], a, kind) == 0
  {}

  // ---- what is sent and what is lost ----

  /** The message a step of a guard or an observation has to send, if any. */
  function ToSend(s: Audit, step: Step): seq<Message> {
    match step
    case Begin(g, a) => if g in s.guards then [] else [Request(a)]
    case Finish(g, ending) => if g in s.guards && s.guards[g].active then [Terminal(s.guards[g].account, ending)] else []
    case ObserveCountTokens(a) => [CountTokens(a)]
    case _ => []
  }

  /** A message joins the end of the queue while fewer than 1024 wait, and is counted as dropped otherwise; a new guard
      is active exactly when its request was queued, and a finished one is active no more. */
  lemma MessagesAreLostWhenFull(s: Audit, step: Step)
    requires ToSend(s, step) != []
    ensures var t, m := Apply(s, step), ToSend(s, step)[0];
            && (if |s.queue| < 1024 then t.queue == s.queue + [m] && t.dropped == s.dropped else t.queue == s.queue && t.dropped == s.dropped + 1)
            && (step.Begin? ==> t.guards == s.guards[step.guard := Guard(step.account, |s.queue| < 1024)])
            && (step.Finish? ==> t.guards == s.guards[step.guard := s.guards[step.guard].(active := false)])
            && (step.ObserveCountTokens? ==> t.guards == s.guards)
            && t.counters == s.counters && t.inFlight == s.inFlight && t.summaries == s.summaries
  {}

  /** The worker takes messages from the front; the hourly report moves the counters to the reports and starts both
      them and the drop count afresh. */
  lemma WorkerTakesAndReports(s: Audit)
    ensures s.queue != [] ==> var t := Apply(s, Process);
              t.queue == s.queue[1..] && t.processed == s.processed + [s.queue[0]] && t.dropped == s.dropped && t.summaries == s.summaries
    ensures var t := Apply(s, Flush);
            t == s.(summaries := s.summaries + [s.counters], counters := map[], dropped := 0)
  {
    hide Count, CountInFlight;
  }
}
