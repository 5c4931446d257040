/** Sending the queued envelopes: a pool of workers drains a channel, under any schedule. */
module ImportPools {
  import opened Basics
  import opened ByteStrings
  import opened Entities
  import opened Stores

  const IMPORT_WORKERS := 10

  // Where a worker stands in its loop. An envelope is known by its place in the queue.
  datatype Worker =
    | Idle
    | Holding(item: nat)
    | Tallying(ok: bool)
    | Counting
    | Reporting(n: nat)
    | Exited

  datatype Pool = Pool(
    workers: seq<Worker>,
    next: nat,             // how many envelopes have been received from the channel
    cancelled: bool,
    imported: nat,
    failed: nat,
    done: nat,
    reports: seq<nat>,     // the progress values reported
    given: multiset<nat>,  // the envelopes given to AddEntry
    tables: Tables)        // the store behind AddEntry

  // What the server creates for one AddEntry call.
  datatype Creation = Creation(id: Bytes, cipher: Bytes, now: Time)

  // An AddEntry call fails unless an entry is created and the reply arrives.
  datatype Event =
    | Cancel
    | Take(w: nat)
    | Leave(w: nat)
    | AddEntry(w: nat, created: Option<Creation>, replied: bool)
    | Tally(w: nat)
    | CountDone(w: nat)
    | Report(w: nat)

  function Start(queue: seq<Envelope>, tables: Tables): Pool {
    var count := if |queue| < IMPORT_WORKERS then |queue| else IMPORT_WORKERS;
    Pool(seq(count, i => Idle), 0, false, 0, 0, 0, [], multiset{}, tables)
  }

  predicate Enabled(queue: seq<Envelope>, s: Pool, e: Event) {
    if e.Cancel? then !s.cancelled
    else
      && e.w < |s.workers|
      && match e
         case Take(w) => s.workers[w].Idle? && s.next < |queue|
         case Leave(w) => s.workers[w].Idle? && (s.cancelled || s.next >= |queue|)
         case AddEntry(w, created, _) =>
           && s.workers[w].Holding? && s.workers[w].item < |queue|
           && (created.Some? ==> created.value.id !in s.tables.entries)
         case Tally(w) => s.workers[w].Tallying?
         case CountDone(w) => s.workers[w].Counting?
         case Report(w) => s.workers[w].Reporting?
  }

  function Step(queue: seq<Envelope>, s: Pool, e: Event): Pool {
    if !Enabled(queue, s, e) then s else
    match e
    case Cancel => s.(cancelled := true)
    case Take(w) => s.(workers := s.workers[w := Holding(s.next)], next := s.next + 1)
    case Leave(w) => s.(workers := s.workers[w := Exited])
    case AddEntry(w, created, replied) =>
      var i := s.workers[w].item;
      s.(workers := s.workers[w := Tallying(created.Some? && replied)],
         given := s.given + multiset{i},
         tables := if created.Some? then CreateIn(s.tables, Sent(queue[i], created.value)) else s.tables)
    case Tally(w) =>
      s.(workers := s.workers[w := Counting],
         imported := s.imported + (if s.workers[w].ok then 1 else 0),
         failed := s.failed + (if s.workers[w].ok then 0 else 1))
    case CountDone(w) => s.(workers := s.workers[w := Reporting(s.done + 1)], done := s.done + 1)
    case Report(w) => s.(workers := s.workers[w := Idle], reports := s.reports + [s.workers[w].n])
  }

  // The envelope that reaches the store: encrypted, sent over the wire and stamped.
  function Sent(e: Envelope, c: Creation): Envelope {
    Stamped(Wired(e.(payload := c.cipher)), c.id, c.now)
  }

  function Run(queue: seq<Envelope>, s: Pool, es: seq<Event>): Pool
    decreases |es|
  {
    if es == [] then s else Run(queue, Step(queue, s, es[0]), es[1..])
  }

  predicate AllExited(s: Pool) {
    forall w :: 0 <= w < |s.workers| ==> s.workers[w].Exited?
  }

  // ---- Counting workers ----

  // What a worker may still owe, and how much of it.
  datatype Debt = AnyAddition | AdditionOf(item: nat) | ATally | ASuccess | AFailure | ACount | ReportOf(n: nat) | Steps

  function Owes(w: Worker, d: Debt): nat {
    match d
    case AnyAddition => if w.Holding? then 1 else 0
    case AdditionOf(i) => if w == Holding(i) then 1 else 0
    case ATally => if w.Tallying? then 1 else 0
    case ASuccess => if w == Tallying(true) then 1 else 0
    case AFailure => if w == Tallying(false) then 1 else 0
    case ACount => if w.Counting? then 1 else 0
    case ReportOf(n) => if w == Reporting(n) then 1 else 0
    case Steps =>
      match w
      case Idle => 1
      case Holding(_) => 5
      case Tallying(_) => 4
      case Counting => 3
      case Reporting(_) => 2
      case Exited => 0
  }

  function Total(ws: seq<Worker>, d: Debt): nat {
    if ws == [] then 0 else Owes(ws[0], d) + Total(ws[1..], d)
  }

  lemma {:induction false} TotalAfterUpdate(ws: seq<Worker>, w: nat, x: Worker, d: Debt)
    requires w < |ws|
    ensures Total(ws[w := x], d) == Total(ws, d) - Owes(ws[w], d) + Owes(x, d)
  {
    if w == 0 {
      assert ws[w := x][1..] == ws[1..];
    } else {
      assert ws[w := x][1..] == ws[1..][w - 1 := x];
      TotalAfterUpdate(ws[1..], w - 1, x, d);
    }
  }

  lemma {:induction false} NothingOwed(ws: seq<Worker>, d: Debt)
    requires forall w :: 0 <= w < |ws| ==> Owes(ws[w], d) == 0
    ensures Total(ws, d) == 0
  {
    if ws != [] {
      NothingOwed(ws[1..], d);
    }
  }

  // ---- What every schedule keeps ----

  ghost predicate ItemOnce(s: Pool, i: nat) {
    s.given[i] + Total(s.workers, AdditionOf(i)) == if i < s.next then 1 else 0
  }

  ghost predicate ReportOnce(s: Pool, n: nat) {
    multiset(s.reports)[n] + Total(s.workers, ReportOf(n)) == if 1 <= n <= s.done then 1 else 0
  }

  ghost predicate Balanced(queue: seq<Envelope>, s: Pool) {
    && s.next <= |queue|
    && s.next == |s.given| + Total(s.workers, AnyAddition)
    && |s.given| == s.imported + s.failed + Total(s.workers, ATally)
    && s.imported + s.failed == s.done + Total(s.workers, ACount)
    && (!s.cancelled && (exists w :: 0 <= w < |s.workers| && s.workers[w].Exited?) ==> s.next == |queue|)
    && (forall w :: 0 <= w < |s.workers| && s.workers[w].Holding? ==> s.workers[w].item < |queue|)
  }

  ghost predicate Inv(queue: seq<Envelope>, s: Pool) {
    Balanced(queue, s) && (forall i: nat :: ItemOnce(s, i)) && (forall n: nat :: ReportOnce(s, n))
  }

  // The state of the worker that an event moves.
  function Moved(s: Pool, e: Event): Worker {
    match e
    case Take(_) => Holding(s.next)
    case AddEntry(_, created, replied) => Tallying(created.Some? && replied)
    case Tally(_) => Counting
    case CountDone(_) => Reporting(s.done + 1)
    case Report(_) => Idle
    case _ => Exited
  }

  lemma StepKeepsBalance(queue: seq<Envelope>, s: Pool, e: Event)
    requires Balanced(queue, s) && Enabled(queue, s, e) && !e.Cancel?
    ensures Balanced(queue, Step(queue, s, e))
  {
    hide Total;
    TotalAfterUpdate(s.workers, e.w, Moved(s, e), AnyAddition);
    TotalAfterUpdate(s.workers, e.w, Moved(s, e), ATally);
    TotalAfterUpdate(s.workers, e.w, Moved(s, e), ACount);
  }

  lemma StepKeepsItem(queue: seq<Envelope>, s: Pool, e: Event, i: nat)
    requires ItemOnce(s, i) && Enabled(queue, s, e) && !e.Cancel?
    ensures ItemOnce(Step(queue, s, e), i)
  {
    hide Total;
    TotalAfterUpdate(s.workers, e.w, Moved(s, e), AdditionOf(i));
  }

  lemma StepKeepsReport(queue: seq<Envelope>, s: Pool, e: Event, n: nat)
    requires ReportOnce(s, n) && Enabled(queue, s, e) && !e.Cancel?
    ensures ReportOnce(Step(queue, s, e), n)
  {
    hide Total;
    TotalAfterUpdate(s.workers, e.w, Moved(s, e), ReportOf(n));
  }

  lemma StepKeepsInv(queue: seq<Envelope>, s: Pool, e: Event)
    requires Inv(queue, s)
    ensures Inv(queue, Step(queue, s, e)) && |Step(queue, s, e).workers| == |s.workers|
  {
    var s' := Step(queue, s, e);
    assert |s'.workers| == |s.workers|;
    if Enabled(queue, s, e) && !e.Cancel? {
      hide Step, Enabled, Balanced, ItemOnce, ReportOnce;
      StepKeepsBalance(queue, s, e);
      forall i: nat ensures ItemOnce(s', i) {
        StepKeepsItem(queue, s, e, i);
      }
      forall n: nat ensures ReportOnce(s', n) {
        StepKeepsReport(queue, s, e, n);
      }
    } else {
      assert forall i: nat :: ItemOnce(s, i) ==> ItemOnce(s', i);
      assert forall n: nat :: ReportOnce(s, n) ==> ReportOnce(s', n);
    }
  }

  lemma StartInv(queue: seq<Envelope>, tables: Tables)
    ensures Inv(queue, Start(queue, tables))
  {
    var s := Start(queue, tables);
    NothingOwed(s.workers, AnyAddition);
    NothingOwed(s.workers, ATally);
    NothingOwed(s.workers, ACount);
    forall i: nat ensures ItemOnce(s, i) && ReportOnce(s, i) {
      NothingOwed(s.workers, AdditionOf(i));
      NothingOwed(s.workers, ReportOf(i));
    }
  }

  lemma {:induction false} RunKeepsInv(queue: seq<Envelope>, s: Pool, es: seq<Event>)
    requires Inv(queue, s)
    ensures Inv(queue, Run(queue, s, es))
    ensures |Run(queue, s, es).workers| == |s.workers|
    decreases |es|
  {
    hide Step, Inv;
    if es != [] {
      StepKeepsInv(queue, s, es[0]);
      RunKeepsInv(queue, Step(queue, s, es[0]), es[1..]);
    }
  }

  // ---- The calls of AddEntry, counted over the schedule ----

  // A call in which an entry is created and the reply arrives, and any other call.
  predicate Succeeds(queue: seq<Envelope>, s: Pool, e: Event) {
    e.AddEntry? && Enabled(queue, s, e) && e.created.Some? && e.replied
  }

  predicate Fails(queue: seq<Envelope>, s: Pool, e: Event) {
    e.AddEntry? && Enabled(queue, s, e) && !(e.created.Some? && e.replied)
  }

  function Successes(queue: seq<Envelope>, s: Pool, es: seq<Event>): nat
    decreases |es|
  {
    if es == [] then 0
    else (if Succeeds(queue, s, es[0]) then 1 else 0) + Successes(queue, Step(queue, s, es[0]), es[1..])
  }

  function Failures(queue: seq<Envelope>, s: Pool, es: seq<Event>): nat
    decreases |es|
  {
    if es == [] then 0
    else (if Fails(queue, s, es[0]) then 1 else 0) + Failures(queue, Step(queue, s, es[0]), es[1..])
  }

  lemma StepTallies(queue: seq<Envelope>, s: Pool, e: Event)
    ensures var s' := Step(queue, s, e);
            && s'.imported + Total(s'.workers, ASuccess)
               == s.imported + Total(s.workers, ASuccess) + (if Succeeds(queue, s, e) then 1 else 0)
            && s'.failed + Total(s'.workers, AFailure)
               == s.failed + Total(s.workers, AFailure) + (if Fails(queue, s, e) then 1 else 0)
  {
    hide Total;
    if Enabled(queue, s, e) && !e.Cancel? {
      TotalAfterUpdate(s.workers, e.w, Moved(s, e), ASuccess);
      TotalAfterUpdate(s.workers, e.w, Moved(s, e), AFailure);
    }
  }

  lemma {:induction false} RunTallies(queue: seq<Envelope>, s: Pool, es: seq<Event>)
    ensures var s' := Run(queue, s, es);
            && s'.imported + Total(s'.workers, ASuccess) == s.imported + Total(s.workers, ASuccess) + Successes(queue, s, es)
            && s'.failed + Total(s'.workers, AFailure) == s.failed + Total(s.workers, AFailure) + Failures(queue, s, es)
    decreases |es|
  {
    hide Step, Succeeds, Fails, Total;
    if es != [] {
      StepTallies(queue, s, es[0]);
      RunTallies(queue, Step(queue, s, es[0]), es[1..]);
    }
  }

  lemma StartTallies(queue: seq<Envelope>, tables: Tables, es: seq<Event>)
    ensures var s := Run(queue, Start(queue, tables), es);
            && s.imported + Total(s.workers, ASuccess) == Successes(queue, Start(queue, tables), es)
            && s.failed + Total(s.workers, AFailure) == Failures(queue, Start(queue, tables), es)
  {
    NothingOwed(Start(queue, tables).workers, ASuccess);
    NothingOwed(Start(queue, tables).workers, AFailure);
    RunTallies(queue, Start(queue, tables), es);
  }

  /** At every moment of every schedule, each envelope has been given to AddEntry at most once and each progress
      value reported at most once, and no more are tallied than were queued. */
  lemma AtMostOnce(queue: seq<Envelope>, tables: Tables, es: seq<Event>, i: nat)
    ensures var s := Run(queue, Start(queue, tables), es);
            && s.given[i] <= 1 && (s.given[i] == 1 ==> i < |queue|)
            && multiset(s.reports)[i] <= 1 && (multiset(s.reports)[i] == 1 ==> 1 <= i <= s.done)
            && s.done <= s.imported + s.failed <= |s.given| <= |queue|
            && s.imported <= Successes(queue, Start(queue, tables), es) && s.failed <= Failures(queue, Start(queue, tables), es)
  {
    StartInv(queue, tables);
    RunKeepsInv(queue, Start(queue, tables), es);
    StartTallies(queue, tables, es);
    var s := Run(queue, Start(queue, tables), es);
    assert ItemOnce(s, i) && ReportOnce(s, i);
  }

  lemma SettledAtExit(queue: seq<Envelope>, s: Pool, i: nat)
    requires Inv(queue, s) && AllExited(s)
    ensures s.imported + s.failed == s.done == |s.given| == s.next
    ensures Total(s.workers, ASuccess) == Total(s.workers, AFailure) == 0
    ensures s.given[i] == if i < s.next then 1 else 0
    ensures multiset(s.reports)[i] == if 1 <= i <= s.done then 1 else 0
    ensures !s.cancelled && s.workers != [] ==> s.next == |queue|
  {
    assert ItemOnce(s, i) && ReportOnce(s, i);
    NothingOwed(s.workers, AnyAddition);
    NothingOwed(s.workers, ATally);
    NothingOwed(s.workers, ASuccess);
    NothingOwed(s.workers, AFailure);
    NothingOwed(s.workers, ACount);
    NothingOwed(s.workers, AdditionOf(i));
    NothingOwed(s.workers, ReportOf(i));
    if s.workers != [] {
      assert s.workers[0].Exited?;
    }
  }

  /** When all workers have left, the envelopes received are exactly those tallied, each was given to AddEntry
      once, imported and failed are the numbers of calls that succeeded and of the others, and the progress values
      from 1 to their sum were each reported once. Without cancellation the envelopes received are all that were queued. */
  lemma ExactlyOnce(queue: seq<Envelope>, tables: Tables, es: seq<Event>, i: nat)
    requires AllExited(Run(queue, Start(queue, tables), es))
    ensures var s := Run(queue, Start(queue, tables), es);
            && s.imported == Successes(queue, Start(queue, tables), es) && s.failed == Failures(queue, Start(queue, tables), es)
            && s.imported + s.failed == s.done == |s.given| <= |queue|
            && s.given[i] == (if i < s.done then 1 else 0)
            && multiset(s.reports)[i] == (if 1 <= i <= s.done then 1 else 0)
            && (!s.cancelled ==> s.done == |queue|)
  {
    StartInv(queue, tables);
    RunKeepsInv(queue, Start(queue, tables), es);
    StartTallies(queue, tables, es);
    SettledAtExit(queue, Run(queue, Start(queue, tables), es), i);
  }

  /** A complete run in which every call succeeds ends with all queued envelopes imported and none failed. */
  lemma AllImported(queue: seq<Envelope>, tables: Tables, es: seq<Event>)
    requires AllExited(Run(queue, Start(queue, tables), es)) && !Run(queue, Start(queue, tables), es).cancelled
    requires Failures(queue, Start(queue, tables), es) == 0
    ensures var s := Run(queue, Start(queue, tables), es); s.imported == |queue| && s.failed == 0
  {
    ExactlyOnce(queue, tables, es, 0);
  }

  // ---- Every schedule ends ----

  function StepsLeft(queue: seq<Envelope>, s: Pool): int {
    5 * (|queue| - s.next) + Total(s.workers, Steps) + if s.cancelled then 0 else 1
  }

  /** Each step that does anything brings the pool closer to its end. */
  lemma StepsRunOut(queue: seq<Envelope>, s: Pool, e: Event)
    requires Balanced(queue, s) && Enabled(queue, s, e)
    ensures StepsLeft(queue, Step(queue, s, e)) < StepsLeft(queue, s)
    ensures Balanced(queue, Step(queue, s, e))
  {
    if !e.Cancel? {
      StepKeepsBalance(queue, s, e);
      hide Total, Balanced;
      TotalAfterUpdate(s.workers, e.w, Moved(s, e), Steps);
    }
  }

  // A schedule in which every event does something.
  ghost predicate Effective(queue: seq<Envelope>, s: Pool, es: seq<Event>)
    decreases |es|
  {
    es != [] ==> Enabled(queue, s, es[0]) && Effective(queue, Step(queue, s, es[0]), es[1..])
  }

  lemma {:induction false} EffectiveIsShort(queue: seq<Envelope>, s: Pool, es: seq<Event>)
    requires Balanced(queue, s) && Effective(queue, s, es)
    ensures |es| <= StepsLeft(queue, s)
    decreases |es|
  {
    hide Step, Enabled, StepsLeft;
    if es == [] {
      NothingLeft(queue, s);
    } else {
      StepsRunOut(queue, s, es[0]);
      EffectiveIsShort(queue, Step(queue, s, es[0]), es[1..]);
    }
  }

  lemma NothingLeft(queue: seq<Envelope>, s: Pool)
    requires Balanced(queue, s)
    ensures 0 <= StepsLeft(queue, s)
  {
  }

  lemma {:induction false} StepsOfIdle(ws: seq<Worker>)
    requires forall w :: 0 <= w < |ws| ==> ws[w].Idle?
    ensures Total(ws, Steps) == |ws|
  {
    if ws != [] {
      StepsOfIdle(ws[1..]);
    }
  }

  /** Every schedule ends: none takes more than five steps an envelope, one a worker and one to cancel. */
  lemma EveryScheduleEnds(queue: seq<Envelope>, tables: Tables, es: seq<Event>)
    requires Effective(queue, Start(queue, tables), es)
    ensures |Start(queue, tables).workers| == if |queue| < 10 then |queue| else 10
    ensures |es| <= 5 * |queue| + |Start(queue, tables).workers| + 1
  {
    StartInv(queue, tables);
    StepsOfIdle(Start(queue, tables).workers);
    EffectiveIsShort(queue, Start(queue, tables), es);
  }

  /** A worker that has not left can always take a step, so a schedule comes to rest only when all have left. */
  lemma NeverStuck(queue: seq<Envelope>, tables: Tables, es: seq<Event>, w: nat)
    requires var s := Run(queue, Start(queue, tables), es); w < |s.workers| && !s.workers[w].Exited?
    ensures exists e: Event :: !e.Cancel? && e.w == w && Enabled(queue, Run(queue, Start(queue, tables), es), e)
  {
    StartInv(queue, tables);
    RunKeepsInv(queue, Start(queue, tables), es);
    var s := Run(queue, Start(queue, tables), es);
    var e := match s.workers[w]
      case Idle => if s.next < |queue| then Take(w) else Leave(w)
      case Holding(_) => AddEntry(w, None, false)
      case Tallying(_) => Tally(w)
      case Counting => CountDone(w)
      case _ => Report(w);
    assert Enabled(queue, s, e);
  }

  lemma RunCons(queue: seq<Envelope>, s: Pool, e: Event, rest: seq<Event>)
    ensures Run(queue, s, [e] + rest) == Run(queue, Step(queue, s, e), rest)
  {
    assert ([e] + rest)[1..] == rest;
  }

  // The steps of worker w from taking an envelope to reporting it, and then the rest.
  function OneItem(w: nat, c: Creation, rest: seq<Event>): seq<Event> {
    [Take(w)] + ([AddEntry(w, Some(c), true)] + ([Tally(w)] + ([CountDone(w)] + ([Report(w)] + rest))))
  }

  // A pool of one worker that stands at `worker`.
  lemma TakeAndAdd(queue: seq<Envelope>, s: Pool, c: Creation, rest: seq<Event>)
    requires s.workers == [Idle] && s.next < |queue| && c.id !in s.tables.entries
    ensures Run(queue, s, [Take(0)] + ([AddEntry(0, Some(c), true)] + rest))
         == Run(queue, s.(workers := [Tallying(true)], next := s.next + 1, given := s.given + multiset{s.next},
                          tables := CreateIn(s.tables, Sent(queue[s.next], c))), rest)
  {
    hide Run, CreateIn, Sent;
    var s1 := s.(workers := [Holding(s.next)], next := s.next + 1);
    assert Step(queue, s, Take(0)) == s1;
    assert Step(queue, s1, AddEntry(0, Some(c), true))
        == s.(workers := [Tallying(true)], next := s.next + 1, given := s.given + multiset{s.next},
              tables := CreateIn(s.tables, Sent(queue[s.next], c))) by {
      assert s1.workers[0 := Tallying(true)] == [Tallying(true)];
    }
    RunCons(queue, s, Take(0), [AddEntry(0, Some(c), true)] + rest);
    RunCons(queue, s1, AddEntry(0, Some(c), true), rest);
  }

  lemma TallyToReport(queue: seq<Envelope>, s: Pool, rest: seq<Event>)
    requires s.workers == [Tallying(true)]
    ensures Run(queue, s, [Tally(0)] + ([CountDone(0)] + ([Report(0)] + rest)))
         == Run(queue, s.(workers := [Idle], imported := s.imported + 1, done := s.done + 1, reports := s.reports + [s.done + 1]), rest)
  {
    hide Run;
    var s1 := s.(workers := [Counting], imported := s.imported + 1);
    assert Step(queue, s, Tally(0)) == s1;
    var s2 := s1.(workers := [Reporting(s.done + 1)], done := s.done + 1);
    assert Step(queue, s1, CountDone(0)) == s2;
    assert s2.workers[0 := Idle] == [Idle];
    assert Step(queue, s2, Report(0))
        == s.(workers := [Idle], imported := s.imported + 1, done := s.done + 1, reports := s.reports + [s.done + 1]);
    RunCons(queue, s, Tally(0), [CountDone(0)] + ([Report(0)] + rest));
    RunCons(queue, s1, CountDone(0), [Report(0)] + rest);
    RunCons(queue, s2, Report(0), rest);
  }

  lemma LeaveRun(queue: seq<Envelope>, s: Pool)
    requires s.workers == [Idle] && s.cancelled
    ensures Run(queue, s, [Leave(0)]) == s.(workers := [Exited])
  {
    assert Step(queue, s, Leave(0)) == s.(workers := [Exited]);
    assert [Leave(0)][1..] == [];
  }

  /** A cancelled import may still take what is queued, or leave it: the choice between the two is not fixed. */
  lemma CancelDecidesNothing(e: Envelope, c: Creation, tables: Tables)
    requires c.id !in tables.entries
    ensures var s := Run([e], Start([e], tables), [Cancel] + OneItem(0, c, [Leave(0)]));
            AllExited(s) && s.cancelled && s.imported == 1 && s.failed == 0 && s.reports == [1]
    ensures var s := Run([e], Start([e], tables), [Cancel] + [Leave(0)]);
            AllExited(s) && s.cancelled && s.imported == s.failed == 0 && s.reports == []
  {
    var queue, start := [e], Start([e], tables);
    assert start.workers == [Idle];
    var s := start.(cancelled := true);
    assert Step(queue, start, Cancel) == s;
    RunCons(queue, start, Cancel, OneItem(0, c, [Leave(0)]));
    RunCons(queue, start, Cancel, [Leave(0)]);
    hide Run, Step, CreateIn, Sent, Start;
    LeaveRun(queue, s);
    TakeAndAdd(queue, s, c, [Tally(0)] + ([CountDone(0)] + ([Report(0)] + [Leave(0)])));
    var s1 := s.(workers := [Tallying(true)], next := s.next + 1, given := s.given + multiset{s.next},
                 tables := CreateIn(s.tables, Sent(queue[s.next], c)));
    TallyToReport(queue, s1, [Leave(0)]);
    LeaveRun(queue, s1.(workers := [Idle], imported := s1.imported + 1, done := s1.done + 1, reports := s1.reports + [s1.done + 1]));
  }
}
