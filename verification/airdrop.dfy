/** Paying each recipient in turn (airdrop.go). */
module Airdrops {
  import opened Basics
  import opened Ledger
  import opened Journals
  import opened Protocol
  import Invariant
  import opened History
  import Worlds
  import opened Senders
  import Recorder

  /** What became of one recipient. */
  datatype Outcome = Skip | Paid(hash: Hash) | Fail(error: SendError)

  datatype Failure = Failure(address: Address, error: SendError)

  datatype Exit = Completed | Interrupted | JournalFailed | TooManyFailures(n: nat)

  // ---------- the stop rule ----------

  /** The failures in a row at the end, passing over skips. */
  function Streak(outcomes: seq<Outcome>): nat {
    if outcomes == [] then 0
    else
      var n := |outcomes| - 1;
      match outcomes[n]
      case Skip => Streak(outcomes[..n])
      case Paid(_) => 0
      case Fail(_) => Streak(outcomes[..n]) + 1
  }

  /** The outcomes with the skips deleted. */
  function Tried(outcomes: seq<Outcome>): seq<Outcome> {
    if outcomes == [] then []
    else
      var n := |outcomes| - 1;
      Tried(outcomes[..n]) + if outcomes[n].Skip? then [] else [outcomes[n]]
  }

  /** k failures in a row are the last k attempts, all failed. */
  lemma {:induction false} StreakIsFailuresInARow(outcomes: seq<Outcome>, k: nat)
    ensures Streak(outcomes) >= k <==>
            var tried := Tried(outcomes); k <= |tried| && forall i | |tried| - k <= i < |tried| :: tried[i].Fail?
  {
    if outcomes != [] && k > 0 {
      var n := |outcomes| - 1;
      var a, b := Tried(outcomes[..n]), Tried(outcomes);
      match outcomes[n] {
        case Skip =>
          StreakIsFailuresInARow(outcomes[..n], k);
          assert b == a;
        case Paid(_) => assert !b[|b| - 1].Fail?;
        case Fail(_) =>
          StreakIsFailuresInARow(outcomes[..n], k - 1);
          assert b == a + [outcomes[n]];
          if k <= |b| && forall i | |b| - k <= i < |b| :: b[i].Fail? {
            assert forall i | |a| - (k - 1) <= i < |a| :: a[i] == b[i];
          }
      }
    }
  }

  // ---------- what the report says ----------

  function Skips(outcomes: seq<Outcome>): nat {
    if outcomes == [] then 0
    else Skips(outcomes[..|outcomes| - 1]) + if outcomes[|outcomes| - 1].Skip? then 1 else 0
  }

  function Payments(outcomes: seq<Outcome>): nat {
    if outcomes == [] then 0
    else Payments(outcomes[..|outcomes| - 1]) + if outcomes[|outcomes| - 1].Paid? then 1 else 0
  }

  function Failures(recipients: seq<Address>, outcomes: seq<Outcome>): seq<Failure>
    requires |outcomes| <= |recipients|
  {
    if outcomes == [] then []
    else
      var n := |outcomes| - 1;
      Failures(recipients, outcomes[..n])
      + if outcomes[n].Fail? then [Failure(recipients[n], outcomes[n].error)] else []
  }

  /** Every recipient dealt with is counted once. */
  lemma {:induction false} EveryOutcomeCounted(recipients: seq<Address>, outcomes: seq<Outcome>)
    requires |outcomes| <= |recipients|
    ensures Payments(outcomes) + Skips(outcomes) + |Failures(recipients, outcomes)| == |outcomes|
  {
    if outcomes != [] {
      EveryOutcomeCounted(recipients, outcomes[..|outcomes| - 1]);
    }
  }

  /** The positions before k of recipients without a mark, in order. */
  function Absent(recipients: seq<Address>, paid: map<Address, Hash>, k: nat): seq<nat>
    requires k <= |recipients|
  {
    if k == 0 then []
    else Absent(recipients, paid, k - 1) + if recipients[k - 1] in paid then [] else [k - 1]
  }

  /** The positions attempted in a log, in order. */
  function AttemptedIn(log: seq<Event>): seq<nat> {
    if log == [] then []
    else AttemptedIn(log[..|log| - 1]) + if log[|log| - 1].Attempted? then [log[|log| - 1].i] else []
  }

  lemma AttemptedOne(log: seq<Event>, ev: Event)
    ensures AttemptedIn(log + [ev]) == AttemptedIn(log) + if ev.Attempted? then [ev.i] else []
  {
    assert (log + [ev])[..|log|] == log;
  }

  lemma {:induction false} AttemptedAppend(log: seq<Event>, evs: seq<Event>)
    ensures AttemptedIn(log + evs) == AttemptedIn(log) + AttemptedIn(evs)
  {
    if evs == [] {
      assert log + evs == log;
    } else {
      hide AttemptedIn;
      var front, ev := evs[..|evs| - 1], evs[|evs| - 1];
      AttemptedAppend(log, front);
      AttemptedOne(log + front, ev);
      AttemptedOne(front, ev);
      assert log + evs == log + front + [ev] && evs == front + [ev];
    }
  }

  lemma Snoc<T>(s: seq<T>, x: T)
    ensures (s + [x])[..|s|] == s && (s + [x])[|s|] == x && |s + [x]| == |s| + 1
  {
  }

  // ---------- what the outcomes say about the chain and the journal ----------

  /** An outcome is true: skipped means marked before, paid means on the chain and in the journal, and
      an interruption is no failure. */
  ghost predicate Truthful(t: State, x: Session, a: Address, outcome: Outcome) {
    match outcome
    case Skip => a in x.paid
    case Paid(h) => a !in x.paid && ReallyPaid(t.o.chain, x.job, a, h) && Marked(t.layout, x.job.Run(), a)
    case Fail(e) => a !in x.paid && e.Failed?
  }

  ghost predicate AllTruthful(t: State, x: Session, outcomes: seq<Outcome>) {
    && |outcomes| <= |x.job.recipients|
    && forall k | 0 <= k < |outcomes| :: Truthful(t, x, x.job.recipients[k], outcomes[k])
  }

  lemma StillTruthful(s: State, t: State, x: Session, outcomes: seq<Outcome>)
    requires AllTruthful(s, x, outcomes)
    requires SameEntries(s.layout, t.layout) && s.o.chain <= t.o.chain
    ensures AllTruthful(t, x, outcomes)
  {
    hide Marked;
    forall k | 0 <= k < |outcomes| ensures Truthful(t, x, x.job.recipients[k], outcomes[k]) {
      assert Truthful(s, x, x.job.recipients[k], outcomes[k]);
      if outcomes[k].Paid? {
        MarkedKept(s.layout, t.layout, x.job.Run(), x.job.recipients[k]);
      }
    }
  }

  lemma OneMoreTruthful(t: State, x: Session, outcomes: seq<Outcome>, outcome: Outcome)
    requires |outcomes| < |x.job.recipients| && AllTruthful(t, x, outcomes)
    requires Truthful(t, x, x.job.recipients[|outcomes|], outcome)
    ensures AllTruthful(t, x, outcomes + [outcome])
  {
    hide Truthful;
  }

  /** The sends of this process that landed and whose record is durable. */
  function Settled(landings: seq<Landing>, base: nat): int {
    |landings| - base - Loose(landings, base)
  }

  lemma SettledOnSync(before: seq<Landing>, after: seq<Landing>, base: nat, slot: nat)
    requires base < |before| && before[|before| - 1].slot.None?
    requires var n := |before| - 1; after == before[n := before[n].(slot := Some(slot))]
    ensures base <= |after| && Settled(after, base) == Settled(before, base) + 1
  {
    var n := |before| - 1;
    var front, l := before[..n], before[n];
    assert before == front + [l] && after == front + [l.(slot := Some(slot))];
    Invariant.LooseAppend(front, l, base);
    Invariant.LooseAppend(front, l.(slot := Some(slot)), base);
  }

  ghost predicate Runs(s: State, x: Session) {
    s.proc.Some? && s.proc.value.Runs(x)
  }

  /** What holds between the state a run began in and the state it is in. */
  ghost predicate Progress(s: State, t: State, x: Session, outcomes: seq<Outcome>) {
    && Runs(t, x) && SameEntries(s.layout, t.layout) && AllTruthful(t, x, outcomes)
    && x.base <= |t.landings| && Settled(t.landings, x.base) == Payments(outcomes)
  }

  lemma SameEntriesTrans(a: seq<Piece>, b: seq<Piece>, c: seq<Piece>)
    requires SameEntries(a, b) && SameEntries(b, c)
    ensures SameEntries(a, c)
  {
  }

  lemma ProgressKept(s: State, t: State, u: State, x: Session, outcomes: seq<Outcome>)
    requires Progress(s, t, x, outcomes)
    requires u.layout == t.layout && t.o.chain <= u.o.chain && Runs(u, x)
    requires x.base <= |u.landings| && Settled(u.landings, x.base) == Settled(t.landings, x.base)
    ensures Progress(s, u, x, outcomes)
  {
    hide AllTruthful, Settled, Payments;
    StillTruthful(t, u, x, outcomes);
  }

  lemma ProgressUnpaid(s: State, t: State, x: Session, outcomes: seq<Outcome>, outcome: Outcome)
    requires Progress(s, t, x, outcomes) && |outcomes| < |x.job.recipients| && !outcome.Paid?
    requires outcome.Skip? <==> x.job.recipients[|outcomes|] in x.paid
    requires outcome.Fail? ==> outcome.error.Failed?
    ensures Progress(s, t, x, outcomes + [outcome])
  {
    hide SameEntries, AllTruthful, Settled;
    OneMoreTruthful(t, x, outcomes, outcome);
    Snoc(outcomes, outcome);
  }

  // ---------- the steps of one payment ----------

  lemma AtOutside(c: Codec, s0: State, log: seq<Event>, o: Outside, s: State)
    requires At(c, s0, log, o, s)
    ensures o == s.o
  {
    hide Reaches, Inv;
  }

  /** Where the protocol stands between two recipients. */
  ghost predicate Between(s: State, x: Session, last: Hash, streak: nat, i: nat) {
    && Runs(s, x) && x.base <= |s.landings|
    && var p := s.proc.value;
    && p.last == last && p.streak == streak && p.next <= i && (p.phase.Ready? || p.phase.Trying?)
  }

  lemma BetweenLater(s: State, x: Session, last: Hash, streak: nat, i: nat)
    requires Between(s, x, last, streak, i)
    ensures Between(s, x, last, streak, i + 1)
  {
  }

  /** Recipient i is being paid. */
  ghost predicate Paying(s: State, x: Session, last: Hash, streak: nat, i: nat) {
    && Between(s, x, last, streak, i + 1) && s.proc.value.phase == Trying(i) && s.proc.value.next == i + 1
    && i < |x.job.recipients| && x.job.recipients[i] !in x.paid
  }

  lemma AttemptLegal(c: Codec, s0: State, log: seq<Event>, o: Outside, s: State, x: Session, last: Hash, streak: nat,
                     i: nat)
    returns (t: State)
    requires At(c, s0, log, o, s) && Between(s, x, last, streak, i)
    requires i < |x.job.recipients| && x.job.recipients[i] !in x.paid && (x.limit > 0 ==> streak < x.limit)
    ensures At(c, s0, log + [Attempted(i)], o, t) && Paying(t, x, last, streak + 1, i) && Runs(t, x)
    ensures x.base <= |t.landings| && t.landings == s.landings && t.layout == s.layout && t.o == s.o
  {
    hide At;
    AtOutside(c, s0, log, o, s);
    Advance(c, s0, log, o, s, Attempted(i));
    t := After(c, s, Attempted(i));
  }

  /** The send to recipient i was acknowledged and awaits its record. */
  ghost predicate Acknowledged(s: State, x: Session, i: nat, b: Block) {
    && Runs(s, x) && x.base < |s.landings|
    && var p := s.proc.value;
    && p.last == HashOf(b) && p.streak == 0 && p.next == i + 1 && p.phase == Acked(i, b)
    && i < |x.job.recipients| && x.job.recipients[i] !in x.paid
    && s.landings[|s.landings| - 1] == Landing(x.job.from, x.job.to, b, None)
    && ReallyPaid(s.o.chain, x.job, x.job.recipients[i], HashOf(b))
    && b.body == Send(x.job.recipients[i], x.job.amount, x.job.zts)
  }

  /** A publish is a step of the protocol, whether it landed and whatever was reported. */
  lemma PublishLegal(c: Codec, s0: State, log: seq<Event>, o: Outside, s: State, x: Session, last: Hash, streak: nat,
                     i: nat, b: Block, landed: bool, acked: bool)
    returns (t: State)
    requires At(c, s0, log, o, s) && Paying(s, x, last, streak, i)
    requires b.body == Send(x.job.recipients[i], x.job.amount, x.job.zts)
    requires (acked ==> landed) && (landed ==> Lands(o, b)) && (last != ZeroHash ==> b.previous == last)
    ensures var ev := Published(b, landed, acked); At(c, s0, log + [ev], Effect(o, ev), t)
    ensures t.layout == s.layout && s.o.chain <= t.o.chain && Runs(t, x)
    ensures x.base <= |t.landings| && Settled(t.landings, x.base) == Settled(s.landings, x.base)
    ensures t.landings == if landed then s.landings + [Landing(x.job.from, x.job.to, b, None)] else s.landings
    ensures if acked then Acknowledged(t, x, i, b) else Between(t, x, last, streak, i + 1)
  {
    hide At, Loose;
    AtOutside(c, s0, log, o, s);
    var ev := Published(b, landed, acked);
    Advance(c, s0, log, o, s, ev);
    t := After(c, s, ev);
    Invariant.LooseAppend(s.landings, Landing(x.job.from, x.job.to, b, None), x.base);
  }

  /** Recording an acknowledged send is a run of the protocol however far it gets; once the record
      is synced there is one more payment. */
  lemma RecordPayment(c: Codec, s0: State, log: seq<Event>, o: Outside, s: State, t: State, x: Session,
                      outcomes: seq<Outcome>, b: Block, e: Entry, written: string, synced: bool)
    returns (u: State)
    requires At(c, s0, log, o, t) && Acknowledged(t, x, |outcomes|, b) && Progress(s, t, x, outcomes)
    requires e == Entry(x.job.Run(), |outcomes| + 1, x.job.recipients[|outcomes|], x.job.amount, x.job.zts, HashOf(b),
                        e.time)
    requires written <= Line(c, e) && (synced ==> written == Line(c, e))
    ensures var file := o.file + written;
            At(c, s0, log + Recorder.RecordEvents(c, e, written, synced),
               o.(file := file, durable := if synced then |file| else o.durable), u)
    ensures if synced then
              Between(u, x, HashOf(b), 0, |outcomes| + 1) && Progress(s, u, x, outcomes + [Paid(HashOf(b))])
            else Progress(s, u, x, outcomes)
  {
    hide At, SameEntries, AllTruthful, Settled, Marked, ReallyPaid, Recorder.RecordEvents, Line;
    u := Recorder.RecordLegal(c, s0, log, o, t, e, written, synced);
    SameEntriesTrans(s.layout, t.layout, u.layout);
    AtOutside(c, s0, log, o, t);
    AtOutside(c, s0, log + Recorder.RecordEvents(c, e, written, synced),
              o.(file := o.file + written, durable := if synced then |o.file + written| else o.durable), u);
    StillTruthful(t, u, x, outcomes);
    if synced {
      SettledOnSync(t.landings, u.landings, x.base, |u.layout| - 1);
      OneMoreTruthful(u, x, outcomes, Paid(HashOf(b)));
      Snoc(outcomes, Paid(HashOf(b)));
    }
  }

  /** Recipient i is either marked or attempted. */
  lemma AbsentMore(recipients: seq<Address>, paid: map<Address, Hash>, i: nat)
    requires i < |recipients|
    ensures Absent(recipients, paid, i + 1)
            == if recipients[i] in paid then Absent(recipients, paid, i) else Absent(recipients, paid, i) + [i]
  {
  }

  // ---------- what a run adds to the log ----------

  /** Between two logs the process went on, exactly these positions were attempted, and each attempt
      asked the node something. */
  ghost predicate Worked(before: seq<Event>, after: seq<Event>, asked: int, tries: seq<nat>) {
    Longer(before, after) && AttemptedIn(after) == AttemptedIn(before) + tries && asked >= |tries|
  }

  lemma NoWork(log: seq<Event>)
    ensures Worked(log, log, 0, [])
  {
  }

  lemma {:induction false} NoneAttempted(evs: seq<Event>)
    requires forall i | 0 <= i < |evs| :: !evs[i].Attempted?
    ensures AttemptedIn(evs) == []
  {
    if evs != [] {
      NoneAttempted(evs[..|evs| - 1]);
    }
  }

  lemma WorkedStep(before: seq<Event>, log: seq<Event>, asked: int, tries: seq<nat>, ev: Event)
    requires Worked(before, log, asked, tries) && ev != Stopped
    ensures Worked(before, log + [ev], if ev.Attempted? then asked + 1 else asked,
                   if ev.Attempted? then tries + [ev.i] else tries)
  {
    hide AttemptedIn, NoStop;
    AttemptedOne(log, ev);
    OneGoesOn(ev);
    LongerBy(before, log, [ev]);
  }

  lemma OneGoesOn(ev: Event)
    requires ev != Stopped
    ensures NoStop([ev])
  {
  }

  lemma WorkedRecord(before: seq<Event>, log: seq<Event>, asked: int, tries: seq<nat>,
                     c: Codec, e: Entry, written: string, synced: bool)
    requires Worked(before, log, asked, tries)
    ensures Worked(before, log + Recorder.RecordEvents(c, e, written, synced), asked, tries)
  {
    hide AttemptedIn;
    var evs := Recorder.RecordEvents(c, e, written, synced);
    NoneAttempted(evs);
    AttemptedAppend(log, evs);
    LongerBy(before, log, evs);
  }

  lemma AskedMore(before: seq<Event>, after: seq<Event>, asked: int, more: int, tries: seq<nat>)
    requires Worked(before, after, asked, tries) && more >= asked
    ensures Worked(before, after, more, tries)
  {
  }

  lemma WorkedTrans(a: seq<Event>, b: seq<Event>, c: seq<Event>, asked: int, more: int, tries: seq<nat>, i: nat)
    requires Worked(a, b, asked, tries) && Worked(b, c, more, [i])
    ensures Worked(a, c, asked + more, tries + [i])
  {
    hide AttemptedIn, Longer;
    LongerTrans(a, b, c);
  }

  // ---------- the report and the stop rule ----------

  /** The report counts the outcomes. */
  ghost predicate Booked(recipients: seq<Address>, outcomes: seq<Outcome>, amount: nat,
                         sent: nat, skipped: nat, failed: nat, total: nat, errors: seq<Failure>) {
    && |outcomes| <= |recipients|
    && sent == Payments(outcomes) && skipped == Skips(outcomes)
    && errors == Failures(recipients, outcomes) && failed == |errors|
    && total == amount * sent
  }

  lemma Book(recipients: seq<Address>, outcomes: seq<Outcome>, x: Outcome, amount: nat,
             sent: nat, skipped: nat, failed: nat, total: nat, errors: seq<Failure>)
    requires Booked(recipients, outcomes, amount, sent, skipped, failed, total, errors)
    requires |outcomes| < |recipients|
    ensures x.Skip? ==> Booked(recipients, outcomes + [x], amount, sent, skipped + 1, failed, total, errors)
    ensures x.Paid? ==> Booked(recipients, outcomes + [x], amount, sent + 1, skipped, failed, total + amount, errors)
    ensures x.Fail? ==> Booked(recipients, outcomes + [x], amount, sent, skipped, failed + 1, total,
                               errors + [Failure(recipients[|outcomes|], x.error)])
  {
    Snoc(outcomes, x);
  }

  class Report {
    var sent: nat
    var skipped: nat
    var failed: nat
    var total: nat
    var errors: seq<Failure>

    constructor ()
      ensures sent == skipped == failed == total == 0 && errors == []
    {
      sent, skipped, failed, total, errors := 0, 0, 0, 0, [];
    }

    method CountSkip(ghost recipients: seq<Address>, ghost outcomes: seq<Outcome>, ghost amount: nat)
      requires Booked(recipients, outcomes, amount, sent, skipped, failed, total, errors) && |outcomes| < |recipients|
      modifies this
      ensures Booked(recipients, outcomes + [Skip], amount, sent, skipped, failed, total, errors)
    {
      hide Booked;
      Book(recipients, outcomes, Skip, amount, sent, skipped, failed, total, errors);
      skipped := skipped + 1;
    }

    method CountFailure(ghost recipients: seq<Address>, ghost outcomes: seq<Outcome>, ghost amount: nat,
                        addr: Address, error: SendError)
      requires Booked(recipients, outcomes, amount, sent, skipped, failed, total, errors)
      requires |outcomes| < |recipients| && recipients[|outcomes|] == addr
      modifies this
      ensures Booked(recipients, outcomes + [Fail(error)], amount, sent, skipped, failed, total, errors)
    {
      hide Booked;
      Book(recipients, outcomes, Fail(error), amount, sent, skipped, failed, total, errors);
      failed := failed + 1;
      errors := errors + [Failure(addr, error)];
    }

    method CountPayment(ghost recipients: seq<Address>, ghost outcomes: seq<Outcome>, amount: nat, ghost hash: Hash)
      requires Booked(recipients, outcomes, amount, sent, skipped, failed, total, errors) && |outcomes| < |recipients|
      modifies this
      ensures Booked(recipients, outcomes + [Paid(hash)], amount, sent, skipped, failed, total, errors)
    {
      hide Booked;
      Book(recipients, outcomes, Paid(hash), amount, sent, skipped, failed, total, errors);
      sent := sent + 1;
      total := total + amount;
    }
  }

  /** With a positive limit, a run stops at exactly the first point where that many attempts in a
      row have failed. */
  ghost predicate StopsAtLimit(outcomes: seq<Outcome>, limit: int, stopped: bool) {
    limit > 0 ==>
      forall k | 0 <= k <= |outcomes| :: Streak(outcomes[..k]) >= limit <==> stopped && k == |outcomes|
  }

  lemma LimitStep(outcomes: seq<Outcome>, x: Outcome, limit: int, stopped: bool)
    requires StopsAtLimit(outcomes, limit, false)
    requires stopped <==> limit > 0 && x.Fail? && Streak(outcomes) + 1 >= limit
    ensures StopsAtLimit(outcomes + [x], limit, stopped) && (limit > 0 ==> Streak(outcomes) < limit)
    ensures Streak(outcomes + [x]) == if x.Skip? then Streak(outcomes) else if x.Paid? then 0 else Streak(outcomes) + 1
  {
    StreakSnoc(outcomes, x);
    hide Streak;
    var more := outcomes + [x];
    assert outcomes[..|outcomes|] == outcomes;
    if limit > 0 {
      forall k | 0 <= k <= |more|
        ensures Streak(more[..k]) >= limit <==> stopped && k == |more|
      {
        if k == |more| {
          assert more[..k] == more;
        } else {
          assert more[..k] == outcomes[..k];
        }
      }
    }
  }

  lemma StreakSnoc(outcomes: seq<Outcome>, x: Outcome)
    ensures Streak(outcomes + [x]) == if x.Skip? then Streak(outcomes) else if x.Paid? then 0 else Streak(outcomes) + 1
  {
    Snoc(outcomes, x);
  }

  lemma BelowLimit(outcomes: seq<Outcome>, limit: int)
    requires StopsAtLimit(outcomes, limit, false) && limit > 0
    ensures Streak(outcomes) < limit
  {
    assert outcomes[..|outcomes|] == outcomes;
  }

  // ---------- what a run leaves at risk ----------

  /** The sends a run can leave without a synced record: at most its limit on failures in a row, and
      at most one if a block had been acknowledged before it, else at most the worst that a process
      can lose from here. */
  ghost predicate Contained(s: State, t: State, x: Session, last: Hash) {
    && (x.limit > 0 ==> Loose(t.landings, x.base) <= x.limit)
    && s.proc.Some? && AtRisk(t) <= AtRisk(s) + if last != ZeroHash then 1 else WorstLoss(s.proc.value)
  }

  lemma RunIsContained(c: Codec, s0: State, log: seq<Event>, o: Outside, s: State, more: seq<Event>, o': Outside,
                       t: State, x: Session)
    requires At(c, s0, log, o, s) && At(c, s0, more, o', t) && Longer(log, more) && Runs(s, x) && Runs(t, x)
    requires s.proc.value.phase.Ready? && s.proc.value.streak == 0
    ensures Contained(s, t, x, s.proc.value.last)
  {
    hide Inv, Exec, Init, Lawful, Longer, AtRisk, Loose, NoStop, WorstLoss;
    SameRun(c, s0, log, o, s, more, o', t);
    if x.limit > 0 {
      LimitBoundsRisk(c, s0, more, t);
    }
    if s.proc.value.last != ZeroHash {
      Containment(c, s, more[|log|..]);
    } else {
      NeverMoreThanWorst(c, s, more[|log|..]);
    }
  }

  // ---------- the run ----------

  /** What a run has done by now: the outcomes are true, the stop rule was kept, and exactly the
      unmarked recipients before reached were attempted, in order, by one process. */
  ghost predicate Done(s: State, t: State, x: Session, outcomes: seq<Outcome>, reached: nat, stopped: bool,
                       before: seq<Event>, after: seq<Event>, asked: int) {
    && Progress(s, t, x, outcomes) && StopsAtLimit(outcomes, x.limit, stopped)
    && reached <= |x.job.recipients| && Worked(before, after, asked, Absent(x.job.recipients, x.paid, reached))
  }

  /** Where a run stands between two recipients. */
  ghost predicate Standing(s: State, t: State, x: Session, last: Hash, streak: nat, outcomes: seq<Outcome>,
                           before: seq<Event>, after: seq<Event>, asked: int) {
    && Done(s, t, x, outcomes, |outcomes|, false, before, after, asked)
    && Between(t, x, last, streak, |outcomes|) && streak == Streak(outcomes)
  }

  lemma BeginRun(s: State, x: Session, amount: nat, log: seq<Event>)
    requires Runs(s, x) && x.base == |s.landings|
    requires s.proc.value.phase.Ready? && s.proc.value.next == 0 && s.proc.value.streak == 0
    ensures Standing(s, s, x, s.proc.value.last, 0, [], log, log, 0)
    ensures Booked(x.job.recipients, [], amount, 0, 0, 0, 0, [])
  {
    NoWork(log);
  }

  lemma StandingDone(s: State, t: State, x: Session, last: Hash, streak: nat, outcomes: seq<Outcome>,
                     before: seq<Event>, after: seq<Event>, asked: int)
    requires Standing(s, t, x, last, streak, outcomes, before, after, asked)
    ensures Done(s, t, x, outcomes, |outcomes|, false, before, after, asked)
    ensures Between(t, x, last, streak, |outcomes|) && Progress(s, t, x, outcomes)
    ensures streak == Streak(outcomes) && (x.limit > 0 ==> streak < x.limit)
  {
    hide Streak, Between, Progress, Worked, Absent;
    if x.limit > 0 {
      BelowLimit(outcomes, x.limit);
    }
  }

  lemma StandingSkip(s: State, t: State, x: Session, last: Hash, streak: nat, outcomes: seq<Outcome>,
                     before: seq<Event>, after: seq<Event>, asked: int)
    requires Standing(s, t, x, last, streak, outcomes, before, after, asked)
    requires |outcomes| < |x.job.recipients| && x.job.recipients[|outcomes|] in x.paid
    ensures Standing(s, t, x, last, streak, outcomes + [Skip], before, after, asked)
  {
    hide Streak, Between, Progress, StopsAtLimit, Worked, Absent;
    LimitStep(outcomes, Skip, x.limit, false);
    ProgressUnpaid(s, t, x, outcomes, Skip);
    BetweenLater(t, x, last, streak, |outcomes|);
    AbsentMore(x.job.recipients, x.paid, |outcomes|);
  }

  /** A recipient was attempted, but the run ends without an outcome for it. */
  lemma StandingBroken(s: State, t: State, u: State, x: Session, last: Hash, streak: nat, outcomes: seq<Outcome>,
                       before: seq<Event>, log: seq<Event>, after: seq<Event>, asked: int, more: int)
    requires Standing(s, t, x, last, streak, outcomes, before, log, asked) && |outcomes| < |x.job.recipients|
    requires x.job.recipients[|outcomes|] !in x.paid && Worked(log, after, more, [|outcomes|])
    requires Progress(s, u, x, outcomes)
    ensures Done(s, u, x, outcomes, |outcomes| + 1, false, before, after, asked + more)
  {
    hide Streak, Between, Progress, StopsAtLimit, Worked, Absent;
    WorkedTrans(before, log, after, asked, more, Absent(x.job.recipients, x.paid, |outcomes|), |outcomes|);
    AbsentMore(x.job.recipients, x.paid, |outcomes|);
  }

  /** A recipient was attempted and has its outcome: the run goes on unless that was one failure in
      a row too many. */
  lemma StandingNext(s: State, t: State, u: State, x: Session, last: Hash, next: Hash, streak: nat,
                     outcomes: seq<Outcome>, outcome: Outcome, before: seq<Event>, log: seq<Event>, after: seq<Event>,
                     asked: int, more: int, stopped: bool)
    requires Standing(s, t, x, last, streak, outcomes, before, log, asked) && |outcomes| < |x.job.recipients|
    requires x.job.recipients[|outcomes|] !in x.paid && Worked(log, after, more, [|outcomes|]) && !outcome.Skip?
    requires Between(u, x, next, if outcome.Paid? then 0 else streak + 1, |outcomes| + 1)
    requires Progress(s, u, x, if outcome.Paid? then outcomes + [outcome] else outcomes)
    requires stopped <==> x.limit > 0 && outcome.Fail? && streak + 1 >= x.limit
    requires outcome.Fail? ==> outcome.error.Failed?
    ensures Done(s, u, x, outcomes + [outcome], |outcomes| + 1, stopped, before, after, asked + more)
    ensures !stopped ==>
      Standing(s, u, x, next, if outcome.Paid? then 0 else streak + 1, outcomes + [outcome],
               before, after, asked + more)
    ensures outcome.Fail? ==> Streak(outcomes + [outcome]) == streak + 1
  {
    hide Streak, Between, Progress, StopsAtLimit, Worked, Absent;
    WorkedTrans(before, log, after, asked, more, Absent(x.job.recipients, x.paid, |outcomes|), |outcomes|);
    AbsentMore(x.job.recipients, x.paid, |outcomes|);
    LimitStep(outcomes, outcome, x.limit, stopped);
    if outcome.Fail? {
      ProgressUnpaid(s, u, x, outcomes, outcome);
    }
  }

  lemma MoreAnswers(before: seq<Worlds.Answer>, after: seq<Worlds.Answer>, last: Hash, body: Body, did: Attempt)
    requires Accounted(before, after, last, body, did)
    ensures |after| > |before|
  {
  }

  lemma PayingOne(s: State, x: Session, last: Hash, streak: nat, i: nat)
    requires Paying(s, x, last, streak, i)
    ensures Between(s, x, last, streak, i + 1)
  {
    hide Between;
  }

  lemma DoneRuns(s: State, t: State, x: Session, outcomes: seq<Outcome>, reached: nat, stopped: bool,
                 before: seq<Event>, after: seq<Event>, asked: int)
    requires Done(s, t, x, outcomes, reached, stopped, before, after, asked)
    ensures Longer(before, after) && Runs(t, x) && SameEntries(s.layout, t.layout)
  {
    hide Longer, AttemptedIn, AllTruthful, Absent, StopsAtLimit;
  }

  /** Recipient i is attempted. */
  lemma AttemptStep(c: Codec, s0: State, start: State, log: seq<Event>, o: Outside, s: State, x: Session, last: Hash,
                    streak: nat, outcomes: seq<Outcome>)
    returns (t: State)
    requires At(c, s0, log, o, s) && Between(s, x, last, streak, |outcomes|) && Progress(start, s, x, outcomes)
    requires |outcomes| < |x.job.recipients| && x.job.recipients[|outcomes|] !in x.paid
    requires x.limit > 0 ==> streak < x.limit
    ensures var i := |outcomes|;
            && At(c, s0, log + [Attempted(i)], o, t) && Paying(t, x, last, streak + 1, i)
            && Progress(start, t, x, outcomes) && Worked(log, log + [Attempted(i)], 1, [i])
  {
    hide At, Progress, Between, Paying, Runs, Worked;
    NoWork(log);
    t := AttemptLegal(c, s0, log, o, s, x, last, streak, |outcomes|);
    ProgressKept(start, s, t, x, outcomes);
    WorkedStep(log, log, 0, [], Attempted(|outcomes|));
    assert [] + [|outcomes|] == [|outcomes|];
  }

  /** The send to the recipient being paid, whatever became of it. */
  lemma SendStep(c: Codec, s0: State, start: State, s: State, x: Session, streak: nat, outcomes: seq<Outcome>,
                 log0: seq<Event>, seen: View, now: View, r: Result<Hash, SendError>, did: Attempt)
    returns (t: State)
    requires At(c, s0, seen.log, seen.o, s) && Paying(s, x, seen.last, streak, |outcomes|)
    requires Progress(start, s, x, outcomes) && Worked(log0, seen.log, 1, [|outcomes|])
    requires |outcomes| < |x.job.recipients|
    requires OneBlock(seen, now, Send(x.job.recipients[|outcomes|], x.job.amount, x.job.zts), r, did)
    ensures At(c, s0, now.log, now.o, t) && Progress(start, t, x, outcomes)
    ensures Worked(log0, now.log, |now.answers| - |seen.answers|, [|outcomes|])
    ensures r.Err? ==> Between(t, x, now.last, streak, |outcomes| + 1)
    ensures r.Ok? ==> did.Tried? && r.value == HashOf(did.block) == now.last
                      && Acknowledged(t, x, |outcomes|, did.block)
  {
    hide At, Progress, Between, Paying, Acknowledged, Runs, Worked, Settled, Lands, Effect, Accounted;
    var i := |outcomes|;
    var body := Send(x.job.recipients[i], x.job.amount, x.job.zts);
    t := s;
    PayingOne(s, x, seen.last, streak, i);
    MoreAnswers(seen.answers, now.answers, seen.last, body, did);
    if did.Tried? {
      BuiltOnLast(seen.answers, now.answers, seen.last, body, did);
      t := PublishLegal(c, s0, seen.log, seen.o, s, x, seen.last, streak, i, did.block, did.landed, r.Ok?);
      WorkedStep(log0, seen.log, 1, [i], Published(did.block, did.landed, r.Ok?));
      ProgressKept(start, s, t, x, outcomes);
    }
    AskedMore(log0, now.log, 1, |now.answers| - |seen.answers|, [i]);
  }

  // ---------- time and blame ----------

  /** A pause followed each payment, except perhaps the last one. */
  predicate Paced(start: nat, now: nat, delay: nat, sent: nat, last: bool) {
    now >= start + delay * (if last && sent > 0 then sent - 1 else sent)
  }

  lemma PacedLater(start: nat, now: nat, later: nat, delay: nat, sent: nat, last: bool)
    requires Paced(start, now, delay, sent, false) && later >= now
    ensures Paced(start, later, delay, sent, last)
  {
    assert sent > 0 ==> delay * sent == delay * (sent - 1) + delay;
  }

  lemma PacedPaid(start: nat, now: nat, later: nat, delay: nat, sent: nat, last: bool)
    requires Paced(start, now, delay, sent, false) && later >= now && (!last ==> later >= now + delay)
    ensures Paced(start, later, delay, sent + 1, last)
  {
    assert delay * (sent + 1) == delay * sent + delay;
  }

  /** Payments were paced, and a failed send has a cause: one of the node's calls failed, or the wait
      for it was over. */
  predicate Orderly(outcomes: seq<Outcome>, delay: nat, wait: nat, start: nat, now: nat, before: nat, calls: nat,
                    last: bool) {
    && start <= now && before <= calls && Paced(start, now, delay, Payments(outcomes), last)
    && forall k | 0 <= k < |outcomes| && outcomes[k].Fail? :: calls > before || now > start + wait
  }

  lemma OrderlyLater(outcomes: seq<Outcome>, delay: nat, wait: nat, start: nat, now: nat, later: nat,
                     before: nat, calls: nat, more: nat, last: bool)
    requires Orderly(outcomes, delay, wait, start, now, before, calls, false) && now <= later && calls <= more
    ensures Orderly(outcomes, delay, wait, start, later, before, more, last)
  {
    hide Paced, Payments;
    PacedLater(start, now, later, delay, Payments(outcomes), last);
  }

  lemma OrderlyMore(outcomes: seq<Outcome>, x: Outcome, delay: nat, wait: nat, start: nat, now: nat, later: nat,
                    before: nat, calls: nat, more: nat, last: bool)
    requires Orderly(outcomes, delay, wait, start, now, before, calls, false) && now <= later && calls <= more
    requires x.Fail? ==> more > calls || later > now + wait
    requires x.Paid? && !last ==> later >= now + delay
    ensures Orderly(outcomes + [x], delay, wait, start, later, before, more, last)
  {
    hide Paced;
    Snoc(outcomes, x);
    PacedLater(start, now, later, delay, Payments(outcomes), last);
    PacedPaid(start, now, if x.Paid? && !last then later else later + delay, delay, Payments(outcomes), last);
    if x.Paid? {
      PacedPaid(start, now, later, delay, Payments(outcomes), last);
    }
  }

  lemma NoOutcomes(delay: nat, wait: nat, now: nat, calls: nat, last: bool)
    ensures Orderly([], delay, wait, now, now, calls, calls, last)
  {
  }

  /** How a run ends: at once if the user had interrupted before; by an interruption only if there was
      one, by the journal exactly if the disk refused a record, and neither when everyone was dealt with;
      completed only with everyone dealt with. All those reached were dealt with, but for one that was
      cut off. */
  predicate Ended(exit: Exit, dealt: nat, reached: nat, all: nat, before: bool, cancelled: bool, refused: bool) {
    && (before && all > 0 ==> exit.Interrupted? && reached == 0)
    && (exit.Interrupted? ==> cancelled) && (exit.JournalFailed? <==> refused)
    && (exit.Interrupted? || exit.JournalFailed? ==> dealt < all)
    && (exit.Completed? ==> dealt == all)
    && (reached == dealt || (reached == dealt + 1 && (exit.Interrupted? || exit.JournalFailed?)))
  }

  /** One failure in a row too many. */
  predicate TooMany(outcome: Outcome, streak: nat, limit: int) {
    limit > 0 && outcome.Fail? && streak + 1 >= limit
  }

  /** What an attempt leaves behind: nothing more to do if it was cut off, by the journal or by the
      user; else its outcome, after which the run goes on unless it was one failure too many. */
  ghost predicate Attempted1(s: State, t: State, x: Session, last: Hash, streak: nat, outcomes: seq<Outcome>,
                           outcome: Option<Outcome>, before: seq<Event>, after: seq<Event>, asked: int)
  {
    if outcome.None? || outcome.value == Fail(Canceled) then
      Done(s, t, x, outcomes, |outcomes| + 1, false, before, after, asked)
    else
      var o := outcome.value;
      && !o.Skip?
      && Done(s, t, x, outcomes + [o], |outcomes| + 1, TooMany(o, streak, x.limit), before, after, asked)
      && (o.Fail? ==> Streak(outcomes + [o]) == streak + 1)
      && (!TooMany(o, streak, x.limit) ==>
            Standing(s, t, x, last, if o.Paid? then 0 else streak + 1, outcomes + [o], before, after, asked))
  }

  class Airdrop {
    const sender: Sender
    const journal: Recorder.Journal
    const zts: Zts
    const amount: nat
    const delay: nat
    const stopAfterErrors: int

    constructor (sender: Sender, journal: Recorder.Journal, zts: Zts, amount: nat, delay: nat, stopAfterErrors: int)
      ensures this.sender == sender && this.journal == journal && this.zts == zts && this.amount == amount
      ensures this.delay == delay && this.stopAfterErrors == stopAfterErrors
    {
      this.sender, this.journal, this.zts, this.amount := sender, journal, zts, amount;
      this.delay, this.stopAfterErrors := delay, stopAfterErrors;
    }

    /** Wait before the next payment, if there is one, unless the user has interrupted. */
    method Pause(remaining: nat) returns (done: bool)
      modifies sender.clock, journal.world`cancelled
      ensures done ==> journal.world.cancelled
      ensures delay == 0 || remaining == 0 ==> !done && sender.clock.now == old(sender.clock.now)
      ensures old(journal.world.cancelled) && delay > 0 && remaining > 0 ==>
        done && sender.clock.now == old(sender.clock.now)
      ensures old(journal.world.cancelled) ==> journal.world.cancelled
      ensures sender.clock.now >= old(sender.clock.now)
      ensures !done && remaining > 0 ==> sender.clock.now >= old(sender.clock.now) + delay
    {
      done := false;
      if delay > 0 && remaining > 0 {
        done := journal.world.Done();
        if !done {
          sender.clock.Sleep(delay);
        }
      }
    }

    /** Send to recipient i and record the payment: the outcome, or none if the record failed. */
    method Pay(i: nat, addr: Address, ghost s0: State, ghost start: State, ghost s: State, ghost x: Session,
               ghost streak: nat, ghost outcomes: seq<Outcome>)
      returns (outcome: Option<Outcome>, ghost t: State)
      requires sender.world == journal.world && journal.Idle()
      requires At(journal.codec, s0, journal.world.log, journal.world.Snapshot(), s)
      requires Between(s, x, sender.lastHash, streak, i) && Progress(start, s, x, outcomes)
      requires i == |outcomes| < |x.job.recipients| && x.job.recipients[i] == addr && addr !in x.paid
      requires x.job.zts == zts && x.job.amount == amount && x.job.Run() == journal.run
      requires (x.limit > 0 ==> streak < x.limit) && !journal.world.cancelled
      modifies sender`lastHash, journal`buffer, journal`broken, sender.clock
      modifies journal.world`chain, journal.world`funds, journal.world`file, journal.world`durable, journal.world`log
      modifies journal.world`answers, journal.world`cancelled, journal.world`refused, journal.world`failures
      modifies journal.world`late
      ensures journal.world.late == old(journal.world.late)
      ensures outcome.Some? && outcome.value.Fail? ==>
        Blamed<Hash>(Err(outcome.value.error), journal.world.cancelled,
                     journal.world.failures > old(journal.world.failures),
                     sender.clock.now > old(sender.clock.now) + sender.frontierWait)
      ensures journal.world.failures >= old(journal.world.failures) && sender.clock.now >= old(sender.clock.now)
      ensures At(journal.codec, s0, journal.world.log, journal.world.Snapshot(), t)
      ensures Worked(old(journal.world.log), journal.world.log,
                     |journal.world.answers| - |old(journal.world.answers)|, [i])
      ensures outcome.None? <==> journal.world.refused > old(journal.world.refused)
      ensures journal.world.refused >= old(journal.world.refused)
      ensures outcome.None? ==> Progress(start, t, x, outcomes) && (journal.buffer == "" || journal.broken)
      ensures outcome.Some? ==>
        && !outcome.value.Skip? && journal.Idle()
        && Between(t, x, sender.lastHash, if outcome.value.Paid? then 0 else streak + 1, i + 1)
        && Progress(start, t, x, if outcome.value.Paid? then outcomes + [outcome.value] else outcomes)
    {
      hide At, Progress, Between, Paying, Acknowledged, Worked, OneBlock, Line, Recorder.RecordEvents;
      ghost var c, world, log0, asked0 := journal.codec, journal.world, journal.world.log, |journal.world.answers|;
      t := AttemptStep(c, s0, start, log0, world.Snapshot(), s, x, sender.lastHash, streak, outcomes);
      journal.world.Mark(Attempted(i));
      ghost var seen := sender.Seen();
      var hash, did := sender.Send(addr, amount, zts);
      t := SendStep(c, s0, start, t, x, streak + 1, outcomes, log0, seen, sender.Seen(), hash, did);
      if hash.Err? {
        return Some(Fail(hash.error)), t;
      }
      ghost var log, o := world.log, world.Snapshot();
      var ok, e, written := journal.Record(i + 1, addr, amount, zts, hash.value);
      t := RecordPayment(c, s0, log, o, start, t, x, outcomes, did.block, e, written, ok);
      WorkedRecord(log0, log, |world.answers| - asked0, [i], c, e, written, ok);
      return if ok then Some(Paid(hash.value)) else None, t;
    }

    /** Pay recipient i as part of a run. */
    method PayNext(i: nat, addr: Address, ghost s0: State, ghost start: State, ghost s: State, ghost x: Session,
                   ghost streak: nat, ghost outcomes: seq<Outcome>, ghost before: seq<Event>, ghost asked: int)
      returns (outcome: Option<Outcome>, ghost t: State)
      requires sender.world == journal.world && journal.Idle()
      requires At(journal.codec, s0, journal.world.log, journal.world.Snapshot(), s)
      requires Standing(start, s, x, sender.lastHash, streak, outcomes, before, journal.world.log,
                        |journal.world.answers| - asked)
      requires i == |outcomes| < |x.job.recipients| && x.job.recipients[i] == addr && addr !in x.paid
      requires x.job.zts == zts && x.job.amount == amount && x.job.Run() == journal.run
      requires !journal.world.cancelled
      modifies sender`lastHash, journal`buffer, journal`broken, sender.clock
      modifies journal.world`chain, journal.world`funds, journal.world`file, journal.world`durable, journal.world`log
      modifies journal.world`answers, journal.world`cancelled, journal.world`refused, journal.world`failures
      modifies journal.world`late
      ensures At(journal.codec, s0, journal.world.log, journal.world.Snapshot(), t)
      ensures Attempted1(start, t, x, sender.lastHash, streak, outcomes, outcome, before, journal.world.log,
                       |journal.world.answers| - asked)
      ensures journal.world.late == old(journal.world.late)
      ensures outcome == Some(Fail(Canceled)) ==> journal.world.cancelled
      ensures outcome.Some? && outcome.value.Fail? && outcome.value.error.Failed? ==>
        journal.world.failures > old(journal.world.failures)
        || sender.clock.now > old(sender.clock.now) + sender.frontierWait
      ensures journal.world.failures >= old(journal.world.failures) && sender.clock.now >= old(sender.clock.now)
      ensures outcome.None? <==> journal.world.refused > old(journal.world.refused)
      ensures journal.world.refused >= old(journal.world.refused)
      ensures outcome.None? ==> journal.buffer == "" || journal.broken
      ensures outcome.Some? ==> journal.Idle()
    {
      hide At, Done, Standing, Progress, Between, Runs, Streak, Worked, SameEntries, RunKeyOf;
      ghost var log, last, asked1 := journal.world.log, sender.lastHash, |journal.world.answers| - asked;
      StandingDone(start, s, x, last, streak, outcomes, before, log, asked1);
      outcome, t := Pay(i, addr, s0, start, s, x, streak, outcomes);
      ghost var more := |journal.world.answers| - asked - asked1;
      if outcome.None? || outcome.value == Fail(Canceled) {
        StandingBroken(start, s, t, x, last, streak, outcomes, before, log, journal.world.log, asked1, more);
      } else {
        StandingNext(start, s, t, x, last, sender.lastHash, streak, outcomes, outcome.value, before, log,
                     journal.world.log, asked1, more, TooMany(outcome.value, streak, x.limit));
      }
    }

    /** One turn of the run for a recipient without a mark: pay, count the outcome, and pause. stop says
        that the run ends here, streak how many failures in a row there are now. */
    method Deal(i: nat, recipients: seq<Address>, rep: Report, consecutive: nat, ghost s0: State, ghost s: State,
                ghost before: State, ghost x: Session, ghost outcomes: seq<Outcome>, ghost log0: seq<Event>,
                ghost asked0: int, ghost start: nat, ghost calls0: nat)
      returns (stop: Option<Exit>, streak: nat, ghost more: seq<Outcome>, ghost t: State)
      requires sender.world == journal.world && journal.Idle() && x.limit == stopAfterErrors
      requires At(journal.codec, s0, journal.world.log, journal.world.Snapshot(), before)
      requires Standing(s, before, x, sender.lastHash, consecutive, outcomes, log0, journal.world.log,
                        |journal.world.answers| - asked0)
      requires x.job.zts == zts && x.job.amount == amount && x.job.Run() == journal.run
      requires i == |outcomes| < |recipients| && recipients == x.job.recipients && recipients[i] !in x.paid
      requires Booked(recipients, outcomes, amount, rep.sent, rep.skipped, rep.failed, rep.total, rep.errors)
      requires Orderly(outcomes, delay, sender.frontierWait, start, sender.clock.now, calls0, journal.world.failures,
                       false)
      requires !journal.world.cancelled
      modifies sender`lastHash, journal`buffer, journal`broken, sender.clock, rep
      modifies journal.world`chain, journal.world`funds, journal.world`file, journal.world`durable, journal.world`log
      modifies journal.world`answers, journal.world`cancelled, journal.world`refused, journal.world`failures
      modifies journal.world`late
      ensures At(journal.codec, s0, journal.world.log, journal.world.Snapshot(), t)
      ensures if stop.None? then
                journal.Idle() && |more| == i + 1
                && Standing(s, t, x, sender.lastHash, streak, more, log0, journal.world.log,
                            |journal.world.answers| - asked0)
              else
                Done(s, t, x, more, i + 1, stop.value.TooManyFailures?, log0, journal.world.log,
                     |journal.world.answers| - asked0)
      ensures Booked(recipients, more, amount, rep.sent, rep.skipped, rep.failed, rep.total, rep.errors)
      ensures Orderly(more, delay, sender.frontierWait, start, sender.clock.now, calls0, journal.world.failures,
                      stop.Some? || i + 1 == |recipients|)
      ensures stop.Some? ==> Ended(stop.value, |more|, i + 1, |recipients|, false, journal.world.cancelled,
                                   journal.world.refused > old(journal.world.refused))
                             && !stop.value.Completed?
      ensures stop.None? ==> journal.world.refused == old(journal.world.refused)
      ensures stop.Some? && stop.value.TooManyFailures? ==> stop.value.n == Streak(more) == stopAfterErrors > 0
      ensures journal.world.refused >= old(journal.world.refused) && (journal.buffer == "" || journal.broken)
      ensures journal.world.late == old(journal.world.late)
    {
      hide At, Done, Standing, Booked, Streak, RunKeyOf, Orderly;
      ghost var now, calls, wait := sender.clock.now, journal.world.failures, sender.frontierWait;
      StandingDone(s, before, x, sender.lastHash, consecutive, outcomes, log0, journal.world.log,
                   |journal.world.answers| - asked0);
      var outcome;
      outcome, t := PayNext(i, recipients[i], s0, s, before, x, consecutive, outcomes, log0, asked0);
      ghost var final, later, failed := i + 1 == |recipients|, sender.clock.now, journal.world.failures;
      more, streak := outcomes, consecutive;
      if outcome.None? || outcome.value == Fail(Canceled) {
        OrderlyLater(outcomes, delay, wait, start, now, later, calls0, calls, failed, true);
        return Some(if outcome.None? then JournalFailed else Interrupted), streak, more, t;
      }
      more := outcomes + [outcome.value];
      if outcome.value.Fail? {
        rep.CountFailure(recipients, outcomes, amount, recipients[i], outcome.value.error);
        streak := consecutive + 1;
        var tooMany := stopAfterErrors > 0 && streak >= stopAfterErrors;
        OrderlyMore(outcomes, outcome.value, delay, wait, start, now, later, calls0, calls, failed, tooMany || final);
        return if tooMany then Some(TooManyFailures(streak)) else None, streak, more, t;
      }
      streak := 0;
      rep.CountPayment(recipients, outcomes, amount, outcome.value.hash);
      var done := Pause(|recipients| - (i + 1));
      OrderlyMore(outcomes, outcome.value, delay, wait, start, now, sender.clock.now, calls0, calls, failed,
                  done || final);
      if done {
        StandingDone(s, t, x, sender.lastHash, 0, more, log0, journal.world.log, |journal.world.answers| - asked0);
        return Some(Interrupted), streak, more, t;
      }
      return None, streak, more, t;
    }

    /** Pay each recipient that has no mark, one at a time, recording each payment before the next
        is built. Whatever the node, the disk and the user do, what is added to the log is part of
        one process of the protocol; the report and the outcomes are true of the chain and the
        journal; exactly the recipients before reached that have no mark were attempted, in order;
        what is left without a record is contained; and no block is begun once the user has
        interrupted. */
    method Run(recipients: seq<Address>, alreadyPaid: map<Address, Hash>, ghost s0: State, ghost s: State,
               ghost x: Session)
      returns (rep: Report, exit: Exit, ghost outcomes: seq<Outcome>, ghost reached: nat, ghost t: State)
      requires sender.world == journal.world && journal.Idle()
      requires At(journal.codec, s0, journal.world.log, journal.world.Snapshot(), s)
      requires Runs(s, x) && x.limit == stopAfterErrors && x.paid == alreadyPaid && x.base == |s.landings|
      requires s.proc.value.phase.Ready? && s.proc.value.next == 0 && s.proc.value.streak == 0
      requires s.proc.value.last == sender.lastHash
      requires x.job.zts == zts && x.job.amount == amount && x.job.recipients == recipients
      requires x.job.Run() == journal.run
      modifies sender`lastHash, journal`buffer, journal`broken, sender.clock
      modifies journal.world`chain, journal.world`funds, journal.world`file, journal.world`durable, journal.world`log
      modifies journal.world`answers, journal.world`cancelled, journal.world`refused, journal.world`failures
      modifies journal.world`late
      ensures fresh(rep) && (journal.buffer == "" || journal.broken)
      ensures At(journal.codec, s0, journal.world.log, journal.world.Snapshot(), t)
      ensures Done(s, t, x, outcomes, reached, exit.TooManyFailures?, old(journal.world.log), journal.world.log,
                   |journal.world.answers| - |old(journal.world.answers)|)
      ensures Contained(s, t, x, old(sender.lastHash))
      ensures journal.world.late == old(journal.world.late)
      ensures Ended(exit, |outcomes|, reached, |recipients|, old(journal.world.cancelled), journal.world.cancelled,
                    journal.world.refused > old(journal.world.refused))
      ensures journal.world.refused >= old(journal.world.refused)
      ensures Booked(recipients, outcomes, amount, rep.sent, rep.skipped, rep.failed, rep.total, rep.errors)
      ensures Orderly(outcomes, delay, sender.frontierWait, old(sender.clock.now), sender.clock.now,
                      old(journal.world.failures), journal.world.failures, true)
      ensures exit.TooManyFailures? ==> exit.n == Streak(outcomes) == stopAfterErrors > 0
    {
      hide At, Done, Standing, Runs, Booked, Streak, Contained, SameEntries, Longer, RunKeyOf, Orderly;
      var world, c := journal.world, journal.codec;
      ghost var log0, asked0, start, calls0, wait := world.log, |world.answers|, sender.clock.now, world.failures,
                                                     sender.frontierWait;
      rep := new Report();
      var consecutive := 0;
      outcomes, reached, t := [], 0, s;
      BeginRun(s, x, amount, log0);
      NoOutcomes(delay, wait, start, calls0, recipients == []);
      exit := Completed;
      for i := 0 to |recipients|
        invariant |outcomes| == reached == i && journal.Idle() && exit == Completed
        invariant At(c, s0, world.log, world.Snapshot(), t)
        invariant Standing(s, t, x, sender.lastHash, consecutive, outcomes, log0, world.log, |world.answers| - asked0)
        invariant Booked(recipients, outcomes, amount, rep.sent, rep.skipped, rep.failed, rep.total, rep.errors)
        invariant world.refused == old(world.refused) && world.late == old(world.late)
        invariant old(world.cancelled) ==> world.cancelled && i == 0
        invariant Orderly(outcomes, delay, wait, start, sender.clock.now, calls0, world.failures, i == |recipients|)
      {
        ghost var now, calls := sender.clock.now, world.failures;
        StandingDone(s, t, x, sender.lastHash, consecutive, outcomes, log0, world.log, |world.answers| - asked0);
        var done := world.Done();
        if done {
          OrderlyLater(outcomes, delay, wait, start, now, now, calls0, calls, calls, true);
          exit := Interrupted;
          break;
        }
        if recipients[i] in alreadyPaid {
          StandingSkip(s, t, x, sender.lastHash, consecutive, outcomes, log0, world.log, |world.answers| - asked0);
          OrderlyMore(outcomes, Skip, delay, wait, start, now, now, calls0, calls, calls, i + 1 == |recipients|);
          rep.CountSkip(recipients, outcomes, amount);
          outcomes, reached := outcomes + [Skip], i + 1;
          continue;
        }

        var stop;
        stop, consecutive, outcomes, t := Deal(i, recipients, rep, consecutive, s0, s, t, x, outcomes, log0, asked0,
                                               start, calls0);
        reached := i + 1;
        if stop.Some? {
          exit := stop.value;
          break;
        }
      }
      if exit.Completed? {
        StandingDone(s, t, x, sender.lastHash, consecutive, outcomes, log0, world.log, |world.answers| - asked0);
      }
      DoneRuns(s, t, x, outcomes, reached, exit.TooManyFailures?, log0, world.log, |world.answers| - asked0);
      RunIsContained(c, s0, log0, old(world.Snapshot()), s, world.log, world.Snapshot(), t, x);
    }
  }
}
