/** Pricing a run, resuming it and handing it over (plan.go). */
module Plans {
  import opened Basics
  import Decimal
  import Amount
  import Digests
  import opened Ledger
  import opened Journals
  import opened Protocol
  import opened History
  import Worlds
  import Senders
  import Recorder
  import Airdrops
  import opened Processes
  import ScanLogs
  import Replays

  datatype Token = Token(decimals: nat)

  datatype Options = Options(receive: bool, delay: nat, stopAfter: int)

  datatype Finish = Sized | DryRun | Sent

  datatype PlanError =
    | JournalRefused(why: JournalError)
    | ReceiveFailed(failed: Senders.SendError)
    | NoBalance
    | Short(missing: nat)
    | OpenFailed
    | RunEnded(exit: Airdrops.Exit)
    | SomeFailed(n: nat)

  /** The plan got past the journal. */
  predicate Began(r: Result<Finish, PlanError>) {
    r != Ok(Sized) && !(r.Err? && r.error.JournalRefused?)
  }

  /** The run took place, however it ended. */
  predicate Ran(r: Result<Finish, PlanError>) {
    r == Ok(Sent) || (r.Err? && (r.error.RunEnded? || r.error.SomeFailed?))
  }

  /** The run got to the end of the list. */
  predicate Finished(r: Result<Finish, PlanError>) {
    r == Ok(Sent) || (r.Err? && r.error.SomeFailed?)
  }

  /** What can be blamed for an error: the user interrupted; the disk refused something or the balance
      was not answered; another call to the node failed or a wait for it was over; and whether pending
      blocks were to be received. */
  datatype Causes = Causes(cancelled: bool, refused: bool, trouble: bool, receiving: bool)

  /** Every error has its cause. */
  predicate Excused(e: PlanError, c: Causes) {
    match e
    case JournalRefused(why) => why.Unreadable? ==> c.refused
    case ReceiveFailed(failed) => c.receiving && if failed.Canceled? then c.cancelled else c.trouble
    case NoBalance => c.refused
    case Short(missing) => missing > 0
    case OpenFailed => c.refused
    case RunEnded(exit) =>
      && (exit.Interrupted? ==> c.cancelled) && (exit.JournalFailed? ==> c.refused)
      && !exit.Completed? && (exit.TooManyFailures? ==> exit.n > 0 && c.trouble)
    case SomeFailed(n) => n > 0 && c.trouble
  }

  lemma ExcusedStill(e: PlanError, c: Causes, d: Causes)
    requires Excused(e, c) && (c.cancelled ==> d.cancelled) && (c.refused ==> d.refused)
    requires (c.trouble ==> d.trouble) && (c.receiving ==> d.receiving)
    ensures Excused(e, d)
  {
  }

  lemma JournalExcused(why: JournalError, c: Causes)
    requires why.Unreadable? ==> c.refused
    ensures Excused(JournalRefused(why), c)
  {
  }

  /** A run that ended early, or in which somebody failed, has its cause. */
  lemma RunExcused(exit: Airdrops.Exit, recipients: seq<Address>, outcomes: seq<Airdrops.Outcome>, amount: nat,
                   sent: nat, skipped: nat, failed: nat, total: nat, errors: seq<Airdrops.Failure>, limit: int,
                   delay: nat, wait: nat, start: nat, now: nat, before: nat, calls: nat, last: bool, c: Causes)
    requires (exit.Interrupted? ==> c.cancelled) && (exit.JournalFailed? ==> c.refused)
    requires exit.TooManyFailures? ==> exit.n == Airdrops.Streak(outcomes) == limit > 0
    requires Airdrops.Booked(recipients, outcomes, amount, sent, skipped, failed, total, errors)
    requires Airdrops.Orderly(outcomes, delay, wait, start, now, before, calls, last)
    requires calls > before || now > start + wait ==> c.trouble
    ensures !exit.Completed? ==> Excused(RunEnded(exit), c)
    ensures failed > 0 ==> Excused(SomeFailed(failed), c)
  {
    hide Airdrops.Paced, Airdrops.Payments, Airdrops.Skips;
    if exit.TooManyFailures? {
      var k := StreakFails(outcomes);
    }
    if failed > 0 {
      var k := SomeoneFailed(recipients, outcomes);
    }
  }

  lemma {:induction false} StreakFails(outcomes: seq<Airdrops.Outcome>) returns (k: nat)
    requires Airdrops.Streak(outcomes) > 0
    ensures k < |outcomes| && outcomes[k].Fail?
  {
    var n := |outcomes| - 1;
    k := n;
    if outcomes[n].Skip? {
      k := StreakFails(outcomes[..n]);
    }
  }

  lemma {:induction false} SomeoneFailed(recipients: seq<Address>, outcomes: seq<Airdrops.Outcome>) returns (k: nat)
    requires |outcomes| <= |recipients| && Airdrops.Failures(recipients, outcomes) != []
    ensures k < |outcomes| && outcomes[k].Fail?
  {
    var n := |outcomes| - 1;
    k := n;
    if !outcomes[n].Fail? {
      k := SomeoneFailed(recipients, outcomes[..n]);
    }
  }

  // ---------- what became of the recipients ----------

  datatype Tally = Tally(sent: nat, skipped: nat, failed: nat) {
    function Dealt(): nat {
      sent + skipped + failed
    }
  }

  /** The run was cut off before the end of the list. */
  predicate CutOff(r: Result<Finish, PlanError>) {
    r.Err? && r.error.RunEnded? && (r.error.exit.Interrupted? || r.error.exit.JournalFailed?)
  }

  /** Sent counts the sends of this process with a synced record, skipped the recipients it passed that
      were in its resume map, and with those that failed that is everyone it reached, but for one it was
      cut off at; it was cut off only with somebody left. */
  ghost predicate Tallied(n: Tally, t: State, x: Session, reached: nat, cutOff: bool) {
    && x.base <= |t.landings| && n.sent == Airdrops.Settled(t.landings, x.base)
    && n.Dealt() <= |x.job.recipients|
    && n.skipped == n.Dealt() - |Airdrops.Absent(x.job.recipients, x.paid, n.Dealt())|
    && (n.Dealt() == reached || (n.Dealt() + 1 == reached && cutOff))
    && (cutOff ==> n.Dealt() < |x.job.recipients|)
  }

  /** The same, seen from before the process: who is skipped has a record. */
  ghost predicate Reported(n: Tally, s: State, t: State, job: Job, reached: nat, cutOff: bool) {
    && |s.landings| <= |t.landings| && n.sent == Airdrops.Settled(t.landings, |s.landings|)
    && n.Dealt() <= |job.recipients|
    && n.skipped == n.Dealt() - |Unmarked(job, s.layout, n.Dealt())|
    && (n.Dealt() == reached || (n.Dealt() + 1 == reached && cutOff))
    && (cutOff ==> n.Dealt() < |job.recipients|)
  }

  lemma TalliedIsReported(n: Tally, s: State, t: State, u: State, x: Session, reached: nat, cutOff: bool)
    requires Tallied(n, t, x, reached, cutOff) && x.base == |s.landings| && u.landings == t.landings
    requires forall a :: a in x.paid <==> Marked(s.layout, x.job.Run(), a)
    ensures Reported(n, s, u, x.job, reached, cutOff)
  {
    hide Marked, Unmarked, Airdrops.Absent, Airdrops.Settled;
    UnmarkedIsAbsent(x.job, s.layout, x.paid, n.Dealt());
  }

  lemma {:induction false} SkipsAreMarked(t: State, x: Session, outcomes: seq<Airdrops.Outcome>)
    requires Airdrops.AllTruthful(t, x, outcomes)
    ensures Airdrops.Skips(outcomes) + |Airdrops.Absent(x.job.recipients, x.paid, |outcomes|)| == |outcomes|
  {
    if outcomes != [] {
      hide Marked, ReallyPaid;
      var n := |outcomes| - 1;
      assert Airdrops.Truthful(t, x, x.job.recipients[n], outcomes[n]);
      SkipsAreMarked(t, x, outcomes[..n]);
    }
  }

  lemma RunTallied(s: State, t: State, x: Session, outcomes: seq<Airdrops.Outcome>, reached: nat, cutOff: bool,
                   sent: nat, skipped: nat, failed: nat, total: nat, errors: seq<Airdrops.Failure>)
    requires Airdrops.Progress(s, t, x, outcomes)
    requires Airdrops.Booked(x.job.recipients, outcomes, x.job.amount, sent, skipped, failed, total, errors)
    requires reached == |outcomes| || (reached == |outcomes| + 1 && cutOff)
    requires cutOff ==> |outcomes| < |x.job.recipients|
    ensures sent + skipped + failed == |outcomes| && Tallied(Tally(sent, skipped, failed), t, x, reached, cutOff)
  {
    hide Airdrops.AllTruthful, Airdrops.Settled, Airdrops.Payments, Airdrops.Skips, Airdrops.Failures, Airdrops.Absent,
      SameEntries;
    SkipsAreMarked(t, x, outcomes);
    Airdrops.EveryOutcomeCounted(x.job.recipients, outcomes);
  }

  /** How many addresses have a record for this run. */
  ghost predicate MarkedCount(layout: seq<Piece>, run: RunKey, n: nat) {
    exists m: set<Address> :: |m| == n && forall a :: a in m <==> Marked(layout, run, a)
  }

  lemma PaidCounts(layout: seq<Piece>, run: RunKey, paid: map<Address, Hash>)
    requires forall a :: a in paid <==> Marked(layout, run, a)
    ensures MarkedCount(layout, run, |paid|)
  {
    hide Marked;
    assert |paid| == |paid.Keys| && forall a :: a in paid.Keys <==> Marked(layout, run, a);
  }

  // ---------- the airdrop section of the scan log ----------

  /** The airdrop section says what this job is, in smallest units and as displayed. */
  predicate Priced(a: ScanLogs.ScanAirdrop, job: Job, decimals: nat) {
    && a.zts == job.zts && a.run == job.Run() && a.decimals == decimals
    && a.amountRaw == Decimal.PrintInt(job.amount) && a.amount == Amount.FormatAmount(job.amount, decimals)
    && a.totalRaw == Decimal.PrintInt(job.amount * |job.recipients|)
    && a.total == Amount.FormatAmount(job.amount * |job.recipients|, decimals)
  }

  function PriceOf(job: Job, decimals: nat, run: RunKey, alreadyPaid: nat): (a: ScanLogs.ScanAirdrop)
    ensures run == job.Run() ==> Priced(a, job, decimals) && !a.published && a.alreadyPaid == alreadyPaid
  {
    var total := job.amount * |job.recipients|;
    ScanLogs.ScanAirdrop(job.zts, decimals, Decimal.PrintInt(job.amount), Amount.FormatAmount(job.amount, decimals),
                Decimal.PrintInt(total), Amount.FormatAmount(total, decimals), run, alreadyPaid, false, 0, 0, 0)
  }

  /** The displayed amount and the raw amount of a log denote the same number of smallest units. */
  lemma DisplayedAmountIsExact(a: ScanLogs.ScanAirdrop, job: Job, decimals: nat)
    requires Priced(a, job, decimals) && job.amount > 0
    ensures Decimal.SetString(a.amountRaw) == Some(job.amount)
    ensures Amount.ParseAmount(a.amount, a.decimals) == Ok(job.amount)
  {
    hide Decimal.SetString, Amount.ParseAmount, Amount.FormatAmount, Decimal.PrintInt;
    Replays.RawAmountReadsBack(job.amount);
    Amount.ParseOfFormat(job.amount, decimals);
  }

  /** The airdrop section after a plan: as before, or published with these counts if the run took
      place. */
  predicate Updated(a: Option<ScanLogs.ScanAirdrop>, before: Option<ScanLogs.ScanAirdrop>, ran: bool, n: Tally) {
    before.Some? && a == if ran then Some(Published(before.value, n)) else before
  }

  function Published(a: ScanLogs.ScanAirdrop, n: Tally): ScanLogs.ScanAirdrop {
    a.(published := true, sent := n.sent, skipped := n.skipped, failed := n.failed)
  }

  /** The filter section as SetFilter leaves it for this list. */
  ghost predicate FilteredTo(filter: Option<ScanLogs.ScanFilter>, recipients: seq<Address>) {
    && filter.Some? && filter.value.recipients == recipients
    && filter.value.recipientDigest == Digests.DigestOf(recipients)
  }

  /** The log as a plan leaves it: it says what the job is, how many had a record before, whether it
      was published and with what counts, and, if its filter section is this list, everything a replay
      needs. */
  ghost predicate Annotated(log: ScanLogs.SavedLog, job: Job, decimals: nat, marked: nat, ran: bool, n: Tally) {
    && log.airdrop.Some? && Priced(log.airdrop.value, job, decimals) && log.airdrop.value.published == ran
    && log.airdrop.value.alreadyPaid == marked
    && (ran ==> Tally(log.airdrop.value.sent, log.airdrop.value.skipped, log.airdrop.value.failed) == n)
    && (FilteredTo(log.filter, job.recipients) ==> Replays.Describes(log, job))
  }

  lemma StillPriced(log: ScanLogs.SavedLog, before: ScanLogs.ScanAirdrop, job: Job, decimals: nat, marked: nat,
                    ran: bool, n: Tally)
    requires Priced(before, job, decimals) && !before.published && before.alreadyPaid == marked
    requires Updated(log.airdrop, Some(before), ran, n)
    requires log.from as nat == job.from && log.to as nat == job.to
    ensures Annotated(log, job, decimals, marked, ran, n)
  {
    hide Amount.FormatAmount, Decimal.PrintInt, Digests.DigestOf, RunKeyOf;
  }

  /** What the send stage did, if it ran: its counts are true, nobody failed and everyone is done if it
      reports success, and everyone was reached unless it ended early. */
  ghost predicate RanAs(r: Result<Finish, PlanError>, n: Tally, t: State, x: Session, reached: nat) {
    && Tallied(n, t, x, reached, CutOff(r))
    && (r == Ok(Sent) ==> n.failed == 0 && AllDone(t.layout, x))
    && (Finished(r) ==> reached == |x.job.recipients| == n.Dealt())
    && (r.Err? && r.error.SomeFailed? ==> r.error.n == n.failed)
  }

  lemma OrderlyPaced(recipients: seq<Address>, outcomes: seq<Airdrops.Outcome>, amount: nat, sent: nat, skipped: nat,
                     failed: nat, total: nat, errors: seq<Airdrops.Failure>, delay: nat, wait: nat, start: nat,
                     now: nat, before: nat, calls: nat)
    requires Airdrops.Booked(recipients, outcomes, amount, sent, skipped, failed, total, errors)
    requires Airdrops.Orderly(outcomes, delay, wait, start, now, before, calls, true)
    ensures Airdrops.Paced(start, now, delay, sent, true)
  {
    hide Airdrops.Paced, Airdrops.Payments, Airdrops.Failures, Airdrops.Skips;
  }

  lemma PacedEarlier(start: nat, middle: nat, now: nat, delay: nat, sent: nat)
    requires start <= middle
    ensures Airdrops.Paced(middle, now, delay, sent, true) ==> Airdrops.Paced(start, now, delay, sent, true)
  {
  }

  /** The options were heeded: with -receive, past the journal, the node listed nothing more to collect
      before anything else was done, unless collecting failed; and by the end of n payments at least
      n - 1 delays had passed. */
  ghost predicate Served(o: Options, r: Result<Finish, PlanError>, n: Tally, keyed: bool, before: int, cleared: nat,
                         start: nat, now: nat) {
    && (o.receive && keyed && Began(r) && !(r.Err? && r.error.ReceiveFailed?) ==> cleared > before)
    && (Ran(r) ==> Airdrops.Paced(start, now, o.delay, n.sent, true))
  }

  /** How a process ends, seen from before it: with true counts if it ran, everyone marked if it reports
      success, everyone reached unless it ended early, and a dry run exactly when not sending. */
  ghost predicate Ends(r: Result<Finish, PlanError>, n: Tally, s: State, t: State, job: Job, reached: nat,
                       sending: bool) {
    && (r.Ok? ==> r.value == if sending then Sent else DryRun)
    && !(r.Err? && r.error.JournalRefused?) && (r.Err? && r.error.Short? ==> sending)
    && (Ran(r) ==> Reported(n, s, t, job, reached, CutOff(r)))
    && (r == Ok(Sent) ==> n.failed == 0 && AllMarked(t.layout, job))
    && (Finished(r) ==> reached == |job.recipients| == n.Dealt())
    && (r.Err? && r.error.SomeFailed? ==> r.error.n == n.failed)
  }

  lemma EndsAfter(r: Result<Finish, PlanError>, n: Tally, s: State, t: State, job: Job, reached: nat, sending: bool)
    requires Ends(r, n, s, t, job, reached, sending)
    ensures r != Ok(Sized) && !(r.Err? && r.error.JournalRefused?)
  {
    hide Reported, AllMarked;
  }

  lemma RunEnds(r: Result<Finish, PlanError>, n: Tally, s: State, begun: State, ending: State, t: State, x: Session,
                reached: nat, sending: bool)
    requires Ran(r) ==> RanAs(r, n, ending, x, reached)
    requires SameEntries(begun.layout, ending.layout) && begun.layout == s.layout && x.base == |s.landings|
    requires t.layout == ending.layout && t.landings == ending.landings
    requires forall a :: a in x.paid <==> Marked(s.layout, x.job.Run(), a)
    requires (r.Ok? ==> r.value == if sending then Sent else DryRun)
    requires !(r.Err? && r.error.JournalRefused?) && (r.Err? && r.error.Short? ==> sending)
    ensures Ends(r, n, s, t, x.job, reached, sending)
  {
    hide Marked, Tallied, Reported, SameEntries, AllMarked, AllDone, RunKeyOf;
    if Ran(r) {
      TalliedIsReported(n, s, ending, t, x, reached, CutOff(r));
      if r == Ok(Sent) {
        AllDoneIsMarked(s.layout, ending.layout, x);
      }
    }
  }

  /** A process that read the journal and went through its stages ends. */
  lemma ProcessEnds(c: Codec, s0: State, before: seq<Event>, o: Outside, s: State, begun: State, log: seq<Event>,
                    o': Outside, ending: State, x: Session, r: Result<Finish, PlanError>, n: Tally, reached: nat,
                    sending: bool, receives: bool)
    returns (t: State)
    requires At(c, s0, before, o, s) && Enabled(c, s, Started(x.job, x.limit)) && x.base == |s.landings|
    requires begun == After(c, s, Started(x.job, x.limit)) && Senders.Opened(begun, x, ZeroHash)
    requires begun.landings == s.landings && begun.layout == s.layout
    requires At(c, s0, before + [Started(x.job, x.limit)], o, begun) && At(c, s0, log, o', ending)
    requires Stage(begun, ending, x, before + [Started(x.job, x.limit)], log, reached)
    requires forall a :: a in x.paid <==> Marked(s.layout, x.job.Run(), a)
    requires Ran(r) ==> RanAs(r, n, ending, x, reached)
    requires (r.Ok? ==> r.value == if sending then Sent else DryRun)
    requires !(r.Err? && r.error.JournalRefused?) && (r.Err? && r.error.Short? ==> sending)
    ensures At(c, s0, log + [Stopped], o', t) && t.proc.None?
    ensures Adds(s, t, x.job, x.limit, reached, before, log + [Stopped]) && Ends(r, n, s, t, x.job, reached, sending)
    ensures Quiet(before + [Started(x.job, x.limit)], log, receives) ==> Quiet(before, log + [Stopped], receives)
  {
    hide At, Enabled, After, Senders.Opened, Stage, Marked, RanAs, Ends, Adds, Quiet, RunKeyOf, SameEntries;
    var begin := Started(x.job, x.limit);
    StageKeeps(begun, ending, x, before + [begin], log, reached);
    t := StopLegal(c, s0, log, o', ending);
    ProcessIsAdded(c, s0, before, o, s, begun, log, o', ending, t, x, reached);
    RunEnds(r, n, s, begun, ending, t, x, reached, sending);
    if Quiet(before + [begin], log, receives) {
      QuietItself(before);
      QuietMore(before, before, begin, receives);
      QuietTrans(before, before + [begin], log, receives);
      QuietMore(before, log, Stopped, receives);
    }
  }

  /** What is missing is the amount for everyone without a record, less the balance. */
  ghost predicate Missing(s: State, job: Job, balance: nat, missing: nat) {
    job.amount * |Unmarked(job, s.layout, |job.recipients|)| == balance + missing
  }

  lemma NeededIsMissing(s: State, x: Session, balance: nat)
    requires forall a :: a in x.paid <==> Marked(s.layout, x.job.Run(), a)
    ensures forall missing: nat | x.job.amount * Unpaid(x.job.recipients, x.paid, 0) == balance + missing ::
              Missing(s, x.job, balance, missing)
  {
    hide Marked, RunKeyOf, Unmarked, Unpaid;
    UnmarkedIsAbsent(x.job, s.layout, x.paid, |x.job.recipients|);
    UnpaidIsAbsent(x.job.recipients, x.paid, 0);
  }

  /** The recipients without a mark, counted from the end and from the front. */
  lemma {:induction false} UnpaidIsAbsent(recipients: seq<Address>, paid: map<Address, Hash>, k: nat)
    requires k <= |recipients|
    ensures |Airdrops.Absent(recipients, paid, |recipients|)|
            == |Airdrops.Absent(recipients, paid, k)| + Unpaid(recipients, paid, k)
    decreases |recipients| - k
  {
    if k < |recipients| {
      UnpaidIsAbsent(recipients, paid, k + 1);
    }
  }

  lemma RefusedIsUnreadable(c: Codec, s0: State, log: seq<Event>, o: Outside, s: State, run: RunKey)
    requires At(c, s0, log, o, s) && PaidFrom(c, o.file, run, map[]).Err?
    ensures !Readable(c, s.layout)
  {
    hide Readable, PaidFrom, Inv, Exec, Init;
    JournalIsExact(c, s0, log, s, run);
  }

  lemma NotRun(scanLog: ScanLogs.ScanLog?)
    requires scanLog != null ==> scanLog.airdrop.Some?
    ensures scanLog != null ==> forall n :: Updated(scanLog.airdrop, scanLog.airdrop, false, n)
  {
  }

  // ---------- the plan ----------

  class RunPlan {
    const world: Worlds.World
    const clock: Worlds.Clock
    const codec: Codec
    const sender: Senders.Sender?
    const zts: Zts
    const token: Option<Token>
    const amount: Option<nat>
    const recipients: seq<Address>
    const from: u64
    const to: u64
    const sending: bool
    const scanLog: ScanLogs.ScanLog?

    constructor (world: Worlds.World, clock: Worlds.Clock, codec: Codec, sender: Senders.Sender?, zts: Zts,
                 token: Option<Token>, amount: Option<nat>, recipients: seq<Address>, from: u64, to: u64,
                 sending: bool, scanLog: ScanLogs.ScanLog?)
      ensures this.world == world && this.clock == clock && this.codec == codec && this.sender == sender
      ensures this.zts == zts && this.token == token && this.amount == amount && this.recipients == recipients
      ensures this.from == from && this.to == to && this.sending == sending && this.scanLog == scanLog
    {
      this.world, this.clock, this.codec, this.sender := world, clock, codec, sender;
      this.zts, this.token, this.amount, this.recipients := zts, token, amount, recipients;
      this.from, this.to, this.sending, this.scanLog := from, to, sending, scanLog;
    }

    /** What the callers have seen to: a sending run has its key, token and amount, the list is not
        empty, and its addresses and the token print as text without a bar. */
    ghost predicate Ready()
      reads sender
    {
      && (sending ==> sender != null && token.Some? && amount.Some?)
      && (sender != null ==> sender.world == world && sender.clock == clock && sender.lastHash == ZeroHash)
      && (scanLog != null ==> scanLog.from == from && scanLog.to == to)
      && recipients != [] && (amount.Some? ==> JobOk(codec, TheJob()))
    }

    function TheJob(): Job
      requires amount.Some?
    {
      Job(zts, amount.value, from as nat, to as nat, recipients)
    }

    /** Count who is left to pay. */
    method Outstanding(paid: map<Address, Hash>) returns (n: nat)
      ensures n == Unpaid(recipients, paid, 0)
    {
      n := 0;
      for i := 0 to |recipients|
        invariant n + Unpaid(recipients, paid, i) == Unpaid(recipients, paid, 0)
      {
        if recipients[i] !in paid {
          n := n + 1;
        }
      }
    }

    /** Work out what is needed, and put the price in the scan log if there is one. */
    method Price(run: RunKey, paid: map<Address, Hash>) returns (needed: nat)
      requires token.Some? && amount.Some?
      modifies scanLog
      ensures needed == amount.value * Unpaid(recipients, paid, 0)
      ensures scanLog != null ==>
        && scanLog.filter == old(scanLog.filter)
        && scanLog.airdrop == Some(PriceOf(TheJob(), token.value.decimals, run, |paid|))
    {
      var outstanding := Outstanding(paid);
      needed := amount.value * outstanding;
      if scanLog != null {
        scanLog.airdrop := Some(PriceOf(TheJob(), token.value.decimals, run, |paid|));
      }
    }

    /** How long a wait for the node may last. */
    function Wait(): nat {
      if sender == null then 0 else sender.frontierWait
    }

    /** Put the outcome of a run in the scan log if there is one. */
    method Publish(sent: nat, skipped: nat, failed: nat)
      requires scanLog != null ==> scanLog.airdrop.Some?
      modifies scanLog
      ensures scanLog != null ==>
        && scanLog.filter == old(scanLog.filter)
        && Updated(scanLog.airdrop, old(scanLog.airdrop), true, Tally(sent, skipped, failed))
    {
      if scanLog != null {
        var a := scanLog.airdrop.value;
        scanLog.airdrop := Some(a.(published := true, sent := sent, skipped := skipped, failed := failed));
      }
    }

    /** Run the airdrop on an open journal, and close it. */
    method RunAirdrop(o: Options, journal: Recorder.Journal, ghost s0: State, ghost s: State, ghost x: Session,
                      paid: map<Address, Hash>)
      returns (rep: Airdrops.Report, exit: Airdrops.Exit, ghost reached: nat, ghost t: State)
      requires sender != null && sender.world == world == journal.world && sender.clock == clock && recipients != []
      requires journal.codec == codec && journal.run == x.job.Run() && journal.Idle()
      requires amount.Some? && x.job == TheJob() && x.limit == o.stopAfter && x.paid == paid
      requires At(codec, s0, world.log, world.Snapshot(), s) && Senders.Opened(s, x, sender.lastHash)
      requires Balance(world.funds, zts) >= amount.value * Unpaid(recipients, paid, 0)
      modifies sender, journal, clock
      modifies world`chain, world`funds, world`file, world`durable, world`log
      modifies world`answers, world`cancelled, world`refused, world`failures, world`late
      ensures fresh(rep) && At(codec, s0, world.log, world.Snapshot(), t)
      ensures Stage(s, t, x, old(world.log), world.log, reached)
      ensures Tallied(Tally(rep.sent, rep.skipped, rep.failed), t, x, reached,
                      exit.Interrupted? || exit.JournalFailed?)
      ensures exit.Completed? ==> reached == |recipients| == rep.sent + rep.skipped + rep.failed
      ensures exit.Completed? && rep.failed == 0 ==> AllDone(t.layout, x)
      ensures var c := Causes(world.cancelled, world.refused > old(world.refused),
                              world.failures > old(world.failures) || clock.now > old(clock.now) + Wait(), true);
              && (!exit.Completed? ==> Excused(RunEnded(exit), c))
              && (rep.failed > 0 ==> Excused(SomeFailed(rep.failed), c))
      ensures world.late == old(world.late) && (old(world.cancelled) ==> exit.Interrupted? && reached == 0)
      ensures Airdrops.Paced(old(clock.now), clock.now, o.delay, rep.sent, true)
      ensures world.refused >= old(world.refused)
    {
      hide At, Senders.Opened, Airdrops.Done, Stage, Airdrops.Booked, Airdrops.Contained, Unpaid, JobOk, AllDone,
        Balance, Airdrops.Streak, Airdrops.Runs, RunKeyOf, Excused, Airdrops.Orderly, Airdrops.Paced, Tallied,
        Airdrops.Progress;
      ghost var log0, asked0, refused0, calls0, start := world.log, |world.answers|, world.refused, world.failures,
                                                         clock.now;
      ghost var u := GateLegal(codec, s0, log0, world.Snapshot(), s, x, sender.lastHash);
      world.Mark(Gated);
      var drop := new Airdrops.Airdrop(sender, journal, zts, amount.value, o.delay, o.stopAfter);
      ghost var outcomes;
      rep, exit, outcomes, reached, t := drop.Run(recipients, paid, s0, u, x);
      StageRun(s, u, t, x, outcomes, reached, exit.TooManyFailures?, log0, world.log, |world.answers| - asked0);
      DoneProgress(u, t, x, outcomes, reached, exit.TooManyFailures?, log0 + [Gated], world.log,
                   |world.answers| - asked0);
      RunTallied(u, t, x, outcomes, reached, exit.Interrupted? || exit.JournalFailed?, rep.sent, rep.skipped,
                 rep.failed, rep.total, rep.errors);
      OrderlyPaced(recipients, outcomes, amount.value, rep.sent, rep.skipped, rep.failed, rep.total, rep.errors,
                   o.delay, sender.frontierWait, start, clock.now, calls0, world.failures);
      if exit.Completed? && rep.failed == 0 {
        CleanRunPaysAll(u, t, x, outcomes, rep.sent, rep.skipped, rep.total, rep.errors);
      }
      var closed := journal.Close();
      RunExcused(exit, recipients, outcomes, amount.value, rep.sent, rep.skipped, rep.failed, rep.total, rep.errors,
                 o.stopAfter, o.delay, sender.frontierWait, start, clock.now, calls0, world.failures, true,
                 Causes(world.cancelled, world.refused > refused0,
                        world.failures > calls0 || clock.now > start + Wait(), true));
    }

    /** Open the journal, run the airdrop, and say how it went. */
    method Execute(o: Options, run: RunKey, ghost s0: State, ghost s: State, ghost x: Session, paid: map<Address, Hash>)
      returns (r: Result<Finish, PlanError>, ghost n: Tally, ghost reached: nat, ghost t: State)
      requires sender != null && sender.world == world && sender.clock == clock && recipients != []
      requires amount.Some? && x.job == TheJob() && x.limit == o.stopAfter && x.paid == paid && run == x.job.Run()
      requires At(codec, s0, world.log, world.Snapshot(), s) && Senders.Opened(s, x, sender.lastHash)
      requires Balance(world.funds, zts) >= amount.value * Unpaid(recipients, paid, 0)
      requires scanLog != null ==> scanLog.airdrop.Some?
      modifies sender, scanLog, clock
      modifies world`chain, world`funds, world`file, world`durable, world`log
      modifies world`answers, world`cancelled, world`refused, world`failures, world`late
      ensures At(codec, s0, world.log, world.Snapshot(), t) && Stage(s, t, x, old(world.log), world.log, reached)
      ensures Ran(r) ==> RanAs(r, n, t, x, reached)
      ensures r.Ok? ==> r.value == Sent
      ensures r.Err? ==> r.error.OpenFailed? || r.error.RunEnded? || r.error.SomeFailed?
      ensures r.Err? ==> Excused(r.error, Causes(world.cancelled, world.refused > old(world.refused),
                                                 world.failures > old(world.failures)
                                                 || clock.now > old(clock.now) + Wait(), true))
      ensures world.late == old(world.late) && (old(world.cancelled) ==> reached == 0 && r.Err?)
      ensures Ran(r) ==> Airdrops.Paced(old(clock.now), clock.now, o.delay, n.sent, true)
      ensures world.refused >= old(world.refused)
      ensures scanLog != null ==>
        scanLog.filter == old(scanLog.filter) && Updated(scanLog.airdrop, old(scanLog.airdrop), Ran(r), n)
    {
      hide At, Senders.Opened, Stage, Unpaid, JobOk, AllDone, Balance, RunKeyOf, Tallied, Airdrops.Paced, Updated;
      ghost var refused0, calls0, start := world.refused, world.failures, clock.now;
      t, reached, n := s, 0, Tally(0, 0, 0);
      StageBegins(s, x, sender.lastHash, world.log);
      var opens := world.OpenFile();
      if !opens {
        NotRun(scanLog);
        return Err(OpenFailed), n, reached, t;
      }
      var journal := new Recorder.Journal(world, codec, run);
      var rep, exit;
      ghost var refused1 := world.refused;
      rep, exit, reached, t := RunAirdrop(o, journal, s0, s, x, paid);
      n := Tally(rep.sent, rep.skipped, rep.failed);
      Publish(rep.sent, rep.skipped, rep.failed);
      if !exit.Completed? {
        return Err(RunEnded(exit)), n, reached, t;
      }
      if rep.failed > 0 {
        return Err(SomeFailed(rep.failed)), n, reached, t;
      }
      return Ok(Sent), n, reached, t;
    }

    /** The stages after the resume lookup: receive, check the balance, and send unless this is a
        dry run. */
    method Proceed(o: Options, run: RunKey, paid: map<Address, Hash>, needed: nat, ghost s0: State, ghost s: State,
                   ghost x: Session)
      returns (r: Result<Finish, PlanError>, ghost n: Tally, ghost reached: nat, ghost t: State)
      requires Ready() && token.Some? && amount.Some?
      requires x.job == TheJob() && x.limit == o.stopAfter && x.paid == paid && run == x.job.Run()
      requires At(codec, s0, world.log, world.Snapshot(), s) && Senders.Opened(s, x, ZeroHash)
      requires needed == amount.value * Unpaid(recipients, paid, 0)
      requires scanLog != null ==> scanLog.airdrop.Some?
      modifies sender, scanLog, clock, world
      ensures At(codec, s0, world.log, world.Snapshot(), t) && Stage(s, t, x, old(world.log), world.log, reached)
      ensures Ran(r) ==> RanAs(r, n, t, x, reached)
      ensures r.Ok? ==> r.value == if sending then Sent else DryRun
      ensures !sending || (r.Err? && (r.error.Short? || r.error.NoBalance? || r.error.ReceiveFailed?)) ==>
        Quiet(old(world.log), world.log, o.receive && sender != null)
      ensures Served(o, r, n, sender != null, |old(world.log)| - 1, world.cleared, old(clock.now), clock.now)
      ensures r == Ok(DryRun) && o.receive && sender != null ==>
        |world.chain| == |old(world.chain)| + (world.listed - old(world.listed))
      ensures r.Err? && r.error.Short? ==> sending && needed == Balance(world.funds, zts) + r.error.missing
      ensures r.Err? ==> !r.error.JournalRefused?
      ensures r.Err? ==> Excused(r.error, Causes(world.cancelled, world.refused > old(world.refused),
                                                 world.failures > old(world.failures)
                                                 || clock.now > old(clock.now) + Wait(), o.receive && sender != null))
      ensures world.late == old(world.late) && (old(world.cancelled) ==> reached == 0 && r != Ok(Sent))
      ensures world.refused >= old(world.refused)
      ensures scanLog != null ==>
        scanLog.filter == old(scanLog.filter) && Updated(scanLog.airdrop, old(scanLog.airdrop), Ran(r), n)
    {
      hide At, Senders.Opened, Stage, Quiet, Senders.OnlyReceives, Senders.Received, Unpaid, JobOk, AllDone, RanAs,
        Airdrops.Paced, Updated;
      t, reached, n := s, 0, Tally(0, 0, 0);
      ghost var log0, calls0, start := world.log, world.failures, clock.now;
      StageBegins(s, x, ZeroHash, log0);
      QuietItself(log0);
      NotRun(scanLog);
      if sender != null && o.receive {
        var got, ended;
        got, ended, t := sender.ReceiveAll(codec, s0, s, x);
        StageReceived(s, t, x, sender.lastHash, log0, world.log, got);
        QuietReceives(log0, log0, world.log);
        if ended.Err? {
          return Err(ReceiveFailed(ended.error)), n, reached, t;
        }
      }
      if sender != null {
        var balance := world.Balance(zts);
        if balance.None? {
          return Err(NoBalance), n, reached, t;
        }
        if balance.value < needed {
          if sending {
            return Err(Short(needed - balance.value)), n, reached, t;
          }
        }
      }
      if !sending {
        return Ok(DryRun), n, reached, t;
      }
      ghost var kept, log1, middle := t, world.log, clock.now;
      r, n, reached, t := Execute(o, run, s0, kept, x, paid);
      StageThen(s, kept, t, x, log0, log1, world.log, reached);
      PacedEarlier(start, middle, clock.now, o.delay, n.sent);
    }

    /** A process of the protocol from reading the journal to its end. */
    method Resume(o: Options, run: RunKey, paid: map<Address, Hash>, ghost s0: State, ghost s: State)
      returns (r: Result<Finish, PlanError>, ghost n: Tally, ghost reached: nat, ghost t: State)
      requires Ready() && token.Some? && amount.Some? && run == TheJob().Run()
      requires At(codec, s0, world.log, world.Snapshot(), s) && s.proc.None?
      requires PaidFrom(codec, world.file, run, map[]) == Ok(paid)
      modifies sender, scanLog, clock, world
      ensures At(codec, s0, world.log, world.Snapshot(), t) && t.proc.None?
      ensures Adds(s, t, TheJob(), o.stopAfter, reached, old(world.log), world.log)
      ensures Ends(r, n, s, t, TheJob(), reached, sending)
      ensures r.Err? ==> Excused(r.error, Causes(world.cancelled, world.refused > old(world.refused),
                                                 world.failures > old(world.failures)
                                                 || clock.now > old(clock.now) + Wait(), o.receive && sender != null))
      ensures !sending || (r.Err? && (r.error.Short? || r.error.NoBalance? || r.error.ReceiveFailed?)) ==>
        Quiet(old(world.log), world.log, o.receive && sender != null)
      ensures Served(o, r, n, sender != null, |old(world.log)|, world.cleared, old(clock.now), clock.now)
      ensures r == Ok(DryRun) && o.receive && sender != null ==>
        |world.chain| == |old(world.chain)| + (world.listed - old(world.listed))
      ensures r.Err? && r.error.Short? ==> Missing(s, TheJob(), Balance(world.funds, zts), r.error.missing)
      ensures world.late == old(world.late) && (old(world.cancelled) ==> reached == 0 && r != Ok(Sent))
      ensures world.refused >= old(world.refused)
      ensures scanLog != null ==>
        && scanLog.filter == old(scanLog.filter)
        && Annotated(scanLog.Saved(), TheJob(), token.value.decimals, |paid|, Ran(r), n)
      ensures MarkedCount(s.layout, run, |paid|)
    {
      hide At, Senders.Opened, Stage, Quiet, Excused, Unpaid, JobOk, PaidFrom, RunKeyOf, Priced, PriceOf, Updated,
        Annotated, Adds, Enabled, After, RanAs, Airdrops.Paced, Ends, Missing, MarkedCount, Marked;
      ghost var log0, o0 := world.log, world.Snapshot();
      ghost var x, receives := Session(TheJob(), o.stopAfter, paid, |s.landings|), o.receive && sender != null;
      ghost var begun := StartLegal(codec, s0, log0, o0, s, x);
      PaidCounts(s.layout, run, paid);
      world.Mark(Started(x.job, x.limit));
      var needed := Price(run, paid);
      r, n, reached, t := Proceed(o, run, paid, needed, s0, begun, x);
      ghost var log2, ending := world.log, t;
      if scanLog != null {
        StillPriced(scanLog.Saved(), PriceOf(x.job, token.value.decimals, run, |paid|), x.job, token.value.decimals,
                    |paid|, Ran(r), n);
      }
      t := ProcessEnds(codec, s0, log0, o0, s, begun, log2, world.Snapshot(), ending, x, r, n, reached, sending,
                       receives);
      NeededIsMissing(s, x, Balance(world.funds, zts));
      world.Mark(Stopped);
    }

    /** Price the run, resume it from the journal and, only when sending, publish it. Whatever
        happens, past the journal what is added to the log is one process of the protocol, from its
        start to its end. A journal is refused only if it cannot be read: the disk refused, or some line
        is not one whole record. */
    method PlanAndSend(o: Options, ghost s0: State, ghost s: State)
      returns (r: Result<Finish, PlanError>, ghost n: Tally, ghost reached: nat, ghost t: State)
      requires Ready() && At(codec, s0, world.log, world.Snapshot(), s) && s.proc.None?
      modifies sender, scanLog, clock, world
      ensures At(codec, s0, world.log, world.Snapshot(), t) && t.proc.None?
      ensures token.None? || amount.None? <==> r == Ok(Sized)
      ensures r.Err? ==> Excused(r.error, Causes(world.cancelled, world.refused > old(world.refused),
                                                 world.failures > old(world.failures)
                                                 || clock.now > old(clock.now) + Wait(), o.receive && sender != null))
      ensures !Began(r) ==> world.log == old(world.log) && world.Snapshot() == old(world.Snapshot()) && t == s
      ensures r.Err? && r.error.JournalRefused? && !r.error.why.Unreadable? ==>
        && !Readable(codec, s.layout)
        && PaidFrom(codec, old(world.file), TheJob().Run(), map[]) == Err(r.error.why)
      ensures Began(r) ==> Adds(s, t, TheJob(), o.stopAfter, reached, old(world.log), world.log)
      ensures Began(r) ==> Ends(r, n, s, t, TheJob(), reached, sending)
      ensures !sending || (r.Err? && (r.error.Short? || r.error.NoBalance? || r.error.ReceiveFailed?)) ==>
        Quiet(old(world.log), world.log, o.receive && sender != null)
      ensures Served(o, r, n, sender != null, |old(world.log)|, world.cleared, old(clock.now), clock.now)
      ensures r == Ok(DryRun) && o.receive && sender != null ==>
        |world.chain| == |old(world.chain)| + (world.listed - old(world.listed))
      ensures r.Err? && r.error.Short? ==> Missing(s, TheJob(), Balance(world.funds, zts), r.error.missing)
      ensures world.late == old(world.late) && (old(world.cancelled) ==> reached == 0 && r != Ok(Sent))
      ensures scanLog != null ==>
        scanLog.filter == old(scanLog.filter) && (!Began(r) ==> scanLog.airdrop == old(scanLog.airdrop))
      ensures scanLog != null && Began(r) ==>
        && scanLog.airdrop.Some?
        && var marked := scanLog.airdrop.value.alreadyPaid;
        && Annotated(scanLog.Saved(), TheJob(), token.value.decimals, marked, Ran(r), n)
        && MarkedCount(s.layout, TheJob().Run(), marked)
    {
      hide At, Quiet, Excused, JobOk, PaidFrom, RunKeyOf, Adds, Ends, Missing, Airdrops.Paced, MarkedCount, Readable,
        Priced, FilteredTo, Replays.Describes;
      t, reached, n := s, 0, Tally(0, 0, 0);
      ghost var refused0 := world.refused;
      QuietItself(world.log);
      if token.None? || amount.None? {
        return Ok(Sized), n, reached, t;
      }
      var run := RunKeyOf(zts, amount.value, from as nat, to as nat);
      var text := world.ReadFile();
      var paid := Journals.Paid(codec, text, run);
      if paid.Err? {
        JournalExcused(paid.error, Causes(world.cancelled, world.refused > refused0,
                                          world.failures > old(world.failures) || clock.now > old(clock.now) + Wait(),
                                          o.receive && sender != null));
        if text.Some? {
          RefusedIsUnreadable(codec, s0, world.log, world.Snapshot(), s, run);
        }
        return Err(JournalRefused(paid.error)), n, reached, t;
      }
      ghost var refused1, calls1, start := world.refused, world.failures, clock.now;
      r, n, reached, t := Resume(o, run, paid.value, s0, s);
      EndsAfter(r, n, s, t, TheJob(), reached, sending);
      if r.Err? {
        var blamed := world.failures > calls1 || clock.now > start + Wait();
        ExcusedStill(r.error, Causes(world.cancelled, world.refused > refused1, blamed, o.receive && sender != null),
                     Causes(world.cancelled, world.refused > refused0, blamed, o.receive && sender != null));
      }
    }
  }
}
