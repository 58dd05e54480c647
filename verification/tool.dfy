/** From a range of momentums to payments, and from a saved log to payments (main.go, replay.go). */
module Tool {
  import opened Basics
  import Ledger
  import opened Journals
  import opened Protocol
  import Invariant
  import opened History
  import Worlds
  import Senders
  import Digests
  import Amount
  import Decimal
  import opened Processes
  import opened Scans
  import ScanLogs
  import opened Plans
  import opened Replays

  /** The flags, once read, and what was looked up for them. */
  datatype Config = Config(from: u64, last: u64, to: u64, includeRecipients: bool, excludeSelf: bool,
                           minHolding: Option<int>, zts: Zts, token: Option<Token>, amount: Option<nat>,
                           confirm: bool, dryRun: bool, options: Options)

  datatype ToolError =
    | BadRange(range: RangeError) | ScanFailed(scan: ScanError) | NothingToWeigh
    | FilterFailed(filter: ScanLogs.FilterError) | NoRecipients | PlanFailed(plan: PlanError)

  /** Who should be paid: the users that acted in the range, without the sender if it is left out,
      and without those who hold too little. */
  ghost predicate Eligible(cfg: Config, rules: Rules, chain: seq<Momentum>, from: nat, to: nat,
                           self: Option<Address>, held: Address -> nat, a: Address)
    requires 0 < from
  {
    && IsUser(rules, a) && Acted(chain, from, to, cfg.includeRecipients, a)
    && (cfg.excludeSelf && self.Some? ==> a != self.value)
    && (cfg.minHolding.Some? ==> held(a) >= cfg.minHolding.value)
  }

  ghost predicate Nobody(cfg: Config, rules: Rules, chain: seq<Momentum>, from: nat, to: nat,
                         self: Option<Address>, held: Address -> nat)
    requires 0 < from
  {
    forall a :: !Eligible(cfg, rules, chain, from, to, self, held, a)
  }

  /** A record for a run is a payment on the chain. */
  lemma MarkedIsPaid(c: Codec, s: State, job: Job, a: Address)
    requires Inv(c, s) && '|' !in job.zts && Marked(s.layout, job.Run(), a)
    ensures exists h :: ReallyPaid(s.o.chain, job, a, h)
  {
    hide FileInv, SettledInv, OnceInv, TallyInv, ProcInv, RunKeyOf, ReallyPaid;
    var j :| 0 <= j < |s.layout| && s.layout[j].entry.run == job.Run() && s.layout[j].entry.address == a;
    var e, l := s.layout[j].entry, s.landings[s.owner[j]];
    assert LandingOk(s.o.chain, l);
    Invariant.RecordPays(e, l, job, s.o.chain);
  }

  /** Every recipient was sent the amount, on the chain. */
  ghost predicate EveryonePaid(chain: seq<Ledger.Block>, job: Job) {
    forall a | a in job.recipients :: exists h :: ReallyPaid(chain, job, a, h)
  }

  lemma AllMarkedArePaid(c: Codec, s0: State, log: seq<Event>, o: Ledger.Outside, s: State, job: Job)
    requires At(c, s0, log, o, s) && '|' !in job.zts && AllMarked(s.layout, job)
    ensures EveryonePaid(s.o.chain, job)
  {
    hide Inv, Marked, ReallyPaid, Reaches;
    forall a | a in job.recipients ensures exists h :: ReallyPaid(s.o.chain, job, a, h) {
      MarkedIsPaid(c, s, job, a);
    }
  }

  /** Leave out the sender, then those who hold too little. */
  method Narrow(cfg: Config, holdings: ScanLogs.Holdings, addrs: seq<Address>, self: Option<Address>)
    returns (r: Result<seq<Address>, ToolError>)
    requires Ascending(addrs)
    modifies holdings
    ensures r.Ok? ==>
      && Ascending(r.value)
      && forall a :: a in r.value <==>
           && a in addrs && (cfg.excludeSelf && self.Some? ==> a != self.value)
           && (cfg.minHolding.Some? ==> holdings.held(a) >= cfg.minHolding.value)
    ensures r.Err? ==> r.error.NothingToWeigh? || r.error.FilterFailed?
    ensures r == Err(NothingToWeigh) <==> cfg.minHolding.Some? && cfg.token.None?
    ensures r.Err? && r.error.FilterFailed? ==> Unweighed(r.error.filter, addrs, holdings.cancelled, holdings.answers)
    ensures holdings.late == old(holdings.late)
  {
    var recipients := addrs;
    if cfg.excludeSelf && self.Some? {
      ScanLogs.SelectedFacts(recipients, a => a != self.value);
      recipients := ScanLogs.Without(recipients, self.value);
    }
    if cfg.minHolding.Some? {
      if cfg.token.None? {
        return Err(NothingToWeigh);
      }
      ScanLogs.SelectedFacts(recipients, a => holdings.held(a) >= cfg.minHolding.value);
      var kept := ScanLogs.FilterByHolding(holdings, recipients, cfg.minHolding.value);
      if kept.Err? {
        return Err(FilterFailed(kept.error));
      }
      recipients := kept.value;
    }
    return Ok(recipients);
  }

  /** Weighing ends early only if the user interrupts or some address is not answered for. */
  predicate Unweighed(e: ScanLogs.FilterError, addrs: seq<Address>, cancelled: bool, answers: Address -> bool) {
    match e
    case Interrupted => cancelled
    case NoAnswer(a) => a in addrs && !answers(a)
  }

  /** The log says exactly what was scanned: the users who acted up to the height covered, in order,
      their digest, and the counts. */
  ghost predicate Logged(log: ScanLogs.SavedLog, rules: Rules, chain: seq<Momentum>, includeRecipients: bool) {
    && 0 < log.from <= log.to && log.count as int == log.to as int - log.from as int + 1
    && log.includeRecipients == includeRecipients
    && Ascending(log.addresses) && log.users == |log.addresses| && log.digest == Digests.DigestOf(log.addresses)
    && var covered: int := log.from as int - 1 + log.momentums;
    && covered <= log.to as int
    && (forall a :: a in log.addresses <==>
          IsUser(rules, a) && Acted(chain, log.from as nat, covered, includeRecipients, a))
    && var ms := Scans.Stretch(chain, log.from as nat, covered);
    && log.blocks == BlockCount(ms) && log.contracts == ContractCount(rules, Candidates(ms, includeRecipients))
  }

  /** A log of a range that was covered is reproduced by every later scan of it that covers it: the same
      list, and the digest the log recorded. */
  lemma LogIsReproduced(log: ScanLogs.SavedLog, rules: Rules, before: seq<Momentum>, after: seq<Momentum>,
                        found: seq<Address>)
    requires Logged(log, rules, before, log.includeRecipients) && log.momentums == log.count as nat
    requires before <= after && log.to as nat <= |before| && Ascending(found)
    requires forall a :: a in found <==>
               IsUser(rules, a) && Acted(after, log.from as nat, log.to as nat, log.includeRecipients, a)
    ensures found == log.addresses && Digests.DigestOf(found) == log.digest
  {
    hide Acted, IsUser, Ascending, BlockCount, ContractCount, Digests.DigestOf, Scans.Stretch, Candidates;
    RescanAgrees(rules, before, after, log.from as nat, log.to as nat, log.includeRecipients, log.addresses, found);
  }

  /** Scan the range: what is found is exact up to the height covered, which is the end of the range
      exactly if no answer was empty. */
  method ScanRange(cfg: Config, node: Node, rules: Rules, from: u64, to: u64)
    returns (r: Result<ScanLogs.ScanLog, ToolError>)
    requires node.Valid() && 0 < from <= to
    modifies node
    ensures node.Valid() && (r.Ok? ==> fresh(r.value) && r.value.from == from && r.value.to == to)
    ensures r.Ok? ==>
      && Logged(r.value.Saved(), rules, node.chain, cfg.includeRecipients)
      && r.value.airdrop == None && r.value.filter == None
      && (forall a | a in r.value.addresses :: node.known(a))
      && (from as int - 1 + r.value.momentums == to as int <==> node.empties == old(node.empties))
    ensures r.Err? ==> r.error.ScanFailed? && NotScanned(r.error.scan, node.refused > old(node.refused), node.cancelled)
    ensures node.late == old(node.late)
  {
    hide Acted, IsUser, Ascending, BlockCount, ContractCount, Scans.Stretch, Candidates, Digests.DigestOf;
    var scanner := new Scanner(node, rules, cfg.includeRecipients);
    var scan := scanner.Scan(from, to);
    if scan.Err? {
      return Err(ScanFailed(scan.error));
    }
    ghost var n := from as int - 1 + scan.value.momentums;
    forall a | a in scan.value.addresses ensures node.known(a) {
      ActedIsKnown(node.chain, node.known, from as int, n, cfg.includeRecipients, a);
    }
    var log := new ScanLogs.ScanLog(scan.value, cfg.includeRecipients);
    return Ok(log);
  }

  /** A scan of a proper range fails only if a call fails or the user interrupts. */
  predicate NotScanned(e: ScanError, refused: bool, cancelled: bool) {
    match e
    case NodeError => refused
    case Canceled => cancelled
    case EmptyRange => false
  }

  lemma FilterSet(filter: Option<ScanLogs.ScanFilter>, recipients: seq<Address>)
    requires filter.Some? && filter.value.recipients == recipients
    requires filter.value.recipientDigest == Digests.DigestOf(recipients)
    ensures FilteredTo(filter, recipients)
  {
  }

  lemma AnnotatedDescribes(log: ScanLogs.SavedLog, job: Job, decimals: nat, marked: nat, ran: bool, n: Tally)
    requires Annotated(log, job, decimals, marked, ran, n) && FilteredTo(log.filter, job.recipients)
    ensures Describes(log, job)
  {
  }

  // ---------- the same flags again ----------

  /** The key of the airdrop that the flags name when the tip is here, if they name one. */
  function KeyAt(cfg: Config, tip: u64): Option<RunKey>
    requires cfg.amount.Some?
  {
    match ResolveRange(Some(tip), cfg.from, cfg.last, cfg.to)
    case Err(_) => None
    case Ok((from, to)) => Some(RunKeyOf(cfg.zts, cfg.amount.value, from as nat, to as nat))
  }

  /** Flags that named an airdrop go on naming one; it is the same if and only if -to was given or
      the tip has not moved. */
  lemma SameFlagsSameRun(cfg: Config, tip: u64, later: u64)
    requires cfg.amount.Some? && '|' !in cfg.zts && KeyAt(cfg, tip).Some? && tip <= later
    ensures KeyAt(cfg, later).Some?
    ensures KeyAt(cfg, later) == KeyAt(cfg, tip) <==> cfg.to > 0 || later == tip
  {
    hide RunKeyOf;
    var zts, amount := cfg.zts, cfg.amount.value;
    var (a, b) := ResolveRange(Some(tip), cfg.from, cfg.last, cfg.to).value;
    var (from, to) := ResolveRange(Some(later), cfg.from, cfg.last, cfg.to).value;
    if KeyAt(cfg, later) == KeyAt(cfg, tip) {
      RunKeyIsInjective(zts, amount, a as nat, b as nat, zts, amount, from as nat, to as nat);
    }
  }

  /** The flags name this airdrop now, and at a later tip they name it again if and only if -to was given
      or the tip has not moved. */
  ghost predicate SameLater(cfg: Config, tip: Option<u64>, run: RunKey) {
    && cfg.amount.Some? && tip.Some? && KeyAt(cfg, tip.value) == Some(run)
    && forall later: u64 | tip.value <= later ::
         KeyAt(cfg, later).Some? && (KeyAt(cfg, later) == Some(run) <==> cfg.to > 0 || later == tip.value)
  }

  lemma LaterRuns(cfg: Config, tip: Option<u64>)
    requires cfg.amount.Some? && '|' !in cfg.zts && ResolveRange(tip, cfg.from, cfg.last, cfg.to).Ok?
    ensures var (from, to) := ResolveRange(tip, cfg.from, cfg.last, cfg.to).value;
            SameLater(cfg, tip, RunKeyOf(cfg.zts, cfg.amount.value, from as nat, to as nat))
  {
    hide RunKeyOf;
    forall later | tip.value <= later
      ensures KeyAt(cfg, later).Some?
      ensures KeyAt(cfg, later) == KeyAt(cfg, tip.value) <==> cfg.to > 0 || later == tip.value
    {
      SameFlagsSameRun(cfg, tip.value, later);
    }
  }

  /** Running again with the same flags skips whoever was recorded before if and only if -to was given
      or the tip has not moved. Otherwise, as long as the journal holds nothing under the new key,
      everybody is due again. */
  lemma SameFlagsSkip(cfg: Config, tip: u64, later: u64, layout: seq<Piece>, first: Job, second: Job, k: nat)
    requires cfg.amount.Some? && '|' !in cfg.zts && tip <= later
    requires KeyAt(cfg, tip) == Some(first.Run()) && KeyAt(cfg, later) == Some(second.Run())
    requires k < |second.recipients| && Marked(layout, first.Run(), second.recipients[k])
    requires second.Run() != first.Run() ==> forall a :: !Marked(layout, second.Run(), a)
    ensures var n := |second.recipients|;
            && ((forall i: nat | i < n && Marked(layout, first.Run(), second.recipients[i]) ::
                   i !in Unmarked(second, layout, n))
                <==> cfg.to > 0 || later == tip)
            && (cfg.to > 0 || later == tip || Unmarked(second, layout, n) == seq(n, i => i))
  {
    hide RunKeyOf, Marked, KeyAt, Unmarked;
    SameFlagsSameRun(cfg, tip, later);
    forall i: nat ensures i in Unmarked(second, layout, |second.recipients|)
                          <==> i < |second.recipients| && !Marked(layout, second.Run(), second.recipients[i]) {
      InUnmarked(second, layout, |second.recipients|, i);
    }
    if cfg.to == 0 && later != tip {
      EveryoneUnmarked(second, layout, |second.recipients|);
    }
  }

  /** Every recipient was sent the amount exactly once, provided no earlier list of the airdrop
      repeated an unmarked address and no process of it, this one included, ended leaving a send
      without a synced record. */
  ghost predicate PaidExactlyOnce(c: Codec, s0: State, before: seq<Event>, t: State, job: Job) {
    NoRepeats(c, s0, before, job.Run()) && Cut(t.ends, job.Run()) == 0 ==>
      forall a | a in job.recipients :: PaidOnce(t, job, a)
  }

  /** One process on a list that names nobody twice, after which everyone has a record. */
  lemma ProcessPaidOnce(c: Codec, s0: State, before: seq<Event>, o: Ledger.Outside, s: State, after: seq<Event>,
                        o': Ledger.Outside, t: State, job: Job, limit: int, reached: nat)
    requires At(c, s0, before, o, s) && At(c, s0, after, o', t) && Adds(s, t, job, limit, reached, before, after)
    requires Distinct(job.recipients) && '|' !in job.zts && AllMarked(t.layout, job) && t.proc.None?
    ensures PaidExactlyOnce(c, s0, before, t, job)
  {
    hide Inv, Exec, Init, Lawful, NoRepeats, AllMarked, Distinct, OneProcess, NothingSent, PaidOnce, RunKeyOf,
      Unmarked, Cut;
    if NoRepeats(c, s0, before, job.Run()) && Cut(t.ends, job.Run()) == 0 {
      DistinctProcess(c, s0, before, o, s, after, o', t, job, limit);
      EveryonePaidExactlyOnce(c, s0, after, t, job);
    }
  }

  /** What a plan past the journal did: exactly one process of the job was added, it ended as reported,
      and success means that everyone was sent the amount. */
  ghost predicate Carried(c: Codec, s0: State, s: State, t: State, job: Job, limit: int, reached: nat,
                          before: seq<Event>, after: seq<Event>, r: Result<Finish, PlanError>, n: Tally,
                          sending: bool) {
    && Adds(s, t, job, limit, reached, before, after) && Ends(r, n, s, t, job, reached, sending)
    && (r == Ok(Sent) ==>
          && sending && reached == |job.recipients| && EveryonePaid(t.o.chain, job)
          && (Distinct(job.recipients) ==> PaidExactlyOnce(c, s0, before, t, job)))
  }

  lemma PlanCarried(c: Codec, s0: State, s: State, o: Ledger.Outside, t: State, o': Ledger.Outside, job: Job,
                    limit: int, reached: nat, before: seq<Event>, after: seq<Event>, r: Result<Finish, PlanError>,
                    n: Tally, sending: bool)
    requires At(c, s0, before, o, s) && At(c, s0, after, o', t) && t.proc.None? && '|' !in job.zts
    requires Adds(s, t, job, limit, reached, before, after) && Ends(r, n, s, t, job, reached, sending)
    ensures Carried(c, s0, s, t, job, limit, reached, before, after, r, n, sending)
  {
    hide At, Adds, EveryonePaid, AllMarked, Distinct, PaidExactlyOnce, Reported;
    if r == Ok(Sent) {
      AllMarkedArePaid(c, s0, after, o', t, job);
      if Distinct(job.recipients) {
        ProcessPaidOnce(c, s0, before, o, s, after, o', t, job, limit, reached);
      }
    }
  }

  /** A journal is refused only if the disk refuses to read it, or some line of it is not one whole
      record; the reason given is what reading it gives. */
  ghost predicate Refused(c: Codec, s: State, file: string, run: RunKey, why: JournalError, disk: bool) {
    if why.Unreadable? then disk else !Readable(c, s.layout) && PaidFrom(c, file, run, map[]) == Err(why)
  }

  /** Record the list in the log, then price and pay it. */
  method PayList(cfg: Config, log: ScanLogs.ScanLog, recipients: seq<Address>, world: Worlds.World,
                 clock: Worlds.Clock, codec: Codec, sender: Senders.Sender?, ghost s0: State, ghost s: State)
    returns (r: Result<Finish, PlanError>, ghost n: Tally, ghost reached: nat, ghost t: State)
    requires At(codec, s0, world.log, world.Snapshot(), s) && s.proc.None?
    requires sender != null ==> sender.world == world && sender.clock == clock && sender.lastHash == Ledger.ZeroHash
    requires cfg.confirm && !cfg.dryRun ==> sender != null && cfg.token.Some? && cfg.amount.Some?
    requires '|' !in cfg.zts && recipients != [] && forall i | 0 <= i < |recipients| :: codec.parses(recipients[i])
    modifies log, world, clock, sender
    ensures At(codec, s0, world.log, world.Snapshot(), t) && t.proc.None?
    ensures !cfg.confirm || cfg.dryRun ==> Quiet(old(world.log), world.log, cfg.options.receive && sender != null)
    ensures !Began(r) ==> world.log == old(world.log) && world.Snapshot() == old(world.Snapshot())
    ensures r == Ok(Sized) <==> cfg.token.None? || cfg.amount.None?
    ensures r.Err? && r.error.JournalRefused? ==>
      cfg.amount.Some? && Refused(codec, s, old(world.file), RunKeyOf(cfg.zts, cfg.amount.value, log.from as nat,
                                                                      log.to as nat),
                                  r.error.why, world.refused > old(world.refused))
    ensures log.filter == Some(ScanLogs.ScanFilter("", |recipients|, Digests.DigestOf(recipients), recipients,
                                                   |log.addresses| - |recipients|))
    ensures Began(r) ==>
      && cfg.amount.Some?
      && var job := Job(cfg.zts, cfg.amount.value, log.from as nat, log.to as nat, recipients);
      && Describes(log.Saved(), job)
      && Carried(codec, s0, s, t, job, cfg.options.stopAfter, reached, old(world.log), world.log, r, n,
                 cfg.confirm && !cfg.dryRun)
    ensures Served(cfg.options, r, n, sender != null, |old(world.log)|, world.cleared, old(clock.now), clock.now)
    ensures r == Ok(DryRun) && cfg.options.receive && sender != null ==>
      |world.chain| == |old(world.chain)| + (world.listed - old(world.listed))
    ensures world.late == old(world.late) && (old(world.cancelled) ==> reached == 0 && r != Ok(Sent))
  {
    hide At, Describes, Excused, Quiet, Adds, FilteredTo, Annotated, RunKeyOf, Ends, Carried, PaidFrom, Readable,
      Missing, MarkedCount, Served;
    log.SetFilter("", recipients);
    FilterSet(log.filter, recipients);
    var plan := new RunPlan(world, clock, codec, sender, cfg.zts, cfg.token, cfg.amount, recipients, log.from, log.to,
                            cfg.confirm && !cfg.dryRun, log);
    ghost var log0, o0 := world.log, world.Snapshot();
    r, n, reached, t := plan.PlanAndSend(cfg.options, s0, s);
    if r.Err? && r.error.JournalRefused? {
      RefusedByDisk(r.error, Causes(world.cancelled, world.refused > old(world.refused),
                                    world.failures > old(world.failures)
                                    || clock.now > old(clock.now) + plan.Wait(),
                                    cfg.options.receive && sender != null));
    }
    if Began(r) {
      PlanCarried(codec, s0, s, o0, t, world.Snapshot(), plan.TheJob(), cfg.options.stopAfter, reached, log0, world.log,
                  r, n, plan.sending);
      AnnotatedDescribes(log.Saved(), plan.TheJob(), cfg.token.value.decimals, log.airdrop.value.alreadyPaid, Ran(r),
                         n);
    }
  }

  lemma RefusedByDisk(e: PlanError, c: Causes)
    requires Excused(e, c) && e.JournalRefused?
    ensures e.why.Unreadable? ==> c.refused
  {
  }

  /** The plan was reached and got past the journal. */
  predicate Planned(r: Result<Finish, ToolError>) {
    if r.Ok? then r.value != Sized else r.error.PlanFailed? && !r.error.plan.JournalRefused?
  }

  /** How the plan itself ended. */
  function PlanOf(r: Result<Finish, ToolError>): Result<Finish, PlanError>
    requires r.Err? ==> r.error.PlanFailed?
  {
    match r
    case Ok(v) => Ok(v)
    case Err(e) => Err(e.plan)
  }

  /** Why no plan was made: the flags name no range, the scan or the weighing failed, there is no token to
      weigh, or nobody is eligible. */
  ghost predicate NoPlan(e: ToolError, cfg: Config, tip: Option<u64>, scanRefused: bool, scanCancelled: bool,
                         addrs: seq<Address>, cancelled: bool, answers: Address -> bool, nobody: bool) {
    match e
    case BadRange(why) => ResolveRange(tip, cfg.from, cfg.last, cfg.to) == Err(why)
    case ScanFailed(why) => NotScanned(why, scanRefused, scanCancelled)
    case NothingToWeigh => cfg.minHolding.Some? && cfg.token.None?
    case FilterFailed(why) => Unweighed(why, addrs, cancelled, answers)
    case NoRecipients => nobody
    case PlanFailed(_) => false
  }

  /** The log is of the range the flags name, and says exactly what was scanned of it: all of it, or
      less. */
  ghost predicate Scanned(log: ScanLogs.SavedLog, cfg: Config, tip: Option<u64>, rules: Rules, chain: seq<Momentum>,
                          whole: bool) {
    && 0 < log.from && ResolveRange(tip, cfg.from, cfg.last, cfg.to) == Ok((log.from, log.to))
    && Logged(log, rules, chain, cfg.includeRecipients) && (log.momentums == log.count as nat <==> whole)
  }

  lemma StillScanned(before: ScanLogs.SavedLog, after: ScanLogs.SavedLog, cfg: Config, tip: Option<u64>, rules: Rules,
                     chain: seq<Momentum>, whole: bool)
    requires Scanned(before, cfg, tip, rules, chain, whole)
    requires after == before.(filter := after.filter, airdrop := after.airdrop)
    ensures Scanned(after, cfg, tip, rules, chain, whole)
  {
    hide Acted, IsUser, Ascending, BlockCount, ContractCount, Scans.Stretch, Candidates, Digests.DigestOf;
  }

  lemma LoggedAscending(log: ScanLogs.SavedLog, rules: Rules, chain: seq<Momentum>, includeRecipients: bool)
    requires Logged(log, rules, chain, includeRecipients)
    ensures Ascending(log.addresses) && 0 < log.from
    ensures log.momentums == log.count as nat <==> log.from as int - 1 + log.momentums == log.to as int
  {
    hide Acted, IsUser, Ascending, BlockCount, ContractCount, Scans.Stretch, Candidates, Digests.DigestOf;
  }

  /** What is left of the scanned list after narrowing is who is eligible. */
  lemma FoundEligible(cfg: Config, rules: Rules, chain: seq<Momentum>, log: ScanLogs.SavedLog, list: seq<Address>,
                      self: Option<Address>, held: Address -> nat)
    requires Logged(log, rules, chain, cfg.includeRecipients)
    requires forall a :: a in list <==>
               && a in log.addresses && (cfg.excludeSelf && self.Some? ==> a != self.value)
               && (cfg.minHolding.Some? ==> held(a) >= cfg.minHolding.value)
    ensures 0 < log.from
    ensures var to := log.from as nat - 1 + log.momentums;
            && (forall a :: a in list <==> Eligible(cfg, rules, chain, log.from as nat, to, self, held, a))
            && (list == [] ==> Nobody(cfg, rules, chain, log.from as nat, to, self, held))
  {
    hide Acted, IsUser, Ascending, BlockCount, ContractCount, Scans.Stretch, Candidates, Digests.DigestOf;
  }

  /** From flags to a list: exactly the eligible users of the heights covered, in order, each once, and
      the log of the scan. */
  method Find(cfg: Config, tip: Option<u64>, node: Node, rules: Rules, holdings: ScanLogs.Holdings,
              self: Option<Address>)
    returns (r: Result<seq<Address>, ToolError>, log: ScanLogs.ScanLog?)
    requires node.Valid()
    modifies node, holdings
    ensures node.Valid() && node.late == old(node.late) && holdings.late == old(holdings.late)
    ensures log != null ==>
      fresh(log) && Scanned(log.Saved(), cfg, tip, rules, node.chain, node.empties == old(node.empties))
    ensures r == Err(NoRecipients) ==> log != null && log.filter.Some? && log.filter.value.recipients == []
    ensures r.Ok? ==>
      && log != null && r.value != [] && Ascending(r.value) && (forall a | a in r.value :: node.known(a))
      && forall a :: a in r.value <==>
           Eligible(cfg, rules, node.chain, log.from as nat, log.from as nat - 1 + log.momentums, self, holdings.held,
                    a)
    ensures r.Err? ==>
      NoPlan(r.error, cfg, tip, node.refused > old(node.refused), node.cancelled,
             if log == null then [] else log.addresses, holdings.cancelled, holdings.answers,
             log != null && Nobody(cfg, rules, node.chain, log.from as nat, log.from as nat - 1 + log.momentums, self,
                                   holdings.held))
  {
    hide Acted, IsUser, Ascending, Logged, Eligible, Nobody, Digests.DigestOf;
    log := null;
    var range := ResolveRange(tip, cfg.from, cfg.last, cfg.to);
    if range.Err? {
      return Err(BadRange(range.error)), log;
    }
    RangeIsReproducible(tip.value, tip.value, cfg.from, cfg.last, cfg.to);
    var (from, to) := range.value;
    var scanned := ScanRange(cfg, node, rules, from, to);
    if scanned.Err? {
      return Err(scanned.error), log;
    }
    log := scanned.value;
    ghost var saved := log.Saved();
    LoggedAscending(saved, rules, node.chain, cfg.includeRecipients);
    r := Narrow(cfg, holdings, log.addresses, self);
    if r.Ok? {
      FoundEligible(cfg, rules, node.chain, saved, r.value, self, holdings.held);
      if |r.value| == 0 {
        log.SetFilter("", []);
        StillScanned(saved, log.Saved(), cfg, tip, rules, node.chain, node.empties == old(node.empties));
        r := Err(NoRecipients);
      }
    }
  }

  /** From a range of momentums to payments. Past the journal, what is added to the log is one
      process of the job the log describes, whose list holds exactly the eligible addresses of the
      heights covered; when success is reported, each of them was sent the amount on the chain. */
  method Airdrop(cfg: Config, tip: Option<u64>, node: Node, rules: Rules, holdings: ScanLogs.Holdings,
                 world: Worlds.World, clock: Worlds.Clock, codec: Codec, sender: Senders.Sender?, self: Option<Address>,
                 ghost s0: State, ghost s: State)
    returns (r: Result<Finish, ToolError>, log: ScanLogs.ScanLog?, ghost n: Tally, ghost reached: nat, ghost t: State)
    requires node.Valid() && At(codec, s0, world.log, world.Snapshot(), s) && s.proc.None?
    requires self.Some? <==> sender != null
    requires sender != null ==> sender.world == world && sender.clock == clock && sender.lastHash == Ledger.ZeroHash
    requires cfg.confirm && !cfg.dryRun ==> sender != null && cfg.token.Some? && cfg.amount.Some?
    requires '|' !in cfg.zts && forall a :: node.known(a) ==> codec.parses(a)
    modifies node, holdings, world, clock, sender
    ensures At(codec, s0, world.log, world.Snapshot(), t) && t.proc.None?
    ensures !cfg.confirm || cfg.dryRun ==> Quiet(old(world.log), world.log, cfg.options.receive && sender != null)
    ensures !Planned(r) ==> world.log == old(world.log) && world.Snapshot() == old(world.Snapshot())
    ensures log != null ==>
      Scanned(log.Saved(), cfg, tip, rules, node.chain, node.empties == old(node.empties))
    ensures r.Err? && !r.error.PlanFailed? ==>
      NoPlan(r.error, cfg, tip, node.refused > old(node.refused), node.cancelled,
             if log == null then [] else log.addresses, holdings.cancelled, holdings.answers,
             log != null && Nobody(cfg, rules, node.chain, log.from as nat, log.from as nat - 1 + log.momentums,
                                   self, holdings.held))
    ensures r == Err(NoRecipients) ==> log != null && log.filter.Some? && log.filter.value.recipients == []
    ensures r.Err? && r.error.PlanFailed? && r.error.plan.JournalRefused? ==>
      log != null && cfg.amount.Some?
      && Refused(codec, s, old(world.file), RunKeyOf(cfg.zts, cfg.amount.value, log.from as nat, log.to as nat),
                 r.error.plan.why, world.refused > old(world.refused))
    ensures Planned(r) ==>
      && cfg.amount.Some? && log != null && log.filter.Some?
      && var job := Job(cfg.zts, cfg.amount.value, log.from as nat, log.to as nat, log.filter.value.recipients);
      && Describes(log.Saved(), job) && Distinct(job.recipients)
      && Carried(codec, s0, s, t, job, cfg.options.stopAfter, reached, old(world.log), world.log, PlanOf(r), n,
                 cfg.confirm && !cfg.dryRun)
      && SameLater(cfg, tip, job.Run())
      && forall a :: a in job.recipients <==>
           Eligible(cfg, rules, node.chain, log.from as nat, log.from as nat - 1 + log.momentums,
                    self, holdings.held, a)
    ensures Planned(r) ==>
      Served(cfg.options, PlanOf(r), n, sender != null, |old(world.log)|, world.cleared, old(clock.now), clock.now)
    ensures r == Ok(DryRun) && cfg.options.receive && sender != null ==>
      |world.chain| == |old(world.chain)| + (world.listed - old(world.listed))
    ensures world.late == old(world.late) && (old(world.cancelled) ==> reached == 0 && r != Ok(Sent))
  {
    hide At, Eligible, Describes, Quiet, Carried, Distinct, Digests.Sorted, Digests.DigestOf, RunKeyOf, Refused,
      SameLater, NoPlan, Logged, Served;
    t, reached, n := s, 0, Tally(0, 0, 0);
    QuietItself(world.log);
    var found;
    found, log := Find(cfg, tip, node, rules, holdings, self);
    if found.Err? {
      NoPlanMade(found.error, cfg, tip, node.refused > old(node.refused), node.cancelled,
                 if log == null then [] else log.addresses, holdings.cancelled, holdings.answers,
                 log != null && Nobody(cfg, rules, node.chain, log.from as nat, log.from as nat - 1 + log.momentums,
                                       self, holdings.held));
      return Err(found.error), log, n, reached, t;
    }
    if cfg.amount.Some? {
      LaterRuns(cfg, tip);
    }
    ghost var scanned := log.Saved();
    var done;
    done, n, reached, t := PayList(cfg, log, found.value, world, clock, codec, sender, s0, s);
    StillScanned(scanned, log.Saved(), cfg, tip, rules, node.chain, node.empties == old(node.empties));
    if done.Err? {
      return Err(PlanFailed(done.error)), log, n, reached, t;
    }
    return Ok(done.value), log, n, reached, t;
  }

  lemma NoPlanMade(e: ToolError, cfg: Config, tip: Option<u64>, scanRefused: bool, scanCancelled: bool,
                   addrs: seq<Address>, cancelled: bool, answers: Address -> bool, nobody: bool)
    requires NoPlan(e, cfg, tip, scanRefused, scanCancelled, addrs, cancelled, answers, nobody)
    ensures !e.PlanFailed?
  {
  }

  // ---------- replay ----------

  datatype ReplayFailure = BadLog(log: ReplayError) | PlanFails(plan: PlanError)

  /** The addresses the log's list parses to are ones the journal can hold, and the text of a token
      holds no bar. */
  ghost predicate Replayable(ps: Parsers, log: ScanLogs.SavedLog, codec: Codec) {
    && (forall list | ParsesTo(ps, Source(log).0, list) :: forall i | 0 <= i < |list| :: codec.parses(list[i]))
    && (forall text :: ps.zts(text).Some? ==> '|' !in ps.zts(text).value)
  }

  /** What the job names is text the tool printed and the node still knows. */
  ghost predicate Printed(ps: Parsers, job: Job) {
    && job.recipients != [] && job.amount > 0
    && (forall i | 0 <= i < |job.recipients| :: IsAddress(ps, job.recipients[i]))
    && job.zts != "" && ps.zts(job.zts) == Some(job.zts) && ps.decimals(job.zts).Some?
  }

  lemma ChosenIsUsable(ps: Parsers, log: ScanLogs.SavedLog, flags: Flags, codec: Codec, c: Choice)
    requires Replayable(ps, log, codec) && Chosen(ps, log, flags) == Ok(c)
    ensures c.amount > 0 && '|' !in c.zts && ps.decimals(c.zts).Some?
    ensures c.from == log.from as nat && c.to == log.to as nat
  {
    hide Chosen, Amount.Cleaned, Decimal.SpellsInt;
    FlagsWin(ps, log, flags, c);
  }

  lemma ReplayTakesUp(ps: Parsers, log: ScanLogs.SavedLog, job: Job, list: seq<Address>, c: Choice)
    requires Describes(log, job) && Printed(ps, job) && ParsesTo(ps, Source(log).0, list)
    requires Chosen(ps, log, Flags("", "")) == Ok(c)
    ensures c.amount >= 0 && job == Job(c.zts, c.amount, c.from, c.to, list)
  {
    hide Chosen, Describes;
    ReplayIsTheSameJob(ps, log, job, list);
  }

  /** Why a log's list cannot be replayed: it is empty, some text is no address, or its digest is not the
      recorded one. */
  ghost predicate BadList(ps: Parsers, log: ScanLogs.SavedLog, e: ReplayError) {
    match e
    case NoAddresses => Source(log).0 == []
    case BadAddressText(k) => FirstBad(ps, Source(log).0, k)
    case DigestMismatch =>
      forall list | ParsesTo(ps, Source(log).0, list) :: !RecordedDigest(log, Digests.DigestOf(list))
    case _ => false
  }

  lemma WhyBadList(ps: Parsers, log: ScanLogs.SavedLog, e: ReplayError)
    requires e.NoAddresses? || e.BadAddressText? || e.DigestMismatch?
    requires e.NoAddresses? ==> Source(log).0 == []
    requires e.BadAddressText? ==> FirstBad(ps, Source(log).0, e.index)
    requires e.DigestMismatch? ==>
      forall list | ParsesTo(ps, Source(log).0, list) :: Digests.DigestOf(list) != Source(log).1
    ensures BadList(ps, log, e)
  {
    hide Digests.DigestOf;
  }

  /** Pay the list of a saved log, which is the one whose digest the log recorded, and therefore the one
      approved, up to its order. Past the journal, what is added to the log is one process of the job
      taken from it; replaying the log of a run without overrides takes up that run's own job, so exactly
      its recipients without a record are attempted, in order. When success is reported everybody on the
      list has been paid, whether by the first run or by the replay. */
  method Replay(saved: ScanLogs.SavedLog, ps: Parsers, flags: Flags, world: Worlds.World, clock: Worlds.Clock,
                codec: Codec, sender: Senders.Sender?, options: Options, sending: bool, ghost s0: State,
                ghost s: State)
    returns (r: Result<Finish, ReplayFailure>, ghost job: Job, ghost n: Tally, ghost reached: nat, ghost t: State)
    requires At(codec, s0, world.log, world.Snapshot(), s) && s.proc.None? && Replayable(ps, saved, codec)
    requires sender != null ==> sender.world == world && sender.clock == clock && sender.lastHash == Ledger.ZeroHash
    requires sending ==> sender != null
    modifies world, clock, sender
    ensures At(codec, s0, world.log, world.Snapshot(), t) && t.proc.None?
    ensures !sending ==> Quiet(old(world.log), world.log, options.receive && sender != null)
    ensures r.Err? && (r.error.BadLog? || r.error.plan.JournalRefused?) ==>
      world.log == old(world.log) && world.Snapshot() == old(world.Snapshot())
    ensures r.Err? && r.error.PlanFails? && r.error.plan.JournalRefused? ==>
      Refused(codec, s, old(world.file), job.Run(), r.error.plan.why, world.refused > old(world.refused))
    ensures r.Err? && r.error.BadLog? ==>
      BadList(ps, saved, r.error.log) || Chosen(ps, saved, flags) == Err(r.error.log)
    ensures !(r.Err? && r.error.BadLog?) ==>
      && Chosen(ps, saved, flags) == Ok(Choice(job.zts, job.amount, job.from, job.to))
      && ParsesTo(ps, Source(saved).0, job.recipients) && RecordedDigest(saved, Digests.DigestOf(job.recipients))
    ensures !(r.Err? && (r.error.BadLog? || r.error.plan.JournalRefused?)) ==>
      Carried(codec, s0, s, t, job, options.stopAfter, reached, old(world.log), world.log,
              if r.Ok? then Ok(r.value) else Err(r.error.plan), n, sending)
      && Served(options, if r.Ok? then Ok(r.value) else Err(r.error.plan), n, sender != null, |old(world.log)|,
                world.cleared, old(clock.now), clock.now)
    ensures r == Ok(DryRun) && options.receive && sender != null ==>
      |world.chain| == |old(world.chain)| + (world.listed - old(world.listed))
    ensures !(r.Err? && r.error.BadLog?) && flags == Flags("", "") ==>
      forall logged | Describes(saved, logged) && Printed(ps, logged) :: job == logged
    ensures world.late == old(world.late) && (old(world.cancelled) ==> reached == 0 && r != Ok(Sent))
  {
    hide At, Describes, Excused, Quiet, Chosen, Annotated, Printed, Adds, Distinct, RunKeyOf, Ends, Carried, PaidFrom,
      Readable, Missing, MarkedCount, RecordedDigest, RecordedList, Digests.DigestOf, Served;
    t, reached, n, job := s, 0, Tally(0, 0, 0), Job("", 0, 0, 0, []);
    QuietItself(world.log);
    var list := ReplayList(ps, saved);
    if list.Err? {
      WhyBadList(ps, saved, list.error);
      return Err(BadLog(list.error)), job, n, reached, t;
    }
    var choice := Chosen(ps, saved, flags);
    if choice.Err? {
      return Err(BadLog(choice.error)), job, n, reached, t;
    }
    var c := choice.value;
    ChosenIsUsable(ps, saved, flags, codec, c);
    var plan := new RunPlan(world, clock, codec, sender, c.zts, Some(Token(ps.decimals(c.zts).value)), Some(c.amount),
                            list.value, saved.from, saved.to, sending, null);
    job := plan.TheJob();
    forall logged | Describes(saved, logged) && Printed(ps, logged) && flags == Flags("", "") ensures job == logged {
      ReplayTakesUp(ps, saved, logged, list.value, c);
    }
    ghost var log0, o0 := world.log, world.Snapshot();
    var done;
    done, n, reached, t := plan.PlanAndSend(options, s0, s);
    if done.Err? && done.error.JournalRefused? {
      RefusedByDisk(done.error, Causes(world.cancelled, world.refused > old(world.refused),
                                       world.failures > old(world.failures)
                                       || clock.now > old(clock.now) + plan.Wait(), options.receive && sender != null));
    }
    if Began(done) {
      PlanCarried(codec, s0, s, o0, t, world.Snapshot(), job, options.stopAfter, reached, log0, world.log, done, n,
                  sending);
    }
    if done.Err? {
      return Err(PlanFails(done.error)), job, n, reached, t;
    }
    return Ok(done.value), job, n, reached, t;
  }
}
