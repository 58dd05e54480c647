/** What holds after every history of processes sharing one key and one journal. */
module History {
  import opened Basics
  import opened Ledger
  import opened Journals
  import opened Protocol
  import opened Invariant

  /** evs is a history from an empty journal that leads to s. */
  ghost predicate Reaches(c: Codec, s0: State, evs: seq<Event>, s: State) {
    Lawful(c) && Init(s0) && Exec(c, s0, evs) == Some(s)
  }

  lemma ReachableInv(c: Codec, s0: State, evs: seq<Event>, s: State)
    requires Reaches(c, s0, evs, s)
    ensures Inv(c, s)
  {
    hide Inv, Exec;
    InitInv(c, s0);
    HistoryInv(c, s0, evs);
  }

  /** The log so far is a history that leads to s, and the outside world is as s has it. */
  ghost predicate At(c: Codec, s0: State, log: seq<Event>, o: Outside, s: State) {
    Reaches(c, s0, log, s) && s.o == o && Inv(c, s)
  }

  lemma Advance(c: Codec, s0: State, log: seq<Event>, o: Outside, s: State, ev: Event)
    requires At(c, s0, log, o, s) && Enabled(c, s, ev)
    ensures At(c, s0, log + [ev], Effect(o, ev), After(c, s, ev))
  {
    hide Inv, Exec, Enabled, After, Effect;
    ExecStep(c, s0, log, ev);
    StepInv(c, s, ev);
  }

  /** A crash can come between any two events: what a history passes through is a history. */
  lemma {:induction false} Prefixes(c: Codec, s0: State, evs: seq<Event>, n: nat)
    requires Legal(c, s0, evs) && n <= |evs|
    ensures Legal(c, s0, evs[..n])
    decreases |evs| - n
  {
    hide Enabled, After;
    if n == |evs| {
      assert evs[..n] == evs;
    } else {
      Prefixes(c, s0, evs, n + 1);
      assert evs[..n + 1][..n] == evs[..n];
    }
  }

  // ---------- never a silent skip ----------

  /** In every reachable state, every address the journal marks as paid for an airdrop was sent
      that airdrop's amount of its token, in the block on the chain whose hash the mark holds. */
  lemma NoSilentSkip(c: Codec, s0: State, evs: seq<Event>, s: State, job: Job, paid: map<Address, Hash>)
    requires Reaches(c, s0, evs, s) && JobOk(c, job)
    requires PaidFrom(c, s.o.file, job.Run(), map[]) == Ok(paid)
    ensures PaidInv(s.o.chain, job, paid)
  {
    hide PaidInv, FileInv, RecordInv, SettledInv, OnceInv, LandingsInv, ProcInv, TallyInv, Exec, Init, JobOk,
      CoveredInv, RepeatInv, PaidFrom;
    ReachableInv(c, s0, evs, s);
    StartedPaid(c, s, job, paid);
  }

  /** The journal in every reachable state: reading it gives exactly the marks of its records, or
      is refused, and it is refused exactly when some line is not one whole record. */
  lemma JournalIsExact(c: Codec, s0: State, evs: seq<Event>, s: State, run: RunKey)
    requires Reaches(c, s0, evs, s)
    ensures Readable(c, s.layout) ==> PaidFrom(c, s.o.file, run, map[]) == Ok(Marks(s.layout, run, map[]))
    ensures !Readable(c, s.layout) ==> PaidFrom(c, s.o.file, run, map[]).Err?
    ensures RecordInv(s.layout, s.owner, s.landings)
  {
    hide RecordInv, SettledInv, OnceInv, LandingsInv, ProcInv, TallyInv, Exec, Init, Readable, PaidFrom, Marks, Text,
      Shaped;
    ReachableInv(c, s0, evs, s);
    PaidIsExact(c, s.layout, run, map[]);
  }

  /** An unreadable journal stops every later process of every airdrop before it does anything: only
      a loss of power and other programs' blocks can come next. */
  lemma UnreadableRefusesAll(c: Codec, s0: State, evs: seq<Event>, s: State, ev: Event)
    requires Reaches(c, s0, evs, s) && !Readable(c, s.layout) && s.proc.None?
    requires Enabled(c, s, ev)
    ensures ev.PowerLost? || ev.Foreign?
  {
    hide Exec, Init, Readable, PaidFrom, Marks, Text, Shaped, RecordInv;
    match ev {
      case Started(job, _) => JournalIsExact(c, s0, evs, s, job.Run());
      case _ =>
    }
  }

  // ---------- the account chain never forks ----------

  /** The blocks acknowledged to a process lie on the chain one on top of the other, whatever the
      node reported in between. */
  lemma AckedIsContiguous(c: Codec, s0: State, evs: seq<Event>, s: State)
    requires Reaches(c, s0, evs, s) && s.proc.Some? && s.proc.value.acked != []
    ensures var p := s.proc.value;
            && p.at + |p.acked| <= |s.o.chain| && s.o.chain[p.at..p.at + |p.acked|] == p.acked
            && forall i | 0 < i < |p.acked| ::
                 p.acked[i].previous == HashOf(p.acked[i - 1]) && p.acked[i].height == p.acked[i - 1].height + 1
  {
    hide FileInv, RecordInv, SettledInv, OnceInv, TallyInv, Exec, Init, CoveredInv, RepeatInv, PaidInv, WindowInv,
      EndInv, RiskInv, MoneyInv;
    ReachableInv(c, s0, evs, s);
    var p := s.proc.value;
    Stretch(s.o.chain, p.acked, p.at);
  }

  lemma Stretch(chain: seq<Block>, acked: seq<Block>, at: nat)
    requires Linked(chain) && at + |acked| <= |chain| && chain[at..at + |acked|] == acked
    ensures forall i | 0 < i < |acked| ::
              acked[i].previous == HashOf(acked[i - 1]) && acked[i].height == acked[i - 1].height + 1
  {
    forall i | 0 < i < |acked|
      ensures acked[i].previous == HashOf(acked[i - 1]) && acked[i].height == acked[i - 1].height + 1
    {
      assert acked[i] == chain[at + i] && acked[i - 1] == chain[at + i - 1];
      assert chain[..at + i][at + i - 1] == chain[at + i - 1];
    }
  }

  // ---------- containment of ambiguous publishes ----------

  /** Once a block lies beyond the last acknowledged one, nothing this process publishes lands. */
  lemma StuckNothingLands(c: Codec, s: State, b: Block, landed: bool, acked: bool)
    requires Inv(c, s) && s.proc.Some? && Stuck(s.o.chain, s.proc.value.acked, s.proc.value.at)
    requires Enabled(c, s, Published(b, landed, acked))
    ensures !landed
  {
    hide FileInv, RecordInv, SettledInv, OnceInv, TallyInv, CoveredInv, RepeatInv, PaidInv, WindowInv, EndInv,
      RiskInv, MoneyInv, LoopInv;
    var p := s.proc.value;
    if landed {
      LandsOnLast(s.o.chain, p.last, p.acked, p.at);
    }
  }

  /** The same process runs through evs. */
  ghost predicate NoStop(evs: seq<Event>) {
    forall i | 0 <= i < |evs| :: evs[i] != Stopped
  }

  lemma NoStopConcat(a: seq<Event>, b: seq<Event>)
    requires NoStop(a) && NoStop(b)
    ensures NoStop(a + b)
  {
  }

  /** While one process runs, its bookkeeping start stays, an acknowledged block stays
      acknowledged, and early sends stop at the first acknowledgement. */
  lemma {:induction false} SameProcess(c: Codec, s: State, evs: seq<Event>)
    requires Lawful(c) && Inv(c, s) && s.proc.Some? && Legal(c, s, evs) && NoStop(evs)
    ensures var t := Exec(c, s, evs).value;
            && t.proc.Some? && t.proc.value.base == s.proc.value.base && Inv(c, t)
            && t.landings[..t.proc.value.base] == s.landings[..s.proc.value.base]
            && (s.proc.value.last != ZeroHash ==>
                 t.proc.value.last != ZeroHash && t.proc.value.early == s.proc.value.early)
  {
    hide Inv, After, Enabled;
    if evs != [] {
      var n := |evs| - 1;
      assert NoStop(evs[..n]);
      SameProcess(c, s, evs[..n]);
      var t := Exec(c, s, evs[..n]).value;
      StepInv(c, t, evs[n]);
      SameProcessStep(c, t, evs[n]);
    }
  }

  lemma SameProcessStep(c: Codec, s: State, ev: Event)
    requires Inv(c, s) && s.proc.Some? && Enabled(c, s, ev) && ev != Stopped
    ensures var t := After(c, s, ev);
            && t.proc.Some? && t.proc.value.base == s.proc.value.base <= |s.landings| <= |t.landings|
            && t.landings[..s.proc.value.base] == s.landings[..s.proc.value.base]
            && (s.proc.value.last != ZeroHash ==>
                 t.proc.value.last != ZeroHash && t.proc.value.early == s.proc.value.early)
  {
    hide FileInv, RecordInv, SettledInv, OnceInv, LandingsInv, TallyInv, CoveredInv, RepeatInv, PaidInv, ChainInv,
      EndInv, RiskInv, MoneyInv;
    var p := s.proc.value;
    var t := After(c, s, ev);
    if ev.Synced? {
      assert p.base < |s.landings|;
    }
  }

  /** From then on until the process ends, the true tip is not the block it builds on, the chain
      stays as it is, and it publishes nothing that lands, whatever frontiers the node reports. */
  lemma {:induction false} StuckForever(c: Codec, s: State, evs: seq<Event>)
    requires Lawful(c) && Inv(c, s) && s.proc.Some? && Stuck(s.o.chain, s.proc.value.acked, s.proc.value.at)
    requires Legal(c, s, evs) && NoStop(evs)
    ensures var t := Exec(c, s, evs).value;
            && Inv(c, t) && t.proc.Some? && t.o.chain == s.o.chain
            && t.proc.value.acked == s.proc.value.acked && t.proc.value.at == s.proc.value.at
            && t.proc.value.last == s.proc.value.last && t.landings == s.landings
            && TipHash(t.o.chain) != t.proc.value.last
    ensures forall i | 0 <= i < |evs| && evs[i].Published? :: !evs[i].landed
  {
    hide Inv, After, Enabled;
    if evs == [] {
      StuckTip(c, s);
    } else {
      var n := |evs| - 1;
      assert NoStop(evs[..n]);
      StuckForever(c, s, evs[..n]);
      assert forall i | 0 <= i < n :: evs[..n][i] == evs[i];
      var t := Exec(c, s, evs[..n]).value;
      StepInv(c, t, evs[n]);
      StuckStep(c, t, evs[n]);
    }
  }

  lemma StuckTip(c: Codec, s: State)
    requires Inv(c, s) && s.proc.Some? && Stuck(s.o.chain, s.proc.value.acked, s.proc.value.at)
    ensures TipHash(s.o.chain) != s.proc.value.last
  {
    hide FileInv, RecordInv, SettledInv, OnceInv, TallyInv, CoveredInv, RepeatInv, PaidInv, WindowInv, EndInv,
      RiskInv, MoneyInv, LoopInv;
    var p := s.proc.value;
    var i := p.at + |p.acked| - 1;
    assert s.o.chain[i] == p.acked[|p.acked| - 1];
    BelowTipDiffers(s.o.chain, i);
  }

  lemma StuckStep(c: Codec, s: State, ev: Event)
    requires Inv(c, s) && s.proc.Some? && Stuck(s.o.chain, s.proc.value.acked, s.proc.value.at)
    requires Enabled(c, s, ev) && ev != Stopped
    ensures ev.Published? ==> !ev.landed
    ensures var t := After(c, s, ev);
            && t.proc.Some? && t.o.chain == s.o.chain && t.proc.value.acked == s.proc.value.acked
            && t.proc.value.at == s.proc.value.at && t.proc.value.last == s.proc.value.last && t.landings == s.landings
  {
    hide FileInv, RecordInv, SettledInv, OnceInv, LandingsInv, TallyInv, CoveredInv, RepeatInv, PaidInv, WindowInv,
      EndInv, RiskInv, MoneyInv, LoopInv;
    match ev {
      case Published(b, landed, acked) => StuckNothingLands(c, s, b, landed, acked);
      case _ =>
    }
  }

  /** How many sends lie on the chain without a synced record. */
  function AtRisk(s: State): nat {
    Loose(s.landings, 0)
  }

  lemma RiskOf(c: Codec, s: State)
    requires Inv(c, s) && s.proc.Some?
    ensures var p := s.proc.value;
            p.base <= |s.landings| &&
            AtRisk(s) == Loose(s.landings[..p.base], 0) + p.early + Late(s.o.chain, p.acked, p.at, InWindow(p))
  {
    hide FileInv, RecordInv, SettledInv, OnceInv, LandingsInv, TallyInv, CoveredInv, RepeatInv, PaidInv, ChainInv,
      EndInv, MoneyInv, WindowInv;
    LooseSplit(s.landings, s.proc.value.base);
  }

  /** Once a block has been acknowledged to it, a process adds at most one send without a record,
      however many recipients it goes on to try and whatever the node reports. */
  lemma Containment(c: Codec, s: State, evs: seq<Event>)
    requires Lawful(c) && Inv(c, s) && s.proc.Some? && s.proc.value.last != ZeroHash
    requires Legal(c, s, evs) && NoStop(evs)
    ensures AtRisk(Exec(c, s, evs).value) <= AtRisk(s) + 1
  {
    hide Inv, Exec, Loose, NoStop;
    SameProcess(c, s, evs);
    RiskOf(c, s);
    RiskOf(c, Exec(c, s, evs).value);
  }

  /** Paying recipient i with a block on the true tip that lands and is reported as an error. */
  function OneLost(p: Proc, chain: seq<Block>, i: nat): seq<Event>
    requires i < |p.job.recipients|
  {
    var b := Block(TipHash(chain), |chain| + 1, Send(p.job.recipients[i], p.job.amount, p.job.zts), 0);
    [Attempted(i), Published(b, true, false)]
  }

  lemma Exec2(c: Codec, s: State, e1: Event, e2: Event)
    requires Enabled(c, s, e1) && Enabled(c, After(c, s, e1), e2)
    ensures Exec(c, s, [e1, e2]) == Some(After(c, After(c, s, e1), e2))
  {
    hide Enabled, After;
    ExecStep(c, s, [], e1);
    assert [] + [e1] == [e1];
    ExecStep(c, s, [e1], e2);
    assert [e1] + [e2] == [e1, e2];
  }

  lemma EnoughForOne(c: Codec, s: State, i: nat)
    requires s.proc.Some? && s.proc.value.phase.Ready? && Inv(c, s)
    requires s.proc.value.next <= i < |s.proc.value.job.recipients|
    requires s.proc.value.job.recipients[i] !in s.proc.value.paid
    ensures Balance(s.o.funds, s.proc.value.job.zts) >= s.proc.value.job.amount
  {
    hide FileInv, RecordInv, SettledInv, OnceInv, LandingsInv, TallyInv, CoveredInv, RepeatInv, PaidInv, ChainInv,
      EndInv, WindowInv, RiskInv, Balance;
    var p := s.proc.value;
    UnpaidFrom(p.job.recipients, p.paid, p.next, i);
    CostMonotone(p.job.amount, 1, Unpaid(p.job.recipients, p.paid, p.next));
    assert Cost(p.job.amount, 1) == p.job.amount + Cost(p.job.amount, 0);
  }

  /** Before any block was acknowledged to it, such a send can be lost and the process goes on. */
  lemma OneLostIsLegal(c: Codec, s: State, i: nat)
    requires s.proc.Some? && s.proc.value.phase.Ready? && s.proc.value.last == ZeroHash
    requires s.proc.value.next <= i < |s.proc.value.job.recipients|
    requires s.proc.value.job.recipients[i] !in s.proc.value.paid
    requires s.proc.value.limit > 0 ==> s.proc.value.streak < s.proc.value.limit
    requires Balance(s.o.funds, s.proc.value.job.zts) >= s.proc.value.job.amount
    ensures var p, evs := s.proc.value, OneLost(s.proc.value, s.o.chain, i);
            && Legal(c, s, evs)
            && var t := Exec(c, s, evs).value;
               && AtRisk(t) == AtRisk(s) + 1
               && t.proc == Some(p.(phase := Ready, next := i + 1, streak := p.streak + 1, early := p.early + 1))
  {
    hide Exec;
    var p, evs := s.proc.value, OneLost(s.proc.value, s.o.chain, i);
    var b := evs[1].block;
    Exec2(c, s, evs[0], evs[1]);
    LooseAppend(s.landings, Landing(p.job.from, p.job.to, b, None), 0);
  }

  /** The next recipient without a mark. */
  lemma NextUnpaid(recipients: seq<Address>, paid: map<Address, Hash>, k: nat) returns (i: nat)
    requires Unpaid(recipients, paid, k) > 0
    ensures k <= i < |recipients| && recipients[i] !in paid
    ensures Unpaid(recipients, paid, i + 1) == Unpaid(recipients, paid, k) - 1
    decreases |recipients| - k
  {
    if recipients[k] in paid {
      i := NextUnpaid(recipients, paid, k + 1);
    } else {
      i := k;
    }
  }

  /** This process has had no block acknowledged, and can still lose track of n sends in a row. */
  ghost predicate CanLose(s: State, n: nat) {
    && s.proc.Some?
    && var p := s.proc.value;
    && p.phase.Ready? && p.last == ZeroHash && n <= Unpaid(p.job.recipients, p.paid, p.next)
    && (p.limit > 0 ==> p.streak + n <= p.limit)
  }

  lemma LoseOne(c: Codec, s: State, n: nat) returns (evs: seq<Event>)
    requires Lawful(c) && Inv(c, s) && CanLose(s, n) && n > 0
    ensures Legal(c, s, evs) && NoStop(evs)
    ensures var t := Exec(c, s, evs).value; Inv(c, t) && CanLose(t, n - 1) && AtRisk(t) == AtRisk(s) + 1
  {
    hide Inv, Exec, AtRisk, Balance, Unpaid, OneLost;
    var p := s.proc.value;
    var i := NextUnpaid(p.job.recipients, p.paid, p.next);
    EnoughForOne(c, s, i);
    OneLostIsLegal(c, s, i);
    OneLostGoesOn(p, s.o.chain, i);
    evs := OneLost(p, s.o.chain, i);
    HistoryInv(c, s, evs);
  }

  lemma OneLostGoesOn(p: Proc, chain: seq<Block>, i: nat)
    requires i < |p.job.recipients|
    ensures NoStop(OneLost(p, chain, i))
  {
  }

  /** A process that has not had a block acknowledged can lose track of as many sends in a row as
      it has recipients left, short only of its limit on failures in a row. */
  lemma {:induction false} ManyLostIsLegal(c: Codec, s: State, n: nat) returns (evs: seq<Event>)
    requires Lawful(c) && Inv(c, s) && CanLose(s, n)
    ensures Legal(c, s, evs) && NoStop(evs) && AtRisk(Exec(c, s, evs).value) == AtRisk(s) + n
    decreases n
  {
    if n == 0 {
      evs := [];
    } else {
      hide Inv, Exec, AtRisk, NoStop, CanLose;
      var first := LoseOne(c, s, n);
      var rest := ManyLostIsLegal(c, Exec(c, s, first).value, n - 1);
      ExecConcat(c, s, first, rest);
      NoStopConcat(first, rest);
      evs := first + rest;
    }
  }

  // ---------- what the limit on failures in a row bounds ----------

  /** Sends lost before the first acknowledgement are failures in a row; spare is what had been
      lost beyond the streak when counting began. */
  ghost predicate Budget(p: Proc, spare: int) {
    && (p.phase.Opening? ==> p.early == 0 && spare >= 0)
    && (p.last == ZeroHash ==> p.early + (if p.phase.Trying? then 1 else 0) <= p.streak + spare)
    && (p.limit > 0 ==> p.streak <= p.limit && (p.last != ZeroHash ==> p.early < p.limit + spare))
  }

  lemma BudgetStep(c: Codec, s: State, ev: Event, spare: int)
    requires s.proc.Some? && Enabled(c, s, ev) && ev != Stopped && Budget(s.proc.value, spare)
    ensures var t := After(c, s, ev);
            t.proc.Some? && Budget(t.proc.value, spare) && t.proc.value.limit == s.proc.value.limit
  {
    hide PaidFrom, Text, Truncate;
  }

  lemma {:induction false} BudgetKept(c: Codec, s: State, evs: seq<Event>, spare: int)
    requires s.proc.Some? && Legal(c, s, evs) && NoStop(evs) && Budget(s.proc.value, spare)
    ensures var t := Exec(c, s, evs).value;
            t.proc.Some? && Budget(t.proc.value, spare) && t.proc.value.limit == s.proc.value.limit
  {
    if evs != [] {
      hide Enabled, After, Budget;
      var n := |evs| - 1;
      assert NoStop(evs[..n]);
      BudgetKept(c, s, evs[..n], spare);
      BudgetStep(c, Exec(c, s, evs[..n]).value, evs[n], spare);
    }
  }

  lemma {:induction false} BudgetHolds(c: Codec, s0: State, evs: seq<Event>)
    requires Init(s0) && Legal(c, s0, evs)
    ensures var t := Exec(c, s0, evs).value; t.proc.Some? ==> Budget(t.proc.value, 0)
  {
    if evs != [] {
      hide Enabled, After, Budget;
      var n := |evs| - 1;
      BudgetHolds(c, s0, evs[..n]);
      var s := Exec(c, s0, evs[..n]).value;
      if s.proc.Some? && evs[n] != Stopped {
        BudgetStep(c, s, evs[n], 0);
      } else {
        BudgetStarts(c, s, evs[n]);
      }
    }
  }

  lemma BudgetStarts(c: Codec, s: State, ev: Event)
    requires Enabled(c, s, ev) && (s.proc.None? || ev == Stopped)
    ensures var t := After(c, s, ev); t.proc.Some? ==> Budget(t.proc.value, 0)
  {
    hide PaidFrom, Text, Truncate;
  }

  lemma WithinBudget(c: Codec, s: State, spare: int)
    requires Inv(c, s) && s.proc.Some? && s.proc.value.limit > 0 && Budget(s.proc.value, spare)
    ensures s.proc.value.base <= |s.landings| && Loose(s.landings, s.proc.value.base) <= s.proc.value.limit + spare
  {
    hide FileInv, RecordInv, SettledInv, OnceInv, LandingsInv, TallyInv, CoveredInv, RepeatInv, PaidInv, EndInv,
      MoneyInv, WindowInv, Loose;
  }

  /** A process that gives up after k > 0 failures in a row never has more than k sends without a
      synced record, over all it does. */
  lemma LimitBoundsRisk(c: Codec, s0: State, evs: seq<Event>, s: State)
    requires Reaches(c, s0, evs, s) && s.proc.Some? && s.proc.value.limit > 0
    ensures s.proc.value.base <= |s.landings| && Loose(s.landings, s.proc.value.base) <= s.proc.value.limit
  {
    hide Inv, Exec, Init, Budget, Loose;
    ReachableInv(c, s0, evs, s);
    BudgetHolds(c, s0, evs);
    WithinBudget(c, s, 0);
  }

  // ---------- the worst a process can do before its first acknowledgement ----------

  /** Lost sends and recipients still ahead together stay within total, with room for one more send
      once a block was acknowledged. */
  ghost predicate Left(p: Proc, total: nat) {
    && !p.phase.Opening?
    && if p.last == ZeroHash then p.early + Unpaid(p.job.recipients, p.paid, Ahead(p)) <= total
       else p.early < total
  }

  lemma LeftStep(c: Codec, s: State, ev: Event, total: nat)
    requires Inv(c, s) && s.proc.Some? && Enabled(c, s, ev) && ev != Stopped && Left(s.proc.value, total)
    ensures var t := After(c, s, ev); t.proc.Some? && Left(t.proc.value, total)
  {
    hide FileInv, RecordInv, SettledInv, OnceInv, LandingsInv, TallyInv, CoveredInv, RepeatInv, PaidInv, ChainInv,
      EndInv, MoneyInv, WindowInv, RiskInv;
    if ev.Attempted? {
      UnpaidFrom(s.proc.value.job.recipients, s.proc.value.paid, Ahead(s.proc.value), ev.i);
    }
  }

  lemma {:induction false} LeftKept(c: Codec, s: State, evs: seq<Event>, total: nat)
    requires Lawful(c) && Inv(c, s) && s.proc.Some? && Legal(c, s, evs) && NoStop(evs) && Left(s.proc.value, total)
    ensures var t := Exec(c, s, evs).value; Inv(c, t) && t.proc.Some? && Left(t.proc.value, total)
  {
    if evs != [] {
      hide Inv, Enabled, After, Left;
      var n := |evs| - 1;
      assert NoStop(evs[..n]);
      LeftKept(c, s, evs[..n], total);
      LeftStep(c, Exec(c, s, evs[..n]).value, evs[n], total);
      StepInv(c, Exec(c, s, evs[..n]).value, evs[n]);
    }
  }

  lemma LeftRisk(c: Codec, s: State, total: nat)
    requires Inv(c, s) && s.proc.Some? && Left(s.proc.value, total)
    ensures s.proc.value.base <= |s.landings| && Loose(s.landings, s.proc.value.base) <= total
  {
    hide FileInv, RecordInv, SettledInv, OnceInv, LandingsInv, TallyInv, CoveredInv, RepeatInv, PaidInv, EndInv,
      MoneyInv, Loose;
  }

  /** What a process between two recipients, with no block acknowledged to it, can lose at worst:
      everyone left to pay, or as many as failures in a row are left to its limit. */
  function WorstLoss(p: Proc): nat {
    var unpaid := Unpaid(p.job.recipients, p.paid, p.next);
    if p.limit <= 0 || p.streak + unpaid <= p.limit then unpaid
    else if p.streak <= p.limit then p.limit - p.streak else 0
  }

  lemma NeverMoreThanWorst(c: Codec, s: State, evs: seq<Event>)
    requires Lawful(c) && Inv(c, s) && s.proc.Some? && s.proc.value.phase.Ready? && s.proc.value.last == ZeroHash
    requires Legal(c, s, evs) && NoStop(evs)
    ensures AtRisk(Exec(c, s, evs).value) <= AtRisk(s) + WorstLoss(s.proc.value)
  {
    hide Inv, Exec, NoStop, Unpaid, Loose, Budget;
    var p, t := s.proc.value, Exec(c, s, evs).value;
    var total := p.early + Unpaid(p.job.recipients, p.paid, p.next);
    FreshRisk(c, s);
    LeftKept(c, s, evs, total);
    LeftRisk(c, t, total);
    BudgetKept(c, s, evs, p.early - p.streak);
    if p.limit > 0 {
      WithinBudget(c, t, p.early - p.streak);
    }
    SameProcess(c, s, evs);
    LooseSplit(t.landings, p.base);
    LooseSplit(s.landings, p.base);
  }

  /** The worst is never exceeded over all the rest of the process, and it can happen. */
  lemma WorstLossExactly(c: Codec, s: State)
    requires Lawful(c) && Inv(c, s) && s.proc.Some? && s.proc.value.phase.Ready? && s.proc.value.last == ZeroHash
    ensures var worst := WorstLoss(s.proc.value);
            && (forall evs | Legal(c, s, evs) && NoStop(evs) :: AtRisk(Exec(c, s, evs).value) <= AtRisk(s) + worst)
            && exists evs :: Legal(c, s, evs) && NoStop(evs) && AtRisk(Exec(c, s, evs).value) == AtRisk(s) + worst
  {
    hide Inv, Exec, NoStop, AtRisk, Unpaid;
    forall evs | Legal(c, s, evs) && NoStop(evs)
      ensures AtRisk(Exec(c, s, evs).value) <= AtRisk(s) + WorstLoss(s.proc.value)
    {
      NeverMoreThanWorst(c, s, evs);
    }
    StreakWithin(c, s);
    var evs := ManyLostIsLegal(c, s, WorstLoss(s.proc.value));
    assert Legal(c, s, evs) && NoStop(evs);
  }

  lemma StreakWithin(c: Codec, s: State)
    requires Inv(c, s) && s.proc.Some?
    ensures s.proc.value.limit > 0 ==> s.proc.value.streak <= s.proc.value.limit
  {
    hide FileInv, RecordInv, SettledInv, OnceInv, LandingsInv, TallyInv, CoveredInv, RepeatInv, PaidInv, ChainInv,
      EndInv, MoneyInv, WindowInv, RiskInv;
  }

  /** One failure short of its limit, a process adds at most one send without a record. */
  lemma LastChance(c: Codec, s: State, evs: seq<Event>)
    requires Lawful(c) && Inv(c, s) && s.proc.Some? && s.proc.value.phase.Ready? && s.proc.value.last == ZeroHash
    requires s.proc.value.limit > 0 && s.proc.value.streak + 1 >= s.proc.value.limit
    requires Legal(c, s, evs) && NoStop(evs)
    ensures AtRisk(Exec(c, s, evs).value) <= AtRisk(s) + 1
  {
    hide Inv, Exec, NoStop, AtRisk, Unpaid;
    NeverMoreThanWorst(c, s, evs);
  }

  lemma FreshRisk(c: Codec, s: State)
    requires Inv(c, s) && s.proc.Some? && s.proc.value.phase.Ready? && s.proc.value.last == ZeroHash
    ensures var p := s.proc.value;
            && p.base <= |s.landings| && Loose(s.landings, p.base) == p.early && Budget(p, p.early - p.streak)
  {
    hide FileInv, RecordInv, SettledInv, OnceInv, LandingsInv, TallyInv, CoveredInv, RepeatInv, PaidInv, EndInv,
      MoneyInv, WindowInv, Loose;
  }

  /** The promise that one interrupted process costs at most one duplicate payment, exactly: between
      two recipients it holds of all the rest of the process if and only if a block has already been
      acknowledged to it, one more failure in a row makes it stop, or at most one recipient is left
      to pay. */
  lemma ContainedExactly(c: Codec, s: State)
    requires Lawful(c) && Inv(c, s) && s.proc.Some? && s.proc.value.phase.Ready?
    ensures var p := s.proc.value;
            p.last != ZeroHash || (p.limit > 0 && p.streak + 1 >= p.limit)
            || Unpaid(p.job.recipients, p.paid, p.next) <= 1
            <==> forall evs :: Legal(c, s, evs) && NoStop(evs) ==> AtRisk(Exec(c, s, evs).value) <= AtRisk(s) + 1
  {
    hide Inv, Exec, NoStop, AtRisk, Unpaid;
    var p := s.proc.value;
    if p.last != ZeroHash || WorstLoss(p) <= 1 {
      forall evs | Legal(c, s, evs) && NoStop(evs)
        ensures AtRisk(Exec(c, s, evs).value) <= AtRisk(s) + 1
      {
        if p.last != ZeroHash {
          Containment(c, s, evs);
        } else {
          NeverMoreThanWorst(c, s, evs);
        }
      }
    } else {
      var evs := ManyLostIsLegal(c, s, 2);
      assert Legal(c, s, evs) && NoStop(evs);
    }
  }

  /** At the start of the payments: the promise holds if and only if a block was received before
      them, the process stops at the first failure, or there is at most one recipient to pay. */
  lemma ContainedFromTheStart(c: Codec, s: State)
    requires Lawful(c) && Inv(c, s) && s.proc.Some? && s.proc.value.phase.Ready?
    requires s.proc.value.streak == 0 && s.proc.value.next == 0
    ensures var p := s.proc.value;
            p.last != ZeroHash || p.limit == 1 || Unpaid(p.job.recipients, p.paid, 0) <= 1
            <==> forall evs :: Legal(c, s, evs) && NoStop(evs) ==> AtRisk(Exec(c, s, evs).value) <= AtRisk(s) + 1
  {
    hide Inv, Exec, NoStop, AtRisk, Unpaid;
    ContainedExactly(c, s);
  }

  // ---------- what one process adds to the log ----------

  /** The log grew, and the process did not end. */
  ghost predicate Longer(before: seq<Event>, after: seq<Event>) {
    before <= after && NoStop(after[|before|..])
  }

  lemma LongerBy(before: seq<Event>, log: seq<Event>, evs: seq<Event>)
    requires Longer(before, log) && NoStop(evs)
    ensures Longer(before, log + evs)
  {
    assert (log + evs)[|before|..] == log[|before|..] + evs;
  }

  lemma LongerTrans(a: seq<Event>, b: seq<Event>, c: seq<Event>)
    requires Longer(a, b) && Longer(b, c)
    ensures Longer(a, c)
  {
    assert c == b + c[|b|..];
    LongerBy(a, b, c[|b|..]);
  }

  /** What was added to the log is what the protocol did from one state to the other. */
  lemma SameRun(c: Codec, s0: State, log: seq<Event>, o: Outside, s: State, more: seq<Event>, o': Outside, t: State)
    requires At(c, s0, log, o, s) && At(c, s0, more, o', t) && Longer(log, more)
    ensures |log| <= |more| && Exec(c, s, more[|log|..]) == Some(t) && NoStop(more[|log|..])
  {
    hide Inv, Init, Lawful;
    assert more == log + more[|log|..];
    ExecConcat(c, s0, log, more[|log|..]);
  }

  // ---------- how often an address can be paid ----------

  /** This starts a process of the airdrop on a list that names an address without a mark twice. */
  ghost predicate RepeatsIn(c: Codec, s: State, ev: Event, run: RunKey) {
    && ev.Started? && ev.job.Run() == run
    && var paid := PaidFrom(c, s.o.file, run, map[]);
    && paid.Ok? && Repeats(ev.job.recipients, paid.value, 0)
  }

  ghost predicate RepeatsAt(c: Codec, s0: State, evs: seq<Event>, n: nat, run: RunKey)
    requires n < |evs|
  {
    Exec(c, s0, evs[..n]).Some? && RepeatsIn(c, Exec(c, s0, evs[..n]).value, evs[n], run)
  }

  /** No process of this airdrop was given a list that names twice an address that the journal did
      not mark as it began. */
  ghost predicate NoRepeats(c: Codec, s0: State, evs: seq<Event>, run: RunKey) {
    forall n | 0 <= n < |evs| :: !RepeatsAt(c, s0, evs, n, run)
  }

  lemma RepeatedStep(c: Codec, s: State, ev: Event, run: RunKey)
    requires Enabled(c, s, ev)
    ensures run in After(c, s, ev).repeated <==> run in s.repeated || RepeatsIn(c, s, ev, run)
  {
    hide PaidFrom, Text, Truncate, RunKeyOf, Repeats;
  }

  lemma NoRepeatsMore(c: Codec, s0: State, evs: seq<Event>, run: RunKey)
    requires evs != []
    ensures NoRepeats(c, s0, evs, run)
            <==> NoRepeats(c, s0, evs[..|evs| - 1], run) && !RepeatsAt(c, s0, evs, |evs| - 1, run)
  {
    hide Exec, RepeatsIn;
    var n := |evs| - 1;
    forall i | 0 <= i < n ensures RepeatsAt(c, s0, evs, i, run) <==> RepeatsAt(c, s0, evs[..n], i, run) {
      assert evs[..n][..i] == evs[..i];
    }
  }

  lemma {:induction false} RepeatedExactly(c: Codec, s0: State, evs: seq<Event>, run: RunKey)
    requires Init(s0) && Legal(c, s0, evs)
    ensures run in Exec(c, s0, evs).value.repeated <==> !NoRepeats(c, s0, evs, run)
  {
    if evs != [] {
      hide Enabled, After, NoRepeats, RepeatsIn;
      var n := |evs| - 1;
      RepeatedExactly(c, s0, evs[..n], run);
      RepeatedStep(c, Exec(c, s0, evs[..n]).value, evs[n], run);
      NoRepeatsMore(c, s0, evs, run);
    }
  }

  /** Within one airdrop no address has two payments with a synced record, over any history in which
      no list of that airdrop named an address without a mark twice. */
  lemma SettledOnce(c: Codec, s0: State, evs: seq<Event>, s: State, i: nat, j: nat)
    requires Reaches(c, s0, evs, s) && i < j < |s.landings| && NoRepeats(c, s0, evs, s.landings[i].Run())
    requires s.landings[i].slot.Some? && s.landings[j].slot.Some? && s.landings[i].Run() == s.landings[j].Run()
    ensures s.landings[i].block.body.Send? && s.landings[j].block.body.Send?
    ensures s.landings[i].block.body.to != s.landings[j].block.body.to
  {
    hide FileInv, RecordInv, TallyInv, ProcInv, Exec, Init, NoRepeats, RunKeyOf;
    ReachableInv(c, s0, evs, s);
    RepeatedExactly(c, s0, evs, s.landings[i].Run());
    assert LandingOk(s.o.chain, s.landings[i]) && LandingOk(s.o.chain, s.landings[j]);
    assert !SameSettled(s.landings[i], s.landings[j]);
  }

  /** The sends of one airdrop that landed. */
  function Landed(landings: seq<Landing>, run: RunKey): nat {
    if landings == [] then 0
    else Landed(landings[..|landings| - 1], run) + if landings[|landings| - 1].Run() == run then 1 else 0
  }

  /** The addresses with a settled payment of the airdrop. */
  function SettledTo(landings: seq<Landing>, run: RunKey): set<Address> {
    set i | 0 <= i < |landings| && landings[i].slot.Some? && landings[i].Run() == run && landings[i].block.body.Send?
      :: landings[i].block.body.to
  }

  lemma SettledToSnoc(front: seq<Landing>, last: Landing, run: RunKey)
    requires last.block.body.Send?
    ensures SettledTo(front + [last], run)
            == SettledTo(front, run) + if last.slot.Some? && last.Run() == run then {last.block.body.to} else {}
  {
    hide RunKeyOf;
    var all := front + [last];
    assert all[|front|] == last && forall i | 0 <= i < |front| :: all[i] == front[i];
  }

  lemma NotSettledYet(front: seq<Landing>, last: Landing, run: RunKey)
    requires last.block.body.Send? && last.slot.Some? && last.Run() == run
    requires forall i | 0 <= i < |front| :: SameSettled(front[i], last) ==> front[i].Run() != run
    ensures last.block.body.to !in SettledTo(front, run)
  {
    hide RunKeyOf;
  }

  /** Landed sends are settled payments to different addresses, and those without a synced record. */
  lemma {:induction false} LandedCount(landings: seq<Landing>, run: RunKey)
    requires forall i | 0 <= i < |landings| :: landings[i].block.body.Send?
    requires forall i, j | 0 <= i < j < |landings| :: SameSettled(landings[i], landings[j]) ==> landings[i].Run() != run
    ensures Landed(landings, run) == |SettledTo(landings, run)| + LooseOf(landings, run)
  {
    if landings != [] {
      hide RunKeyOf, SettledTo, SameSettled;
      var n := |landings| - 1;
      var front, last := landings[..n], landings[n];
      assert landings == front + [last];
      LandedCount(front, run);
      SettledToSnoc(front, last, run);
      if last.slot.Some? && last.Run() == run {
        NotSettledYet(front, last, run);
      }
    }
  }

  /** Every process of this airdrop was given recipients from this set. */
  ghost predicate RecipientsFrom(evs: seq<Event>, run: RunKey, recipients: set<Address>) {
    forall i | 0 <= i < |evs| && evs[i].Started? && evs[i].job.Run() == run ::
      JobFrom(evs[i].job, recipients)
  }

  ghost predicate JobFrom(job: Job, recipients: set<Address>) {
    forall a | a in job.recipients :: a in recipients
  }

  ghost predicate PaysFrom(s: State, run: RunKey, recipients: set<Address>) {
    && (forall i | 0 <= i < |s.landings| && s.landings[i].Run() == run ::
          s.landings[i].block.body.Send? ==> s.landings[i].block.body.to in recipients)
    && (s.proc.Some? && s.proc.value.job.Run() == run ==> JobFrom(s.proc.value.job, recipients))
  }

  lemma PaysFromStep(c: Codec, s: State, ev: Event, run: RunKey, recipients: set<Address>)
    requires Enabled(c, s, ev) && PaysFrom(s, run, recipients)
    requires ev.Started? && ev.job.Run() == run ==> JobFrom(ev.job, recipients)
    ensures PaysFrom(After(c, s, ev), run, recipients)
  {
    var t := After(c, s, ev);
    if ev.Published? && ev.landed && ev.block.body.Send? {
      var p := s.proc.value;
      var l := Landing(p.job.from, p.job.to, ev.block, None);
      assert l.Run() == p.job.Run() && ev.block.body.to in p.job.recipients;
      assert t.landings == s.landings + [l];
    }
  }

  lemma {:induction false} OnlyRecipientsPaid(c: Codec, s0: State, evs: seq<Event>, run: RunKey,
                                              recipients: set<Address>)
    requires Init(s0) && Legal(c, s0, evs) && RecipientsFrom(evs, run, recipients)
    ensures PaysFrom(Exec(c, s0, evs).value, run, recipients)
  {
    hide Enabled, After, PaysFrom;
    if evs == [] {
      NothingPaidYet(s0, run, recipients);
    } else {
      var n := |evs| - 1;
      assert RecipientsFrom(evs[..n], run, recipients) by {
        assert forall i | 0 <= i < n :: evs[..n][i] == evs[i];
      }
      OnlyRecipientsPaid(c, s0, evs[..n], run, recipients);
      PaysFromStep(c, Exec(c, s0, evs[..n]).value, evs[n], run, recipients);
    }
  }

  lemma NothingPaidYet(s: State, run: RunKey, recipients: set<Address>)
    requires Init(s)
    ensures PaysFrom(s, run, recipients)
  {
  }

  /** The processes of an airdrop that ended leaving a send without a synced record. */
  function Cut(ends: seq<End>, run: RunKey): nat {
    if ends == [] then 0
    else
      var n := |ends| - 1;
      Cut(ends[..n], run) + if ends[n].run == run && ends[n].lost > 0 then 1 else 0
  }

  /** The sends its ended processes lost before a block was acknowledged to them. */
  function Early(ends: seq<End>, run: RunKey): nat {
    if ends == [] then 0
    else
      var n := |ends| - 1;
      Early(ends[..n], run) + if ends[n].run == run then ends[n].early else 0
  }

  lemma {:induction false} LostWithin(ends: seq<End>, run: RunKey)
    requires forall i | 0 <= i < |ends| :: ends[i].lost <= ends[i].early + 1
    ensures LostBy(ends, run) <= Cut(ends, run) + Early(ends, run)
  {
    if ends != [] {
      LostWithin(ends[..|ends| - 1], run);
    }
  }

  /** The sends of an airdrop that a process now running has yet to record. */
  function Unrecorded(s: State, run: RunKey): nat {
    if Own(s) == Some(run) then Loose(s.landings, Closed(s)) else 0
  }

  lemma UnrecordedWithin(c: Codec, s: State, run: RunKey)
    requires Inv(c, s)
    ensures Unrecorded(s, run) <= if Own(s) == Some(run) then s.proc.value.early + 1 else 0
  {
    hide FileInv, RecordInv, SettledInv, OnceInv, LandingsInv, TallyInv, CoveredInv, RepeatInv, PaidInv, ChainInv,
      EndInv, MoneyInv, WindowInv, Loose, RunKeyOf;
  }

  /** The exact account of an airdrop over every history of processes that run it (and any others) and
      end in any way: the sends of it that landed are one for each address with a settled payment,
      what its processes left without a synced record, and what the running one has yet to record. */
  lemma LandedExactly(c: Codec, s0: State, evs: seq<Event>, s: State, run: RunKey)
    requires Reaches(c, s0, evs, s) && NoRepeats(c, s0, evs, run)
    ensures Landed(s.landings, run) == |SettledTo(s.landings, run)| + LostBy(s.ends, run) + Unrecorded(s, run)
    ensures LostBy(s.ends, run) <= Cut(s.ends, run) + Early(s.ends, run)
    ensures Unrecorded(s, run) <= if Own(s) == Some(run) then s.proc.value.early + 1 else 0
  {
    hide FileInv, RecordInv, SettledInv, ProcInv, Exec, Init, NoRepeats, Loose, RunKeyOf, Unrecorded;
    ReachableInv(c, s0, evs, s);
    RepeatedExactly(c, s0, evs, run);
    assert forall i | 0 <= i < |s.landings| :: LandingOk(s.o.chain, s.landings[i]);
    LandedCount(s.landings, run);
    LostWithin(s.ends, run);
    UnrecordedWithin(c, s, run);
    LooseIsAccounted(s, run);
  }

  lemma LooseIsAccounted(s: State, run: RunKey)
    requires TallyInv(s.landings, s.ends, Own(s), Closed(s))
    ensures LooseOf(s.landings, run) == LostBy(s.ends, run) + Unrecorded(s, run)
  {
  }

  /** Resuming instead of paying twice: the sends of an airdrop that landed number at most its
      recipients, plus its processes that ended leaving a send without a synced record, plus the
      sends they lost before their first acknowledgement, plus what the running one has yet to
      record. */
  lemma PaidAtMost(c: Codec, s0: State, evs: seq<Event>, s: State, run: RunKey, recipients: set<Address>)
    requires Reaches(c, s0, evs, s) && RecipientsFrom(evs, run, recipients) && NoRepeats(c, s0, evs, run)
    ensures SettledTo(s.landings, run) <= recipients
    ensures Landed(s.landings, run) <= |recipients| + Cut(s.ends, run) + Early(s.ends, run) + Unrecorded(s, run)
    ensures Unrecorded(s, run) <= if Own(s) == Some(run) then s.proc.value.early + 1 else 0
  {
    hide Exec, Init, RecipientsFrom, NoRepeats, Loose, RunKeyOf, Unrecorded, Cut, Early, LostBy;
    LandedExactly(c, s0, evs, s, run);
    OnlyRecipientsPaid(c, s0, evs, run, recipients);
    SubsetSize(SettledTo(s.landings, run), recipients);
  }

  lemma SubsetSize(a: set<Address>, b: set<Address>)
    requires a <= b
    ensures |a| <= |b|
  {
    assert b == a + (b - a);
  }

  // ---------- when a reported failure ends the process or means nothing landed ----------

  /** A send of this process landed and was reported as an error. */
  ghost predicate Dangling(s: State) {
    s.proc.Some? && (s.proc.value.early > 0 || Stuck(s.o.chain, s.proc.value.acked, s.proc.value.at))
  }

  /** A process of this airdrop stops at the first publish that landed but was reported as an error. */
  ghost predicate StopsWhenDangling(c: Codec, s0: State, evs: seq<Event>, run: RunKey) {
    forall n | 0 <= n < |evs| :: StopsAt(c, s0, evs, n, run)
  }

  ghost predicate StopsAt(c: Codec, s0: State, evs: seq<Event>, n: nat, run: RunKey)
    requires n < |evs|
  {
    Exec(c, s0, evs[..n]).Some? ==> StopsNow(Exec(c, s0, evs[..n]).value, evs[n], run)
  }

  ghost predicate StopsNow(s: State, ev: Event, run: RunKey) {
    Own(s) == Some(run) && Dangling(s) ==> ev.Stopped?
  }

  /** The process has at most one send at risk, the one to the last address it attempted. */
  ghost predicate OneAtRisk(s: State, p: Proc) {
    && Loose(s.landings, p.base) <= 1
    && (Loose(s.landings, p.base) == 1 ==>
         && 0 < p.next <= |p.job.recipients| && s.landings != []
         && s.landings[|s.landings| - 1].slot.None?
         && s.landings[|s.landings| - 1].block.body == Send(p.job.recipients[p.next - 1], p.job.amount, p.job.zts))
  }

  /** Every process of this airdrop has had at most one send at risk. */
  ghost predicate StrictInv(s: State, run: RunKey) {
    && (forall i | 0 <= i < |s.ends| && s.ends[i].run == run :: s.ends[i].lost <= 1)
    && (Own(s) == Some(run) ==> OneAtRisk(s, s.proc.value))
  }

  /** A process that is not dangling and not recording has nothing at risk. */
  lemma NothingAtRisk(c: Codec, s: State)
    requires Inv(c, s) && s.proc.Some? && !Dangling(s) && !InWindow(s.proc.value)
    ensures s.proc.value.base <= |s.landings| && Loose(s.landings, s.proc.value.base) == 0
  {
    hide FileInv, RecordInv, SettledInv, OnceInv, LandingsInv, TallyInv, CoveredInv, RepeatInv, PaidInv, ChainInv,
      EndInv, MoneyInv, WindowInv;
  }

  lemma StrictPublished(c: Codec, s: State, b: Block, landed: bool, acked: bool, run: RunKey)
    requires Inv(c, s) && StrictInv(s, run) && Enabled(c, s, Published(b, landed, acked)) && !Dangling(s)
    ensures StrictInv(After(c, s, Published(b, landed, acked)), run)
  {
    hide FileInv, RecordInv, SettledInv, OnceInv, LandingsInv, TallyInv, CoveredInv, RepeatInv, PaidInv, ChainInv,
      EndInv, MoneyInv, WindowInv, RiskInv, Loose, Dangling, RunKeyOf;
    NothingAtRisk(c, s);
    var p := s.proc.value;
    if landed && b.body.Send? {
      LooseAppend(s.landings, Landing(p.job.from, p.job.to, b, None), p.base);
    }
  }

  lemma StrictSynced(c: Codec, s: State, run: RunKey)
    requires Inv(c, s) && StrictInv(s, run) && Enabled(c, s, Synced)
    ensures StrictInv(After(c, s, Synced), run)
  {
    hide FileInv, RecordInv, SettledInv, OnceInv, LandingsInv, CoveredInv, RepeatInv, PaidInv, ChainInv, MoneyInv,
      RiskInv, Loose, RunKeyOf;
    var p := s.proc.value;
    SettleTally(s.landings, s.ends, p.job.Run(), p.base, |s.layout| - 1);
  }

  lemma StrictAttempted(c: Codec, s: State, i: nat, run: RunKey)
    requires StrictInv(s, run) && Enabled(c, s, Attempted(i)) && Loose(s.landings, s.proc.value.base) == 0
    ensures StrictInv(After(c, s, Attempted(i)), run)
  {
    hide Loose, RunKeyOf;
  }

  /** A process of another airdrop, and the events that touch neither the landings nor the position
      in the list. */
  lemma StrictOther(c: Codec, s: State, ev: Event, run: RunKey)
    requires StrictInv(s, run) && Enabled(c, s, ev)
    requires Own(s) != Some(run) || ev.Gated? || ev.Marshalled? || ev.Wrote? || ev.Stopped?
    ensures StrictInv(After(c, s, ev), run)
  {
    hide Text, Truncate, PaidFrom, JobOk, RunKeyOf;
  }

  lemma StrictStep(c: Codec, s: State, ev: Event, run: RunKey)
    requires Lawful(c) && Inv(c, s) && StrictInv(s, run) && Enabled(c, s, ev) && StopsNow(s, ev, run)
    ensures StrictInv(After(c, s, ev), run)
  {
    hide Inv, StrictInv, Dangling, After, RunKeyOf;
    if Own(s) != Some(run) {
      StrictOther(c, s, ev, run);
    } else {
      match ev {
        case Published(b, landed, acked) => StrictPublished(c, s, b, landed, acked, run);
        case Synced => StrictSynced(c, s, run);
        case Attempted(i) =>
          NothingAtRisk(c, s);
          StrictAttempted(c, s, i, run);
        case _ => StrictOther(c, s, ev, run);
      }
    }
  }

  lemma {:induction false} StrictHistory(c: Codec, s0: State, evs: seq<Event>, run: RunKey)
    requires Lawful(c) && Init(s0) && Legal(c, s0, evs) && StopsWhenDangling(c, s0, evs, run)
    ensures StrictInv(Exec(c, s0, evs).value, run) && Inv(c, Exec(c, s0, evs).value)
  {
    hide Inv, Enabled, After, StopsNow, Loose, Init, RunKeyOf;
    InitInv(c, s0);
    HistoryInv(c, s0, evs);
    if evs == [] {
      StrictAtStart(s0, run);
    } else {
      var n := |evs| - 1;
      StopsPrefix(c, s0, evs, run);
      StrictHistory(c, s0, evs[..n], run);
      assert StopsAt(c, s0, evs, n, run);
      StrictStep(c, Exec(c, s0, evs[..n]).value, evs[n], run);
    }
  }

  lemma StopsPrefix(c: Codec, s0: State, evs: seq<Event>, run: RunKey)
    requires evs != [] && StopsWhenDangling(c, s0, evs, run)
    ensures StopsWhenDangling(c, s0, evs[..|evs| - 1], run)
  {
    hide Exec, StopsNow;
    var front := evs[..|evs| - 1];
    forall n | 0 <= n < |front| ensures StopsAt(c, s0, front, n, run) {
      assert StopsAt(c, s0, evs, n, run);
      assert front[..n] == evs[..n];
    }
  }

  lemma StrictAtStart(s: State, run: RunKey)
    requires Init(s)
    ensures StrictInv(s, run)
  {
  }

  lemma {:induction false} LostOneEach(ends: seq<End>, run: RunKey)
    requires forall i | 0 <= i < |ends| && ends[i].run == run :: ends[i].lost <= 1
    ensures LostBy(ends, run) == Cut(ends, run)
  {
    if ends != [] {
      LostOneEach(ends[..|ends| - 1], run);
    }
  }

  /** If a publish reported as failed did not land unless the process stops there, then every process
      of the airdrop leaves at most one send without a synced record, always to the last address it
      attempted; so the sends of an airdrop that landed number at most its recipients, plus its
      processes that ended inside the window between a publish and its synced record, plus one while
      a process is inside that window. */
  lemma OneDuplicatePerProcess(c: Codec, s0: State, evs: seq<Event>, s: State, run: RunKey, recipients: set<Address>)
    requires Reaches(c, s0, evs, s) && StopsWhenDangling(c, s0, evs, run)
    requires RecipientsFrom(evs, run, recipients) && NoRepeats(c, s0, evs, run)
    ensures Own(s) == Some(run) ==> OneAtRisk(s, s.proc.value)
    ensures Landed(s.landings, run) <= |recipients| + Cut(s.ends, run) + Unrecorded(s, run)
    ensures Unrecorded(s, run) <= 1
  {
    hide Inv, Exec, Init, RecipientsFrom, NoRepeats, StopsWhenDangling, Loose, RunKeyOf, Cut, LostBy;
    StrictHistory(c, s0, evs, run);
    LandedExactly(c, s0, evs, s, run);
    OnlyRecipientsPaid(c, s0, evs, run, recipients);
    SubsetSize(SettledTo(s.landings, run), recipients);
    LostOneEach(s.ends, run);
  }

  // ---------- money ----------

  /** Past the balance check, whatever was lost or refused, the balance has fallen by exactly the
      amount of each send of this process that landed, and still covers everyone ahead. */
  lemma NoOverdraft(c: Codec, s0: State, evs: seq<Event>, s: State)
    requires Reaches(c, s0, evs, s) && s.proc.Some? && !s.proc.value.phase.Opening?
    ensures var p, balance := s.proc.value, Balance(s.o.funds, s.proc.value.job.zts);
            && p.base <= |s.landings|
            && balance + p.job.amount * (|s.landings| - p.base) == p.purse
            && balance >= p.job.amount * Unpaid(p.job.recipients, p.paid, Ahead(p))
  {
    hide FileInv, RecordInv, SettledInv, OnceInv, LandingsInv, TallyInv, CoveredInv, RepeatInv, PaidInv, ChainInv,
      EndInv, WindowInv, RiskInv, Exec, Init;
    ReachableInv(c, s0, evs, s);
    var p := s.proc.value;
    CostIsProduct(p.job.amount, |s.landings| - p.base);
    CostIsProduct(p.job.amount, Unpaid(p.job.recipients, p.paid, Ahead(p)));
  }

  // ---------- running again ----------

  /** Some record in the file names this address for this run. */
  ghost predicate Marked(layout: seq<Piece>, run: RunKey, a: Address) {
    exists j :: 0 <= j < |layout| && layout[j].entry.run == run && layout[j].entry.address == a
  }

  ghost predicate AllMarked(layout: seq<Piece>, job: Job) {
    forall a | a in job.recipients :: Marked(layout, job.Run(), a)
  }

  /** This landed send pays the address what the airdrop gives. */
  predicate Pays(l: Landing, job: Job, a: Address) {
    l.Run() == job.Run() && l.block.body == Send(a, job.amount, job.zts)
  }

  /** Exactly one send of the airdrop to this address landed, and it is on the chain. */
  ghost predicate PaidOnce(s: State, job: Job, a: Address) {
    exists i :: 0 <= i < |s.landings| && Pays(s.landings[i], job, a) && OnChain(s.o.chain, s.landings[i].block)
                && forall j | 0 <= j < |s.landings| && PaidTo(s.landings[j], job.Run(), a) :: j == i
  }

  predicate PaidTo(l: Landing, run: RunKey, a: Address) {
    l.Run() == run && l.block.body.Send? && l.block.body.to == a
  }

  lemma {:induction false} NoneLoose(landings: seq<Landing>, run: RunKey, i: nat)
    requires LooseOf(landings, run) == 0 && i < |landings| && landings[i].Run() == run
    ensures landings[i].slot.Some?
  {
    hide RunKeyOf;
    if i < |landings| - 1 {
      NoneLoose(landings[..|landings| - 1], run, i);
    }
  }

  /** A marked address has a landing of the airdrop, with its amount and token. */
  lemma MarkedLanding(c: Codec, s: State, job: Job, a: Address) returns (i: nat)
    requires Inv(c, s) && '|' !in job.zts && Marked(s.layout, job.Run(), a)
    ensures i < |s.landings| && Pays(s.landings[i], job, a) && OnChain(s.o.chain, s.landings[i].block)
  {
    hide FileInv, SettledInv, OnceInv, TallyInv, ProcInv, RunKeyOf, Linked;
    var j :| 0 <= j < |s.layout| && s.layout[j].entry.run == job.Run() && s.layout[j].entry.address == a;
    i := s.owner[j];
    assert LandingOk(s.o.chain, s.landings[i]);
    RecordPays(s.layout[j].entry, s.landings[i], job, s.o.chain);
  }

  /** Exactly once: when every recipient has a record, no process of the airdrop has left a send
      without a synced record and no list repeated an unmarked address, exactly one send of the
      airdrop to each recipient landed. If the airdrop had no other recipients, that is all of it. */
  lemma EveryonePaidExactlyOnce(c: Codec, s0: State, evs: seq<Event>, s: State, job: Job)
    requires Reaches(c, s0, evs, s) && NoRepeats(c, s0, evs, job.Run())
    requires '|' !in job.zts && AllMarked(s.layout, job)
    requires Cut(s.ends, job.Run()) == 0 && Unrecorded(s, job.Run()) == 0
    ensures forall a | a in job.recipients :: PaidOnce(s, job, a)
    ensures RecipientsFrom(evs, job.Run(), Elements(job.recipients)) ==>
              Landed(s.landings, job.Run()) == |Elements(job.recipients)|
  {
    hide FileInv, RecordInv, SettledInv, OnceInv, LandingsInv, ProcInv, Exec, Init, NoRepeats, RunKeyOf, Unrecorded,
      Marked, Pays, PaidOnce, RecipientsFrom;
    var run := job.Run();
    ReachableInv(c, s0, evs, s);
    RepeatedExactly(c, s0, evs, run);
    LooseIsAccounted(s, run);
    NoCutNoLoss(s.ends, run);
    forall a | a in job.recipients ensures PaidOnce(s, job, a) && a in SettledTo(s.landings, run) {
      MarkedPaidOnce(c, s, job, a);
    }
    if RecipientsFrom(evs, run, Elements(job.recipients)) {
      LandedExactly(c, s0, evs, s, run);
      OnlyRecipientsPaid(c, s0, evs, run, Elements(job.recipients));
      assert SettledTo(s.landings, run) == Elements(job.recipients);
    }
  }

  lemma {:induction false} NoCutNoLoss(ends: seq<End>, run: RunKey)
    requires Cut(ends, run) == 0
    ensures LostBy(ends, run) == 0
  {
    if ends != [] {
      NoCutNoLoss(ends[..|ends| - 1], run);
    }
  }

  lemma MarkedPaidOnce(c: Codec, s: State, job: Job, a: Address)
    requires Inv(c, s) && '|' !in job.zts && Marked(s.layout, job.Run(), a)
    requires job.Run() !in s.repeated && LooseOf(s.landings, job.Run()) == 0
    ensures PaidOnce(s, job, a) && a in SettledTo(s.landings, job.Run())
  {
    hide FileInv, RecordInv, SettledInv, LandingsInv, TallyInv, ProcInv, RunKeyOf, Marked, LooseOf;
    var i := MarkedLanding(c, s, job, a);
    NoneLoose(s.landings, job.Run(), i);
    forall j | 0 <= j < |s.landings| && PaidTo(s.landings[j], job.Run(), a) ensures j == i {
      NoneLoose(s.landings, job.Run(), j);
      assert !SameSettled(s.landings[i], s.landings[j]) || i >= j;
      assert !SameSettled(s.landings[j], s.landings[i]) || j >= i;
    }
  }

  /** Records are never taken back, except by a loss of power. */
  lemma EntriesKept(c: Codec, s: State, ev: Event)
    requires Inv(c, s) && Enabled(c, s, ev) && !ev.PowerLost?
    ensures SameEntries(s.layout, After(c, s, ev).layout)
  {
    hide FileInv, RecordInv, SettledInv, OnceInv, LandingsInv, TallyInv, CoveredInv, RepeatInv, PaidInv, ChainInv,
      RiskInv, MoneyInv, PaidFrom;
    var t := After(c, s, ev);
    if ev.Wrote? && ev.text != "" && s.proc.value.phase.done > 0 {
      assert forall i | 0 <= i < |s.layout| - 1 :: t.layout[i] == s.layout[i];
    }
  }

  lemma MarkedKept(before: seq<Piece>, after: seq<Piece>, run: RunKey, a: Address)
    requires SameEntries(before, after) && Marked(before, run, a)
    ensures Marked(after, run, a)
  {
    var j :| 0 <= j < |before| && before[j].entry.run == run && before[j].entry.address == a;
    assert after[j].entry == before[j].entry;
  }

  /** Once every recipient has a record, the next process of the airdrop pays nobody. */
  lemma RerunPaysNobody(c: Codec, s: State, job: Job, limit: int)
    requires Lawful(c) && Inv(c, s) && Enabled(c, s, Started(job, limit)) && AllMarked(s.layout, job)
    ensures forall a | a in job.recipients :: a in After(c, s, Started(job, limit)).proc.value.paid
  {
    hide RecordInv, SettledInv, OnceInv, LandingsInv, TallyInv, ProcInv;
    PaidIsExact(c, s.layout, job.Run(), map[]);
    forall a | a in job.recipients ensures a in After(c, s, Started(job, limit)).proc.value.paid {
      assert Marked(s.layout, job.Run(), a);
      MarksKeys(s.layout, job.Run(), map[], a);
    }
  }

  /** A process whose resume map holds every recipient publishes no send. */
  lemma {:induction false} NobodyAttempted(c: Codec, s: State, evs: seq<Event>)
    requires s.proc.Some? && Legal(c, s, evs) && NoStop(evs) && !s.proc.value.phase.Trying?
    requires forall a | a in s.proc.value.job.recipients :: a in s.proc.value.paid
    ensures forall i | 0 <= i < |evs| :: !evs[i].Attempted? && !(evs[i].Published? && evs[i].block.body.Send?)
    ensures var t := Exec(c, s, evs).value;
            t.proc.Some? && t.proc.value.job == s.proc.value.job && t.proc.value.paid == s.proc.value.paid
            && !t.proc.value.phase.Trying?
  {
    if evs != [] {
      hide Enabled, After;
      var n := |evs| - 1;
      assert NoStop(evs[..n]);
      NobodyAttempted(c, s, evs[..n]);
      assert forall i | 0 <= i < n :: evs[..n][i] == evs[i];
      NobodyAttemptedStep(c, Exec(c, s, evs[..n]).value, evs[n]);
    }
  }

  lemma NobodyAttemptedStep(c: Codec, s: State, ev: Event)
    requires s.proc.Some? && Enabled(c, s, ev) && ev != Stopped && !s.proc.value.phase.Trying?
    requires forall a | a in s.proc.value.job.recipients :: a in s.proc.value.paid
    ensures !ev.Attempted? && !(ev.Published? && ev.block.body.Send?)
    ensures var t := After(c, s, ev);
            t.proc.Some? && t.proc.value.job == s.proc.value.job && t.proc.value.paid == s.proc.value.paid
            && !t.proc.value.phase.Trying?
  {
  }

  /** A loss of power takes back no record once the file was synced to its end. */
  lemma SyncedRecordsSurvive(c: Codec, s: State, k: nat)
    requires Inv(c, s) && Enabled(c, s, PowerLost(k)) && s.o.durable == |s.o.file|
    ensures After(c, s, PowerLost(k)).layout == s.layout
  {
    hide RecordInv, SettledInv, OnceInv, LandingsInv, TallyInv, ProcInv, Text, Truncate, Shaped, PaidFrom, Loose;
    FullCut(c, s.layout);
  }
}
