/** One process of the tool, as a stretch of the log: what its stages and the whole add. */
module Processes {
  import opened Basics
  import opened Ledger
  import opened Journals
  import opened Protocol
  import Invariant
  import opened History
  import Senders
  import opened Airdrops

  // ---------- nothing sent ----------

  /** Between the logs, nothing was sent and nothing was written: at most receive blocks went out. */
  ghost predicate Quiet(before: seq<Event>, after: seq<Event>, receives: bool) {
    before <= after && forall i | |before| <= i < |after| :: QuietEvent(after[i], receives)
  }

  predicate QuietEvent(ev: Event, receives: bool) {
    ev.Started? || ev.Stopped? || (receives && ev.Published? && ev.block.body.Receive?)
  }

  lemma QuietItself(log: seq<Event>)
    ensures Quiet(log, log, true) && Quiet(log, log, false)
  {
  }

  lemma QuietReceives(before: seq<Event>, log: seq<Event>, after: seq<Event>)
    requires Quiet(before, log, true) && Senders.OnlyReceives(log, after)
    ensures Quiet(before, after, true)
  {
    forall i | |before| <= i < |after| ensures QuietEvent(after[i], true) {
      assert i < |log| ==> after[i] == log[i];
    }
  }

  lemma QuietMore(before: seq<Event>, log: seq<Event>, ev: Event, receives: bool)
    requires Quiet(before, log, receives) && QuietEvent(ev, receives)
    ensures Quiet(before, log + [ev], receives)
  {
  }

  lemma QuietTrans(a: seq<Event>, b: seq<Event>, c: seq<Event>, receives: bool)
    requires Quiet(a, b, receives) && Quiet(b, c, receives)
    ensures Quiet(a, c, receives)
  {
    forall i | |a| <= i < |c| ensures QuietEvent(c[i], receives) {
      assert i < |b| ==> c[i] == b[i];
    }
  }

  // ---------- a stage of a process ----------

  /** A stage went on from s to t: the process is the same and did not end, no record was taken back,
      and exactly the unmarked recipients before reached were attempted, in order. */
  ghost predicate Stage(s: State, t: State, x: Session, before: seq<Event>, after: seq<Event>, reached: nat) {
    && Runs(t, x) && SameEntries(s.layout, t.layout) && Longer(before, after)
    && reached <= |x.job.recipients|
    && AttemptedIn(after) == AttemptedIn(before) + Absent(x.job.recipients, x.paid, reached)
  }

  lemma StageBegins(s: State, x: Session, last: Hash, log: seq<Event>)
    requires Senders.Opened(s, x, last)
    ensures Stage(s, s, x, log, log, 0)
  {
  }

  lemma StageReceived(s: State, t: State, x: Session, last: Hash, before: seq<Event>, after: seq<Event>, n: nat)
    requires Senders.Opened(t, x, last) && Senders.Received(s, t, n) && Senders.OnlyReceives(before, after)
    ensures Stage(s, t, x, before, after, 0)
  {
    hide AttemptedIn;
    var more := after[|before|..];
    assert after == before + more;
    assert forall i | 0 <= i < |more| :: more[i] == after[|before| + i];
    NoneAttempted(more);
    AttemptedAppend(before, more);
  }

  /** The run from the gate on, as a stage from before the gate. */
  lemma StageRun(s: State, gated: State, t: State, x: Session, outcomes: seq<Outcome>, reached: nat, stopped: bool,
                 before: seq<Event>, after: seq<Event>, asked: int)
    requires Done(gated, t, x, outcomes, reached, stopped, before + [Gated], after, asked) && gated.layout == s.layout
    ensures Stage(s, t, x, before, after, reached)
  {
    hide AttemptedIn, NoStop, SameEntries, AllTruthful, StopsAtLimit, Absent, Settled;
    AttemptedOne(before, Gated);
    GateGoesOn(before);
    LongerTrans(before, before + [Gated], after);
  }

  lemma GateGoesOn(log: seq<Event>)
    ensures Longer(log, log + [Gated])
  {
  }

  lemma StageThen(s: State, t: State, u: State, x: Session, a: seq<Event>, b: seq<Event>, c: seq<Event>, reached: nat)
    requires Stage(s, t, x, a, b, 0) && Stage(t, u, x, b, c, reached)
    ensures Stage(s, u, x, a, c, reached)
  {
    hide AttemptedIn, Longer, SameEntries;
    SameEntriesTrans(s.layout, t.layout, u.layout);
    LongerTrans(a, b, c);
  }

  lemma StageKeeps(s: State, t: State, x: Session, before: seq<Event>, after: seq<Event>, reached: nat)
    requires Stage(s, t, x, before, after, reached)
    ensures t.proc.Some? && SameEntries(s.layout, t.layout) && before <= after
  {
    hide AttemptedIn, Absent, SameEntries;
  }

  lemma DoneProgress(s: State, t: State, x: Session, outcomes: seq<Outcome>, reached: nat, stopped: bool,
                     before: seq<Event>, after: seq<Event>, asked: int)
    requires Done(s, t, x, outcomes, reached, stopped, before, after, asked)
    ensures Progress(s, t, x, outcomes)
  {
  }

  // ---------- the resume map and the marks ----------

  /** The resume map read at the start holds exactly the addresses with a record for this run. */
  lemma PaidIsMarked(c: Codec, s: State, job: Job, paid: map<Address, Hash>)
    requires Lawful(c) && Inv(c, s) && PaidFrom(c, s.o.file, job.Run(), map[]) == Ok(paid)
    ensures forall a :: a in paid <==> Marked(s.layout, job.Run(), a)
  {
    hide RecordInv, SettledInv, OnceInv, LandingsInv, TallyInv, ProcInv;
    PaidIsExact(c, s.layout, job.Run(), map[]);
    forall a ensures a in paid <==> Marked(s.layout, job.Run(), a) {
      MarksKeys(s.layout, job.Run(), map[], a);
    }
  }

  /** The positions before k of recipients that have no record in the journal, in order. */
  ghost function Unmarked(job: Job, layout: seq<Piece>, k: nat): seq<nat>
    requires k <= |job.recipients|
  {
    if k == 0 then []
    else Unmarked(job, layout, k - 1) + if Marked(layout, job.Run(), job.recipients[k - 1]) then [] else [k - 1]
  }

  lemma {:induction false} UnmarkedIsAbsent(job: Job, layout: seq<Piece>, paid: map<Address, Hash>, k: nat)
    requires k <= |job.recipients| && forall a :: a in paid <==> Marked(layout, job.Run(), a)
    ensures Unmarked(job, layout, k) == Absent(job.recipients, paid, k)
  {
    if k > 0 {
      UnmarkedIsAbsent(job, layout, paid, k - 1);
    }
  }

  lemma {:induction false} InUnmarked(job: Job, layout: seq<Piece>, k: nat, i: nat)
    requires k <= |job.recipients|
    ensures i in Unmarked(job, layout, k) <==> i < k && !Marked(layout, job.Run(), job.recipients[i])
  {
    hide Marked;
    if k > 0 {
      InUnmarked(job, layout, k - 1, i);
    }
  }

  /** These positions ascend, and lie below k. */
  ghost predicate Ascend(positions: seq<nat>, k: nat) {
    && (forall i | 0 <= i < |positions| :: positions[i] < k)
    && forall i, j | 0 <= i < j < |positions| :: positions[i] < positions[j]
  }

  /** The list is walked in its order. */
  lemma {:induction false} UnmarkedAscends(job: Job, layout: seq<Piece>, k: nat)
    requires k <= |job.recipients|
    ensures Ascend(Unmarked(job, layout, k), k)
  {
    hide Marked;
    if k > 0 {
      UnmarkedAscends(job, layout, k - 1);
    }
  }

  lemma {:induction false} EveryoneUnmarked(job: Job, layout: seq<Piece>, k: nat)
    requires k <= |job.recipients| && forall a :: !Marked(layout, job.Run(), a)
    ensures Unmarked(job, layout, k) == seq(k, i => i)
  {
    hide Marked;
    if k > 0 {
      EveryoneUnmarked(job, layout, k - 1);
    }
  }

  /** Everyone was marked before or has a record now. */
  ghost predicate AllDone(layout: seq<Piece>, x: Session) {
    forall a | a in x.job.recipients :: a in x.paid || Marked(layout, x.job.Run(), a)
  }

  lemma {:induction false} NoFailure(recipients: seq<Address>, outcomes: seq<Outcome>, k: nat)
    requires |outcomes| <= |recipients| && Failures(recipients, outcomes) == [] && k < |outcomes|
    ensures !outcomes[k].Fail?
  {
    if k < |outcomes| - 1 {
      NoFailure(recipients, outcomes[..|outcomes| - 1], k);
    }
  }

  /** A completed run without failures leaves nobody out. */
  lemma CleanRunPaysAll(s: State, t: State, x: Session, outcomes: seq<Outcome>,
                        sent: nat, skipped: nat, total: nat, errors: seq<Failure>)
    requires Progress(s, t, x, outcomes) && |outcomes| == |x.job.recipients|
    requires Booked(x.job.recipients, outcomes, x.job.amount, sent, skipped, 0, total, errors)
    ensures AllDone(t.layout, x)
  {
    hide Marked, Settled, Payments, Skips;
    forall a | a in x.job.recipients ensures a in x.paid || Marked(t.layout, x.job.Run(), a) {
      var k :| 0 <= k < |x.job.recipients| && x.job.recipients[k] == a;
      assert Truthful(t, x, a, outcomes[k]);
      NoFailure(x.job.recipients, outcomes, k);
    }
  }

  lemma AllDoneIsMarked(before: seq<Piece>, after: seq<Piece>, x: Session)
    requires forall a :: a in x.paid <==> Marked(before, x.job.Run(), a)
    requires SameEntries(before, after) && AllDone(after, x)
    ensures AllMarked(after, x.job)
  {
    hide Marked, SameEntries;
    forall a | a in x.job.recipients ensures Marked(after, x.job.Run(), a) {
      if a in x.paid {
        MarkedKept(before, after, x.job.Run(), a);
      }
    }
  }

  // ---------- the first and the last step ----------

  /** An accepted journal begins a process of the protocol. */
  lemma StartLegal(c: Codec, s0: State, log: seq<Event>, o: Outside, s: State, x: Session)
    returns (t: State)
    requires At(c, s0, log, o, s) && s.proc.None? && JobOk(c, x.job) && x.base == |s.landings|
    requires PaidFrom(c, o.file, x.job.Run(), map[]) == Ok(x.paid)
    ensures Enabled(c, s, Started(x.job, x.limit)) && t == After(c, s, Started(x.job, x.limit))
    ensures At(c, s0, log + [Started(x.job, x.limit)], o, t) && Senders.Opened(t, x, ZeroHash)
    ensures t.layout == s.layout && t.landings == s.landings
    ensures forall a :: a in x.paid <==> Marked(s.layout, x.job.Run(), a)
  {
    hide Inv, Marked, JobOk, PaidFrom;
    Advance(c, s0, log, o, s, Started(x.job, x.limit));
    t := After(c, s, Started(x.job, x.limit));
    PaidIsMarked(c, s, x.job, x.paid);
  }

  /** Enough was held for everyone left: the run may begin. */
  lemma GateLegal(c: Codec, s0: State, log: seq<Event>, o: Outside, s: State, x: Session, last: Hash)
    returns (t: State)
    requires At(c, s0, log, o, s) && Senders.Opened(s, x, last)
    requires Balance(o.funds, x.job.zts) >= x.job.amount * Unpaid(x.job.recipients, x.paid, 0)
    ensures At(c, s0, log + [Gated], o, t) && t.layout == s.layout && Runs(t, x) && x.base == |t.landings|
    ensures var p := t.proc.value; p.last == last && p.phase.Ready? && p.next == 0 && p.streak == 0
  {
    hide Reaches, Inv;
    Invariant.CostIsProduct(x.job.amount, Unpaid(x.job.recipients, x.paid, 0));
    Advance(c, s0, log, o, s, Gated);
    t := After(c, s, Gated);
  }

  /** A process can end anywhere. */
  lemma StopLegal(c: Codec, s0: State, log: seq<Event>, o: Outside, s: State) returns (t: State)
    requires At(c, s0, log, o, s) && s.proc.Some?
    ensures At(c, s0, log + [Stopped], o, t) && t.proc.None? && t.layout == s.layout && t.landings == s.landings
  {
    hide Inv;
    Advance(c, s0, log, o, s, Stopped);
    t := After(c, s, Stopped);
  }

  // ---------- a whole process ----------

  /** What was added to the log is one process of this airdrop, from its start to its end. */
  ghost predicate OneProcess(before: seq<Event>, after: seq<Event>, job: Job, limit: int) {
    && before <= after && |before| + 2 <= |after|
    && after[|before|] == Started(job, limit) && after[|after| - 1] == Stopped
    && NoStop(after[|before| + 1..|after| - 1])
  }

  /** No payment was attempted and no send was published. */
  ghost predicate NothingSent(before: seq<Event>, after: seq<Event>) {
    before <= after && forall i | |before| <= i < |after| ::
      !after[i].Attempted? && !(after[i].Published? && after[i].block.body.Send?)
  }

  /** What one process adds: exactly the recipients before reached without a record were attempted,
      in order; if all have one, nothing was sent; and with a limit on failures in a row, at most
      that many sends were left without a synced record. */
  ghost predicate Adds(s: State, t: State, job: Job, limit: int, reached: nat, before: seq<Event>, after: seq<Event>) {
    && OneProcess(before, after, job, limit)
    && reached <= |job.recipients| && AttemptedIn(after) == AttemptedIn(before) + Unmarked(job, s.layout, reached)
    && (AllMarked(s.layout, job) ==> NothingSent(before, after))
    && (limit > 0 ==> AtRisk(t) <= AtRisk(s) + limit)
  }

  /** Running the same airdrop again after every recipient has a record pays nobody, whatever
      happens in between reading the journal and the end. */
  lemma RerunIsQuiet(c: Codec, s: State, job: Job, limit: int, evs: seq<Event>)
    requires Lawful(c) && Inv(c, s) && AllMarked(s.layout, job) && NoStop(evs)
    requires Enabled(c, s, Started(job, limit)) && Legal(c, After(c, s, Started(job, limit)), evs)
    ensures forall i | 0 <= i < |evs| :: !evs[i].Attempted? && !(evs[i].Published? && evs[i].block.body.Send?)
  {
    hide Inv, Exec, Enabled, AllMarked, NoStop;
    RerunPaysNobody(c, s, job, limit);
    NobodyAttempted(c, After(c, s, Started(job, limit)), evs);
  }

  lemma ProcessAdded(before: seq<Event>, log: seq<Event>, job: Job, limit: int)
    requires Longer(before + [Started(job, limit)], log)
    ensures OneProcess(before, log + [Stopped], job, limit)
  {
    hide NoStop;
    var after := log + [Stopped];
    assert after[|before| + 1..|after| - 1] == log[|before| + 1..];
    assert log[|before|] == (before + [Started(job, limit)])[|before|];
  }

  lemma ProcessSentNothing(before: seq<Event>, log: seq<Event>, job: Job, limit: int, evs: seq<Event>)
    requires before + [Started(job, limit)] <= log && log[|before| + 1..] == evs
    requires forall i | 0 <= i < |evs| :: !evs[i].Attempted? && !(evs[i].Published? && evs[i].block.body.Send?)
    ensures NothingSent(before, log + [Stopped])
  {
    var after := log + [Stopped];
    assert log[|before|] == Started(job, limit);
    forall i | |before| <= i < |after|
      ensures !after[i].Attempted? && !(after[i].Published? && after[i].block.body.Send?)
    {
      if |before| < i < |log| {
        assert evs[i - |before| - 1] == after[i];
      }
    }
  }

  /** With a limit, a process leaves at most that many sends without a synced record. */
  lemma ProcessIsContained(c: Codec, s0: State, log: seq<Event>, s: State, more: seq<Event>, t: State, x: Session)
    requires At(c, s0, log, s.o, s) && At(c, s0, more, t.o, t) && Longer(log, more) && Runs(s, x) && Runs(t, x)
    requires x.limit > 0 && x.base == |s.landings|
    ensures AtRisk(t) <= AtRisk(s) + x.limit
  {
    hide Inv, Exec, Init, Lawful, Longer, Loose, NoStop;
    SameRun(c, s0, log, s.o, s, more, t.o, t);
    SameProcess(c, s, more[|log|..]);
    LimitBoundsRisk(c, s0, more, t);
    Invariant.LooseSplit(t.landings, x.base);
    assert s.landings[..x.base] == s.landings;
  }

  /** From the start of a process through its stages to its end. */
  lemma ProcessAdds(c: Codec, s0: State, before: seq<Event>, s: State, begun: State, log: seq<Event>, t: State,
                    x: Session, reached: nat)
    requires At(c, s0, before, s.o, s) && Enabled(c, s, Started(x.job, x.limit))
    requires begun == After(c, s, Started(x.job, x.limit)) && begun.landings == s.landings
    requires Senders.Opened(begun, x, ZeroHash)
    requires At(c, s0, before + [Started(x.job, x.limit)], begun.o, begun) && At(c, s0, log, t.o, t)
    requires Stage(begun, t, x, before + [Started(x.job, x.limit)], log, reached)
    requires forall a :: a in x.paid <==> Marked(s.layout, x.job.Run(), a)
    ensures OneProcess(before, log + [Stopped], x.job, x.limit)
    ensures reached <= |x.job.recipients|
    ensures AttemptedIn(log + [Stopped]) == AttemptedIn(before) + Unmarked(x.job, s.layout, reached)
    ensures AllMarked(s.layout, x.job) ==> NothingSent(before, log + [Stopped])
    ensures x.limit > 0 ==> AtRisk(t) <= AtRisk(s) + x.limit
  {
    hide Inv, Exec, Enabled, After, Marked, AllMarked, AttemptedIn, Unmarked, Absent, AtRisk, NoStop, NothingSent,
      OneProcess, SameEntries, Init, Lawful, Longer;
    var started := before + [Started(x.job, x.limit)];
    ProcessAdded(before, log, x.job, x.limit);
    UnmarkedIsAbsent(x.job, s.layout, x.paid, reached);
    AttemptedOne(before, Started(x.job, x.limit));
    AttemptedOne(log, Stopped);
    SameRun(c, s0, started, begun.o, begun, log, t.o, t);
    if AllMarked(s.layout, x.job) {
      RerunIsQuiet(c, s, x.job, x.limit, log[|started|..]);
      LongerStarts(started, log);
      ProcessSentNothing(before, log, x.job, x.limit, log[|started|..]);
    }
    if x.limit > 0 {
      OpenedRuns(begun, x, ZeroHash);
      ProcessIsContained(c, s0, started, begun, log, t, x);
      SameRisk(s, begun);
    }
  }

  lemma LongerStarts(before: seq<Event>, after: seq<Event>)
    requires Longer(before, after)
    ensures before <= after
  {
  }

  lemma OpenedRuns(s: State, x: Session, last: Hash)
    requires Senders.Opened(s, x, last)
    ensures Runs(s, x) && x.base == |s.landings|
  {
  }

  lemma SameRisk(s: State, t: State)
    requires s.landings == t.landings
    ensures AtRisk(s) == AtRisk(t)
  {
  }

  // ---------- lists without repeats ----------

  lemma {:induction false} RepeatedKept(c: Codec, s: State, evs: seq<Event>)
    requires s.proc.Some? && Legal(c, s, evs) && NoStop(evs)
    ensures var t := Exec(c, s, evs).value; t.proc.Some? && t.repeated == s.repeated
  {
    if evs != [] {
      hide Enabled, After;
      var n := |evs| - 1;
      assert NoStop(evs[..n]);
      RepeatedKept(c, s, evs[..n]);
      RepeatedKeptStep(c, Exec(c, s, evs[..n]).value, evs[n]);
    }
  }

  lemma RepeatedKeptStep(c: Codec, s: State, ev: Event)
    requires s.proc.Some? && Enabled(c, s, ev) && ev != Stopped
    ensures var t := After(c, s, ev); t.proc.Some? && t.repeated == s.repeated
  {
  }

  /** A process on a list that names nobody twice leaves the airdrop without repeats. */
  lemma DistinctProcess(c: Codec, s0: State, before: seq<Event>, o: Outside, s: State, after: seq<Event>, o': Outside,
                        t: State, job: Job, limit: int)
    requires At(c, s0, before, o, s) && At(c, s0, after, o', t) && OneProcess(before, after, job, limit)
    requires Distinct(job.recipients) && NoRepeats(c, s0, before, job.Run())
    ensures NoRepeats(c, s0, after, job.Run())
  {
    hide Inv, Lawful, Exec, NoStop, NoRepeats, Enabled, After, RepeatsIn, RunKeyOf;
    var run, begin := job.Run(), Started(job, limit);
    var middle, most := after[|before| + 1..|after| - 1], after[..|after| - 1];
    assert most == before + [begin] + middle && after == most + [Stopped];
    ExecBack(c, s0, most, Stopped);
    ExecConcat(c, s0, before + [begin], middle);
    ExecBack(c, s0, before, begin);
    var begun, ending := After(c, s, begin), Exec(c, s0, most).value;
    StartedRuns(c, s, job, limit);
    RepeatedKept(c, begun, middle);
    RepeatedStep(c, s, begin, run);
    RepeatedStep(c, ending, Stopped, run);
    DistinctNever(c, s, begin, run);
    DistinctNever(c, ending, Stopped, run);
    RepeatedExactly(c, s0, before, run);
    RepeatedExactly(c, s0, after, run);
  }

  lemma ExecBack(c: Codec, s: State, evs: seq<Event>, ev: Event)
    requires Legal(c, s, evs + [ev])
    ensures Legal(c, s, evs) && Enabled(c, Exec(c, s, evs).value, ev)
    ensures Exec(c, s, evs + [ev]) == Some(After(c, Exec(c, s, evs).value, ev))
  {
    hide Enabled, After;
    assert (evs + [ev])[..|evs|] == evs;
  }

  lemma StartedRuns(c: Codec, s: State, job: Job, limit: int)
    requires Enabled(c, s, Started(job, limit))
    ensures After(c, s, Started(job, limit)).proc.Some?
  {
  }

  lemma DistinctNever(c: Codec, s: State, ev: Event, run: RunKey)
    requires ev.Started? ==> Distinct(ev.job.recipients)
    ensures !RepeatsIn(c, s, ev, run)
  {
    hide PaidFrom, RunKeyOf;
  }

  lemma ProcessIsAdded(c: Codec, s0: State, before: seq<Event>, o: Outside, s: State, begun: State,
                       log: seq<Event>, o': Outside, ending: State, t: State, x: Session, reached: nat)
    requires At(c, s0, before, o, s) && Enabled(c, s, Started(x.job, x.limit))
    requires begun == After(c, s, Started(x.job, x.limit)) && begun.landings == s.landings
    requires Senders.Opened(begun, x, ZeroHash)
    requires At(c, s0, before + [Started(x.job, x.limit)], o, begun) && At(c, s0, log, o', ending)
    requires Stage(begun, ending, x, before + [Started(x.job, x.limit)], log, reached) && t.landings == ending.landings
    requires forall a :: a in x.paid <==> Marked(s.layout, x.job.Run(), a)
    ensures Adds(s, t, x.job, x.limit, reached, before, log + [Stopped])
  {
    hide At, Enabled, After, Senders.Opened, Stage, Marked, AllMarked, AttemptedIn, Unmarked, AtRisk, NothingSent,
      OneProcess;
    AtOutside(c, s0, before, o, s);
    AtOutside(c, s0, before + [Started(x.job, x.limit)], o, begun);
    AtOutside(c, s0, log, o', ending);
    ProcessAdds(c, s0, before, s, begun, log, ending, x, reached);
    SameRisk(ending, t);
  }
}
