/** What a process can still achieve: the histories of the protocol are not empty promises. */
module Feasible {
  import opened Basics
  import opened Ledger
  import opened Journals
  import opened Protocol
  import Invariant
  import opened History
  import Senders
  import Recorder
  import opened Airdrops

  /** Recipient i is still to be paid, the process is between two recipients, and it has not come to
      its limit on failures in a row. */
  ghost predicate Waiting(s: State, x: Session, i: nat) {
    && Runs(s, x)
    && var p := s.proc.value;
    && p.phase.Ready? && p.next <= i < |x.job.recipients| && x.job.recipients[i] !in x.paid
    && (x.limit > 0 ==> p.streak < x.limit)
  }

  /** A process that is not stuck builds on the true tip. */
  lemma BuildsOnTip(c: Codec, s: State, x: Session, i: nat)
    requires Inv(c, s) && Waiting(s, x, i) && !Stuck(s.o.chain, s.proc.value.acked, s.proc.value.at)
    ensures s.proc.value.last != ZeroHash ==> s.proc.value.last == TipHash(s.o.chain)
    ensures x.base <= |s.landings|
  {
    hide FileInv, RecordInv, SettledInv, OnceInv, LandingsInv, TallyInv, CoveredInv, RepeatInv, PaidInv, EndInv,
      WindowInv, RiskInv, MoneyInv;
    var p := s.proc.value;
    if p.acked != [] {
      assert s.o.chain[p.at..p.at + |p.acked|][|p.acked| - 1] == s.o.chain[|s.o.chain| - 1];
    }
  }

  /** The payment of recipient i, acknowledged and recorded without trouble. */
  function Payment(c: Codec, job: Job, chain: seq<Block>, i: nat): seq<Event>
    requires i < |job.recipients|
  {
    var b := NextBlock(job, chain, i);
    var e := EntryFor(job, b, i);
    [Attempted(i), Published(b, true, true)] + Recorder.RecordEvents(c, e, Line(c, e), true)
  }

  function NextBlock(job: Job, chain: seq<Block>, i: nat): Block
    requires i < |job.recipients|
  {
    Block(TipHash(chain), |chain| + 1, Send(job.recipients[i], job.amount, job.zts), 0)
  }

  function EntryFor(job: Job, b: Block, i: nat): Entry
    requires i < |job.recipients|
  {
    Entry(job.Run(), i + 1, job.recipients[i], job.amount, job.zts, HashOf(b), 0)
  }

  /** This landing is a payment of recipient i with a synced record. */
  ghost predicate Paying(l: Landing, job: Job, i: nat)
    requires i < |job.recipients|
  {
    && l.slot.Some? && l.from == job.from && l.to == job.to
    && l.block.body == Send(job.recipients[i], job.amount, job.zts)
  }

  lemma SendAcknowledged(c: Codec, s0: State, log: seq<Event>, s: State, x: Session, i: nat) returns (t: State)
    requires At(c, s0, log, s.o, s) && Waiting(s, x, i) && !Stuck(s.o.chain, s.proc.value.acked, s.proc.value.at)
    ensures var b := NextBlock(x.job, s.o.chain, i);
            && At(c, s0, log + [Attempted(i)] + [Published(b, true, true)], t.o, t)
            && Acknowledged(t, x, i, b) && t.landings == s.landings + [Landing(x.job.from, x.job.to, b, None)]
            && x.base <= |s.landings| && Settled(t.landings, x.base) == Settled(s.landings, x.base)
            && t.layout == s.layout
  {
    hide Settled, Inv, Reaches, Effect, Acknowledged;
    EnoughForOne(c, s, i);
    BuildsOnTip(c, s, x, i);
    var p, b := s.proc.value, NextBlock(x.job, s.o.chain, i);
    var t1 := AttemptLegal(c, s0, log, s.o, s, x, p.last, p.streak, i);
    t := PublishLegal(c, s0, log + [Attempted(i)], s.o, t1, x, p.last, p.streak + 1, i, b, true, true);
  }

  lemma AcknowledgedRecorded(c: Codec, s0: State, log: seq<Event>, s: State, x: Session, i: nat, b: Block)
    returns (t: State)
    requires i < |x.job.recipients| && s.landings != [] && Acknowledged(s, x, i, b) && At(c, s0, log, s.o, s)
    ensures var e := EntryFor(x.job, b, i); At(c, s0, log + Recorder.RecordEvents(c, e, Line(c, e), true), t.o, t)
    ensures Runs(t, x) && t.proc.value.phase.Ready? && t.proc.value.next == i + 1 && t.proc.value.streak == 0
    ensures !Stuck(t.o.chain, t.proc.value.acked, t.proc.value.at)
    ensures Settled(t.landings, x.base) == Settled(s.landings, x.base) + 1
    ensures |t.landings| == |s.landings| && t.landings[..|s.landings| - 1] == s.landings[..|s.landings| - 1]
    ensures Paying(t.landings[|t.landings| - 1], x.job, i) && Marked(t.layout, x.job.Run(), x.job.recipients[i])
    ensures SameEntries(s.layout, t.layout)
  {
    hide Settled, Inv, Reaches, Line, Recorder.RecordEvents, Marked;
    var e := EntryFor(x.job, b, i);
    t := Recorder.RecordLegal(c, s0, log, s.o, s, e, Line(c, e), true);
    AtOutside(c, s0, log + Recorder.RecordEvents(c, e, Line(c, e), true),
              s.o.(file := s.o.file + Line(c, e), durable := |s.o.file + Line(c, e)|), t);
    WindowNotStuck(c, s);
    SettledOnSync(s.landings, t.landings, x.base, |t.layout| - 1);
  }

  lemma WindowNotStuck(c: Codec, s: State)
    requires Inv(c, s) && s.proc.Some? && InWindow(s.proc.value)
    ensures !Stuck(s.o.chain, s.proc.value.acked, s.proc.value.at)
  {
    hide FileInv, RecordInv, SettledInv, OnceInv, LandingsInv, TallyInv, CoveredInv, RepeatInv, PaidInv, EndInv,
      WindowInv, RiskInv, MoneyInv, LoopInv;
  }

  /** Unless it is stuck, a process can pay any recipient still to be paid, and record it. */
  lemma PaymentGoesThrough(c: Codec, s0: State, log: seq<Event>, s: State, x: Session, i: nat) returns (t: State)
    requires At(c, s0, log, s.o, s) && Waiting(s, x, i) && !Stuck(s.o.chain, s.proc.value.acked, s.proc.value.at)
    ensures At(c, s0, log + Payment(c, x.job, s.o.chain, i), t.o, t)
    ensures Runs(t, x) && t.proc.value.phase.Ready? && t.proc.value.next == i + 1 && t.proc.value.streak == 0
    ensures !Stuck(t.o.chain, t.proc.value.acked, t.proc.value.at)
    ensures x.base <= |s.landings| && Settled(t.landings, x.base) == Settled(s.landings, x.base) + 1
    ensures |t.landings| == |s.landings| + 1 && t.landings[..|s.landings|] == s.landings
    ensures Paying(t.landings[|s.landings|], x.job, i) && Marked(t.layout, x.job.Run(), x.job.recipients[i])
    ensures SameEntries(s.layout, t.layout)
  {
    hide At, Settled, Marked, Recorder.RecordEvents, Line, Stuck, Acknowledged;
    var b := NextBlock(x.job, s.o.chain, i);
    var acked := SendAcknowledged(c, s0, log, s, x, i);
    var log2 := log + [Attempted(i)] + [Published(b, true, true)];
    t := AcknowledgedRecorded(c, s0, log2, acked, x, i, b);
    assert log2 == log + [Attempted(i), Published(b, true, true)];
    var e := EntryFor(x.job, b, i);
    Regroup(log, [Attempted(i), Published(b, true, true)], Recorder.RecordEvents(c, e, Line(c, e), true));
  }

  lemma Regroup(a: seq<Event>, b: seq<Event>, x: seq<Event>)
    ensures a + b + x == a + (b + x)
  {
  }

  /** A process between two recipients can still complete a payment exactly when no block lies
      beyond the last one acknowledged to it. */
  lemma CanPayExactlyWhenNotStuck(c: Codec, s0: State, log: seq<Event>, s: State, x: Session, i: nat)
    requires At(c, s0, log, s.o, s) && Waiting(s, x, i)
    ensures !Stuck(s.o.chain, s.proc.value.acked, s.proc.value.at)
            <==> exists evs :: Legal(c, s, evs) && NoStop(evs)
                               && Settled(Exec(c, s, evs).value.landings, x.base) > Settled(s.landings, x.base)
  {
    hide Inv, Exec, Settled, Marked, Payment, Recorder.RecordEvents, Stuck;
    if !Stuck(s.o.chain, s.proc.value.acked, s.proc.value.at) {
      var evs := Payment(c, x.job, s.o.chain, i);
      var t := PaymentGoesThrough(c, s0, log, s, x, i);
      ExecConcat(c, s0, log, evs);
      PaymentRuns(c, x.job, s.o.chain, i);
      assert Legal(c, s, evs) && NoStop(evs);
    } else {
      forall evs | Legal(c, s, evs) && NoStop(evs)
        ensures Settled(Exec(c, s, evs).value.landings, x.base) == Settled(s.landings, x.base)
      {
        StuckForever(c, s, evs);
      }
    }
  }

  lemma PaymentRuns(c: Codec, job: Job, chain: seq<Block>, i: nat)
    requires i < |job.recipients|
    ensures NoStop(Payment(c, job, chain, i))
  {
    hide Line;
  }

  /** This process can go on paying. */
  ghost predicate CanPay(s: State, p: Proc) {
    !Stuck(s.o.chain, p.acked, p.at) && (p.limit > 0 ==> p.streak < p.limit)
  }

  /** If it can go on paying, a process can pay and record everyone still to be paid from k on. */
  lemma {:induction false} EveryoneCanBePaid(c: Codec, s0: State, log: seq<Event>, s: State, x: Session, k: nat)
    returns (evs: seq<Event>, t: State)
    requires At(c, s0, log, s.o, s) && Runs(s, x) && s.proc.value.phase.Ready? && CanPay(s, s.proc.value)
    requires s.proc.value.next <= k <= |x.job.recipients|
    ensures At(c, s0, log + evs, t.o, t) && NoStop(evs) && SameEntries(s.layout, t.layout)
    ensures forall i | k <= i < |x.job.recipients| && x.job.recipients[i] !in x.paid ::
              Marked(t.layout, x.job.Run(), x.job.recipients[i])
    decreases |x.job.recipients| - k
  {
    hide At, Settled, Marked, Payment, Stuck, SameEntries;
    if k == |x.job.recipients| {
      evs, t := [], s;
      assert log + evs == log;
      SameEntriesItself(s.layout);
    } else if x.job.recipients[k] in x.paid {
      evs, t := EveryoneCanBePaid(c, s0, log, s, x, k + 1);
    } else {
      var one := Payment(c, x.job, s.o.chain, k);
      var first := PaymentGoesThrough(c, s0, log, s, x, k);
      AtItself(c, s0, log + one, first.o, first);
      var rest;
      rest, t := EveryoneCanBePaid(c, s0, log + one, first, x, k + 1);
      evs := one + rest;
      Regroup(log, one, rest);
      PaymentRuns(c, x.job, s.o.chain, k);
      NoStopConcat(one, rest);
      MarkedKept(first.layout, t.layout, x.job.Run(), x.job.recipients[k]);
      SameEntriesTrans(s.layout, first.layout, t.layout);
    }
  }

  lemma SameEntriesItself(layout: seq<Piece>)
    ensures SameEntries(layout, layout)
  {
  }

  // ---------- when an address can be paid twice ----------

  /** Landing b is a second settled payment of an airdrop to the address of landing a. */
  predicate Second(landings: seq<Landing>, a: nat, b: nat) {
    a < b < |landings| && SameSettled(landings[a], landings[b])
  }

  /** Between s and t an address got a second settled payment. */
  ghost predicate PaidAgain(s: State, t: State) {
    exists a, b :: |s.landings| <= b && Second(t.landings, a, b)
  }

  /** A list that names an unmarked address twice can have it paid twice by this one process, with
      two records, though nothing failed. */
  lemma RepeatedAddressIsPaidTwice(c: Codec, s0: State, log: seq<Event>, s: State, x: Session, i: nat, j: nat)
    returns (evs: seq<Event>, t: State)
    requires At(c, s0, log, s.o, s) && Waiting(s, x, i) && !Stuck(s.o.chain, s.proc.value.acked, s.proc.value.at)
    requires i < j < |x.job.recipients| && x.job.recipients[j] == x.job.recipients[i]
    ensures At(c, s0, log + evs, t.o, t) && NoStop(evs) && |t.landings| == |s.landings| + 2
    ensures Second(t.landings, |s.landings|, |s.landings| + 1)
  {
    hide At, Settled, Marked, Payment, Stuck, RunKeyOf, NoStop;
    var first := PaymentGoesThrough(c, s0, log, s, x, i);
    AtItself(c, s0, log + Payment(c, x.job, s.o.chain, i), first.o, first);
    t := PaymentGoesThrough(c, s0, log + Payment(c, x.job, s.o.chain, i), first, x, j);
    evs := Payment(c, x.job, s.o.chain, i) + Payment(c, x.job, first.o.chain, j);
    Regroup(log, Payment(c, x.job, s.o.chain, i), Payment(c, x.job, first.o.chain, j));
    PaymentRuns(c, x.job, s.o.chain, i);
    PaymentRuns(c, x.job, first.o.chain, j);
    NoStopConcat(Payment(c, x.job, s.o.chain, i), Payment(c, x.job, first.o.chain, j));
    assert t.landings[|s.landings|] == first.landings[|s.landings|];
  }

  /** An address settled before is paid again when the list names it again without a mark. */
  lemma SettledAddressIsPaidAgain(c: Codec, s0: State, log: seq<Event>, s: State, x: Session, a: nat, j: nat)
    returns (evs: seq<Event>, t: State)
    requires At(c, s0, log, s.o, s) && Waiting(s, x, j) && !Stuck(s.o.chain, s.proc.value.acked, s.proc.value.at)
    requires a < |s.landings| && s.landings[a].slot.Some? && s.landings[a].Run() == x.job.Run()
    requires s.landings[a].block.body.Send? && s.landings[a].block.body.to == x.job.recipients[j]
    ensures At(c, s0, log + evs, t.o, t) && NoStop(evs) && Second(t.landings, a, |s.landings|)
  {
    hide At, Settled, Marked, Payment, Stuck, RunKeyOf, NoStop;
    evs := Payment(c, x.job, s.o.chain, j);
    t := PaymentGoesThrough(c, s0, log, s, x, j);
    PaymentRuns(c, x.job, s.o.chain, j);
    assert t.landings[a] == s.landings[a];
  }

  /** Position j is still ahead and names an unmarked address that has a settled payment or comes
      earlier in what is ahead. */
  ghost predicate Again(s: State, x: Session, j: nat) {
    && Runs(s, x) && s.proc.value.next <= j < |x.job.recipients|
    && var a := x.job.recipients[j];
    && a !in x.paid
    && (a in SettledTo(s.landings, x.job.Run()) || a in x.job.recipients[s.proc.value.next..j])
  }

  /** Since s, the process has settled only payments to the recipients it passed, each the first to
      its address. */
  ghost predicate NoneAgain(s: State, t: State, x: Session, next: nat) {
    && Runs(t, x) && s.landings <= t.landings && next <= Cur(t.proc.value) <= |x.job.recipients|
    && (InWindow(t.proc.value) ==> |s.landings| < |t.landings|)
    && (forall k | |s.landings| <= k < |t.landings| && t.landings[k].slot.Some? ::
          t.landings[k].block.body.Send? && t.landings[k].block.body.to in x.job.recipients[next..Cur(t.proc.value)])
    && !PaidAgain(s, t)
  }

  lemma PassedFurther(list: seq<Address>, next: nat, cur: nat, further: nat, a: Address)
    requires next <= cur <= further <= |list| && a in list[next..cur]
    ensures a in list[next..further]
  {
    var i :| 0 <= i < cur - next && list[next..cur][i] == a;
    assert list[next..further][i] == a;
  }

  /** Landings that are not settled, added at the end, pay nobody again. */
  lemma AddedNotAgain(s: State, t: State, u: State)
    requires t.landings <= u.landings
    requires forall k | |t.landings| <= k < |u.landings| :: u.landings[k].slot.None?
    ensures PaidAgain(s, u) ==> PaidAgain(s, t)
  {
    hide RunKeyOf;
    if PaidAgain(s, u) {
      var a, b :| |s.landings| <= b && Second(u.landings, a, b);
      assert Second(t.landings, a, b);
    }
  }

  lemma NoneAgainStep(c: Codec, s: State, t: State, x: Session, next: nat, ev: Event)
    requires Inv(c, t) && NoneAgain(s, t, x, next) && Enabled(c, t, ev) && ev != Stopped && !ev.Synced?
    requires !t.proc.value.phase.Opening?
    ensures NoneAgain(s, After(c, t, ev), x, next)
  {
    hide FileInv, RecordInv, SettledInv, OnceInv, LandingsInv, TallyInv, CoveredInv, RepeatInv, PaidInv, ChainInv,
      EndInv, WindowInv, RiskInv, MoneyInv, PaidAgain, RunKeyOf;
    var u := After(c, t, ev);
    var cur := Cur(t.proc.value);
    AddedNotAgain(s, t, u);
    forall k | |s.landings| <= k < |u.landings| && u.landings[k].slot.Some?
      ensures u.landings[k].block.body.Send?
              && u.landings[k].block.body.to in x.job.recipients[next..Cur(u.proc.value)]
    {
      assert u.landings[k] == t.landings[k];
      PassedFurther(x.job.recipients, next, cur, Cur(u.proc.value), t.landings[k].block.body.to);
    }
  }

  /** The record of recipient i is synced: its payment is the first to its address. */
  lemma SyncedFirst(s: State, t: State, u: State, x: Session, next: nat, i: nat, slot: nat)
    requires NoneAgain(s, t, x, next) && Runs(s, x) && s.proc.value.next == next && !Again(s, x, i)
    requires next <= i < |x.job.recipients| && x.job.recipients[i] !in x.paid && Cur(t.proc.value) == i
    requires |s.landings| < |t.landings|
    requires var n := |t.landings| - 1; u.landings == t.landings[n := t.landings[n].(slot := Some(slot))]
    requires t.landings[|t.landings| - 1].Run() == x.job.Run()
    requires t.landings[|t.landings| - 1].block.body == Send(x.job.recipients[i], x.job.amount, x.job.zts)
    ensures !PaidAgain(s, u)
  {
    hide RunKeyOf;
    var n, to := |t.landings| - 1, x.job.recipients[i];
    forall a: nat, b: nat | |s.landings| <= b ensures !Second(u.landings, a, b) {
      if b < n {
        assert !Second(t.landings, a, b);
      } else if a < |s.landings| {
        assert to !in SettledTo(s.landings, x.job.Run());
      } else if a < n && b == n {
        assert u.landings[a] == t.landings[a];
      }
    }
  }

  lemma NoneAgainSynced(c: Codec, s: State, t: State, x: Session, next: nat)
    requires Inv(c, t) && NoneAgain(s, t, x, next) && Enabled(c, t, Synced)
    requires Runs(s, x) && s.proc.value.next == next && forall j :: !Again(s, x, j)
    ensures NoneAgain(s, After(c, t, Synced), x, next)
  {
    hide FileInv, RecordInv, SettledInv, OnceInv, LandingsInv, TallyInv, CoveredInv, RepeatInv, PaidInv, ChainInv,
      RiskInv, MoneyInv, PaidAgain, RunKeyOf, Again;
    var u := After(c, t, Synced);
    var i := Cur(t.proc.value);
    SyncedFirst(s, t, u, x, next, i, |t.layout| - 1);
    forall k | |s.landings| <= k < |u.landings| && u.landings[k].slot.Some?
      ensures u.landings[k].block.body.Send? && u.landings[k].block.body.to in x.job.recipients[next..i + 1]
    {
      if k < |t.landings| - 1 {
        assert u.landings[k] == t.landings[k];
        PassedFurther(x.job.recipients, next, i, i + 1, t.landings[k].block.body.to);
      } else {
        assert x.job.recipients[next..i + 1][i - next] == x.job.recipients[i];
      }
    }
  }

  lemma {:induction false} NoneAgainKept(c: Codec, s: State, evs: seq<Event>, x: Session)
    requires Lawful(c) && Inv(c, s) && Runs(s, x) && s.proc.value.phase.Ready? && forall j :: !Again(s, x, j)
    requires Legal(c, s, evs) && NoStop(evs)
    ensures var t := Exec(c, s, evs).value;
            Inv(c, t) && NoneAgain(s, t, x, s.proc.value.next) && t.proc.Some? && !t.proc.value.phase.Opening?
  {
    hide Inv, Enabled, After, NoneAgain, Again;
    if evs == [] {
      NoneAgainYet(c, s, x);
    } else {
      var n := |evs| - 1;
      assert NoStop(evs[..n]);
      NoneAgainKept(c, s, evs[..n], x);
      var t := Exec(c, s, evs[..n]).value;
      Invariant.StepInv(c, t, evs[n]);
      OpenedOnce(c, t, evs[n]);
      if evs[n].Synced? {
        NoneAgainSynced(c, s, t, x, s.proc.value.next);
      } else {
        NoneAgainStep(c, s, t, x, s.proc.value.next, evs[n]);
      }
    }
  }

  lemma NoneAgainYet(c: Codec, s: State, x: Session)
    requires Inv(c, s) && Runs(s, x) && s.proc.value.phase.Ready?
    ensures NoneAgain(s, s, x, s.proc.value.next)
  {
    hide FileInv, RecordInv, SettledInv, OnceInv, LandingsInv, TallyInv, CoveredInv, RepeatInv, PaidInv, ChainInv,
      EndInv, WindowInv, RiskInv, MoneyInv;
  }

  lemma OpenedOnce(c: Codec, s: State, ev: Event)
    requires s.proc.Some? && !s.proc.value.phase.Opening? && Enabled(c, s, ev) && ev != Stopped
    ensures var t := After(c, s, ev); t.proc.Some? && !t.proc.value.phase.Opening?
  {
  }

  /** A process at its limit on failures in a row does nothing more. */
  lemma {:induction false} AtLimitNothing(c: Codec, s: State, evs: seq<Event>)
    requires s.proc.Some? && s.proc.value.phase.Ready? && 0 < s.proc.value.limit <= s.proc.value.streak
    requires Legal(c, s, evs) && NoStop(evs)
    ensures evs == []
  {
    if evs != [] {
      var n := |evs| - 1;
      assert NoStop(evs[..n]);
      AtLimitNothing(c, s, evs[..n]);
    }
  }

  lemma PayableAgain(c: Codec, s0: State, log: seq<Event>, s: State, x: Session, j: nat)
    returns (evs: seq<Event>, t: State)
    requires At(c, s0, log, s.o, s) && Runs(s, x) && s.proc.value.phase.Ready? && CanPay(s, s.proc.value)
    requires Again(s, x, j)
    ensures At(c, s0, log + evs, t.o, t) && NoStop(evs) && PaidAgain(s, t)
  {
    hide At, Stuck, NoStop, RunKeyOf;
    var next, to := s.proc.value.next, x.job.recipients[j];
    if to in SettledTo(s.landings, x.job.Run()) {
      var a :| 0 <= a < |s.landings| && s.landings[a].slot.Some? && s.landings[a].Run() == x.job.Run()
               && s.landings[a].block.body.Send? && s.landings[a].block.body.to == to;
      evs, t := SettledAddressIsPaidAgain(c, s0, log, s, x, a, j);
    } else {
      var k :| 0 <= k < j - next && x.job.recipients[next..j][k] == to;
      evs, t := RepeatedAddressIsPaidTwice(c, s0, log, s, x, next + k, j);
    }
  }

  /** A process between two recipients can still give an address a second recorded payment of its
      airdrop if and only if it can go on paying and some unmarked address ahead was settled before
      or comes earlier in what is ahead. */
  lemma PaidTwiceExactly(c: Codec, s0: State, log: seq<Event>, s: State, x: Session)
    requires At(c, s0, log, s.o, s) && Runs(s, x) && s.proc.value.phase.Ready?
    ensures CanPay(s, s.proc.value) && (exists j :: Again(s, x, j))
            <==> exists evs :: Legal(c, s, evs) && NoStop(evs) && PaidAgain(s, Exec(c, s, evs).value)
  {
    hide Inv, Exec, NoStop, PaidAgain, Again, Stuck;
    var p := s.proc.value;
    if !CanPay(s, p) {
      forall evs | Legal(c, s, evs) && NoStop(evs) ensures !PaidAgain(s, Exec(c, s, evs).value) {
        if Stuck(s.o.chain, p.acked, p.at) {
          StuckForever(c, s, evs);
        } else {
          AtLimitNothing(c, s, evs);
          NoEvents(c, s);
        }
        NothingAgain(s, Exec(c, s, evs).value);
      }
    } else if exists j :: Again(s, x, j) {
      var j :| Again(s, x, j);
      var evs, t := PayableAgain(c, s0, log, s, x, j);
      ExecConcat(c, s0, log, evs);
      assert Legal(c, s, evs) && NoStop(evs);
    } else {
      forall evs | Legal(c, s, evs) && NoStop(evs) ensures !PaidAgain(s, Exec(c, s, evs).value) {
        NoneAgainKept(c, s, evs, x);
      }
    }
  }

  lemma NoEvents(c: Codec, s: State)
    ensures Exec(c, s, []) == Some(s)
  {
  }

  lemma NothingAgain(s: State, t: State)
    requires t.landings == s.landings
    ensures !PaidAgain(s, t)
  {
  }

  lemma SettledIsMarked(landings: seq<Landing>, job: Job, paid: map<Address, Hash>)
    requires CoveredInv(landings, job, paid, 0)
    ensures forall a | a in SettledTo(landings, job.Run()) :: a in paid
  {
    hide RunKeyOf;
    forall k | 0 <= k < |landings| ensures Covered(landings[k], job, paid, 0) {
    }
  }

  /** At the start of the payments that is: the list names an unmarked address twice. */
  lemma AgainFromTheStart(c: Codec, s: State, x: Session)
    requires Inv(c, s) && Runs(s, x) && s.proc.value.phase.Ready? && s.proc.value.next == 0
    ensures (exists j :: Again(s, x, j)) <==> Repeats(x.job.recipients, x.paid, 0)
  {
    hide FileInv, RecordInv, SettledInv, OnceInv, LandingsInv, TallyInv, RepeatInv, PaidInv, ChainInv, EndInv,
      WindowInv, RiskInv, MoneyInv, LoopInv, RunKeyOf, SettledTo, CoveredInv;
    var r := x.job.recipients;
    SettledIsMarked(s.landings, x.job, x.paid);
    if Repeats(r, x.paid, 0) {
      var i, j :| 0 <= i < j < |r| && r[i] == r[j] && r[i] !in x.paid;
      assert r[0..j][i] == r[j];
      assert Again(s, x, j);
    }
    if j: nat :| Again(s, x, j) {
      var i :| 0 <= i < j && r[0..j][i] == r[j];
    }
  }

  lemma AtItself(c: Codec, s0: State, log: seq<Event>, o: Outside, s: State)
    requires At(c, s0, log, o, s)
    ensures At(c, s0, log, s.o, s)
  {
    hide Reaches, Inv;
  }

  /** Before the balance check, on a dry run as on any other, a receive block can land. */
  lemma ReceiveCanLand(c: Codec, s0: State, log: seq<Event>, s: State, x: Session, source: Pending)
    returns (t: State)
    requires At(c, s0, log, s.o, s) && Senders.Opened(s, x, ZeroHash)
    ensures var b := Block(TipHash(s.o.chain), |s.o.chain| + 1, Receive(source), 0);
            && At(c, s0, log + [Published(b, true, true)], Land(s.o, b), t)
            && Senders.Opened(t, x, HashOf(b)) && |t.o.chain| == |s.o.chain| + 1
  {
    hide At, Senders.Opened, Credit;
    var b := Block(TipHash(s.o.chain), |s.o.chain| + 1, Receive(source), 0);
    t := Senders.ReceiveLegal(c, s0, log, s.o, s, x, ZeroHash, b, true, true);
    AtOutside(c, s0, log + [Published(b, true, true)], Land(s.o, b), t);
  }
}
