/** Every event keeps the protocol's invariant. */
module Invariant {
  import opened Basics
  import opened Ledger
  import opened Journals
  import opened Protocol

  lemma InitInv(c: Codec, s: State)
    requires Init(s)
    ensures Inv(c, s)
  {
  }

  // ---------- counting ----------

  lemma {:induction false} LooseSplit(landings: seq<Landing>, base: nat)
    requires base <= |landings|
    ensures Loose(landings, 0) == Loose(landings[..base], 0) + Loose(landings, base)
  {
    if |landings| == base {
      assert landings[..base] == landings;
    } else {
      var n := |landings| - 1;
      LooseSplit(landings[..n], base);
      assert landings[..n][..base] == landings[..base];
    }
  }

  lemma LooseAppend(landings: seq<Landing>, l: Landing, start: nat)
    requires start <= |landings|
    ensures Loose(landings + [l], start) == Loose(landings, start) + if l.slot.None? then 1 else 0
  {
    assert (landings + [l])[..|landings|] == landings;
  }

  lemma LooseOfAppend(landings: seq<Landing>, l: Landing, run: RunKey)
    ensures LooseOf(landings + [l], run)
            == LooseOf(landings, run) + if l.slot.None? && l.Run() == run then 1 else 0
  {
    assert (landings + [l])[..|landings|] == landings;
  }

  lemma LostByAppend(ends: seq<End>, e: End, run: RunKey)
    ensures LostBy(ends + [e], run) == LostBy(ends, run) + if e.run == run then e.lost else 0
  {
    assert (ends + [e])[..|ends|] == ends;
  }

  lemma UnpaidFrom(recipients: seq<Address>, paid: map<Address, Hash>, j: nat, k: nat)
    requires j <= k
    ensures Unpaid(recipients, paid, k) <= Unpaid(recipients, paid, j)
    decreases k - j
  {
    if j < k {
      UnpaidFrom(recipients, paid, j + 1, k);
    }
  }

  lemma CostMonotone(a: nat, m: nat, n: nat)
    requires m <= n
    ensures Cost(a, m) <= Cost(a, n)
  {
  }

  lemma CostIsProduct(a: nat, n: nat)
    ensures Cost(a, n) == a * n
  {
  }

  // ---------- reading the journal ----------

  /** What Paid returns comes from a record of that run. */
  lemma {:induction false} MarksValue(layout: seq<Piece>, run: RunKey, paid: map<Address, Hash>, a: Address)
    returns (j: int)
    requires a in Marks(layout, run, paid)
    ensures -1 <= j < |layout|
    ensures j == -1 ==> a in paid && Marks(layout, run, paid)[a] == paid[a]
    ensures j >= 0 ==> layout[j].entry.run == run && layout[j].entry.address == a
                       && Marks(layout, run, paid)[a] == layout[j].entry.hash
  {
    if layout == [] {
      j := -1;
    } else {
      var e := layout[0].entry;
      var more := if e.run == run then paid[e.address := e.hash] else paid;
      var k := MarksValue(layout[1..], run, more, a);
      if k >= 0 {
        j := k + 1;
      } else if e.run == run && e.address == a {
        j := 0;
      } else {
        j := -1;
      }
    }
  }

  /** A record about a landing, read under a run key, is a payment of that run's amount and token. */
  lemma RecordPays(e: Entry, l: Landing, job: Job, chain: seq<Block>)
    requires Records(e, l) && LandingOk(chain, l) && e.run == job.Run() && '|' !in job.zts
    ensures ReallyPaid(chain, job, e.address, e.hash)
  {
    RunKeyIsInjective(e.zts, e.amount, l.from, l.to, job.zts, job.amount, job.from, job.to);
  }

  // ---------- the events ----------

  lemma StartedPaid(c: Codec, s: State, job: Job, paid: map<Address, Hash>)
    requires Lawful(c) && JobOk(c, job) && FileInv(c, s.o.file, s.o.durable, s.layout, s.keep)
    requires LandingsInv(s.o.chain, s.landings) && RecordInv(s.layout, s.owner, s.landings)
    requires SettledInv(s.landings, s.owner, s.keep)
    requires PaidFrom(c, s.o.file, job.Run(), map[]) == Ok(paid)
    ensures CoveredInv(s.landings, job, paid, 0)
    ensures PaidInv(s.o.chain, job, paid)
    ensures s.layout != [] ==> Complete(c, s.layout[|s.layout| - 1])
  {
    hide PaidFrom, Marks, Text, RunKeyOf;
    PaidIsExact(c, s.layout, job.Run(), map[]);
    assert paid == Marks(s.layout, job.Run(), map[]);
    forall k | 0 <= k < |s.landings| ensures Covered(s.landings[k], job, paid, 0) {
      var l := s.landings[k];
      if l.slot.Some? && l.Run() == job.Run() {
        var j := l.slot.value;
        assert s.owner[j] == k && Records(s.layout[j].entry, l);
        MarksKeys(s.layout, job.Run(), map[], l.block.body.to);
      }
    }
    forall a | a in paid ensures ReallyPaid(s.o.chain, job, a, paid[a]) {
      var j := MarksValue(s.layout, job.Run(), map[], a);
      RecordPays(s.layout[j].entry, s.landings[s.owner[j]], job, s.o.chain);
    }
  }

  lemma TallyStarted(landings: seq<Landing>, ends: seq<End>, run: RunKey)
    requires TallyInv(landings, ends, None, |landings|)
    ensures TallyInv(landings, ends, Some(run), |landings|)
  {
    assert Loose(landings, |landings|) == 0;
  }

  lemma StartedInv(c: Codec, s: State, job: Job, limit: int)
    requires Lawful(c) && Inv(c, s) && Enabled(c, s, Started(job, limit))
    ensures Inv(c, After(c, s, Started(job, limit)))
  {
    hide FileInv, LandingsInv, RecordInv, SettledInv, OnceInv, CoveredInv, PaidInv, TallyInv, RunKeyOf, PaidFrom,
      JobOk, Unpaid, Repeats;
    OnceWider(s.landings, s.repeated, After(c, s, Started(job, limit)).repeated);
    StartedPaid(c, s, job, PaidFrom(c, s.o.file, job.Run(), map[]).value);
    TallyStarted(s.landings, s.ends, job.Run());
  }

  /** A block of another program between two processes. */
  lemma ForeignInv(c: Codec, s: State, b: Block)
    requires Inv(c, s) && Enabled(c, s, Foreign(b))
    ensures Inv(c, After(c, s, Foreign(b)))
  {
    hide FileInv, LandingsInv, RecordInv, SettledInv, OnceInv, TallyInv;
    LandingsGrow(s.o.chain, b, s.landings);
  }

  lemma CutFile(c: Codec, s: State, k: nat)
    requires FileInv(c, s.o.file, s.o.durable, s.layout, s.keep) && s.o.durable <= k <= |s.o.file|
    ensures var cut := Truncate(c, s.layout, k);
            FileInv(c, s.o.file[..k], k, cut, s.keep) && |cut| <= |s.layout|
            && forall i | 0 <= i < |cut| :: cut[i].entry == s.layout[i].entry
  {
    TruncateShaped(c, s.layout, k);
    TruncateKeeps(c, s.layout, k, s.keep);
  }

  lemma CutRecords(layout: seq<Piece>, cut: seq<Piece>, owner: seq<nat>, landings: seq<Landing>, keep: nat)
    requires RecordInv(layout, owner, landings) && SettledInv(landings, owner, keep)
    requires keep <= |cut| <= |layout| && forall i | 0 <= i < |cut| :: cut[i].entry == layout[i].entry
    ensures |owner| == |layout|
    ensures RecordInv(cut, owner[..|cut|], landings) && SettledInv(landings, owner[..|cut|], keep)
  {
  }

  lemma PowerLostInv(c: Codec, s: State, k: nat)
    requires Inv(c, s) && Enabled(c, s, PowerLost(k))
    ensures Inv(c, After(c, s, PowerLost(k)))
  {
    CutFile(c, s, k);
    assert s.o.file == Text(c, s.layout) && s.keep <= |Truncate(c, s.layout, k)|;
    hide FileInv, LandingsInv, RecordInv, SettledInv, OnceInv, TallyInv;
    CutRecords(s.layout, Truncate(c, s.layout, k), s.owner, s.landings, s.keep);
  }

  lemma GatedInv(c: Codec, s: State)
    requires Inv(c, s) && Enabled(c, s, Gated)
    ensures Inv(c, After(c, s, Gated))
  {
    hide FileInv, LandingsInv, RecordInv, SettledInv, OnceInv, CoveredInv, RepeatInv, PaidInv, TallyInv, ChainInv,
      RiskInv;
  }

  lemma CoveredFurther(landings: seq<Landing>, job: Job, paid: map<Address, Hash>, cur: nat, further: nat)
    requires CoveredInv(landings, job, paid, cur) && cur <= further <= |job.recipients|
    ensures CoveredInv(landings, job, paid, further)
  {
    assert job.recipients[..cur] == job.recipients[..further][..cur];
    forall k | 0 <= k < |landings| ensures Covered(landings[k], job, paid, further) {
      assert Covered(landings[k], job, paid, cur);
    }
  }

  lemma AttemptedInv(c: Codec, s: State, i: nat)
    requires Inv(c, s) && Enabled(c, s, Attempted(i))
    ensures Inv(c, After(c, s, Attempted(i)))
  {
    hide FileInv, LandingsInv, RecordInv, SettledInv, OnceInv, TallyInv, PaidInv, ChainInv, RiskInv;
    var p := s.proc.value;
    CoveredFurther(s.landings, p.job, p.paid, Cur(p), i);
    UnpaidFrom(p.job.recipients, p.paid, Ahead(p), i);
    CostMonotone(p.job.amount, Unpaid(p.job.recipients, p.paid, i), Unpaid(p.job.recipients, p.paid, Ahead(p)));
  }

  lemma MarshalledInv(c: Codec, s: State, e: Entry)
    requires Inv(c, s) && Enabled(c, s, Marshalled(e))
    ensures Inv(c, After(c, s, Marshalled(e)))
  {
    hide FileInv, LandingsInv, RecordInv, SettledInv, OnceInv, CoveredInv, RepeatInv, PaidInv, TallyInv, ChainInv,
      RiskInv, MoneyInv;
  }

  lemma TallyStopped(landings: seq<Landing>, ends: seq<End>, run: RunKey, base: nat, early: nat)
    requires TallyInv(landings, ends, Some(run), base) && Loose(landings, base) <= early + 1
    ensures TallyInv(landings, ends + [End(run, Loose(landings, base), early)], None, |landings|)
  {
    hide LostBy, LooseOf, Loose;
    var e := End(run, Loose(landings, base), early);
    forall r ensures LooseOf(landings, r) == LostBy(ends + [e], r) {
      LostByAppend(ends, e, r);
    }
  }

  lemma StoppedInv(c: Codec, s: State)
    requires Inv(c, s) && Enabled(c, s, Stopped)
    ensures Inv(c, After(c, s, Stopped))
  {
    hide FileInv, LandingsInv, RecordInv, SettledInv, OnceInv, CoveredInv, RepeatInv, PaidInv, ChainInv, WindowInv,
      EndInv, MoneyInv, TallyInv, Loose, RunKeyOf;
    var p := s.proc.value;
    TallyStopped(s.landings, s.ends, p.job.Run(), p.base, p.early);
  }

  // ---------- publishing ----------

  /** A block that lands on a chain holding the process's acknowledged stretch, built on the last
      acknowledged block if there is one, sits directly on that stretch. */
  lemma LandsOnLast(chain: seq<Block>, last: Hash, acked: seq<Block>, at: nat)
    requires Linked(chain) && ChainInv(chain, last, acked, at, false)
    requires last != ZeroHash ==> TipHash(chain) == last
    ensures acked != [] ==> |chain| == at + |acked|
  {
    if acked != [] {
      var k := at + |acked| - 1;
      assert chain[k] == acked[|acked| - 1];
      assert chain[k].height == k + 1 && chain[|chain| - 1].height == |chain|;
    }
  }

  lemma AckGrows(chain: seq<Block>, last: Hash, acked: seq<Block>, at: nat, b: Block)
    requires Linked(chain) && ChainInv(chain, last, acked, at, false)
    requires b.previous == TipHash(chain) && (last != ZeroHash ==> b.previous == last)
    ensures ChainInv(chain + [b], HashOf(b), acked + [b], if acked == [] then |chain| else at, true)
  {
    LandsOnLast(chain, last, acked, at);
    var k := if acked == [] then |chain| else at;
    assert (chain + [b])[k..k + |acked| + 1] == acked + [b];
  }

  lemma ExtraGrows(chain: seq<Block>, last: Hash, acked: seq<Block>, at: nat, b: Block)
    requires Linked(chain) && ChainInv(chain, last, acked, at, false)
    requires b.previous == TipHash(chain) && (last != ZeroHash ==> b.previous == last)
    ensures ChainInv(chain + [b], last, acked, at, false)
    ensures acked != [] ==> Stuck(chain + [b], acked, at) && !Stuck(chain, acked, at)
  {
    LandsOnLast(chain, last, acked, at);
    if acked != [] {
      assert (chain + [b])[at..at + |acked|] == chain[at..at + |acked|];
    }
  }

  lemma LandingsGrow(chain: seq<Block>, b: Block, landings: seq<Landing>)
    requires LandingsInv(chain, landings) && b.previous == TipHash(chain) && b.height == |chain| + 1
    ensures LandingsInv(chain + [b], landings)
  {
    LinkedGrows(chain, b);
    forall i | 0 <= i < |landings| ensures LandingOk(chain + [b], landings[i]) {
      assert LandingOk(chain, landings[i]);
    }
  }

  lemma OnChainGrows(chain: seq<Block>, b: Block, landings: seq<Landing>, job: Job, paid: map<Address, Hash>)
    requires LandingsInv(chain, landings) && PaidInv(chain, job, paid)
    requires b.previous == TipHash(chain) && b.height == |chain| + 1
    ensures LandingsInv(chain + [b], landings) && PaidInv(chain + [b], job, paid)
  {
    LandingsGrow(chain, b, landings);
    forall a | a in paid ensures ReallyPaid(chain + [b], job, a, paid[a]) {
      assert ReallyPaid(chain, job, a, paid[a]);
    }
  }

  /** A new unsettled landing at the end leaves the records and the settled landings alone. */
  lemma LandingAdded(chain: seq<Block>, s: State, l: Landing, job: Job, paid: map<Address, Hash>, cur: nat)
    requires LandingsInv(chain, s.landings) && LandingOk(chain, l) && l.slot.None?
    requires RecordInv(s.layout, s.owner, s.landings) && SettledInv(s.landings, s.owner, s.keep)
    requires CoveredInv(s.landings, job, paid, cur)
    ensures LandingsInv(chain, s.landings + [l])
    ensures RecordInv(s.layout, s.owner, s.landings + [l]) && SettledInv(s.landings + [l], s.owner, s.keep)
    ensures CoveredInv(s.landings + [l], job, paid, cur)
  {
    var more := s.landings + [l];
    forall k | 0 <= k < |more| ensures LandingOk(chain, more[k]) && Covered(more[k], job, paid, cur) {
      if k < |s.landings| {
        assert LandingOk(chain, s.landings[k]) && Covered(s.landings[k], job, paid, cur);
      }
    }
    forall j | 0 <= j < |s.layout|
      ensures s.owner[j] < |more| && Records(s.layout[j].entry, more[s.owner[j]])
    {
      assert Records(s.layout[j].entry, s.landings[s.owner[j]]);
    }
  }

  /** A new unsettled landing repeats nothing. */
  lemma OnceAdded(landings: seq<Landing>, l: Landing, repeated: set<RunKey>)
    requires OnceInv(landings, repeated) && l.slot.None?
    ensures OnceInv(landings + [l], repeated)
  {
    hide RunKeyOf;
    var more := landings + [l];
    forall i, j | 0 <= i < j < |more| && SameSettled(more[i], more[j]) ensures more[i].Run() in repeated {
      assert more[i] == landings[i] && more[j] == landings[j];
    }
  }

  lemma OnceWider(landings: seq<Landing>, repeated: set<RunKey>, more: set<RunKey>)
    requires OnceInv(landings, repeated) && repeated <= more
    ensures OnceInv(landings, more)
  {
    hide SameSettled, RunKeyOf;
  }

  /** The balance after a send that landed. */
  lemma SendSpends(funds: map<Zts, nat>, to: Address, amount: nat, zts: Zts)
    requires amount <= Balance(funds, zts)
    ensures Balance(Credit(funds, Send(to, amount, zts)), zts) == Balance(funds, zts) - amount
  {
  }

  lemma RefusedInv(c: Codec, s: State, b: Block)
    requires Inv(c, s) && Enabled(c, s, Published(b, false, false))
    ensures Inv(c, After(c, s, Published(b, false, false)))
  {
    hide FileInv, LandingsInv, RecordInv, SettledInv, OnceInv, PaidInv, TallyInv, ChainInv, RiskInv, CoveredInv,
      RepeatInv;
    var p := s.proc.value;
    if p.phase.Trying? {
      CoveredFurther(s.landings, p.job, p.paid, Cur(p), p.next);
      UnpaidFrom(p.job.recipients, p.paid, Ahead(p), p.next);
      CostMonotone(p.job.amount, Unpaid(p.job.recipients, p.paid, p.next), Unpaid(p.job.recipients, p.paid, Ahead(p)));
    }
  }

  lemma LinkedOf(chain: seq<Block>, landings: seq<Landing>)
    requires LandingsInv(chain, landings)
    ensures Linked(chain)
  {
  }

  lemma OpeningRisk(landings: seq<Landing>, base: nat, late: nat)
    requires RiskInv(landings, base, 0, late) && |landings| == base
    ensures late == 0
  {
  }

  lemma ReceivedInv(c: Codec, s: State, b: Block, acked: bool)
    requires Inv(c, s) && Enabled(c, s, Published(b, true, acked)) && b.body.Receive?
    ensures Inv(c, After(c, s, Published(b, true, acked)))
  {
    hide FileInv, LandingsInv, RecordInv, SettledInv, OnceInv, PaidInv, TallyInv, ChainInv, CoveredInv, RepeatInv,
      MoneyInv, Loose;
    var p := s.proc.value;
    LinkedOf(s.o.chain, s.landings);
    OnChainGrows(s.o.chain, b, s.landings, p.job, p.paid);
    OpeningRisk(s.landings, p.base, Late(s.o.chain, p.acked, p.at, false));
    if acked {
      AckGrows(s.o.chain, p.last, p.acked, p.at, b);
      AckedExact(s.o.chain + [b], HashOf(b), p.acked + [b], if p.acked == [] then |s.o.chain| else p.at);
    } else {
      ExtraGrows(s.o.chain, p.last, p.acked, p.at, b);
    }
  }

  lemma AckedExact(chain: seq<Block>, last: Hash, acked: seq<Block>, at: nat)
    requires ChainInv(chain, last, acked, at, true)
    ensures ChainInv(chain, last, acked, at, false) && !Stuck(chain, acked, at)
  {
  }

  /** A landed send, acknowledged or not: everything but the chain stretch and the risk. */
  lemma SendLanded(c: Codec, s: State, b: Block, acked: bool)
    requires Inv(c, s) && Enabled(c, s, Published(b, true, acked)) && b.body.Send?
    ensures var t := After(c, s, Published(b, true, acked));
            var p, q := s.proc.value, t.proc.value;
            && FileInv(c, t.o.file, t.o.durable, t.layout, t.keep)
            && LandingsInv(t.o.chain, t.landings) && RecordInv(t.layout, t.owner, t.landings)
            && SettledInv(t.landings, t.owner, t.keep) && OnceInv(t.landings, t.repeated)
            && CoveredInv(t.landings, p.job, p.paid, Cur(p)) && PaidInv(t.o.chain, p.job, p.paid)
  {
    hide FileInv, LandingsInv, RecordInv, SettledInv, OnceInv, PaidInv, TallyInv, ChainInv, CoveredInv, RepeatInv,
      MoneyInv, RiskInv;
    var p := s.proc.value;
    LinkedOf(s.o.chain, s.landings);
    OnChainGrows(s.o.chain, b, s.landings, p.job, p.paid);
    OnceAdded(s.landings, Landing(p.job.from, p.job.to, b, None), s.repeated);
    LandingAdded(s.o.chain + [b], s, Landing(p.job.from, p.job.to, b, None), p.job, p.paid, Cur(p));
  }

  /** A landed send costs its amount, and there is enough left for the recipients ahead. */
  lemma SendMoney(s: State, p: Proc, b: Block)
    requires p.phase.Trying? && Addressed(p, b.body) && Lands(s.o, b)
    requires p.next == p.phase.i + 1 && p.job.recipients[p.phase.i] !in p.paid && p.base <= |s.landings|
    requires MoneyInv(Balance(s.o.funds, p.job.zts), |s.landings| - p.base, p.job.amount,
                      Unpaid(p.job.recipients, p.paid, p.phase.i), p.purse)
    ensures MoneyInv(Balance(Credit(s.o.funds, b.body), p.job.zts), |s.landings| + 1 - p.base, p.job.amount,
                     Unpaid(p.job.recipients, p.paid, p.next), p.purse)
  {
    SendSpends(s.o.funds, b.body.to, b.body.amount, b.body.zts);
  }

  lemma TallyAppend(landings: seq<Landing>, l: Landing, ends: seq<End>, run: RunKey, base: nat)
    requires TallyInv(landings, ends, Some(run), base) && l.slot.None? && l.Run() == run
    ensures TallyInv(landings + [l], ends, Some(run), base)
  {
    hide LostBy, LooseOf, Loose, RunKeyOf;
    LooseAppend(landings, l, base);
    forall r ensures LooseOf(landings + [l], r)
                     == LostBy(ends, r) + if run == r then Loose(landings + [l], base) else 0 {
      LooseOfAppend(landings, l, r);
    }
  }

  /** An acknowledged send is at risk until its record is synced, and nothing was late before it. */
  lemma AckedRisk(landings: seq<Landing>, l: Landing, base: nat, early: nat, chain: seq<Block>, acked: seq<Block>,
                  at: nat, b: Block, at': nat)
    requires RiskInv(landings, base, early, Late(chain, acked, at, false)) && base <= |landings| && l.slot.None?
    requires acked != [] ==> |chain| == at + |acked|
    ensures RiskInv(landings + [l], base, early, Late(chain + [b], acked + [b], at', true))
  {
    hide Loose;
    LooseAppend(landings, l, base);
  }

  lemma AckedSendInv(c: Codec, s: State, b: Block)
    requires Inv(c, s) && Enabled(c, s, Published(b, true, true)) && b.body.Send?
    ensures Inv(c, After(c, s, Published(b, true, true)))
  {
    hide FileInv, LandingsInv, RecordInv, SettledInv, OnceInv, PaidInv, TallyInv, ChainInv, CoveredInv, RepeatInv,
      MoneyInv, Loose, Unpaid, Credit, JobOk, RunKeyOf, Line, RiskInv, Late;
    SendLanded(c, s, b, true);
    var p := s.proc.value;
    var l := Landing(p.job.from, p.job.to, b, None);
    LinkedOf(s.o.chain, s.landings);
    LandsOnLast(s.o.chain, p.last, p.acked, p.at);
    AckGrows(s.o.chain, p.last, p.acked, p.at, b);
    SendMoney(s, p, b);
    AckedRisk(s.landings, l, p.base, p.early, s.o.chain, p.acked, p.at, b, if p.acked == [] then |s.o.chain| else p.at);
    TallyAppend(s.landings, l, s.ends, p.job.Run(), p.base);
    assert (s.landings + [l])[|s.landings|] == l;
  }

  lemma ZeroIff(chain: seq<Block>, last: Hash, acked: seq<Block>, at: nat, window: bool)
    requires ChainInv(chain, last, acked, at, window)
    ensures acked == [] <==> last == ZeroHash
  {
  }

  lemma AmbiguousSendInv(c: Codec, s: State, b: Block)
    requires Inv(c, s) && Enabled(c, s, Published(b, true, false)) && b.body.Send?
    ensures Inv(c, After(c, s, Published(b, true, false)))
  {
    hide FileInv, LandingsInv, RecordInv, SettledInv, OnceInv, PaidInv, TallyInv, ChainInv, CoveredInv, RepeatInv,
      MoneyInv, Loose;
    SendLanded(c, s, b, false);
    var p := s.proc.value;
    var l := Landing(p.job.from, p.job.to, b, None);
    LinkedOf(s.o.chain, s.landings);
    ExtraGrows(s.o.chain, p.last, p.acked, p.at, b);
    ZeroIff(s.o.chain, p.last, p.acked, p.at, false);
    SendMoney(s, p, b);
    LooseAppend(s.landings, l, p.base);
    TallyAppend(s.landings, l, s.ends, p.job.Run(), p.base);
    CoveredFurther(s.landings + [l], p.job, p.paid, Cur(p), p.next);
  }

  // ---------- recording ----------

  /** The first bytes of a record open a new piece. */
  lemma WriteFirst(c: Codec, s: State, e: Entry, text: string)
    requires FileInv(c, s.o.file, s.o.durable, s.layout, s.keep)
    requires s.layout != [] ==> Complete(c, s.layout[|s.layout| - 1])
    requires 0 < |text| <= |Line(c, e)| && text == Line(c, e)[..|text|] && c.parses(e.address)
    ensures FileInv(c, s.o.file + text, s.o.durable, s.layout + [Piece(e, |text|)], s.keep)
  {
    ShapedAdded(c, s.layout, Piece(e, |text|));
    hide Text, Shaped, Line;
    TextAppend(c, s.layout, Piece(e, |text|));
    assert (s.layout + [Piece(e, |text|)])[..s.keep] == s.layout[..s.keep];
  }

  lemma ShapedAdded(c: Codec, layout: seq<Piece>, p: Piece)
    requires Shaped(c, layout) && (layout != [] ==> Complete(c, layout[|layout| - 1]))
    requires 0 < p.len <= |Line(c, p.entry)| && c.parses(p.entry.address)
    ensures Shaped(c, layout + [p])
  {
    hide Line, Text;
  }

  /** Further bytes lengthen the last piece. */
  lemma WriteMore(c: Codec, s: State, e: Entry, done: nat, text: string)
    requires FileInv(c, s.o.file, s.o.durable, s.layout, s.keep)
    requires s.layout != [] && s.layout[|s.layout| - 1] == Piece(e, done) && s.keep < |s.layout|
    requires done + |text| <= |Line(c, e)| && text == Line(c, e)[done..done + |text|]
    ensures FileInv(c, s.o.file + text, s.o.durable, s.layout[..|s.layout| - 1] + [Piece(e, done + |text|)], s.keep)
  {
    var front, last := s.layout[..|s.layout| - 1], Piece(e, done + |text|);
    assert s.layout == front + [Piece(e, done)];
    TextLengthened(c, front, e, done, text);
    ShapedLengthened(c, front, e, done, done + |text|);
    assert (front + [last])[..s.keep] == s.layout[..s.keep];
  }

  lemma TextLengthened(c: Codec, front: seq<Piece>, e: Entry, done: nat, text: string)
    requires done + |text| <= |Line(c, e)| && text == Line(c, e)[done..done + |text|]
    ensures Text(c, front + [Piece(e, done + |text|)]) == Text(c, front + [Piece(e, done)]) + text
  {
    hide Text, Line;
    TextAppend(c, front, Piece(e, done));
    TextAppend(c, front, Piece(e, done + |text|));
    assert Line(c, e)[..done] + text == Line(c, e)[..done + |text|];
  }

  lemma ShapedLengthened(c: Codec, front: seq<Piece>, e: Entry, done: nat, more: nat)
    requires Shaped(c, front + [Piece(e, done)]) && done <= more <= |Line(c, e)|
    ensures Shaped(c, front + [Piece(e, more)])
  {
    var a, b := front + [Piece(e, done)], front + [Piece(e, more)];
    assert forall i | 0 <= i < |b| :: b[i].entry == a[i].entry && (i < |front| ==> b[i] == a[i]);
  }

  /** A new record about the last landing. */
  lemma RecordAdded(layout: seq<Piece>, owner: seq<nat>, landings: seq<Landing>, keep: nat, p: Piece)
    requires RecordInv(layout, owner, landings) && SettledInv(landings, owner, keep)
    requires landings != [] && Records(p.entry, landings[|landings| - 1])
    ensures RecordInv(layout + [p], owner + [|landings| - 1], landings)
    ensures SettledInv(landings, owner + [|landings| - 1], keep)
  {
    var more := owner + [|landings| - 1];
    forall j | 0 <= j < |layout + [p]|
      ensures more[j] < |landings| && Records((layout + [p])[j].entry, landings[more[j]])
    {
      if j < |layout| {
        assert Records(layout[j].entry, landings[owner[j]]);
      }
    }
  }

  lemma RecordLengthened(layout: seq<Piece>, owner: seq<nat>, landings: seq<Landing>, len: nat)
    requires RecordInv(layout, owner, landings) && layout != []
    ensures RecordInv(layout[..|layout| - 1] + [Piece(layout[|layout| - 1].entry, len)], owner, landings)
  {
    var more := layout[..|layout| - 1] + [Piece(layout[|layout| - 1].entry, len)];
    assert forall i | 0 <= i < |more| :: more[i].entry == layout[i].entry;
  }

  lemma WroteInv(c: Codec, s: State, text: string)
    requires Inv(c, s) && Enabled(c, s, Wrote(text))
    ensures Inv(c, After(c, s, Wrote(text)))
  {
    hide FileInv, LandingsInv, RecordInv, SettledInv, OnceInv, PaidInv, TallyInv, ChainInv, CoveredInv, RepeatInv,
      MoneyInv, RiskInv, Text, Unpaid, RunKeyOf;
    var p := s.proc.value;
    var e, done := p.phase.entry, p.phase.done;
    assert c.parses(e.address);
    if text == "" {
      EmptyWrite(s.o);
    } else if done == 0 {
      WriteFirst(c, s, e, text);
      RecordAdded(s.layout, s.owner, s.landings, s.keep, Piece(e, |text|));
      KeepBound(c, s);
    } else {
      WriteMore(c, s, e, done, text);
      RecordLengthened(s.layout, s.owner, s.landings, done + |text|);
    }
  }

  lemma EmptyWrite(o: Outside)
    ensures o.file + "" == o.file
  {
  }

  lemma KeepBound(c: Codec, s: State)
    requires FileInv(c, s.o.file, s.o.durable, s.layout, s.keep) && RecordInv(s.layout, s.owner, s.landings)
    ensures s.keep <= |s.layout| == |s.owner|
  {
  }

  /** The record of the last landing is complete and every byte is durable: the landing settles. */
  lemma SettleLast(s: State, p: Proc)
    requires RecordInv(s.layout, s.owner, s.landings) && SettledInv(s.landings, s.owner, s.keep)
    requires LandingsInv(s.o.chain, s.landings) && CoveredInv(s.landings, p.job, p.paid, Cur(p))
    requires RepeatInv(p.job, p.paid, s.repeated) && OnceInv(s.landings, s.repeated)
    requires Cur(p) + 1 == p.next <= |p.job.recipients|
    requires p.job.recipients[Cur(p)] !in p.paid
    requires |s.landings| > 0 && s.layout != [] && s.owner[|s.owner| - 1] == |s.landings| - 1
    requires s.keep <= |s.layout|
    requires s.landings[|s.landings| - 1].block.body == Send(p.job.recipients[Cur(p)], p.job.amount, p.job.zts)
    requires s.landings[|s.landings| - 1].from == p.job.from && s.landings[|s.landings| - 1].to == p.job.to
    ensures var n := |s.landings| - 1;
            var settled := s.landings[n := s.landings[n].(slot := Some(|s.layout| - 1))];
            && RecordInv(s.layout, s.owner, settled) && SettledInv(settled, s.owner, |s.layout|)
            && OnceInv(settled, s.repeated)
            && LandingsInv(s.o.chain, settled) && CoveredInv(settled, p.job, p.paid, p.next)
  {
    hide RecordInv, Linked;
    var n := |s.landings| - 1;
    var settled := s.landings[n := s.landings[n].(slot := Some(|s.layout| - 1))];
    var r := p.job.recipients;
    SettleRecords(s.layout, s.owner, s.landings, settled);
    forall k | 0 <= k < |settled| ensures LandingOk(s.o.chain, settled[k]) {
      assert LandingOk(s.o.chain, s.landings[k]);
    }
    forall k | 0 <= k < |settled| ensures Covered(settled[k], p.job, p.paid, p.next) {
      assert Covered(s.landings[k], p.job, p.paid, Cur(p));
      assert r[..p.next] == r[..Cur(p)] + [r[Cur(p)]];
    }
    forall i, j | 0 <= i < j < |settled| && SameSettled(settled[i], settled[j]) ensures settled[i].Run() in s.repeated {
      assert SameSettled(s.landings[i], s.landings[j]) ==> s.landings[i].Run() in s.repeated;
      assert Covered(s.landings[i], p.job, p.paid, Cur(p));
    }
  }

  lemma SettleRecords(layout: seq<Piece>, owner: seq<nat>, landings: seq<Landing>, settled: seq<Landing>)
    requires RecordInv(layout, owner, landings) && |settled| == |landings|
    requires forall i | 0 <= i < |landings| :: settled[i].block == landings[i].block
                                            && settled[i].from == landings[i].from && settled[i].to == landings[i].to
    ensures RecordInv(layout, owner, settled)
  {
    forall j | 0 <= j < |layout| ensures Records(layout[j].entry, settled[owner[j]]) {
      assert Records(layout[j].entry, landings[owner[j]]);
    }
  }

  lemma SettleTally(landings: seq<Landing>, ends: seq<End>, run: RunKey, base: nat, slot: nat)
    requires base < |landings| && TallyInv(landings, ends, Some(run), base)
    requires landings[|landings| - 1].slot.None? && landings[|landings| - 1].Run() == run
    ensures var n := |landings| - 1;
            var settled := landings[n := landings[n].(slot := Some(slot))];
            Loose(settled, base) == Loose(landings, base) - 1 && TallyInv(settled, ends, Some(run), base)
  {
    hide LostBy, LooseOf, Loose, RunKeyOf;
    var n := |landings| - 1;
    var front, l := landings[..n], landings[n];
    var settled := landings[n := l.(slot := Some(slot))];
    assert landings == front + [l] && settled == front + [l.(slot := Some(slot))];
    LooseAppend(front, l, base);
    LooseAppend(front, l.(slot := Some(slot)), base);
    forall r ensures LooseOf(settled, r) == LostBy(ends, r) + if run == r then Loose(settled, base) else 0 {
      LooseOfAppend(front, l, r);
      LooseOfAppend(front, l.(slot := Some(slot)), r);
    }
  }

  lemma AllDurable(c: Codec, s: State)
    requires FileInv(c, s.o.file, s.o.durable, s.layout, s.keep)
    ensures FileInv(c, s.o.file, |s.o.file|, s.layout, |s.layout|)
  {
    assert s.layout[..|s.layout|] == s.layout;
  }

  lemma SyncedInv(c: Codec, s: State)
    requires Inv(c, s) && Enabled(c, s, Synced)
    ensures Inv(c, After(c, s, Synced))
  {
    hide FileInv, LandingsInv, RecordInv, SettledInv, OnceInv, PaidInv, TallyInv, ChainInv, CoveredInv, RepeatInv,
      MoneyInv, Loose;
    KeepBound(c, s);
    var p := s.proc.value;
    AllDurable(c, s);
    SettleLast(s, p);
    SettleTally(s.landings, s.ends, p.job.Run(), p.base, |s.layout| - 1);
    AckedExact(s.o.chain, p.last, p.acked, p.at);
  }

  // ---------- all events, all histories ----------

  lemma StepInv(c: Codec, s: State, ev: Event)
    requires Lawful(c) && Inv(c, s) && Enabled(c, s, ev)
    ensures Inv(c, After(c, s, ev))
  {
    hide Inv, After;
    match ev {
      case Started(job, limit) => StartedInv(c, s, job, limit);
      case Gated => GatedInv(c, s);
      case Attempted(i) => AttemptedInv(c, s, i);
      case Published(b, landed, acked) =>
        if !landed {
          RefusedInv(c, s, b);
        } else if b.body.Receive? {
          ReceivedInv(c, s, b, acked);
        } else if acked {
          AckedSendInv(c, s, b);
        } else {
          AmbiguousSendInv(c, s, b);
        }
      case Marshalled(e) => MarshalledInv(c, s, e);
      case Wrote(text) => WroteInv(c, s, text);
      case Synced => SyncedInv(c, s);
      case Stopped => StoppedInv(c, s);
      case PowerLost(k) => PowerLostInv(c, s, k);
      case Foreign(b) => ForeignInv(c, s, b);
    }
  }

  /** The invariant holds after every history of processes, crashes and losses of power. */
  lemma {:induction false} HistoryInv(c: Codec, s: State, evs: seq<Event>)
    requires Lawful(c) && Inv(c, s) && Legal(c, s, evs)
    ensures Inv(c, Exec(c, s, evs).value)
  {
    hide Inv, After, Enabled;
    if evs != [] {
      var n := |evs| - 1;
      HistoryInv(c, s, evs[..n]);
      StepInv(c, Exec(c, s, evs[..n]).value, evs[n]);
    }
  }
}
