/** The resumable payment protocol as a state machine over what leaves the process: blocks
    published, bytes written, and the points between them where a process can die.

    One state machine covers whole histories: any number of processes, one after another, of any
    airdrops, sharing one key and one journal. */
module Protocol {
  import opened Basics
  import opened Ledger
  import opened Journals

  /** One airdrop as a process is asked to run it. */
  datatype Job = Job(zts: Zts, amount: nat, from: nat, to: nat, recipients: seq<Address>) {
    function Run(): RunKey {
      RunKeyOf(zts, amount, from, to)
    }
  }

  datatype Event =
    | Started(job: Job, limit: int)                          // the journal was read and accepted
    | Gated                                                  // the balance check passed
    | Attempted(i: nat)                                      // recipient i is being paid
    | Published(block: Block, landed: bool, acked: bool)     // acked: the node returned no error
    | Marshalled(entry: Entry)                               // a record is about to be written
    | Wrote(text: string)                                    // these bytes reached the file
    | Synced                                                 // every byte of the file is durable
    | Stopped                                                // the process ended, however it ended
    | PowerLost(k: nat)                                      // only the first k bytes survived
    | Foreign(block: Block)                                  // another program put a block on the chain

  // ---------- effects on the outside world ----------

  function Effect(o: Outside, ev: Event): Outside {
    match ev
    case Published(b, landed, _) => if landed then Land(o, b) else o
    case Wrote(text) => o.(file := o.file + text)
    case Synced => o.(durable := |o.file|)
    case PowerLost(k) => if k <= |o.file| then o.(file := o.file[..k], durable := k) else o
    case Foreign(b) => Land(o, b)
    case _ => o
  }

  // ---------- states ----------

  datatype Phase =
    | Opening
    | Ready
    | Trying(i: nat)
    | Acked(i: nat, block: Block)
    | Recording(i: nat, block: Block, entry: Entry, done: nat)

  /** A running process. limit is how many failures in a row it goes on for (0 or less: any number),
      streak how many attempts it has made since the last acknowledged one. base, acked, at, early
      and purse are bookkeeping for the statements below: the landings before it, the blocks
      acknowledged to it and where they start on the chain, the sends that landed unacknowledged
      before any block was acknowledged, and the balance that passed the gate. */
  datatype Proc = Proc(job: Job, limit: int, paid: map<Address, Hash>, last: Hash, next: nat, phase: Phase, streak: nat,
                       base: nat, acked: seq<Block>, at: nat, early: nat, purse: nat) {
    predicate Runs(x: Session) {
      job == x.job && limit == x.limit && paid == x.paid && base == x.base
    }
  }

  /** What stays the same throughout one process. */
  datatype Session = Session(job: Job, limit: int, paid: map<Address, Hash>, base: nat)

  /** A send that landed for an airdrop; slot is the place of its record once that was synced. */
  datatype Landing = Landing(from: nat, to: nat, block: Block, slot: Option<nat>) {
    function Run(): RunKey {
      if block.body.Send? then RunKeyOf(block.body.zts, block.body.amount, from, to) else RunKey("")
    }
  }

  /** How a process ended: the landed sends of its airdrop that it left without a synced record, and
      how many sends had landed unacknowledged before any block was acknowledged to it. */
  datatype End = End(run: RunKey, lost: nat, early: nat)

  /** layout describes the bytes of the journal, owner names the landing each record is about, and
      keep counts the records that lie within the durable bytes. ends tells how the processes so far
      ended. repeated holds the airdrops of which some process was given a list that names an address
      without a mark twice. */
  datatype State = State(o: Outside, layout: seq<Piece>, owner: seq<nat>, keep: nat, landings: seq<Landing>,
                         ends: seq<End>, repeated: set<RunKey>, proc: Option<Proc>)

  ghost predicate Init(s: State) {
    && Linked(s.o.chain) && s.o.file == "" && s.o.durable == 0
    && s.layout == [] && s.owner == [] && s.keep == 0
    && s.landings == [] && s.ends == [] && s.repeated == {} && s.proc == None
  }

  function Unpaid(recipients: seq<Address>, paid: map<Address, Hash>, k: nat): nat
    decreases |recipients| - k
  {
    if k >= |recipients| then 0
    else (if recipients[k] in paid then 0 else 1) + Unpaid(recipients, paid, k + 1)
  }

  /** The price of n sends: big.Int.Mul(amount, n). */
  function Cost(amount: nat, n: nat): nat {
    if n == 0 then 0 else amount + Cost(amount, n - 1)
  }

  /** Landed sends from position start on whose record was not synced. */
  function Loose(landings: seq<Landing>, start: nat): nat {
    if |landings| <= start then 0
    else
      var n := |landings| - 1;
      Loose(landings[..n], start) + if landings[n].slot.None? then 1 else 0
  }

  /** Landed sends of one airdrop whose record was not synced. */
  function LooseOf(landings: seq<Landing>, run: RunKey): nat {
    if landings == [] then 0
    else
      var n := |landings| - 1;
      LooseOf(landings[..n], run) + if landings[n].slot.None? && landings[n].Run() == run then 1 else 0
  }

  /** What the ended processes of one airdrop left without a synced record. */
  function LostBy(ends: seq<End>, run: RunKey): nat {
    if ends == [] then 0
    else
      var n := |ends| - 1;
      LostBy(ends[..n], run) + if ends[n].run == run then ends[n].lost else 0
  }

  /** The list names an address without a mark twice, the first time at position k or later. */
  ghost predicate Repeats(recipients: seq<Address>, paid: map<Address, Hash>, k: nat) {
    exists i, j :: k <= i < j < |recipients| && recipients[i] == recipients[j] && recipients[i] !in paid
  }

  predicate InWindow(p: Proc) {
    p.phase.Acked? || p.phase.Recording?
  }

  /** A block sits on the chain beyond the last one acknowledged to the process. */
  predicate Stuck(chain: seq<Block>, acked: seq<Block>, at: nat) {
    acked != [] && |chain| == at + |acked| + 1
  }

  /** The sends a process that has had a block acknowledged may leave without a record. */
  function Late(chain: seq<Block>, acked: seq<Block>, at: nat, window: bool): nat {
    if window || (Stuck(chain, acked, at) && chain[|chain| - 1].body.Send?) then 1 else 0
  }

  // ---------- steps ----------

  ghost predicate JobOk(c: Codec, job: Job) {
    && '|' !in job.zts
    && forall i | 0 <= i < |job.recipients| :: c.parses(job.recipients[i])
  }

  predicate Addressed(p: Proc, body: Body) {
    if p.phase.Opening? then body.Receive?
    else p.phase.Trying? && p.phase.i < |p.job.recipients|
         && body == Send(p.job.recipients[p.phase.i], p.job.amount, p.job.zts)
  }

  predicate Records(e: Entry, l: Landing) {
    && l.block.body.Send? && e.run == l.Run() && e.hash == HashOf(l.block)
    && l.block.body == Send(e.address, e.amount, e.zts)
  }

  /** The events that can come next in a state. While a process runs they are its own; between two
      processes power can fail and other programs can use the account. */
  ghost predicate Enabled(c: Codec, s: State, ev: Event) {
    match ev
    case Started(job, _) => s.proc.None? && JobOk(c, job) && PaidFrom(c, s.o.file, job.Run(), map[]).Ok?
    case PowerLost(k) => s.proc.None? && s.o.durable <= k <= |s.o.file|
    case Foreign(b) => s.proc.None? && Lands(s.o, b)
    case _ => s.proc.Some? && EnabledIn(c, s, s.proc.value, ev)
  }

  ghost predicate EnabledIn(c: Codec, s: State, p: Proc, ev: Event) {
    match ev
    case Gated => p.phase.Opening?
      && Balance(s.o.funds, p.job.zts) >= Cost(p.job.amount, Unpaid(p.job.recipients, p.paid, 0))
    case Attempted(i) => (p.phase.Ready? || p.phase.Trying?)
      && p.next <= i < |p.job.recipients| && p.job.recipients[i] !in p.paid
      && (p.limit > 0 ==> p.streak < p.limit)
    case Published(b, landed, acked) =>
      && (acked ==> landed) && (landed ==> Lands(s.o, b))
      && Addressed(p, b.body)
      && (p.last != ZeroHash ==> b.previous == p.last)
    case Marshalled(e) => p.phase.Acked? && e.index == p.phase.i + 1
      && Records(e, Landing(p.job.from, p.job.to, p.phase.block, None))
    case Wrote(text) => p.phase.Recording?
      && p.phase.done + |text| <= |Line(c, p.phase.entry)|
      && text == Line(c, p.phase.entry)[p.phase.done..p.phase.done + |text|]
    case Synced => p.phase.Recording? && p.phase.done == |Line(c, p.phase.entry)|
    case Stopped => true
    case _ => false
  }

  /** The process after a publish. */
  function PublishedProc(s: State, p: Proc, b: Block, landed: bool, acked: bool): Proc {
    if acked then
      p.(last := HashOf(b), acked := p.acked + [b],
         at := if p.acked == [] then |s.o.chain| else p.at,
         streak := if p.phase.Trying? then 0 else p.streak,
         phase := if p.phase.Trying? then Acked(p.phase.i, b) else p.phase)
    else
      p.(early := if landed && p.phase.Trying? && p.last == ZeroHash then p.early + 1 else p.early,
         phase := if p.phase.Trying? then Ready else p.phase)
  }

  /** The bytes written so far for a record, as the layout's last piece. */
  function Written(layout: seq<Piece>, e: Entry, done: nat, more: nat): seq<Piece> {
    if more == 0 then layout
    else if done == 0 || layout == [] then layout + [Piece(e, more)]
    else layout[..|layout| - 1] + [Piece(e, done + more)]
  }

  ghost function After(c: Codec, s: State, ev: Event): State
    requires Enabled(c, s, ev)
  {
    match ev
    case Started(job, limit) =>
      var paid := PaidFrom(c, s.o.file, job.Run(), map[]).value;
      s.(repeated := if Repeats(job.recipients, paid, 0) then s.repeated + {job.Run()} else s.repeated,
         proc := Some(Proc(job, limit, paid, ZeroHash, 0, Opening, 0, |s.landings|, [], 0, 0, 0)))
    case PowerLost(k) =>
      var cut := if s.o.file == Text(c, s.layout) then Truncate(c, s.layout, k) else [];
      s.(o := Effect(s.o, ev), layout := cut, owner := if |cut| <= |s.owner| then s.owner[..|cut|] else [])
    case Foreign(b) => s.(o := Effect(s.o, ev))
    case _ => AfterIn(c, s, s.proc.value, ev)
  }

  ghost function AfterIn(c: Codec, s: State, p: Proc, ev: Event): State
    requires s.proc == Some(p) && EnabledIn(c, s, p, ev)
  {
    match ev
    case Gated => s.(proc := Some(p.(phase := Ready, purse := Balance(s.o.funds, p.job.zts))))
    case Attempted(i) => s.(proc := Some(p.(phase := Trying(i), next := i + 1, streak := p.streak + 1)))
    case Published(b, landed, acked) =>
      s.(o := Effect(s.o, ev),
         landings := if landed && b.body.Send? then s.landings + [Landing(p.job.from, p.job.to, b, None)]
                     else s.landings,
         proc := Some(PublishedProc(s, p, b, landed, acked)))
    case Marshalled(e) => s.(proc := Some(p.(phase := Recording(p.phase.i, p.phase.block, e, 0))))
    case Wrote(text) =>
      s.(o := Effect(s.o, ev),
         layout := Written(s.layout, p.phase.entry, p.phase.done, |text|),
         owner := if |text| > 0 && p.phase.done == 0 then s.owner + [if s.landings == [] then 0 else |s.landings| - 1]
                  else s.owner,
         proc := Some(p.(phase := p.phase.(done := p.phase.done + |text|))))
    case Synced =>
      var n := |s.landings| - 1;
      s.(o := Effect(s.o, ev), keep := |s.layout|,
         landings := if n < 0 || s.layout == [] then s.landings
                     else s.landings[n := s.landings[n].(slot := Some(|s.layout| - 1))],
         proc := Some(p.(phase := Ready)))
    case Stopped =>
      s.(proc := None, ends := s.ends + [End(p.job.Run(), Loose(s.landings, p.base), p.early)])
    case _ => s
  }

  /** The state after a sequence of events, or None if the program could not produce them. */
  ghost function Exec(c: Codec, s: State, evs: seq<Event>): Option<State> {
    if evs == [] then Some(s)
    else
      var n := |evs| - 1;
      match Exec(c, s, evs[..n])
      case None => None
      case Some(t) => if Enabled(c, t, evs[n]) then Some(After(c, t, evs[n])) else None
  }

  ghost predicate Legal(c: Codec, s: State, evs: seq<Event>) {
    Exec(c, s, evs).Some?
  }

  /** Whatever a sequence of events leads to, the outside world is what the effects made of it. */
  lemma ExecStep(c: Codec, s: State, evs: seq<Event>, ev: Event)
    requires Legal(c, s, evs) && Enabled(c, Exec(c, s, evs).value, ev)
    ensures Exec(c, s, evs + [ev]) == Some(After(c, Exec(c, s, evs).value, ev))
    ensures Exec(c, s, evs + [ev]).value.o == Effect(Exec(c, s, evs).value.o, ev)
  {
    assert (evs + [ev])[..|evs|] == evs;
  }

  lemma {:induction false} ExecConcat(c: Codec, s: State, a: seq<Event>, b: seq<Event>)
    ensures Exec(c, s, a + b) == match Exec(c, s, a) case None => None case Some(t) => Exec(c, t, b)
  {
    if b == [] {
      assert a + b == a;
    } else {
      var n := |b| - 1;
      ExecConcat(c, s, a, b[..n]);
      assert (a + b)[..|a + b| - 1] == a + b[..n];
    }
  }

  // ---------- the invariant ----------

  /** The journal's bytes are what the layout says, and the first keep records are durable. */
  ghost predicate FileInv(c: Codec, file: string, durable: nat, layout: seq<Piece>, keep: nat) {
    && file == Text(c, layout) && Shaped(c, layout)
    && durable <= |file|
    && keep <= |layout| && |Text(c, layout[..keep])| <= durable
  }

  predicate OnChain(chain: seq<Block>, b: Block) {
    0 < b.height <= |chain| && chain[b.height - 1] == b
  }

  predicate LandingOk(chain: seq<Block>, l: Landing) {
    OnChain(chain, l.block) && l.block.body.Send? && '|' !in l.block.body.zts
  }

  /** Landings are sends on the chain. */
  ghost predicate LandingsInv(chain: seq<Block>, landings: seq<Landing>) {
    Linked(chain) && forall i | 0 <= i < |landings| :: LandingOk(chain, landings[i])
  }

  /** Every record in the file, whole or cut, is about a landing. */
  ghost predicate RecordInv(layout: seq<Piece>, owner: seq<nat>, landings: seq<Landing>) {
    && |owner| == |layout|
    && forall j | 0 <= j < |layout| :: owner[j] < |landings| && Records(layout[j].entry, landings[owner[j]])
  }

  /** A settled landing has its record among the durable ones. */
  ghost predicate SettledInv(landings: seq<Landing>, owner: seq<nat>, keep: nat) {
    forall i | 0 <= i < |landings| && landings[i].slot.Some? ::
      landings[i].slot.value < keep <= |owner| && owner[landings[i].slot.value] == i
  }

  /** Within one airdrop no address has two settled landings, unless a list repeated itself. */
  ghost predicate OnceInv(landings: seq<Landing>, repeated: set<RunKey>) {
    forall i, j | 0 <= i < j < |landings| :: SameSettled(landings[i], landings[j]) ==> landings[i].Run() in repeated
  }

  ghost predicate RepeatInv(job: Job, paid: map<Address, Hash>, repeated: set<RunKey>) {
    Repeats(job.recipients, paid, 0) ==> job.Run() in repeated
  }

  predicate SameSettled(a: Landing, b: Landing) {
    && a.slot.Some? && b.slot.Some? && a.block.body.Send? && b.block.body.Send?
    && a.Run() == b.Run() && a.block.body.to == b.block.body.to
  }

  /** Recipients from this position on have not been attempted. */
  function Ahead(p: Proc): nat {
    if p.phase.Trying? then p.phase.i else p.next
  }

  /** Recipients before this position are done with. */
  function Cur(p: Proc): nat {
    match p.phase
    case Opening => p.next
    case Ready => p.next
    case Trying(i) => i
    case Acked(i, _) => i
    case Recording(i, _, _, _) => i
  }

  /** Where the loop stands. */
  ghost predicate LoopInv(c: Codec, p: Proc, landed: nat) {
    && JobOk(c, p.job) && p.next <= |p.job.recipients| && p.base <= landed
    && (p.phase.Trying? || InWindow(p) ==> Cur(p) + 1 == p.next && p.job.recipients[Cur(p)] !in p.paid)
    && (p.phase.Opening? ==> p.next == 0 && landed == p.base && p.early == 0)
    && (p.limit > 0 ==> p.streak <= p.limit)
  }

  /** No address from position cur on has a settled payment of this airdrop, unless it is in the
      resume map. */
  ghost predicate CoveredInv(landings: seq<Landing>, job: Job, paid: map<Address, Hash>, cur: nat) {
    cur <= |job.recipients| && forall k | 0 <= k < |landings| :: Covered(landings[k], job, paid, cur)
  }

  predicate Covered(l: Landing, job: Job, paid: map<Address, Hash>, cur: nat)
    requires cur <= |job.recipients|
  {
    l.slot.Some? && l.block.body.Send? && l.Run() == job.Run() ==>
      l.block.body.to in paid || l.block.body.to in job.recipients[..cur]
  }

  /** Every address in the resume map was paid this amount of this token, in the block whose hash
      the map holds. */
  ghost predicate PaidInv(chain: seq<Block>, job: Job, paid: map<Address, Hash>) {
    forall a | a in paid :: ReallyPaid(chain, job, a, paid[a])
  }

  predicate ReallyPaid(chain: seq<Block>, job: Job, a: Address, h: Hash) {
    h.HashOf? && OnChain(chain, h.block) && h.block.body == Send(a, job.amount, job.zts)
  }

  /** The blocks acknowledged to the process are a stretch of the chain without gaps, with at most
      one block on top of them. */
  ghost predicate ChainInv(chain: seq<Block>, last: Hash, acked: seq<Block>, at: nat, window: bool) {
    && (acked == [] <==> last == ZeroHash)
    && (acked != [] ==>
         && last == HashOf(acked[|acked| - 1])
         && at + |acked| <= |chain| <= at + |acked| + 1
         && chain[at..at + |acked|] == acked)
    && (window ==> acked != [] && |chain| == at + |acked|)
  }

  /** The send being recorded is the last landing. */
  ghost predicate WindowInv(c: Codec, landings: seq<Landing>, p: Proc) {
    && (InWindow(p) ==>
         && |landings| > p.base
         && landings[|landings| - 1] == Landing(p.job.from, p.job.to, p.phase.block, None)
         && Cur(p) < |p.job.recipients|
         && p.phase.block.body == Send(p.job.recipients[Cur(p)], p.job.amount, p.job.zts)
         && p.last == HashOf(p.phase.block))
    && (p.phase.Recording? ==>
         && Records(p.phase.entry, Landing(p.job.from, p.job.to, p.phase.block, None))
         && p.phase.done <= |Line(c, p.phase.entry)|)
  }

  /** The file ends with what is written of the current record, if anything is. */
  ghost predicate EndInv(c: Codec, layout: seq<Piece>, owner: seq<nat>, keep: nat, landed: nat, phase: Phase) {
    if phase.Recording? && phase.done > 0 then
      && layout != [] && layout[|layout| - 1] == Piece(phase.entry, phase.done)
      && |owner| == |layout| && owner[|owner| - 1] == landed - 1
      && keep < |layout|
    else layout != [] ==> Complete(c, layout[|layout| - 1])
  }

  /** What the process has put at risk. */
  predicate RiskInv(landings: seq<Landing>, base: nat, early: nat, late: nat) {
    Loose(landings, base) == early + late
  }

  /** What the process has spent, and what it still holds for the recipients ahead. */
  predicate MoneyInv(balance: nat, sends: nat, amount: nat, ahead: nat, purse: nat) {
    balance + Cost(amount, sends) == purse && balance >= Cost(amount, ahead)
  }

  ghost predicate ProcInv(c: Codec, s: State, p: Proc) {
    && LoopInv(c, p, |s.landings|)
    && RepeatInv(p.job, p.paid, s.repeated)
    && CoveredInv(s.landings, p.job, p.paid, Cur(p))
    && PaidInv(s.o.chain, p.job, p.paid)
    && ChainInv(s.o.chain, p.last, p.acked, p.at, InWindow(p))
    && WindowInv(c, s.landings, p)
    && EndInv(c, s.layout, s.owner, s.keep, |s.landings|, p.phase)
    && RiskInv(s.landings, p.base, p.early, Late(s.o.chain, p.acked, p.at, InWindow(p)))
    && (!p.phase.Opening? ==>
         MoneyInv(Balance(s.o.funds, p.job.zts), |s.landings| - p.base, p.job.amount,
                  Unpaid(p.job.recipients, p.paid, Ahead(p)), p.purse))
  }

  /** Where the landings of finished processes end. */
  function Closed(s: State): nat {
    if s.proc.Some? then s.proc.value.base else |s.landings|
  }

  /** The airdrop being run. */
  function Own(s: State): Option<RunKey> {
    if s.proc.Some? then Some(s.proc.value.job.Run()) else None
  }

  /** The sends of an airdrop without a synced record are those its ended processes left, and those
      of the process that runs it; no process leaves more than its early sends and one more. */
  ghost predicate TallyInv(landings: seq<Landing>, ends: seq<End>, own: Option<RunKey>, closed: nat) {
    && closed <= |landings|
    && (forall run :: LooseOf(landings, run)
                      == LostBy(ends, run) + if own == Some(run) then Loose(landings, closed) else 0)
    && forall i | 0 <= i < |ends| :: ends[i].lost <= ends[i].early + 1
  }

  ghost predicate Inv(c: Codec, s: State) {
    && FileInv(c, s.o.file, s.o.durable, s.layout, s.keep)
    && LandingsInv(s.o.chain, s.landings)
    && RecordInv(s.layout, s.owner, s.landings)
    && SettledInv(s.landings, s.owner, s.keep)
    && OnceInv(s.landings, s.repeated)
    && TallyInv(s.landings, s.ends, Own(s), Closed(s))
    && (s.proc.Some? ==> ProcInv(c, s, s.proc.value))
  }
}
