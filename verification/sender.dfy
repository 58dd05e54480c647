/** Building the account chain block by block against a node that lags (send.go). */
module Senders {
  import opened Basics
  import opened Ledger
  import opened Journals
  import opened Protocol
  import opened History
  import opened Worlds

  datatype SendError = Canceled | Failed

  const POLL: nat := 500  // milliseconds between two looks at the frontier

  /** What one Send or Receive did: nothing left the process, or one block was published. */
  datatype Attempt = Silent | Tried(block: Block, landed: bool)

  /** The node names the block last acknowledged, or there is none to wait for. */
  predicate CaughtUp(a: Answer, last: Hash) {
    a.Frontier? && (last == ZeroHash || (a.block.Some? && a.block.value.1 == last))
  }

  predicate Behind(a: Answer, last: Hash) {
    a.Frontier? && !CaughtUp(a, last)
  }

  /** Height and previous hash of a block on top of the reported frontier. */
  function Next(b: Option<(nat, Hash)>): (nat, Hash) {
    match b
    case None => (1, ZeroHash)
    case Some((height, hash)) => (height + 1, hash)
  }

  /** The node was asked for the frontier at least once, and again only while it lagged. */
  ghost predicate Asked(before: seq<Answer>, after: seq<Answer>, last: Hash) {
    && before < after && after[|after| - 1].Frontier?
    && forall k | |before| <= k < |after| - 1 :: Behind(after[k], last)
  }

  /** Nothing is published only if the node lagged to the end or refused a call; what is published
      is this body on the frontier the node named. */
  ghost predicate Accounted(before: seq<Answer>, after: seq<Answer>, last: Hash, body: Body, did: Attempt) {
    && before < after
    && var n := |after| - 1;
    match did
    case Silent => Behind(after[n], last) || after[n] == Prepared(None)
    case Tried(b, _) =>
      && n > |before| && after[n] == Prepared(Some(b.stamp))
      && CaughtUp(after[n - 1], last) && (b.height, b.previous) == Next(after[n - 1].block) && b.body == body
  }

  /** The wait ended without the node catching up. */
  lemma NeverCaughtUp(before: seq<Answer>, after: seq<Answer>, last: Hash, body: Body)
    requires Asked(before, after, last) && !CaughtUp(after[|after| - 1], last)
    ensures Accounted(before, after, last, body, Silent)
  {
  }

  lemma AnswersGrow(before: seq<Answer>, after: seq<Answer>, last: Hash)
    requires Asked(before, after, last)
    ensures after != []
  {
  }

  /** The node caught up, and the next call failed, or a block was built on what it named. */
  lemma AfterCatchingUp(before: seq<Answer>, after: seq<Answer>, last: Hash, body: Body, b: Block, landed: bool)
    requires Asked(before, after, last) && CaughtUp(after[|after| - 1], last)
    requires (b.height, b.previous) == Next(after[|after| - 1].block) && b.body == body
    ensures Accounted(before, after + [Prepared(None)], last, body, Silent)
    ensures Accounted(before, after + [Prepared(Some(b.stamp))], last, body, Tried(b, landed))
  {
  }

  /** What a call can change: the world outside, the log, what the node was asked, and lastHash. */
  datatype View = View(o: Outside, log: seq<Event>, answers: seq<Answer>, last: Hash)

  /** At most one block left the process, with this body, on the frontier the node named. It landed
      if the call succeeded, and only where the ledger let it; the new lastHash is its hash exactly
      if the call succeeded. */
  ghost predicate OneBlock(before: View, after: View, body: Body, r: Result<Hash, SendError>, did: Attempt) {
    && Accounted(before.answers, after.answers, before.last, body, did)
    && (r.Ok? ==> did.Tried? && did.landed && r.value == HashOf(did.block))
    && after.last == (if r.Ok? then r.value else before.last)
    && match did
       case Silent => after.log == before.log && after.o == before.o
       case Tried(b, landed) =>
         var ev := Published(b, landed, r.Ok?);
         (landed ==> Lands(before.o, b)) && after.log == before.log + [ev] && after.o == Effect(before.o, ev)
  }

  /** Once a block was acknowledged, the next one is built on exactly that block. */
  lemma BuiltOnLast(before: seq<Answer>, after: seq<Answer>, last: Hash, body: Body, did: Attempt)
    requires Accounted(before, after, last, body, did) && did.Tried?
    ensures did.block.body == body && (last != ZeroHash ==> did.block.previous == last)
  {
  }

  /** An interruption is reported only if there was one; a failure only if a call failed and there was
      no interruption, or the wait was over. */
  predicate Blamed<T>(r: Result<T, SendError>, cancelled: bool, failed: bool, waited: bool) {
    match r
    case Ok(_) => true
    case Err(Canceled) => cancelled
    case Err(Failed) => (failed && !cancelled) || waited
  }

  lemma OneMoreBlock(before: View, after: View, body: Body, r: Result<Hash, SendError>, did: Attempt)
    requires OneBlock(before, after, body, r, did) && r.Ok?
    ensures |after.o.chain| == |before.o.chain| + 1
  {
  }

  /** The process has read the journal and has not yet passed the balance check. */
  ghost predicate Opened(s: State, x: Session, last: Hash) {
    && s.proc.Some?
    && var p := s.proc.value;
    && p.Runs(x) && p.last == last && p.phase.Opening? && p.next == 0 && p.streak == 0 && p.base == |s.landings|
  }

  /** Nothing but acknowledged receive blocks and refused or lost ones lies between the states. */
  ghost predicate Received(s: State, t: State, n: nat) {
    && s.proc.Some? && t.proc.Some? && |t.proc.value.acked| == |s.proc.value.acked| + n
    && t.landings == s.landings && t.layout == s.layout && t.o.file == s.o.file && t.o.durable == s.o.durable
  }

  ghost predicate OnlyReceives(before: seq<Event>, after: seq<Event>) {
    before <= after && forall i | |before| <= i < |after| :: after[i].Published? && after[i].block.body.Receive?
  }

  lemma NothingReceived(s: State, log: seq<Event>)
    requires s.proc.Some? || exists x, last :: Opened(s, x, last)
    ensures Received(s, s, 0) && OnlyReceives(log, log)
  {
  }

  lemma ReceiveLegal(c: Codec, s0: State, log: seq<Event>, o: Outside, s: State, x: Session, last: Hash,
                     b: Block, landed: bool, acked: bool)
    returns (t: State)
    requires At(c, s0, log, o, s) && Opened(s, x, last) && b.body.Receive?
    requires (acked ==> landed) && (landed ==> Lands(o, b)) && (last != ZeroHash ==> b.previous == last)
    ensures var ev := Published(b, landed, acked); At(c, s0, log + [ev], Effect(o, ev), t)
    ensures Opened(t, x, if acked then HashOf(b) else last)
    ensures Received(s, t, if acked then 1 else 0)
  {
    hide Reaches, Inv;
    assert o == s.o;
    Advance(c, s0, log, o, s, Published(b, landed, acked));
    t := After(c, s, Published(b, landed, acked));
  }

  lemma ReceivedMore(s: State, t: State, u: State, n: nat, before: seq<Event>, log: seq<Event>,
                     b: Block, landed: bool, acked: bool)
    requires Received(s, t, n) && Received(t, u, if acked then 1 else 0) && OnlyReceives(before, log) && b.body.Receive?
    ensures Received(s, u, if acked then n + 1 else n) && OnlyReceives(before, log + [Published(b, landed, acked)])
  {
  }

  /** One receive, whatever became of it, goes on with the same process. */
  lemma ReceiveStep(c: Codec, s0: State, s: State, before: State, x: Session, n: nat, log0: seq<Event>,
                    seen: View, now: View, source: Pending, r: Result<Hash, SendError>, did: Attempt)
    returns (t: State)
    requires At(c, s0, seen.log, seen.o, before) && Opened(before, x, seen.last)
    requires Received(s, before, n) && OnlyReceives(log0, seen.log)
    requires OneBlock(seen, now, Body.Receive(source), r, did)
    ensures At(c, s0, now.log, now.o, t) && Opened(t, x, now.last)
    ensures Received(s, t, if r.Ok? then n + 1 else n) && OnlyReceives(log0, now.log)
    ensures r.Ok? ==> |now.o.chain| == |seen.o.chain| + 1
  {
    hide At, Opened, Received, OnlyReceives, Effect, Lands, Accounted;
    t := before;
    if did.Tried? {
      BuiltOnLast(seen.answers, now.answers, seen.last, Body.Receive(source), did);
      t := ReceiveLegal(c, s0, seen.log, seen.o, before, x, seen.last, did.block, did.landed, r.Ok?);
      ReceivedMore(s, before, t, n, log0, seen.log, did.block, did.landed, r.Ok?);
    }
    if r.Ok? {
      OneMoreBlock(seen, now, Body.Receive(source), r, did);
    }
  }

  class Sender {
    const world: World
    const clock: Clock
    const frontierWait: nat
    var lastHash: Hash

    constructor (world: World, clock: Clock)
      ensures this.world == world && this.clock == clock && frontierWait == 90_000 && lastHash == ZeroHash
    {
      this.world := world;
      this.clock := clock;
      this.frontierWait := 90_000;
      this.lastHash := ZeroHash;
    }

    ghost function Seen(): View
      reads this, world
    {
      View(world.Snapshot(), world.log, world.answers, lastHash)
    }

    /** Height and previous hash for the next block. The node is asked until it names the block
        last acknowledged, if there is one; the last answer decides. It fails only once the wait is
        over or the user interrupts, and asks at most frontierWait / 500 + 2 times. */
    method Frontier() returns (r: Result<(nat, Hash), SendError>)
      modifies clock, world`answers, world`cancelled
      ensures Asked(old(world.answers), world.answers, lastHash)
      ensures var last := world.answers[|world.answers| - 1];
              && (r.Ok? <==> CaughtUp(last, lastHash)) && (r.Ok? ==> r.value == Next(last.block))
      ensures r == Err(Failed) ==> clock.now > old(clock.now) + frontierWait
      ensures r == Err(Canceled) ==> world.cancelled
      ensures |world.answers| - |old(world.answers)| <= frontierWait / 500 + 2
      ensures clock.now >= old(clock.now) && (old(world.cancelled) ==> world.cancelled)
    {
      ghost var polls: nat := 0;
      var start := clock.Now();
      var deadline := start + frontierWait;
      while true
        invariant clock.now >= start + POLL * polls && start >= old(clock.now)
        invariant polls <= frontierWait / POLL + 1 && |world.answers| == |old(world.answers)| + polls
        invariant old(world.answers) <= world.answers
        invariant forall k | |old(world.answers)| <= k < |world.answers| :: Behind(world.answers[k], lastHash)
        invariant old(world.cancelled) ==> world.cancelled
        decreases frontierWait / POLL + 1 - polls
      {
        var b := world.FrontierAccountBlock();
        if b.None? {
          if lastHash == ZeroHash {
            return Ok((1, ZeroHash));
          }
        } else if lastHash == ZeroHash || b.value.1 == lastHash {
          return Ok((b.value.0 + 1, b.value.1));
        }

        var now := clock.Now();
        if now > deadline {
          return Err(Failed);
        }
        var done := world.Done();
        if done {
          return Err(Canceled);
        }
        clock.Sleep(POLL);
        polls := polls + 1;
      }
    }

    /** Build and publish one block: the part Send and Receive have in common. It reports an
        interruption exactly if the user had interrupted when a call failed or the wait was given up,
        and a failure only if a call failed or the wait was over. */
    method Build(body: Body) returns (r: Result<Hash, SendError>, ghost did: Attempt)
      modifies this`lastHash, world`chain, world`funds, world`log, world`answers, world`cancelled, clock
      modifies world`failures, world`late
      ensures OneBlock(old(Seen()), Seen(), body, r, did)
      ensures Blamed(r, world.cancelled, world.failures > old(world.failures),
                     clock.now > old(clock.now) + frontierWait)
      ensures clock.now >= old(clock.now) && (old(world.cancelled) ==> world.cancelled)
      ensures world.failures >= old(world.failures)
      ensures world.late == old(world.late) + if old(world.cancelled) then 1 else 0
    {
      hide Effect, Lands, Asked, Accounted, CaughtUp, Next;
      world.Begin();
      did := Silent;
      ghost var before := world.answers;
      var next := Frontier();
      ghost var asked := world.answers;
      AnswersGrow(before, asked, lastHash);
      if next.Err? {
        NeverCaughtUp(before, asked, lastHash, body);
        return Err(next.error), did;
      }
      var stamp := world.Prepare();
      if stamp.None? {
        AfterCatchingUp(before, asked, lastHash, body, Block(next.value.1, next.value.0, body, 0), false);
        var canceled := world.Done();
        return Err(if canceled then Canceled else Failed), did;
      }
      var block := Block(next.value.1, next.value.0, body, stamp.value);
      ghost var landed: bool;
      var ok;
      ok, landed := world.Publish(block);
      did := Tried(block, landed);
      AfterCatchingUp(before, asked, lastHash, body, block, landed);
      if !ok {
        var canceled := world.Done();
        return Err(if canceled then Canceled else Failed), did;
      }
      lastHash := HashOf(block);
      return Ok(lastHash), did;
    }

    /** Publish one transfer and return its hash. */
    method Send(to: Address, amount: nat, zts: Zts) returns (r: Result<Hash, SendError>, ghost did: Attempt)
      modifies this`lastHash, world`chain, world`funds, world`log, world`answers, world`cancelled, clock
      modifies world`failures, world`late
      ensures OneBlock(old(Seen()), Seen(), Body.Send(to, amount, zts), r, did)
      ensures Blamed(r, world.cancelled, world.failures > old(world.failures),
                     clock.now > old(clock.now) + frontierWait)
      ensures clock.now >= old(clock.now) && (old(world.cancelled) ==> world.cancelled)
      ensures world.failures >= old(world.failures)
      ensures world.late == old(world.late) + if old(world.cancelled) then 1 else 0
    {
      r, did := Build(Body.Send(to, amount, zts));
    }

    /** Take delivery of one send addressed to this account. */
    method Receive(source: Pending) returns (r: Result<Hash, SendError>, ghost did: Attempt)
      modifies this`lastHash, world`chain, world`funds, world`log, world`answers, world`cancelled, clock
      modifies world`failures, world`late
      ensures OneBlock(old(Seen()), Seen(), Body.Receive(source), r, did)
      ensures Blamed(r, world.cancelled, world.failures > old(world.failures),
                     clock.now > old(clock.now) + frontierWait)
      ensures clock.now >= old(clock.now) && (old(world.cancelled) ==> world.cancelled)
      ensures world.failures >= old(world.failures)
      ensures world.late == old(world.late) + if old(world.cancelled) then 1 else 0
    {
      r, did := Build(Body.Receive(source));
    }

    /** Collect every pending send. What leaves the process is receive blocks only, and each one
        counted in received was acknowledged. Success means that every block the node listed was
        received, one new block on the chain for each, and that it listed nothing more. */
    method ReceiveAll(ghost c: Codec, ghost s0: State, ghost s: State, ghost x: Session)
      returns (received: nat, ended: Result<(), SendError>, ghost t: State)
      requires At(c, s0, world.log, world.Snapshot(), s) && Opened(s, x, lastHash)
      modifies this`lastHash, clock, world`chain, world`funds, world`log, world`arrivals, world`cleared
      modifies world`answers, world`cancelled, world`listed, world`failures, world`late
      ensures At(c, s0, world.log, world.Snapshot(), t) && Opened(t, x, lastHash)
      ensures Received(s, t, received) && OnlyReceives(old(world.log), world.log)
      ensures ended.Ok? ==> world.cleared == |world.log| && received == world.listed - old(world.listed)
      ensures ended.Ok? ==> |world.chain| == |old(world.chain)| + received
      ensures ended == Err(Canceled) ==> world.cancelled
      ensures ended == Err(Failed) ==>
        world.failures > old(world.failures) || clock.now > old(clock.now) + frontierWait
      ensures world.late == old(world.late) && (old(world.cancelled) ==> world.log == old(world.log))
      ensures clock.now >= old(clock.now) && world.failures >= old(world.failures)
      ensures old(world.cancelled) ==> world.cancelled
    {
      hide At, Opened, Received, OnlyReceives, OneBlock;
      received, t := 0, s;
      NothingReceived(s, world.log);
      while true
        invariant At(c, s0, world.log, world.Snapshot(), t) && Opened(t, x, lastHash)
        invariant Received(s, t, received) && OnlyReceives(old(world.log), world.log)
        invariant received == world.listed - old(world.listed) && |world.chain| == |old(world.chain)| + received
        invariant world.late == old(world.late) && world.failures >= old(world.failures)
        invariant clock.now >= old(clock.now)
        invariant old(world.cancelled) ==> world.cancelled && world.log == old(world.log)
        decreases world.arrivals
      {
        var pending := world.UnreceivedBlocks();
        if pending.None? {
          return received, Err(Failed), t;
        }
        if pending.value == [] {
          return received, Ok(()), t;
        }
        var more, r;
        more, r, t := ReceiveEach(pending.value, c, s0, s, t, x, received, old(world.log));
        received := received + more;
        if r.Err? {
          return received, r, t;
        }
      }
    }

    /** Collect the blocks of one listing: the inner loop of ReceiveAll. */
    method ReceiveEach(pending: seq<Pending>, ghost c: Codec, ghost s0: State, ghost s: State, ghost before: State,
                       ghost x: Session, ghost n: nat, ghost log0: seq<Event>)
      returns (received: nat, ended: Result<(), SendError>, ghost t: State)
      requires At(c, s0, world.log, world.Snapshot(), before) && Opened(before, x, lastHash)
      requires Received(s, before, n) && OnlyReceives(log0, world.log)
      modifies this`lastHash, clock, world`chain, world`funds, world`log
      modifies world`answers, world`cancelled, world`failures, world`late
      ensures At(c, s0, world.log, world.Snapshot(), t) && Opened(t, x, lastHash)
      ensures Received(s, t, n + received) && OnlyReceives(log0, world.log)
      ensures ended.Ok? ==> received == |pending| && |world.chain| == |old(world.chain)| + received
      ensures Blamed(ended, world.cancelled, world.failures > old(world.failures),
                     clock.now > old(clock.now) + frontierWait)
      ensures world.late == old(world.late) && world.failures >= old(world.failures)
      ensures clock.now >= old(clock.now) && (old(world.cancelled) ==> world.cancelled)
      ensures old(world.cancelled) && pending != [] ==> world.log == old(world.log) && ended.Err?
    {
      hide At, Opened, Received, OnlyReceives, OneBlock;
      received, t := 0, before;
      for i := 0 to |pending|
        invariant received == i && |world.chain| == |old(world.chain)| + received
        invariant world.late == old(world.late) && world.failures >= old(world.failures)
        invariant clock.now >= old(clock.now) && (old(world.cancelled) ==> world.cancelled && i == 0)
        invariant i == 0 ==> world.log == old(world.log)
        invariant At(c, s0, world.log, world.Snapshot(), t) && Opened(t, x, lastHash)
        invariant Received(s, t, n + received) && OnlyReceives(log0, world.log)
      {
        var done := world.Done();
        if done {
          return received, Err(Canceled), t;
        }
        ghost var seen := Seen();
        var hash, did := Receive(pending[i]);
        t := ReceiveStep(c, s0, s, t, x, n + received, log0, seen, Seen(), pending[i], hash, did);
        if hash.Err? {
          return received, Err(hash.error), t;
        }
        received := received + 1;
      }
      return received, Ok(()), t;
    }
  }
}
