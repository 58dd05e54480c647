/** Appending to the journal (journal.go). */
module Recorder {
  import opened Basics
  import opened Ledger
  import opened Journals
  import opened Protocol
  import opened History
  import opened Worlds

  /** What leaves the process for one record, up to the step that failed. */
  function RecordEvents(c: Codec, e: Entry, written: string, synced: bool): seq<Event> {
    [Marshalled(e), Wrote(written)] + if synced then [Synced] else []
  }

  class Journal {
    const world: World
    const codec: Codec
    const run: RunKey
    var buffer: string  // bytes not yet handed to the file
    var broken: bool    // a failed write makes every later one fail

    constructor (world: World, codec: Codec, run: RunKey)
      ensures this.world == world && this.codec == codec && this.run == run && Idle()
    {
      this.world := world;
      this.codec := codec;
      this.run := run;
      this.buffer := "";
      this.broken := false;
    }

    /** Nothing is waiting to be written. */
    predicate Idle()
      reads this
    {
      buffer == "" && !broken
    }

    /** Hand the buffered bytes to the file. */
    method Flush() returns (ok: bool, ghost written: string)
      modifies this`buffer, this`broken, world`file, world`log, world`refused, world`cancelled
      ensures old(world.cancelled) ==> world.cancelled
      ensures old(broken) || old(buffer) == "" ==>
        && ok == !old(broken) && buffer == old(buffer) && broken == old(broken)
        && world.file == old(world.file) && world.log == old(world.log) && world.refused == old(world.refused)
      ensures !old(broken) && old(buffer) != "" ==>
        && written <= old(buffer) && (ok ==> Idle() && written == old(buffer)) && (!ok ==> broken)
        && world.refused == old(world.refused) + (if ok then 0 else 1)
        && world.file == old(world.file) + written && world.log == old(world.log) + [Wrote(written)]
    {
      written := "";
      if broken || buffer == "" {
        return !broken, written;
      }
      ok, written := world.Append(buffer);
      if ok {
        buffer := "";
      } else {
        broken := true;
      }
    }

    /** Append one payment, and make it durable before returning. It succeeds exactly when the disk
        refuses nothing, and only with the whole line in the file and synced; otherwise a prefix of
        the line may be there. */
    method Record(index: nat, addr: Address, amount: nat, zts: Zts, hash: Hash)
      returns (ok: bool, ghost e: Entry, ghost written: string)
      requires Idle()
      modifies this`buffer, this`broken, world`file, world`durable, world`log, world`refused
      modifies world`cancelled
      ensures old(world.cancelled) ==> world.cancelled
      ensures e == Entry(run, index, addr, amount, zts, hash, e.time)
      ensures written <= Line(codec, e) && (ok ==> written == Line(codec, e))
      ensures ok <==> world.refused == old(world.refused)
      ensures world.refused >= old(world.refused)
      ensures world.log == old(world.log) + RecordEvents(codec, e, written, ok)
      ensures world.file == old(world.file) + written
      ensures world.durable == if ok then |world.file| else old(world.durable)
      ensures if ok then Idle() else buffer == "" || broken
    {
      var time: int := *;
      var entry := Entry(run, index, addr, amount, zts, hash, if time < 0 then 0 else time);
      e := entry;
      world.Mark(Marshalled(e));
      buffer := buffer + codec.marshal(entry) + "\n";
      assert buffer == Line(codec, e);
      ok, written := Flush();
      if !ok {
        return;
      }
      ok := world.Sync();
    }

    /** Close writes nothing: after every Record the buffer is empty or writing has failed. */
    method Close() returns (ok: bool)
      requires buffer == "" || broken
      modifies this`buffer, this`broken, world`file, world`log, world`refused, world`cancelled
      ensures old(world.cancelled) ==> world.cancelled
      ensures world.log == old(world.log) && world.file == old(world.file) && world.refused == old(world.refused)
    {
      ghost var written;
      ok, written := Flush();
    }
  }

  /** Recording the last acknowledged send is a step of the protocol, however far it got. */
  lemma RecordLegal(c: Codec, s0: State, log: seq<Event>, o: Outside, s: State, e: Entry, written: string, synced: bool)
    returns (t: State)
    requires At(c, s0, log, o, s) && s.proc.Some? && s.proc.value.phase.Acked? && e.index == s.proc.value.phase.i + 1
    requires Records(e, Landing(s.proc.value.job.from, s.proc.value.job.to, s.proc.value.phase.block, None))
    requires written <= Line(c, e) && (synced ==> written == Line(c, e))
    ensures var file := o.file + written;
            At(c, s0, log + RecordEvents(c, e, written, synced),
               o.(file := file, durable := if synced then |file| else o.durable), t)
    ensures SameEntries(s.layout, t.layout)
    ensures t.proc.Some? && t.proc.value == s.proc.value.(phase := t.proc.value.phase)
    ensures !synced ==> t.landings == s.landings
    ensures synced ==>
      && t.proc.value.phase == Ready && s.landings != [] && t.layout != [] && Marked(t.layout, e.run, e.address)
      && var n := |s.landings| - 1; t.landings == s.landings[n := s.landings[n].(slot := Some(|t.layout| - 1))]
  {
    hide Inv, Reaches, Text;
    Advance(c, s0, log, o, s, Marshalled(e));
    var s1 := After(c, s, Marshalled(e));
    var log1 := log + [Marshalled(e)];
    Advance(c, s0, log1, o, s1, Wrote(written));
    t := After(c, s1, Wrote(written));
    var log2, o2 := log1 + [Wrote(written)], o.(file := o.file + written);
    assert log2 == log + RecordEvents(c, e, written, false);
    if synced {
      WindowLanding(c, s);
      assert t.layout[|t.layout| - 1].entry == e;
      Advance(c, s0, log2, o2, t, Synced);
      t := After(c, t, Synced);
      assert log2 + [Synced] == log + RecordEvents(c, e, written, true);
    }
  }

  lemma WindowLanding(c: Codec, s: State)
    requires Inv(c, s) && s.proc.Some? && InWindow(s.proc.value)
    ensures s.landings != []
  {
    hide FileInv, RecordInv, SettledInv, OnceInv, LandingsInv, TallyInv, CoveredInv, RepeatInv, PaidInv, ChainInv,
      EndInv, RiskInv, MoneyInv, LoopInv;
  }
}
