/** What the process talks to: the node, the journal file, the clock and the interrupt signal.
    Their answers are left open except for what each method promises. */
module Worlds {
  import opened Basics
  import opened Ledger
  import opened Protocol

  /** What the node said before a block was built. */
  datatype Answer = Frontier(block: Option<(nat, Hash)>) | Prepared(stamp: Option<nat>)

  class World {
    var chain: seq<Block>
    var funds: map<Zts, nat>
    var file: string
    var durable: nat
    var arrivals: nat         // how many more times pending blocks will be listed
    var cancelled: bool       // the user has interrupted the process
    ghost var answers: seq<Answer>
    ghost var refused: nat     // how many calls to the disk, or for the balance, have failed
    ghost var failures: nat    // how many of the node's other calls have failed
    ghost var late: nat        // how many blocks were begun after the user had interrupted
    ghost var cleared: nat     // how long the log was when the node last listed nothing pending
    ghost var listed: nat      // how many pending blocks the node has listed
    ghost var log: seq<Event>  // everything that left the process, and the program's marks

    ghost function Snapshot(): Outside
      reads this
    {
      Outside(chain, funds, file, durable)
    }

    /** Time passes; the user may interrupt the process at any moment. */
    method Elapse()
      modifies this`cancelled
      ensures old(cancelled) ==> cancelled
    {
      var interrupted: bool := *;
      cancelled := cancelled || interrupted;
    }

    /** Whether the context has been cancelled by now. */
    method Done() returns (done: bool)
      modifies this`cancelled
      ensures done == cancelled && (old(cancelled) ==> cancelled)
    {
      Elapse();
      done := cancelled;
    }

    /** Note that a block is begun. */
    ghost method Begin()
      modifies this`late
      ensures late == old(late) + if cancelled then 1 else 0
    {
      late := late + if cancelled then 1 else 0;
    }

    /** The account's newest block as this node reports it: height and hash, or nothing. The node
        may lag or be wrong, and an error of the call reads as nothing. */
    method FrontierAccountBlock() returns (b: Option<(nat, Hash)>)
      modifies this`answers, this`cancelled
      ensures answers == old(answers) + [Frontier(b)] && (old(cancelled) ==> cancelled)
    {
      Elapse();
      b := *;
      answers := answers + [Frontier(b)];
    }

    /** The calls made before a block is complete: frontier momentum, plasma, proof of work. */
    method Prepare() returns (stamp: Option<nat>)
      modifies this`answers, this`cancelled, this`failures
      ensures answers == old(answers) + [Prepared(stamp)] && (old(cancelled) ==> cancelled)
      ensures failures == old(failures) + if stamp.Some? then 0 else 1
    {
      Elapse();
      stamp := *;
      failures := failures + if stamp.Some? then 0 else 1;
      answers := answers + [Prepared(stamp)];
    }

    /** Publish a block. It can land only where the ledger lets it, and landing is certain only if
        the call returns without an error. */
    method Publish(b: Block) returns (ok: bool, ghost landed: bool)
      modifies this`chain, this`funds, this`log, this`cancelled, this`failures
      ensures old(cancelled) ==> cancelled
      ensures failures == old(failures) + if ok then 0 else 1
      ensures ok ==> landed
      ensures landed ==> Lands(old(Snapshot()), b)
      ensures Snapshot() == Effect(old(Snapshot()), Published(b, landed, ok))
      ensures log == old(log) + [Published(b, landed, ok)]
    {
      Elapse();
      var delivered: bool := *;
      ok := *;
      if delivered && b.previous == TipHash(chain) && b.height == |chain| + 1
         && (b.body.Send? ==> b.body.amount <= Ledger.Balance(funds, b.body.zts))
      {
        landed := true;
        chain := chain + [b];
        funds := Credit(funds, b.body);
      } else {
        landed := false;
        ok := false;
      }
      failures := failures + if ok then 0 else 1;
      log := log + [Published(b, landed, ok)];
    }

    /** The balance as the node reports it: an error, or the true one. */
    method Balance(zts: Zts) returns (balance: Option<nat>)
      modifies this`refused, this`cancelled
      ensures old(cancelled) ==> cancelled
      ensures balance.Some? ==> balance.value == Ledger.Balance(funds, zts)
      ensures refused == old(refused) + if balance.Some? then 0 else 1
    {
      Elapse();
      var answered: bool := *;
      balance := if answered then Some(Ledger.Balance(funds, zts)) else None;
      refused := refused + if answered then 0 else 1;
    }

    /** Pending blocks, or an error. */
    method UnreceivedBlocks() returns (blocks: Option<seq<Pending>>)
      modifies this`arrivals, this`cleared, this`listed, this`cancelled, this`failures
      ensures old(cancelled) ==> cancelled
      ensures failures == old(failures) + if blocks.Some? then 0 else 1
      ensures blocks.Some? && blocks.value != [] ==> arrivals < old(arrivals)
      ensures cleared == if blocks == Some([]) then |log| else old(cleared)
      ensures listed == old(listed) + if blocks.Some? then |blocks.value| else 0
    {
      Elapse();
      blocks := *;
      failures := failures + if blocks.Some? then 0 else 1;
      if blocks.Some? && blocks.value != [] {
        if arrivals == 0 {
          blocks := Some([]);
        } else {
          arrivals := arrivals - 1;
        }
      }
      if blocks.Some? && blocks.value == [] {
        cleared := |log|;
      }
      listed := listed + if blocks.Some? then |blocks.value| else 0;
    }

    /** Read the journal file; a missing file reads as the empty text. */
    method ReadFile() returns (text: Option<string>)
      modifies this`refused
      ensures text.Some? ==> text.value == file
      ensures refused == old(refused) + if text.Some? then 0 else 1
    {
      var readable: bool := *;
      text := if readable then Some(file) else None;
      refused := refused + if readable then 0 else 1;
    }

    /** Open the journal file for appending. */
    method OpenFile() returns (ok: bool)
      modifies this`refused
      ensures refused == old(refused) + if ok then 0 else 1
    {
      ok := *;
      refused := refused + if ok then 0 else 1;
    }

    /** Append to the journal file. Any prefix of the text may have been written if it fails. */
    method Append(text: string) returns (ok: bool, ghost written: string)
      modifies this`file, this`log, this`refused, this`cancelled
      ensures old(cancelled) ==> cancelled
      ensures written <= text && (ok ==> written == text)
      ensures refused == old(refused) + if ok then 0 else 1
      ensures Snapshot() == Effect(old(Snapshot()), Wrote(written))
      ensures log == old(log) + [Wrote(written)]
    {
      Elapse();
      var n: int := *;
      ok := *;
      if ok || n < 0 || n > |text| {
        n := |text|;
      }
      file := file + text[..n];
      written := text[..n];
      log := log + [Wrote(written)];
      refused := refused + if ok then 0 else 1;
    }

    /** Make the file durable. Failing promises nothing. */
    method Sync() returns (ok: bool)
      modifies this`durable, this`log, this`refused, this`cancelled
      ensures old(cancelled) ==> cancelled
      ensures refused == old(refused) + if ok then 0 else 1
      ensures ok ==> Snapshot() == Effect(old(Snapshot()), Synced) && log == old(log) + [Synced]
      ensures !ok ==> Snapshot() == old(Snapshot()) && log == old(log)
    {
      Elapse();
      ok := *;
      if ok {
        durable := |file|;
        log := log + [Synced];
      } else {
        refused := refused + 1;
      }
    }

    /** Note in the log where the program stands. */
    ghost method Mark(ev: Event)
      requires ev.Started? || ev.Gated? || ev.Attempted? || ev.Marshalled? || ev.Stopped?
      modifies this`log
      ensures log == old(log) + [ev]
      ensures Snapshot() == Effect(old(Snapshot()), ev)
    {
      log := log + [ev];
    }
  }

  /** A clock that never runs backwards, in milliseconds. */
  class Clock {
    var now: nat

    method Now() returns (t: nat)
      modifies this
      ensures t == now >= old(now)
    {
      var later: int := *;
      now := if later < now then now else later;
      t := now;
    }

    method Sleep(ms: nat)
      modifies this
      ensures now >= old(now) + ms
    {
      var later: int := *;
      now := if later < now + ms then now + ms else later;
    }
  }
}
