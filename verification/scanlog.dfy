/** The record of a scan, and narrowing the scanned set (scanlog.go, main.go). */
module ScanLogs {
  import opened Basics
  import opened Digests
  import opened Journals
  import opened Scans

  datatype ScanAirdrop = ScanAirdrop(zts: Zts, decimals: nat, amountRaw: string, amount: string,
                                     totalRaw: string, total: string, run: RunKey, alreadyPaid: nat,
                                     published: bool, sent: nat, skipped: nat, failed: nat)

  datatype ScanFilter = ScanFilter(minHolding: string, recipientCount: nat, recipientDigest: Digest,
                                   recipients: seq<string>, removed: int)

  /** A log as it is written and read back. */
  datatype SavedLog = SavedLog(from: u64, to: u64, count: u64, includeRecipients: bool,
                               momentums: nat, blocks: nat, contracts: nat, users: nat,
                               digest: Digest, addresses: seq<string>,
                               filter: Option<ScanFilter>, airdrop: Option<ScanAirdrop>)

  class ScanLog {
    const from: u64
    const to: u64
    const count: u64
    const includeRecipients: bool
    const momentums: nat
    const blocks: nat
    const contracts: nat
    const users: nat
    const digest: Digest
    const addresses: seq<string>
    var filter: Option<ScanFilter>
    var airdrop: Option<ScanAirdrop>

    constructor (res: ScanResult, includeRecipients: bool)
      requires 0 < res.fromHeight <= res.toHeight
      ensures from == res.fromHeight && to == res.toHeight && count as int == to as int - from as int + 1
      ensures this.includeRecipients == includeRecipients
      ensures momentums == res.momentums && blocks == res.blocks && contracts == res.contracts
      ensures users == |res.addresses|
      ensures addresses == res.addresses && digest == DigestOf(addresses)
      ensures filter == None && airdrop == None
    {
      from, to, count := res.fromHeight, res.toHeight, res.toHeight - res.fromHeight + 1;
      this.includeRecipients := includeRecipients;
      momentums, blocks, contracts, users := res.momentums, res.blocks, res.contracts, |res.addresses|;
      addresses, digest := res.addresses, DigestOf(res.addresses);
      filter, airdrop := None, None;
    }

    /** Record the narrowing from scanned addresses to recipients. */
    method SetFilter(minHolding: string, recipients: seq<Address>)
      modifies this`filter
      ensures filter == Some(ScanFilter(minHolding, |recipients|, DigestOf(recipients), recipients,
                                        |addresses| - |recipients|))
    {
      var d := DigestStrings(recipients);
      filter := Some(ScanFilter(minHolding, |recipients|, d, recipients, |addresses| - |recipients|));
    }

    function Saved(): SavedLog
      reads this
    {
      SavedLog(from, to, count, includeRecipients, momentums, blocks, contracts, users, digest, addresses,
               filter, airdrop)
    }
  }

  // ---------- narrowing ----------

  /** The addresses to keep, in the order they were in. */
  function Selected(addrs: seq<Address>, keep: Address -> bool): seq<Address> {
    if addrs == [] then []
    else
      var n := |addrs| - 1;
      Selected(addrs[..n], keep) + if keep(addrs[n]) then [addrs[n]] else []
  }

  /** Selecting keeps exactly the wanted addresses, and keeps the list ascending and free of
      repeats if it was. */
  lemma {:induction false} SelectedFacts(addrs: seq<Address>, keep: Address -> bool)
    ensures forall a :: a in Selected(addrs, keep) <==> a in addrs && keep(a)
    ensures Distinct(addrs) ==> Distinct(Selected(addrs, keep))
    ensures Sorted(addrs) ==> Sorted(Selected(addrs, keep))
  {
    if addrs != [] {
      var n := |addrs| - 1;
      var front, last := addrs[..n], addrs[n];
      var kept := Selected(front, keep);
      SelectedFacts(front, keep);
      assert addrs == front + [last];
      if keep(last) {
        if Distinct(addrs) {
          assert last !in front;
          DistinctSnoc(kept, last);
        }
        if Sorted(addrs) {
          SortedSnoc(kept, last, addrs);
        }
      }
    }
  }

  lemma SortedSnoc(kept: seq<Address>, last: Address, addrs: seq<Address>)
    requires addrs != [] && Sorted(addrs) && last == addrs[|addrs| - 1] && Sorted(kept)
    requires forall a | a in kept :: a in addrs[..|addrs| - 1]
    ensures Sorted(kept + [last])
  {
    forall i | 0 <= i < |kept| ensures LessEq(kept[i], last) {
      var x := kept[i];
      assert x in kept;
      var j :| 0 <= j < |addrs| - 1 && addrs[j] == kept[i];
    }
  }

  /** without: leave one address out. */
  method Without(addrs: seq<Address>, drop: Address) returns (out: seq<Address>)
    ensures out == Selected(addrs, a => a != drop)
  {
    ghost var keep := (a: Address) => a != drop;
    out := [];
    for i := 0 to |addrs|
      invariant out == Selected(addrs[..i], keep)
    {
      assert addrs[..i + 1][..i] == addrs[..i];
      if addrs[i] != drop {
        out := out + [addrs[i]];
      }
    }
    assert addrs[..|addrs|] == addrs;
  }

  /** What the node says each address holds of the token, if it answers. */
  class Holdings {
    const held: Address -> nat
    const answers: Address -> bool
    var cancelled: bool  // the user has interrupted the process
    ghost var late: nat  // calls made after that

    constructor (held: Address -> nat, answers: Address -> bool)
      ensures this.held == held && this.answers == answers
    {
      this.held, this.answers, this.cancelled, this.late := held, answers, false, 0;
    }

    method Balance(a: Address) returns (b: Option<nat>)
      modifies this
      ensures b == if answers(a) then Some(held(a)) else None
      ensures late == old(late) + (if old(cancelled) then 1 else 0) && (old(cancelled) ==> cancelled)
    {
      late := late + if cancelled then 1 else 0;
      var interrupted: bool := *;
      cancelled := cancelled || interrupted;
      b := if answers(a) then Some(held(a)) else None;
    }

    method Done() returns (done: bool)
      modifies this`cancelled
      ensures done == cancelled && (old(cancelled) ==> cancelled)
    {
      var interrupted: bool := *;
      cancelled := cancelled || interrupted;
      done := cancelled;
    }
  }

  datatype FilterError = Interrupted | NoAnswer(address: Address)

  /** filterByHolding: keep those who hold at least floor; the first refused call gives up. */
  method FilterByHolding(node: Holdings, addrs: seq<Address>, floor: int) returns (r: Result<seq<Address>, FilterError>)
    modifies node
    ensures r.Ok? ==> r.value == Selected(addrs, a => node.held(a) >= floor) && forall a | a in addrs :: node.answers(a)
    ensures r.Err? && r.error.Interrupted? ==> node.cancelled
    ensures r.Err? && r.error.NoAnswer? ==> r.error.address in addrs && !node.answers(r.error.address)
    ensures node.late == old(node.late) && (old(node.cancelled) && addrs != [] ==> r == Err(Interrupted))
  {
    ghost var keep := (a: Address) => node.held(a) >= floor;
    var kept := [];
    for i := 0 to |addrs|
      invariant kept == Selected(addrs[..i], keep) && forall a | a in addrs[..i] :: node.answers(a)
      invariant node.late == old(node.late) && (old(node.cancelled) ==> node.cancelled && i == 0)
    {
      assert addrs[..i + 1] == addrs[..i] + [addrs[i]];
      var done := node.Done();
      if done {
        return Err(Interrupted);
      }
      var bal := node.Balance(addrs[i]);
      if bal.None? {
        return Err(NoAnswer(addrs[i]));
      }
      if bal.value >= floor {
        kept := kept + [addrs[i]];
      }
    }
    assert addrs[..|addrs|] == addrs;
    return Ok(kept);
  }

  // ---------- checking a log against a new scan ----------

  datatype Verdict = Reproduced | NotReproduced(added: nat, missing: nat) | NoScan(error: ScanError)

  /** How many addresses are new, and how many logged ones are gone. */
  method CountDifferences(now: seq<string>, logged: seq<string>) returns (added: nat, missing: nat)
    requires Distinct(now)
    ensures added == |Elements(now) - Elements(logged)|
    ensures missing == |Elements(logged) - Elements(now)|
  {
    hide Elements;
    var was := Elements(logged);
    ghost var all := was;
    added := 0;
    ghost var gained: set<string> := {};
    NoElements();
    for i := 0 to |now|
      invariant was == all - Elements(now[..i])
      invariant gained == Elements(now[..i]) - all && added == |gained|
    {
      var a := now[i];
      assert now[..i + 1] == now[..i] + [a];
      ElementsSnoc(now[..i], a);
      assert a !in Elements(now[..i]) by { NotBefore(now, i); }
      if a !in was {
        added := added + 1;
        gained := gained + {a};
      } else {
        was := was - {a};
      }
    }
    assert now[..|now|] == now;
    missing := |was|;
  }

  lemma NoElements()
    ensures Elements<string>([]) == {}
  {
  }

  lemma NotBefore(s: seq<string>, i: nat)
    requires Distinct(s) && i < |s|
    ensures s[i] !in Elements(s[..i])
  {
  }

  /** The log's digest is that of its list, and the list is free of repeats. */
  ghost predicate Consistent(log: SavedLog) {
    NoNewline(log.addresses) && Distinct(log.addresses) && log.digest == DigestOf(log.addresses)
  }

  /** verifyScan: scan the logged range again and compare digests. A log whose digest is that of
      its list is reported as reproduced exactly when the scan finds the same addresses; otherwise
      the two counts are the sizes of the two differences, and one of them is not zero. What the scan
      finds is exact up to the height covered, which is the logged end exactly if no answer was
      empty. */
  method VerifyScan(log: SavedLog, node: Node, rules: Rules)
    returns (v: Verdict, ghost found: seq<Address>, ghost covered: nat)
    requires node.Valid()
    modifies node
    ensures !v.NoScan? && NoNewline(found) && Consistent(log) ==>
      && (v.Reproduced? <==> forall a :: a in found <==> a in log.addresses)
      && (v.NotReproduced? ==> v.added + v.missing > 0)
    ensures v.NotReproduced? ==>
      && v.added == |Elements(found) - Elements(log.addresses)|
      && v.missing == |Elements(log.addresses) - Elements(found)|
    ensures !v.NoScan? ==> (v.Reproduced? <==> DigestOf(found) == log.digest)
    ensures v.NoScan? ==>
      && (v.error.NodeError? ==> node.refused > old(node.refused)) && (v.error.Canceled? ==> node.cancelled)
      && (v.error.EmptyRange? ==> log.to < First(log.from))
    ensures node.late == old(node.late)
    ensures !v.NoScan? ==>
      && Ascending(found) && covered <= log.to as int
      && (covered == log.to as int <==> node.empties == old(node.empties))
      && forall a :: a in found <==>
           IsUser(rules, a) && Acted(node.chain, First(log.from) as int, covered, log.includeRecipients, a)
  {
    found, covered := [], 0;
    var scanner := new Scanner(node, rules, log.includeRecipients);
    var r := scanner.Scan(log.from, log.to);
    if r.Err? {
      return NoScan(r.error), found, covered;
    }
    var now := r.value.addresses;
    found, covered := now, First(log.from) as int - 1 + r.value.momentums;
    var got := DigestStrings(now);
    if NoNewline(found) && Consistent(log) {
      DigestIdentifiesSet(found, log.addresses);
    }
    if got == log.digest {
      return Reproduced, found, covered;
    }
    var added, missing := CountDifferences(now, log.addresses);
    NothingDiffers(found, log.addresses);
    return NotReproduced(added, missing), found, covered;
  }

  /** Both counts are zero exactly when the two lists name the same addresses. */
  lemma NothingDiffers(now: seq<string>, logged: seq<string>)
    ensures (|Elements(now) - Elements(logged)| == 0 && |Elements(logged) - Elements(now)| == 0)
            <==> forall a :: a in now <==> a in logged
  {
    var x, y := set a | a in now, set a | a in logged;
    if |x - y| == 0 && |y - x| == 0 {
      assert x - y == {} && y - x == {};
      forall a ensures a in now <==> a in logged {
        assert a in x - y || a in y - x || (a in x <==> a in y);
      }
    }
    if forall a :: a in now <==> a in logged {
      assert x - y == {} && y - x == {};
    }
  }
}
