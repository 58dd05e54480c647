/** Collecting who acted in a range of momentums (scan.go). */
module Scans {
  import opened Basics
  import opened Digests

  /** A block confirmed by a momentum. to is the zero address except on a send. */
  datatype Confirmed = Confirmed(author: Address, to: Address)

  /** The momentum of height h is at position h - 1 of the chain. */
  datatype Momentum = Momentum(blocks: seq<Confirmed>)

  /** What tells users from contracts: the zero address and the embedded-address test. */
  datatype Rules = Rules(zero: Address, embedded: Address -> bool)

  const MAX_COUNT: u64 := 1024

  datatype ScanError = Canceled | EmptyRange | NodeError

  /** Blocks name addresses only. */
  predicate AllKnown(ms: seq<Momentum>, known: Address -> bool) {
    forall i | 0 <= i < |ms| ::
      forall j | 0 <= j < |ms[i].blocks| :: known(ms[i].blocks[j].author) && known(ms[i].blocks[j].to)
  }

  /** A node serving one append-only chain. It may answer with fewer momentums than asked for. */
  class Node {
    const known: Address -> bool  // what the ledger takes for an address
    var chain: seq<Momentum>
    var cancelled: bool     // the user has interrupted the process
    ghost var empties: nat  // answers that held no momentum
    ghost var refused: nat  // calls that failed
    ghost var late: nat     // calls made after the user had interrupted
    ghost var asked: seq<(u64, u64)>  // the heights and counts asked for

    ghost predicate Valid()
      reads this
    {
      |chain| + 1 < 0x1_0000_0000_0000_0000 && AllKnown(chain, known)
    }

    /** Momentums from this height on; the chain may have grown in the meantime. */
    method MomentumsByHeight(height: u64, count: u64) returns (list: Option<seq<Momentum>>)
      requires Valid() && height > 0
      modifies this
      ensures Valid() && old(chain) <= chain
      ensures empties == old(empties) + if list == Some([]) then 1 else 0
      ensures refused == old(refused) + (if list.None? then 1 else 0) && (old(cancelled) ==> cancelled)
      ensures late == old(late) + (if old(cancelled) then 1 else 0) && asked == old(asked) + [(height, count)]
      ensures list.Some? ==>
        && |list.value| <= count as int
        && (list.value != [] ==>
              && height as int - 1 + |list.value| <= |chain|
              && list.value == chain[height as int - 1..height as int - 1 + |list.value|])
    {
      late := late + if cancelled then 1 else 0;
      asked := asked + [(height, count)];
      var interrupted: bool := *;
      cancelled := cancelled || interrupted;
      var most := if count > MAX_COUNT then MAX_COUNT else count;
      var grown: seq<Momentum> := *;
      if |chain| + |grown| + 1 < 0x1_0000_0000_0000_0000 && AllKnown(grown, known) {
        chain := chain + grown;
      }
      var answered: bool := *;
      if !answered {
        refused := refused + 1;
        return None;
      }
      var k: int := *;
      if 0 < k <= most as int && height as int - 1 + k <= |chain| {
        return Some(chain[height as int - 1..height as int - 1 + k]);
      }
      empties := empties + 1;
      return Some([]);
    }

    method Done() returns (done: bool)
      modifies this`cancelled
      ensures done == cancelled && (old(cancelled) ==> cancelled)
    {
      var interrupted: bool := *;
      cancelled := cancelled || interrupted;
      done := cancelled;
    }
  }

  // ---------- what a scan should find ----------

  /** The addresses a block adds to the candidates. */
  function Named(b: Confirmed, includeRecipients: bool): seq<Address> {
    if includeRecipients then [b.author, b.to] else [b.author]
  }

  /** The candidates in a stretch of the chain, in the order they are met. */
  function Candidates(ms: seq<Momentum>, includeRecipients: bool): seq<Address> {
    if ms == [] then []
    else Candidates(ms[..|ms| - 1], includeRecipients) + BlockCandidates(ms[|ms| - 1].blocks, includeRecipients)
  }

  function BlockCandidates(blocks: seq<Confirmed>, includeRecipients: bool): seq<Address> {
    if blocks == [] then []
    else Named(blocks[0], includeRecipients) + BlockCandidates(blocks[1..], includeRecipients)
  }

  predicate IsUser(rules: Rules, a: Address) {
    a != rules.zero && !rules.embedded(a)
  }

  /** The users among the candidates. */
  function Users(rules: Rules, cs: seq<Address>): set<Address> {
    set a | a in cs && IsUser(rules, a)
  }

  /** How often a contract was a candidate. */
  function ContractCount(rules: Rules, cs: seq<Address>): nat {
    if cs == [] then 0
    else
      var last := cs[|cs| - 1];
      ContractCount(rules, cs[..|cs| - 1]) + if last != rules.zero && rules.embedded(last) then 1 else 0
  }

  function BlockCount(ms: seq<Momentum>): nat {
    if ms == [] then 0 else BlockCount(ms[..|ms| - 1]) + |ms[|ms| - 1].blocks|
  }

  /** This address authored (or, if asked, was sent) one of these blocks. */
  ghost predicate ActedIn(blocks: seq<Confirmed>, includeRecipients: bool, a: Address) {
    exists j :: 0 <= j < |blocks| && (blocks[j].author == a || (includeRecipients && blocks[j].to == a))
  }

  /** It acted in a block confirmed at one of the heights from..to. */
  ghost predicate Acted(chain: seq<Momentum>, from: nat, to: nat, includeRecipients: bool, a: Address)
    requires 0 < from
  {
    exists k :: from - 1 <= k < to && k < |chain| && ActedIn(chain[k].blocks, includeRecipients, a)
  }

  /** The momentums at the heights from..to, if the chain has them. */
  function Stretch(chain: seq<Momentum>, from: nat, to: nat): seq<Momentum>
    requires 0 < from
  {
    if from <= to <= |chain| then chain[from - 1..to] else []
  }

  lemma {:induction false} BlockCandidatesAre(blocks: seq<Confirmed>, includeRecipients: bool, a: Address)
    ensures a in BlockCandidates(blocks, includeRecipients)
            <==> ActedIn(blocks, includeRecipients, a)
  {
    if blocks != [] {
      BlockCandidatesAre(blocks[1..], includeRecipients, a);
      if a in Named(blocks[0], includeRecipients) {
        assert blocks[0].author == a || (includeRecipients && blocks[0].to == a);
      } else if a in BlockCandidates(blocks[1..], includeRecipients) {
        var j :| 0 <= j < |blocks| - 1 && (blocks[1..][j].author == a || (includeRecipients && blocks[1..][j].to == a));
        assert blocks[j + 1] == blocks[1..][j];
      } else {
        assert forall j | 0 < j < |blocks| :: blocks[1..][j - 1] == blocks[j];
      }
    }
  }

  /** The candidates of a range are exactly the addresses that acted in it. */
  lemma {:induction false} CandidatesActed(chain: seq<Momentum>, from: nat, to: nat, includeRecipients: bool,
                                           a: Address)
    requires 0 < from && (from <= to ==> to <= |chain|)
    ensures a in Candidates(Stretch(chain, from, to), includeRecipients)
            <==> Acted(chain, from, to, includeRecipients, a)
  {
    hide Candidates, BlockCandidates, ActedIn, Acted, Stretch;
    if from <= to {
      var front, m := Stretch(chain, from, to - 1), chain[to - 1];
      OneMoreHeight(chain, from, to, includeRecipients, a);
      OneMoreMomentum(front, m, includeRecipients);
      CandidatesActed(chain, from, to - 1, includeRecipients, a);
      BlockCandidatesAre(m.blocks, includeRecipients, a);
    } else {
      NoHeights(chain, from, to, includeRecipients, a);
    }
  }

  lemma NoHeights(chain: seq<Momentum>, from: nat, to: nat, includeRecipients: bool, a: Address)
    requires 0 < from && to < from
    ensures Candidates(Stretch(chain, from, to), includeRecipients) == []
    ensures !Acted(chain, from, to, includeRecipients, a)
  {
  }

  lemma OneMoreHeight(chain: seq<Momentum>, from: nat, to: nat, includeRecipients: bool, a: Address)
    requires 0 < from <= to <= |chain|
    ensures Stretch(chain, from, to) == Stretch(chain, from, to - 1) + [chain[to - 1]]
    ensures Acted(chain, from, to, includeRecipients, a)
            <==> Acted(chain, from, to - 1, includeRecipients, a) || ActedIn(chain[to - 1].blocks, includeRecipients, a)
  {
    hide ActedIn;
  }

  lemma StretchMore(chain: seq<Momentum>, from: nat, to: nat, more: seq<Momentum>)
    requires 0 < from <= to + 1 && (from <= to ==> to <= |chain|)
    requires more != [] ==> to + |more| <= |chain| && more == chain[to..to + |more|]
    ensures Stretch(chain, from, to + |more|) == Stretch(chain, from, to) + more
  {
  }

  /** Growth of the chain leaves a covered stretch alone. */
  lemma StretchKept(before: seq<Momentum>, after: seq<Momentum>, from: nat, to: nat)
    requires 0 < from && before <= after && (from <= to ==> to <= |before|)
    ensures Stretch(after, from, to) == Stretch(before, from, to)
  {
  }

  lemma NoBlocks(includeRecipients: bool)
    ensures BlockCandidates([], includeRecipients) == []
  {
  }

  lemma OneMoreMomentum(ms: seq<Momentum>, m: Momentum, includeRecipients: bool)
    ensures Candidates(ms + [m], includeRecipients)
            == Candidates(ms, includeRecipients) + BlockCandidates(m.blocks, includeRecipients)
    ensures BlockCount(ms + [m]) == BlockCount(ms) + |m.blocks|
  {
    assert (ms + [m])[..|ms|] == ms;
  }

  /** The candidates of the first block come first. */
  lemma NextBlock(before: seq<Address>, blocks: seq<Confirmed>, j: nat, includeRecipients: bool)
    requires j < |blocks|
    ensures before + BlockCandidates(blocks[j..], includeRecipients)
            == before + Named(blocks[j], includeRecipients) + BlockCandidates(blocks[j + 1..], includeRecipients)
  {
    assert blocks[j..][1..] == blocks[j + 1..];
  }

  lemma OneMoreCandidate(rules: Rules, cs: seq<Address>, a: Address)
    ensures Users(rules, cs + [a]) == Users(rules, cs) + if IsUser(rules, a) then {a} else {}
    ensures ContractCount(rules, cs + [a])
            == ContractCount(rules, cs) + if a != rules.zero && rules.embedded(a) then 1 else 0
  {
    assert (cs + [a])[..|cs|] == cs;
  }

  // ---------- the scan ----------

  /** What a scan found, filled in while it runs. */
  class ScanResult {
    const fromHeight: u64
    const toHeight: u64
    var momentums: nat
    var blocks: nat
    var contracts: nat
    var addresses: seq<Address>

    constructor (from: u64, to: u64)
      ensures fromHeight == from && toHeight == to
      ensures momentums == blocks == contracts == 0 && addresses == []
    {
      fromHeight, toHeight := from, to;
      momentums, blocks, contracts, addresses := 0, 0, 0, [];
    }
  }

  /** What was asked for since lies in the range, in batches of at most this many momentums. */
  ghost predicate Within(before: seq<(u64, u64)>, after: seq<(u64, u64)>, from: u64, to: u64, batch: u64) {
    && before <= after
    && forall i | |before| <= i < |after| ::
         from <= after[i].0 && 0 < after[i].1 <= batch && after[i].0 as int + after[i].1 as int <= to as int + 1
  }

  class Scanner {
    const node: Node
    const rules: Rules
    const includeRecipients: bool

    constructor (node: Node, rules: Rules, includeRecipients: bool)
      ensures this.node == node && this.rules == rules && this.includeRecipients == includeRecipients
    {
      this.node, this.rules, this.includeRecipients := node, rules, includeRecipients;
    }

    /** Fold one candidate into seen. */
    method Add(seen: set<Address>, addr: Address, res: ScanResult, ghost cs: seq<Address>) returns (more: set<Address>)
      requires seen == Users(rules, cs) && res.contracts == ContractCount(rules, cs)
      modifies res`contracts
      ensures more == Users(rules, cs + [addr]) && res.contracts == ContractCount(rules, cs + [addr])
    {
      OneMoreCandidate(rules, cs, addr);
      if addr == rules.zero {
        return seen;
      }
      if rules.embedded(addr) {
        res.contracts := res.contracts + 1;
        return seen;
      }
      return seen + {addr};
    }

    /** Fetch one batch and fold it into seen; got is how many momentums it covered. */
    method ScanBatch(height: u64, count: u64, seen: set<Address>, res: ScanResult, ghost from: nat)
      returns (got: Option<int>, more: set<Address>)
      requires node.Valid() && 0 < from <= height as int && (from < height as int ==> height as int - 1 <= |node.chain|)
      requires Found(Stretch(node.chain, from, height as int - 1), seen, res.momentums, res.blocks, res.contracts)
      modifies node, res`momentums, res`blocks, res`contracts
      ensures node.Valid() && old(node.chain) <= node.chain
      ensures node.empties == old(node.empties) + if got == Some(0) then 1 else 0
      ensures node.refused == old(node.refused) + if got.None? then 1 else 0
      ensures node.late == old(node.late) + (if old(node.cancelled) then 1 else 0)
      ensures (old(node.cancelled) ==> node.cancelled) && node.asked == old(node.asked) + [(height, count)]
      ensures got.Some? ==>
        && 0 <= got.value <= count as int && (got.value > 0 ==> height as int - 1 + got.value <= |node.chain|)
        && Found(Stretch(node.chain, from, height as int - 1 + got.value), more,
                 res.momentums, res.blocks, res.contracts)
    {
      hide Found, Candidates, Users, ContractCount, BlockCount, Stretch;
      more := seen;
      var list := node.MomentumsByHeight(height, count);
      if list.None? {
        return None, more;
      }
      ghost var before, served := Stretch(old(node.chain), from, height as int - 1), node.chain;
      ghost var empties, refused, late, asked := node.empties, node.refused, node.late, node.asked;
      StretchKept(old(node.chain), served, from, height as int - 1);
      ghost var done := before;
      for i := 0 to |list.value|
        invariant node.chain == served && node.empties == empties && node.refused == refused
        invariant node.late == late && node.asked == asked && (old(node.cancelled) ==> node.cancelled)
        invariant done == before + list.value[..i]
        invariant Found(done, more, res.momentums, res.blocks, res.contracts)
      {
        var m := list.value[i];
        more := AddMomentum(m, more, res, done);
        done := done + [m];
        assert list.value[..i + 1] == list.value[..i] + [m];
      }
      assert list.value[..|list.value|] == list.value;
      StretchMore(served, from, height as int - 1, list.value);
      return Some(|list.value|), more;
    }

    /** The counters and candidates seen are those of this stretch of the chain. */
    ghost predicate Found(ms: seq<Momentum>, seen: set<Address>, momentums: nat, blocks: nat, contracts: nat) {
      var cs := Candidates(ms, includeRecipients);
      seen == Users(rules, cs) && contracts == ContractCount(rules, cs) && momentums == |ms| && blocks == BlockCount(ms)
    }

    lemma NothingFound(chain: seq<Momentum>, from: nat)
      requires 0 < from
      ensures Found(Stretch(chain, from, from - 1), {}, 0, 0, 0)
    {
    }

    lemma FoundActed(chain: seq<Momentum>, from: nat, to: nat, seen: set<Address>, momentums: nat, blocks: nat,
                     contracts: nat)
      requires 0 < from <= to + 1 && (from <= to ==> to <= |chain|)
      requires Found(Stretch(chain, from, to), seen, momentums, blocks, contracts)
      ensures to == from - 1 + momentums
      ensures forall a :: a in seen <==> IsUser(rules, a) && Acted(chain, from, to, includeRecipients, a)
      ensures blocks == BlockCount(Stretch(chain, from, to))
      ensures contracts == ContractCount(rules, Candidates(Stretch(chain, from, to), includeRecipients))
    {
      hide Acted, Candidates, ContractCount, BlockCount, IsUser;
      forall a ensures a in seen <==> IsUser(rules, a) && Acted(chain, from, to, includeRecipients, a) {
        CandidatesActed(chain, from, to, includeRecipients, a);
      }
    }

    /** Fold in one momentum. */
    method AddMomentum(m: Momentum, seen: set<Address>, res: ScanResult, ghost done: seq<Momentum>)
      returns (more: set<Address>)
      requires Found(done, seen, res.momentums, res.blocks, res.contracts)
      modifies res`momentums, res`blocks, res`contracts
      ensures Found(done + [m], more, res.momentums, res.blocks, res.contracts)
    {
      hide Users, ContractCount, BlockCandidates, Candidates;
      more := seen;
      res.momentums := res.momentums + 1;
      ghost var all := Candidates(done, includeRecipients);
      OneMoreMomentum(done, m, includeRecipients);
      for j := 0 to |m.blocks|
        invariant all + BlockCandidates(m.blocks[j..], includeRecipients) == Candidates(done + [m], includeRecipients)
        invariant more == Users(rules, all) && res.contracts == ContractCount(rules, all)
        invariant res.momentums == |done| + 1 && res.blocks == BlockCount(done) + j
      {
        NextBlock(all, m.blocks, j, includeRecipients);
        ghost var before := all;
        var b := m.blocks[j];
        res.blocks := res.blocks + 1;
        more := Add(more, b.author, res, all);
        all := all + [b.author];
        if includeRecipients {
          more := Add(more, b.to, res, all);
          all := all + [b.to];
        }
        assert all == before + Named(b, includeRecipients);
      }
      NoBlocks(includeRecipients);
      assert m.blocks[|m.blocks|..] == [] && all + [] == all;
    }

    /** Collect the users of a range: in ascending order, without repeats, exactly those who acted
        at the heights covered, however the node split its answers. The recorded end of the range was
        reached exactly if the node answered no request with nothing. */
    method Scan(from: u64, to: u64) returns (r: Result<ScanResult, ScanError>)
      requires node.Valid()
      modifies node
      ensures node.Valid() && old(node.chain) <= node.chain
      ensures to < First(from) <==> r == Err(EmptyRange)
      ensures r == Err(NodeError) ==> node.refused > old(node.refused)
      ensures r == Err(Canceled) ==> node.cancelled
      ensures node.late == old(node.late) && (old(node.cancelled) ==> r.Err? && !r.error.NodeError?)
      ensures Within(old(node.asked), node.asked, First(from), to, if includeRecipients then 100 else 1024)
      ensures r.Ok? ==>
        && fresh(r.value) && r.value.fromHeight == First(from) && r.value.toHeight == to
        && var res, n := r.value, First(from) as int - 1 + r.value.momentums;
        && n <= to as int && (res.momentums > 0 ==> n <= |node.chain|)
        && (n == to as int <==> node.empties == old(node.empties))
        && Ascending(res.addresses)
        && (forall a :: a in res.addresses <==>
              IsUser(rules, a) && Acted(node.chain, First(from) as int, n, includeRecipients, a))
        && var ms := Stretch(node.chain, First(from) as int, n);
        && res.blocks == BlockCount(ms) && res.contracts == ContractCount(rules, Candidates(ms, includeRecipients))
    {
      hide Found, Acted, Stretch, Candidates, Users, IsUser, ContractCount, BlockCount, Ascending;
      var start := First(from);
      if to < start {
        return Err(EmptyRange);
      }
      var res := new ScanResult(start, to);
      var seen: set<Address> := {};
      var batch := if includeRecipients then 100 else MAX_COUNT;
      var height := start;
      NothingFound(node.chain, start as int);
      while height <= to
        invariant node.Valid() && start <= height && old(node.chain) <= node.chain
        invariant node.empties == old(node.empties) && node.refused == old(node.refused)
        invariant node.late == old(node.late) && (old(node.cancelled) ==> node.cancelled && height == start)
        invariant Within(old(node.asked), node.asked, start, to, batch)
        invariant height as int <= to as int + 1 && (start < height ==> height as int - 1 <= |node.chain|)
        invariant Found(Stretch(node.chain, start as int, height as int - 1), seen,
                        res.momentums, res.blocks, res.contracts)
        decreases 1 + to as int - height as int
      {
        var done := node.Done();
        if done {
          return Err(Canceled);
        }
        var count := batch;
        var remaining := to - height + 1;
        if remaining < count {
          count := remaining;
        }
        var got;
        got, seen := ScanBatch(height, count, seen, res, start as int);
        if got.None? {
          return Err(NodeError);
        }
        if got.value == 0 {
          break;
        }
        height := height + got.value as u64;
      }
      res.addresses := SortedList(seen);
      FoundActed(node.chain, start as int, height as int - 1, seen, res.momentums, res.blocks, res.contracts);
      return Ok(res);
    }
  }

  /** The elements of a set, taken in any order and sorted. */
  method SortedList(seen: set<Address>) returns (r: seq<Address>)
    ensures Ascending(r) && forall a :: a in r <==> a in seen
  {
    var list: seq<Address> := [];
    var rest := seen;
    while rest != {}
      invariant Distinct(list) && rest <= seen
      invariant forall a :: a in list <==> a in seen - rest
      decreases |rest|
    {
      var a :| a in rest;
      rest := rest - {a};
      DistinctSnoc(list, a);
      list := list + [a];
    }
    r := SortStrings(list);
    SamePermutation(list, r);
  }

  lemma SamePermutation(a: seq<string>, b: seq<string>)
    requires multiset(a) == multiset(b) && Distinct(a)
    ensures Distinct(b) && forall x :: x in a <==> x in b
  {
    DistinctCounts(a);
    CountsDistinct(b);
    forall x ensures x in a <==> x in b {
      assert x in multiset(a) <==> x in multiset(b);
    }
  }

  lemma CountsDistinct(s: seq<string>)
    requires forall x :: multiset(s)[x] <= 1
    ensures Distinct(s)
  {
    forall i, j | 0 <= i < j < |s| ensures s[i] != s[j] {
      var front, back := s[..j], s[j..];
      assert s == front + back && front[i] in front && s[j] == back[0] && back[0] in back;
      assert multiset(s)[s[i]] == multiset(front)[s[i]] + multiset(back)[s[i]];
    }
  }

  /** The lowest height from this one on: heights start at 1. */
  function First(from: u64): (first: u64)
    ensures 1 <= first && from <= first && (first == 1 || first == from)
  {
    if from == 0 then 1 else from
  }

  /** In order, without repeats. */
  ghost predicate Ascending(s: seq<Address>) {
    Sorted(s) && Distinct(s)
  }

  /** Whoever acted is an address. */
  lemma ActedIsKnown(chain: seq<Momentum>, known: Address -> bool, from: nat, to: nat, includeRecipients: bool,
                     a: Address)
    requires 0 < from && AllKnown(chain, known) && Acted(chain, from, to, includeRecipients, a)
    ensures known(a)
  {
  }

  /** Two scans that cover one range give one list and one digest, whichever nodes of the chain
      answered, however they split their answers, and however much the chain grew in between. */
  lemma RescanAgrees(rules: Rules, before: seq<Momentum>, after: seq<Momentum>, from: nat, to: nat,
                     includeRecipients: bool,
                     list: seq<Address>, again: seq<Address>)
    requires 0 < from && to <= |before| && before <= after && Ascending(list) && Ascending(again)
    requires forall a :: a in list <==> IsUser(rules, a) && Acted(before, from, to, includeRecipients, a)
    requires forall a :: a in again <==> IsUser(rules, a) && Acted(after, from, to, includeRecipients, a)
    ensures list == again && DigestOf(list) == DigestOf(again)
  {
    forall a ensures a in list <==> a in again {
      assert Acted(before, from, to, includeRecipients, a) <==> Acted(after, from, to, includeRecipients, a);
    }
    DistinctCounts(list);
    DistinctCounts(again);
    forall a ensures multiset(list)[a] == multiset(again)[a] {
      assert a in list <==> a in again;
    }
    assert multiset(list) == multiset(again);
    SortedIsUnique(list, again);
  }

  // ---------- naming a range ----------

  datatype RangeError = Unreachable | AboveTip | Unnamed | Inverted

  /** The range named by the flags against the tip read from the node. */
  function ResolveRange(tip: Option<u64>, fromHeight: u64, lastN: u64, toHeight: u64): (r: Result<(u64, u64),
                        RangeError>)
    ensures r.Ok? ==> tip.Some? && r.value.0 <= r.value.1 <= tip.value
  {
    if tip.None? then Err(Unreachable)
    else if toHeight > tip.value then Err(AboveTip)
    else
      var to := if toHeight > 0 then toHeight else tip.value;
      if fromHeight == 0 && lastN == 0 then Err(Unnamed)
      else
        var from := if fromHeight > 0 then fromHeight else if lastN >= to then 1 else to - lastN + 1;
        if from > to then Err(Inverted) else Ok((from, to))
  }

  /** Exactly which flags name a range, and which one: the end is -to if given, else the tip; the
      start is -from if given, else the last -last momentums up to the end, or all there are. */
  lemma NamedRange(tip: u64, fromHeight: u64, lastN: u64, toHeight: u64)
    ensures var to: int := if toHeight > 0 then toHeight as int else tip as int;
            var back := to - lastN as int + 1;
            var from: int := if fromHeight > 0 then fromHeight as int else if back > 1 then back else 1;
            && (ResolveRange(Some(tip), fromHeight, lastN, toHeight).Ok?
                <==> toHeight <= tip && (fromHeight > 0 || lastN > 0) && from <= to)
            && (ResolveRange(Some(tip), fromHeight, lastN, toHeight).Ok? ==>
                  ResolveRange(Some(tip), fromHeight, lastN, toHeight).value == (from as u64, to as u64))
  {
  }

  /** Why no range is named: the node did not answer, -to lies above the tip, neither -from nor -last was
      given, or -from lies above the end (or the end is height 0, below every momentum). */
  lemma NotNamedExactly(tip: Option<u64>, fromHeight: u64, lastN: u64, toHeight: u64)
    ensures var r, end := ResolveRange(tip, fromHeight, lastN, toHeight),
                          if toHeight > 0 || tip.None? then toHeight else tip.value;
            && (r == Err(Unreachable) <==> tip == None)
            && (r == Err(AboveTip) <==> tip.Some? && tip.value < toHeight)
            && (r == Err(Unnamed) <==> tip.Some? && toHeight <= tip.value && fromHeight == 0 == lastN)
            && (r == Err(Inverted) <==> tip.Some? && toHeight <= tip.value
                                        && (fromHeight > end || (end == 0 == fromHeight && lastN > 0)))
  {
  }

  /** What was resolved once, however it was named, is a proper range, and naming it by its heights
      gives the same range at the same or any later tip. */
  lemma RangeIsReproducible(tip: u64, later: u64, fromHeight: u64, lastN: u64, toHeight: u64)
    requires ResolveRange(Some(tip), fromHeight, lastN, toHeight).Ok? && tip <= later
    ensures var r := ResolveRange(Some(tip), fromHeight, lastN, toHeight);
            && 1 <= r.value.0
            && forall n :: ResolveRange(Some(later), r.value.0, n, r.value.1) == r
  {
  }
}
