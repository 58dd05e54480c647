/** The account chain the sender writes to, and the outside world as the process sees it. */
module Ledger {
  import opened Basics

  /** A block hash is modelled by the block it was computed from, so equal hashes mean equal
      blocks. ZeroHash is the previous hash of an account's first block. */
  datatype Hash = ZeroHash | HashOf(block: Block)

  /** A send waiting to be received, as the node lists it. */
  datatype Pending = Pending(id: nat, zts: Zts, amount: nat)

  datatype Body =
    | Send(to: Address, amount: nat, zts: Zts)
    | Receive(source: Pending)

  /** stamp stands for the fields that do not matter here: acknowledged momentum, plasma, nonce. */
  datatype Block = Block(previous: Hash, height: nat, body: Body, stamp: nat)

  function TipHash(chain: seq<Block>): Hash {
    if chain == [] then ZeroHash else HashOf(chain[|chain| - 1])
  }

  /** Every block names its predecessor and stands one higher. */
  ghost predicate Linked(chain: seq<Block>) {
    forall i | 0 <= i < |chain| :: chain[i].height == i + 1 && chain[i].previous == TipHash(chain[..i])
  }

  function Balance(funds: map<Zts, nat>, zts: Zts): nat {
    if zts in funds then funds[zts] else 0
  }

  /** What exists outside the process: the account's chain and balances as the ledger has them,
      and the journal file, of which the first durable bytes survive a loss of power. */
  datatype Outside = Outside(chain: seq<Block>, funds: map<Zts, nat>, file: string, durable: nat)

  /** The ledger takes a block only on top of the account's true tip, and a send only within
      the balance. */
  predicate Lands(o: Outside, b: Block) {
    && b.previous == TipHash(o.chain)
    && b.height == |o.chain| + 1
    && (b.body.Send? ==> b.body.amount <= Balance(o.funds, b.body.zts))
  }

  function Credit(funds: map<Zts, nat>, body: Body): map<Zts, nat> {
    match body
    case Send(_, amount, zts) =>
      var held := Balance(funds, zts);
      funds[zts := if amount <= held then held - amount else 0]
    case Receive(source) => funds[source.zts := Balance(funds, source.zts) + source.amount]
  }

  function Land(o: Outside, b: Block): Outside {
    o.(chain := o.chain + [b], funds := Credit(o.funds, b.body))
  }

  lemma LinkedGrows(chain: seq<Block>, b: Block)
    requires Linked(chain) && b.previous == TipHash(chain) && b.height == |chain| + 1
    ensures Linked(chain + [b])
  {
    var grown := chain + [b];
    forall i | 0 <= i < |grown|
      ensures grown[i].height == i + 1 && grown[i].previous == TipHash(grown[..i])
    {
      assert grown[..i] == chain[..i];
      assert chain[..|chain|] == chain;
    }
  }

  /** A block below the tip does not have the tip's hash. */
  lemma BelowTipDiffers(chain: seq<Block>, i: nat)
    requires Linked(chain) && i < |chain| - 1
    ensures HashOf(chain[i]) != TipHash(chain)
  {
    assert chain[i].height != chain[|chain| - 1].height;
  }
}
