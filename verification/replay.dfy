/** Running an airdrop from a saved log instead of a scan (replay.go). */
module Replays {
  import opened Basics
  import Decimal
  import Amount
  import opened Digests
  import Journals
  import Protocol
  import opened ScanLogs

  datatype ReplayError =
    | NoAddresses | BadAddressText(index: nat) | DigestMismatch
    | NoToken | BadToken | UnknownToken | BadAmount(error: Amount.AmountError) | UnusableAmount | NoAmount

  /** The two text parsers and the node's token lookup. */
  datatype Parsers = Parsers(address: string -> Option<Address>, zts: string -> Option<Zts>,
                             decimals: Zts -> Option<nat>)

  /** This text is an address as the tool prints it. */
  predicate IsAddress(ps: Parsers, a: Address) {
    ps.address(a) == Some(a)
  }

  // ---------- the list ----------

  /** The list a log is replayed against and the digest recorded beside it. */
  function Source(log: SavedLog): (seq<string>, Digest) {
    if log.filter.Some? && log.filter.value.recipients != [] then
      (log.filter.value.recipients, log.filter.value.recipientDigest)
    else (log.addresses, log.digest)
  }

  /** The digest the log recorded beside the list it is replayed against: of the narrowed list if
      that holds somebody, else of the whole scan. */
  ghost predicate RecordedDigest(log: SavedLog, digest: Digest) {
    if log.filter.Some? && log.filter.value.recipients != [] then digest == log.filter.value.recipientDigest
    else digest == log.digest
  }

  /** The list as the log has it. */
  ghost predicate RecordedList(log: SavedLog, list: seq<string>) {
    if log.filter.Some? && log.filter.value.recipients != [] then list == log.filter.value.recipients
    else list == log.addresses
  }

  /** The texts parse, one by one, to these addresses. */
  ghost predicate ParsesTo(ps: Parsers, texts: seq<string>, list: seq<Address>) {
    |list| == |texts| && forall i | 0 <= i < |texts| :: ps.address(texts[i]) == Some(list[i])
  }

  /** This text is the first that is no address. */
  ghost predicate FirstBad(ps: Parsers, texts: seq<string>, k: nat) {
    k < |texts| && ps.address(texts[k]) == None && forall i | 0 <= i < k :: ps.address(texts[i]).Some?
  }

  /** replayList: it succeeds exactly with a list that parses, address by address, to one whose
      digest is the recorded one. */
  method ReplayList(ps: Parsers, log: SavedLog) returns (r: Result<seq<Address>, ReplayError>)
    ensures RecordedList(log, Source(log).0) && RecordedDigest(log, Source(log).1)
    ensures r.Ok? ==> r.value != [] && RecordedDigest(log, DigestOf(r.value))
    ensures var (source, digest) := Source(log);
            && (r.Ok? ==> ParsesTo(ps, source, r.value))
            && (r.Err? ==> r.error.NoAddresses? || r.error.BadAddressText? || r.error.DigestMismatch?)
            && (r == Err(NoAddresses) <==> source == [])
            && (r.Err? && r.error.BadAddressText? ==> FirstBad(ps, source, r.error.index))
            && (r == Err(DigestMismatch) ==>
                  && (exists list :: ParsesTo(ps, source, list))
                  && forall list | ParsesTo(ps, source, list) :: DigestOf(list) != digest)
  {
    var source, digest := log.addresses, log.digest;
    if log.filter.Some? && |log.filter.value.recipients| > 0 {
      source, digest := log.filter.value.recipients, log.filter.value.recipientDigest;
    }
    if |source| == 0 {
      return Err(NoAddresses);
    }
    var addrs: seq<Address> := [];
    for i := 0 to |source|
      invariant |addrs| == i && forall k | 0 <= k < i :: ps.address(source[k]) == Some(addrs[k])
    {
      var addr := ps.address(source[i]);
      if addr.None? {
        return Err(BadAddressText(i));
      }
      addrs := addrs + [addr.value];
    }
    var got := DigestStrings(addrs);
    assert ParsesTo(ps, source, addrs);
    if got != digest {
      assert forall list | ParsesTo(ps, source, list) :: list == addrs;
      return Err(DigestMismatch);
    }
    return Ok(addrs);
  }

  /** A log is replayed against its narrowed list exactly when it has one that holds somebody (or the
      scan found nobody): without filters, or if they kept nobody, the whole scanned list is taken. */
  lemma NarrowedListIsReplayed(log: SavedLog)
    ensures log.filter.Some? ==>
      (Source(log).0 == log.filter.value.recipients <==> log.filter.value.recipients != [] || log.addresses == [])
    ensures log.filter.None? || log.filter.value.recipients == [] ==>
      Source(log) == (log.addresses, log.digest)
  {
  }

  /** A list is replayed only if it is, up to order, the one whose digest was recorded. */
  lemma OnlyTheApprovedList(approved: seq<Address>, list: seq<Address>, digest: Digest)
    requires NoNewline(approved) && NoNewline(list) && digest == DigestOf(approved) && DigestOf(list) == digest
    ensures multiset(list) == multiset(approved) && (Distinct(approved) ==> Distinct(list))
  {
    DigestIdentifiesList(list, approved);
    if Distinct(approved) {
      Scans.SamePermutation(approved, list);
    }
  }

  // ---------- token, amount and range ----------

  /** -zts and -amount; empty when not passed. */
  datatype Flags = Flags(zts: string, amount: string)

  datatype Choice = Choice(zts: Zts, amount: int, from: nat, to: nat)

  function ZtsText(log: SavedLog, flags: Flags): string {
    if flags.zts != "" then flags.zts else if log.airdrop.Some? then log.airdrop.value.zts else ""
  }

  function ChosenAmount(log: SavedLog, flags: Flags, decimals: nat): Result<int, ReplayError> {
    if flags.amount != "" then
      match Amount.ParseAmount(flags.amount, decimals)
      case Err(e) => Err(BadAmount(e))
      case Ok(v) => Ok(v)
    else if log.airdrop.Some? && log.airdrop.value.amountRaw != "" then
      match Decimal.SetString(log.airdrop.value.amountRaw)
      case None => Err(UnusableAmount)
      case Some(v) => if v <= 0 then Err(UnusableAmount) else Ok(v)
    else Err(NoAmount)
  }

  /** What replayScan hands to the plan: flags win over the log, the range is the log's. */
  function Chosen(ps: Parsers, log: SavedLog, flags: Flags): Result<Choice, ReplayError> {
    if ZtsText(log, flags) == "" then Err(NoToken)
    else
      match ps.zts(ZtsText(log, flags))
      case None => Err(BadToken)
      case Some(zts) =>
        match ps.decimals(zts)
        case None => Err(UnknownToken)
        case Some(decimals) =>
          match ChosenAmount(log, flags, decimals)
          case Err(e) => Err(e)
          case Ok(amount) => Ok(Choice(zts, amount, log.from as nat, log.to as nat))
  }

  lemma RawAmountReadsBack(v: int)
    requires v > 0
    ensures Decimal.PrintInt(v) != "" && Decimal.SetString(Decimal.PrintInt(v)) == Some(v)
  {
    Decimal.PrintValue(v);
    Amount.SetStringDigits(Decimal.Print(v));
  }

  /** The log says what this job was: its recipients, with their digest, its token and its amount
      in smallest units, and its range. */
  ghost predicate Describes(log: SavedLog, job: Protocol.Job) {
    && log.filter.Some? && log.filter.value.recipients == job.recipients
    && log.filter.value.recipientDigest == DigestOf(job.recipients)
    && log.airdrop.Some? && log.airdrop.value.zts == job.zts
    && log.airdrop.value.amountRaw == Decimal.PrintInt(job.amount)
    && log.airdrop.value.run == job.Run()
    && log.from as nat == job.from && log.to as nat == job.to
  }

  /** Replaying without overrides is the same job: same recipients in the same order, same amount
      to the last unit, same range, hence the run key the log recorded and the same journal marks. */
  lemma ReplayIsTheSameJob(ps: Parsers, log: SavedLog, job: Protocol.Job, list: seq<Address>)
    requires Describes(log, job) && job.recipients != [] && job.amount > 0
    requires forall i | 0 <= i < |job.recipients| :: IsAddress(ps, job.recipients[i])
    requires job.zts != "" && ps.zts(job.zts) == Some(job.zts) && ps.decimals(job.zts).Some?
    requires ParsesTo(ps, Source(log).0, list)
    ensures list == job.recipients && DigestOf(list) == Source(log).1
    ensures Chosen(ps, log, Flags("", "")) == Ok(Choice(job.zts, job.amount, job.from, job.to))
    ensures var c := Chosen(ps, log, Flags("", "")).value;
            c.amount >= 0 && Protocol.Job(c.zts, c.amount, c.from, c.to, list) == job
            && Journals.RunKeyOf(c.zts, c.amount, c.from, c.to) == log.airdrop.value.run
  {
    hide Decimal.SetString, Decimal.Digits, DigestOf, Journals.RunKeyOf, Decimal.PrintInt;
    RawAmountReadsBack(job.amount);
    forall i | 0 <= i < |list| ensures list[i] == job.recipients[i] {
      assert IsAddress(ps, job.recipients[i]);
    }
  }

  /** An override of the token or the amount that changes either starts another run. */
  lemma OverrideStartsAnotherRun(ps: Parsers, log: SavedLog, flags: Flags, job: Protocol.Job, c: Choice)
    requires Describes(log, job) && '|' !in job.zts && Chosen(ps, log, flags) == Ok(c) && '|' !in c.zts && c.amount >= 0
    requires c.zts != job.zts || c.amount != job.amount
    ensures Journals.RunKeyOf(c.zts, c.amount, c.from, c.to) != job.Run()
  {
    if Journals.RunKeyOf(c.zts, c.amount, c.from, c.to) == job.Run() {
      Journals.RunKeyIsInjective(c.zts, c.amount, c.from, c.to, job.zts, job.amount, job.from, job.to);
    }
  }

  /** The token is the one named on the command line, or else in the log. */
  ghost predicate TokenIs(ps: Parsers, log: SavedLog, flags: Flags, zts: Zts) {
    if flags.zts != "" then ps.zts(flags.zts) == Some(zts)
    else log.airdrop.Some? && log.airdrop.value.zts != "" && ps.zts(log.airdrop.value.zts) == Some(zts)
  }

  /** The amount is what the command line denotes at the token's scale, or else the positive integer
      that the log's raw amount spells. */
  ghost predicate AmountIs(log: SavedLog, flags: Flags, decimals: nat, amount: int) {
    if flags.amount != "" then Amount.Denotes(flags.amount, decimals, amount)
    else log.airdrop.Some? && amount > 0 && exists d :: Decimal.SpellsInt(log.airdrop.value.amountRaw, amount, d)
  }

  /** What is passed on the command line wins over the log, the range is always the log's, and the
      replay goes on exactly if that names a token the node knows and a positive amount of it. */
  lemma FlagsWin(ps: Parsers, log: SavedLog, flags: Flags, c: Choice)
    ensures Chosen(ps, log, flags) == Ok(c) <==>
            && TokenIs(ps, log, flags, c.zts) && ps.decimals(c.zts).Some?
            && AmountIs(log, flags, ps.decimals(c.zts).value, c.amount)
            && c.from == log.from as nat && c.to == log.to as nat
  {
    hide Amount.ParseAmount, Decimal.SetString, Amount.Denotes, Decimal.SpellsInt;
    if TokenIs(ps, log, flags, c.zts) && ps.decimals(c.zts).Some? {
      AmountChosen(log, flags, ps.decimals(c.zts).value, c.amount);
    }
  }

  lemma AmountChosen(log: SavedLog, flags: Flags, decimals: nat, amount: int)
    ensures ChosenAmount(log, flags, decimals) == Ok(amount) <==> AmountIs(log, flags, decimals, amount)
  {
    hide Amount.ParseAmount, Decimal.SetString, Amount.Denotes, Decimal.SpellsInt;
    if flags.amount != "" {
      Amount.ParseIsExact(flags.amount, decimals, amount);
    } else if log.airdrop.Some? {
      Decimal.SetStringExact(log.airdrop.value.amountRaw, amount);
      NothingSpelled(amount);
    }
  }

  /** The empty text spells no integer. */
  lemma NothingSpelled(v: int)
    ensures forall d :: !Decimal.SpellsInt("", v, d)
  {
  }

  /** Why there is nothing to replay: no token named, one that is none or that the node does not know,
      a bad -amount, no amount at all, or one in the log that is no positive integer. */
  lemma NotChosenExactly(ps: Parsers, log: SavedLog, flags: Flags)
    ensures var r, text := Chosen(ps, log, flags), if flags.zts != "" || log.airdrop.None? then flags.zts
                                                   else log.airdrop.value.zts;
            && (r == Err(NoToken) <==> text == "")
            && (r == Err(BadToken) <==> text != "" && ps.zts(text).None?)
            && (r == Err(UnknownToken) <==>
                  text != "" && ps.zts(text).Some? && ps.decimals(ps.zts(text).value).None?)
            && var known := text != "" && ps.zts(text).Some? && ps.decimals(ps.zts(text).value).Some?;
            && (r.Err? && r.error.BadAmount? ==>
                  known && flags.amount != ""
                  && Amount.ParseAmount(flags.amount, ps.decimals(ps.zts(text).value).value) == Err(r.error.error))
            && (r == Err(NoAmount) <==>
                  known && flags.amount == "" && (log.airdrop.None? || log.airdrop.value.amountRaw == ""))
            && (r == Err(UnusableAmount) <==>
                  known && flags.amount == "" && log.airdrop.Some? && log.airdrop.value.amountRaw != ""
                  && forall v, d :: Decimal.SpellsInt(log.airdrop.value.amountRaw, v, d) ==> v <= 0)
  {
    hide Amount.ParseAmount, Decimal.SetString, Decimal.SpellsInt;
    if log.airdrop.Some? {
      RawSpells(log.airdrop.value.amountRaw);
    }
  }

  lemma RawSpells(raw: string)
    ensures forall v, d | Decimal.SpellsInt(raw, v, d) :: Decimal.SetString(raw) == Some(v)
    ensures Decimal.SetString(raw).Some? ==> exists d :: Decimal.SpellsInt(raw, Decimal.SetString(raw).value, d)
  {
    hide Decimal.SetString, Decimal.SpellsInt;
    forall v, d | Decimal.SpellsInt(raw, v, d) ensures Decimal.SetString(raw) == Some(v) {
      Decimal.SetStringExact(raw, v);
    }
    if Decimal.SetString(raw).Some? {
      Decimal.SetStringExact(raw, Decimal.SetString(raw).value);
    }
  }
}
