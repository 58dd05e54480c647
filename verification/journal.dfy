/** The journal: run keys, the lines of the file, and reading them back (journal.go). */
module Journals {
  import opened Basics
  import opened Decimal
  import opened Ledger

  // ---------- run keys ----------

  /** The truncated hash is modelled by what was hashed: that the 64 bits kept tell apart the
      airdrops in use is an assumption. */
  datatype RunKey = RunKey(preimage: string)

  function RunKeyOf(zts: Zts, amount: nat, from: nat, to: nat): RunKey {
    RunKey(zts + "|" + Print(amount) + "|" + Print(from) + "|" + Print(to))
  }

  lemma FieldSplit(a: string, x: string, b: string, y: string)
    requires '|' !in a && '|' !in b && a + "|" + x == b + "|" + y
    ensures a == b && x == y
  {
    IndexOfUnique(a, '|', x);
    IndexOfUnique(b, '|', y);
    var s := a + ['|'] + x;
    assert s == a + "|" + x && s == b + ['|'] + y;
    assert a == s[..|a|] && b == s[..|b|] && x == s[|a| + 1..] && y == s[|b| + 1..];
  }

  lemma NoBarInDigits(s: string)
    requires Digits(s)
    ensures '|' !in s
  {
    assert forall i | 0 <= i < |s| :: IsDigit(s[i]);
  }

  /** Changing the token, the amount or the range changes the run key. */
  lemma RunKeyIsInjective(zts: Zts, amount: nat, from: nat, to: nat, zts': Zts, amount': nat, from': nat, to': nat)
    requires '|' !in zts && '|' !in zts'
    requires RunKeyOf(zts, amount, from, to) == RunKeyOf(zts', amount', from', to')
    ensures zts == zts' && amount == amount' && from == from' && to == to'
  {
    hide Print;
    var a, b, c := Print(amount), Print(from), Print(to);
    var a', b', c' := Print(amount'), Print(from'), Print(to');
    assert zts + "|" + a + "|" + b + "|" + c == zts + "|" + (a + "|" + (b + "|" + c));
    assert zts' + "|" + a' + "|" + b' + "|" + c' == zts' + "|" + (a' + "|" + (b' + "|" + c'));
    FieldSplit(zts, a + "|" + (b + "|" + c), zts', a' + "|" + (b' + "|" + c'));
    NoBarInDigits(a);
    NoBarInDigits(a');
    FieldSplit(a, b + "|" + c, a', b' + "|" + c');
    NoBarInDigits(b);
    NoBarInDigits(b');
    FieldSplit(b, c, b', c');
    PrintInjective(amount, amount');
    PrintInjective(from, from');
    PrintInjective(to, to');
  }

  /** What is hashed: token, amount, start and end of the range, in plain decimals between bars. */
  lemma RunKeyReads(zts: Zts, amount: nat, from: nat, to: nat)
    ensures exists a, b, c ::
              && Plain(a) && Value(a) == amount && Plain(b) && Value(b) == from && Plain(c) && Value(c) == to
              && RunKeyOf(zts, amount, from, to).preimage == zts + "|" + a + "|" + b + "|" + c
  {
    hide Print, Value, Plain;
    PrintValue(amount);
    PrintValue(from);
    PrintValue(to);
  }

  // ---------- lines ----------

  datatype Entry = Entry(run: RunKey, index: nat, address: Address, amount: nat, zts: Zts, hash: Hash, time: nat)

  /** encoding/json on journal entries, and the address parser. */
  datatype Codec = Codec(marshal: Entry -> string, unmarshal: string -> Option<Entry>, parses: string -> bool)

  /** What is used of the encoding: an entry reads back; its text is an object on one line; a
      proper prefix of an object is not a JSON text, and neither is an object with the start of
      another one after it (section 2 and section 4 of RFC 8259). */
  ghost predicate Lawful(c: Codec) {
    && (forall e :: c.unmarshal(c.marshal(e)) == Some(e))
    && (forall e :: OneLineObject(c.marshal(e)))
    && (forall e, k :: 0 < k < |c.marshal(e)| ==> c.unmarshal(c.marshal(e)[..k]) == None)
    && (forall e, x :: x != "" && x[0] == '{' ==> c.unmarshal(c.marshal(e) + x) == None)
  }

  ghost predicate OneLineObject(s: string) {
    s != "" && s[0] == '{' && '\n' !in s && '\r' !in s
  }

  function Line(c: Codec, e: Entry): string {
    c.marshal(e) + "\n"
  }

  // ---------- Paid ----------

  /** The scanner gives up on a line that does not fit its buffer with the newline. */
  const MAX_LINE: nat := 1024 * 1024

  datatype JournalError = Unreadable | LineTooLong | Malformed | BadAddress

  /** The line splitter drops one trailing carriage return. */
  function DropCR(s: string): string {
    if s != "" && s[|s| - 1] == '\r' then s[..|s| - 1] else s
  }

  function PaidLine(c: Codec, raw: string, run: RunKey, paid: map<Address, Hash>): Result<map<Address, Hash>,
                    JournalError> {
    if raw == "" then Ok(paid)
    else
      match c.unmarshal(raw)
      case None => Err(Malformed)
      case Some(e) =>
        if e.run != run then Ok(paid)
        else if !c.parses(e.address) then Err(BadAddress)
        else Ok(paid[e.address := e.hash])
  }

  /** The marks for one run in a journal text, read line by line on top of those found so far. */
  function PaidFrom(c: Codec, text: string, run: RunKey, paid: map<Address, Hash>): Result<map<Address, Hash>,
                    JournalError>
    decreases |text|
  {
    if text == "" then Ok(paid)
    else
      var i := IndexOf(text, '\n');
      if i >= MAX_LINE then Err(LineTooLong)
      else
        var rest := if i < |text| then text[i + 1..] else "";
        match PaidLine(c, DropCR(text[..i]), run, paid)
        case Err(e) => Err(e)
        case Ok(more) => PaidFrom(c, rest, run, more)
  }

  /** The text begins with this line, and rest comes after it. */
  ghost predicate FirstLine(text: string, line: string, rest: string) {
    '\n' !in line && (text == line + "\n" + rest || (text == line && line != "" && rest == ""))
  }

  /** raw is the line without one carriage return at its end. */
  ghost predicate Content(line: string, raw: string) {
    line == raw + "\r" || (line == raw && (raw != "" ==> raw[|raw| - 1] != '\r'))
  }

  /** What the first line of a journal does: an empty one nothing, a broken one stops the reading, one
      of another run is passed over, and one of this run marks its address if that is an address. */
  lemma FirstLineRead(c: Codec, text: string, line: string, rest: string, raw: string, run: RunKey,
                      paid: map<Address, Hash>)
    requires FirstLine(text, line, rest) && Content(line, raw) && |line| < 1_048_576
    ensures var r, parsed := PaidFrom(c, text, run, paid), c.unmarshal(raw);
            && (raw == "" ==> r == PaidFrom(c, rest, run, paid))
            && (raw != "" && parsed.None? ==> r == Err(Malformed))
            && (raw != "" && parsed.Some? && parsed.value.run != run ==> r == PaidFrom(c, rest, run, paid))
            && (raw != "" && parsed.Some? && parsed.value.run == run ==>
                  r == if c.parses(parsed.value.address)
                       then PaidFrom(c, rest, run, paid[parsed.value.address := parsed.value.hash])
                       else Err(BadAddress))
  {
    FirstLineFound(text, line, rest);
    assert line == raw + "\r" ==> line[..|line| - 1] == raw;
    assert PaidLine(c, DropCR(line), run, paid) == PaidLine(c, raw, run, paid);
  }

  /** A first line of 1 MiB or more stops the reading, however it goes on. */
  lemma LongLineRefused(c: Codec, text: string, line: string, rest: string, run: RunKey, paid: map<Address, Hash>)
    requires FirstLine(text, line, rest) && |line| >= 1_048_576
    ensures PaidFrom(c, text, run, paid) == Err(LineTooLong) && PaidFrom(c, "", run, paid) == Ok(paid)
  {
    FirstLineFound(text, line, rest);
  }

  lemma FirstLineFound(text: string, line: string, rest: string)
    requires FirstLine(text, line, rest)
    ensures text != "" && var i := IndexOf(text, '\n');
            i == |line| && text[..i] == line && (if i < |text| then text[i + 1..] else "") == rest
  {
    if text == line + "\n" + rest {
      IndexOfUnique(line, '\n', rest);
      assert line + ['\n'] + rest == text;
    } else {
      IndexOfUnique(line, '\n', "");
    }
  }

  /** Paid: a loop over the file's lines. None is a file that could not be read; a missing file
      is the empty text. */
  method Paid(c: Codec, file: Option<string>, run: RunKey) returns (r: Result<map<Address, Hash>, JournalError>)
    ensures r == if file.None? then Err(Unreadable) else PaidFrom(c, file.value, run, map[])
    ensures r == Err(Unreadable) <==> file.None?
  {
    if file.None? {
      return Err(Unreadable);
    }
    var text := file.value;
    var paid: map<Address, Hash> := map[];
    while text != ""
      invariant PaidFrom(c, text, run, paid) == PaidFrom(c, file.value, run, map[])
      decreases |text|
    {
      var i := IndexOf(text, '\n');
      if i >= MAX_LINE {
        return Err(LineTooLong);
      }
      var raw := DropCR(text[..i]);
      text := if i < |text| then text[i + 1..] else "";
      if raw == "" {
        continue;
      }
      match c.unmarshal(raw) {
        case None =>
          return Err(Malformed);
        case Some(e) =>
          if e.run != run {
            continue;
          }
          if !c.parses(e.address) {
            return Err(BadAddress);
          }
          paid := paid[e.address := e.hash];
      }
    }
    return Ok(paid);
  }

  // ---------- the bytes of a journal ----------

  /** A record of which the first len bytes of its line are in the file. */
  datatype Piece = Piece(entry: Entry, len: nat)

  function PieceText(c: Codec, p: Piece): string {
    if p.len <= |Line(c, p.entry)| then Line(c, p.entry)[..p.len] else Line(c, p.entry)
  }

  function Text(c: Codec, layout: seq<Piece>): string {
    if layout == [] then "" else Text(c, layout[..|layout| - 1]) + PieceText(c, layout[|layout| - 1])
  }

  /** The whole object is in the file, with or without its newline. */
  predicate Complete(c: Codec, p: Piece) {
    |c.marshal(p.entry)| <= p.len <= |Line(c, p.entry)|
  }

  predicate Clean(c: Codec, p: Piece) {
    p.len == |Line(c, p.entry)|
  }

  /** The byte states a journal can be in: records one after another, each cut short only at its
      newline, and a last one that may be cut anywhere. */
  ghost predicate Shaped(c: Codec, layout: seq<Piece>) {
    && (forall i | 0 <= i < |layout| :: 0 < layout[i].len <= |Line(c, layout[i].entry)|)
    && (forall i | 0 <= i < |layout| - 1 :: Complete(c, layout[i]))
    && (forall i | 0 <= i < |layout| :: c.parses(layout[i].entry.address))
  }

  /** Every line is one whole record that fits the scanner. */
  ghost predicate Readable(c: Codec, layout: seq<Piece>) {
    && (forall i | 0 <= i < |layout| - 1 :: Clean(c, layout[i]))
    && (layout != [] ==> Complete(c, layout[|layout| - 1]))
    && (forall i | 0 <= i < |layout| :: |c.marshal(layout[i].entry)| < MAX_LINE)
  }

  /** The marks the records make for one run: later records win. */
  function Marks(layout: seq<Piece>, run: RunKey, paid: map<Address, Hash>): map<Address, Hash> {
    if layout == [] then paid
    else
      var e := layout[0].entry;
      Marks(layout[1..], run, if e.run == run then paid[e.address := e.hash] else paid)
  }

  lemma TextAppend(c: Codec, layout: seq<Piece>, p: Piece)
    ensures Text(c, layout + [p]) == Text(c, layout) + PieceText(c, p)
  {
    hide PieceText;
    assert (layout + [p])[..|layout|] == layout;
  }

  lemma TextEmpty(c: Codec)
    ensures Text(c, []) == ""
  {
  }

  lemma {:induction false} TextConcat(c: Codec, a: seq<Piece>, b: seq<Piece>)
    ensures Text(c, a + b) == Text(c, a) + Text(c, b)
  {
    hide Text, PieceText;
    TextEmpty(c);
    if b == [] {
      assert a + b == a;
    } else {
      var b', p := b[..|b| - 1], b[|b| - 1];
      assert b == b' + [p] && a + b == (a + b') + [p];
      TextConcat(c, a, b');
      TextAppend(c, a + b', p);
      TextAppend(c, b', p);
    }
  }

  lemma TextCons(c: Codec, layout: seq<Piece>)
    requires layout != []
    ensures Text(c, layout) == PieceText(c, layout[0]) + Text(c, layout[1..])
  {
    hide Text, PieceText;
    var p := layout[0];
    assert layout == [p] + layout[1..] && [p] == [] + [p];
    TextConcat(c, [p], layout[1..]);
    TextAppend(c, [], p);
    TextEmpty(c);
  }

  /** Marshalled text never holds a carriage return, so a journal's bytes never do. */
  lemma {:induction false} NoCarriageReturn(c: Codec, layout: seq<Piece>)
    requires Lawful(c)
    ensures '\r' !in Text(c, layout)
  {
    if layout != [] {
      NoCarriageReturn(c, layout[..|layout| - 1]);
      var e := layout[|layout| - 1].entry;
      assert OneLineObject(c.marshal(e));
      assert '\r' !in Line(c, e);
    }
  }

  lemma ShapedTail(c: Codec, layout: seq<Piece>)
    requires layout != [] && Shaped(c, layout)
    ensures Shaped(c, layout[1..])
    ensures |layout| > 1 ==> (Readable(c, layout) <==>
      Clean(c, layout[0]) && |c.marshal(layout[0].entry)| < MAX_LINE && Readable(c, layout[1..]))
    ensures |layout| == 1 ==> (Readable(c, layout) <==>
      Complete(c, layout[0]) && |c.marshal(layout[0].entry)| < MAX_LINE)
  {
    var rest := layout[1..];
    assert forall i | 0 <= i < |rest| :: rest[i] == layout[i + 1];
    assert forall i | 0 < i < |layout| :: layout[i] == rest[i - 1];
  }

  /** The byte after a record that lost its newline is the brace of the next one. */
  lemma NextObject(c: Codec, layout: seq<Piece>)
    requires Lawful(c) && Shaped(c, layout) && layout != []
    ensures Text(c, layout) != "" && Text(c, layout)[0] == '{' && '\r' !in Text(c, layout)
  {
    TextCons(c, layout);
    assert OneLineObject(c.marshal(layout[0].entry));
    NoCarriageReturn(c, layout);
  }

  /** Torn-write soundness: over every byte state Paid either refuses, or returns exactly the
      marks of the records whose whole text is there; it refuses exactly the unreadable ones. */
  lemma {:induction false} PaidIsExact(c: Codec, layout: seq<Piece>, run: RunKey, paid: map<Address, Hash>)
    requires Lawful(c) && Shaped(c, layout)
    ensures Readable(c, layout) ==> PaidFrom(c, Text(c, layout), run, paid) == Ok(Marks(layout, run, paid))
    ensures !Readable(c, layout) ==> PaidFrom(c, Text(c, layout), run, paid).Err?
    decreases |layout|
  {
    if layout != [] {
      TextCons(c, layout);
      ShapedTail(c, layout);
      var p, rest := layout[0], layout[1..];
      if Clean(c, p) {
        CleanLine(c, p, Text(c, rest), run, paid);
        PaidIsExact(c, rest, run, if p.entry.run == run then paid[p.entry.address := p.entry.hash] else paid);
      } else if rest == [] {
        LastLine(c, p, run, paid);
        assert PieceText(c, p) + "" == PieceText(c, p);
      } else {
        assert PieceText(c, p) == c.marshal(p.entry);
        NextObject(c, rest);
        MergedLine(c, p.entry, Text(c, rest), run, paid);
      }
    }
  }

  /** A whole line at the front of the text is read as its record. */
  lemma CleanLine(c: Codec, p: Piece, x: string, run: RunKey, paid: map<Address, Hash>)
    requires Lawful(c) && Clean(c, p) && c.parses(p.entry.address)
    ensures |c.marshal(p.entry)| >= MAX_LINE ==> PaidFrom(c, PieceText(c, p) + x, run, paid).Err?
    ensures |c.marshal(p.entry)| < MAX_LINE ==>
      PaidFrom(c, PieceText(c, p) + x, run, paid)
      == PaidFrom(c, x, run, if p.entry.run == run then paid[p.entry.address := p.entry.hash] else paid)
  {
    var m := c.marshal(p.entry);
    assert OneLineObject(m);
    var text := PieceText(c, p) + x;
    assert text == m + ['\n'] + x;
    IndexOfUnique(m, '\n', x);
    assert text[..|m|] == m && text[|m| + 1..] == x;
    assert m[|m| - 1] in m;
  }

  /** The last record without its newline: read if whole, refused if cut. */
  lemma LastLine(c: Codec, p: Piece, run: RunKey, paid: map<Address, Hash>)
    requires Lawful(c) && 0 < p.len <= |c.marshal(p.entry)| && c.parses(p.entry.address)
    ensures p.len == |c.marshal(p.entry)| < MAX_LINE ==>
      PaidFrom(c, PieceText(c, p), run, paid)
      == Ok(if p.entry.run == run then paid[p.entry.address := p.entry.hash] else paid)
    ensures p.len < |c.marshal(p.entry)| || p.len >= MAX_LINE ==> PaidFrom(c, PieceText(c, p), run, paid).Err?
  {
    var m := c.marshal(p.entry);
    assert OneLineObject(m);
    var text := PieceText(c, p);
    assert text == m[..p.len];
    assert m[..|m|] == m;
    assert forall k | 0 <= k < |text| :: text[k] == m[k] && m[k] in m;
    IndexOfUnique(text, '\n', "");
    assert text[..|text|] == text && DropCR(text) == text;
  }

  /** A record that lost its newline and has another written after it spoils the line. */
  lemma MergedLine(c: Codec, e: Entry, x: string, run: RunKey, paid: map<Address, Hash>)
    requires Lawful(c) && x != "" && x[0] == '{' && '\r' !in x
    ensures PaidFrom(c, c.marshal(e) + x, run, paid).Err?
  {
    var m := c.marshal(e);
    assert OneLineObject(m);
    var text := m + x;
    var i := IndexOf(text, '\n');
    assert forall k | 0 <= k < |m| :: text[k] == m[k] && m[k] in m;
    assert text[|m|] == x[0];
    assert i > |m|;
    var y := x[..i - |m|];
    assert text[..i] == m + y;
    assert (m + y)[|m + y| - 1] == x[|y| - 1] && x[|y| - 1] in x;
    assert DropCR(m + y) == m + y;
    assert y[0] == '{';
  }

  // ---------- what the marks are ----------

  /** An address is marked just when some record of this run names it (or it was marked before). */
  lemma {:induction false} MarksKeys(layout: seq<Piece>, run: RunKey, paid: map<Address, Hash>, a: Address)
    ensures a in Marks(layout, run, paid)
            <==> a in paid
                 || exists i :: 0 <= i < |layout| && layout[i].entry.run == run && layout[i].entry.address == a
  {
    if layout != [] {
      var e := layout[0].entry;
      MarksKeys(layout[1..], run, if e.run == run then paid[e.address := e.hash] else paid, a);
      assert forall i | 0 < i < |layout| :: layout[i] == layout[1..][i - 1];
      if i :| 0 <= i < |layout| && layout[i].entry.run == run && layout[i].entry.address == a {
        if i > 0 {
          assert layout[1..][i - 1] == layout[i];
        }
      }
    }
  }

  /** The mark of an address holds the hash of the last record of the run that names it. */
  lemma {:induction false} MarksLast(layout: seq<Piece>, run: RunKey, paid: map<Address, Hash>, j: nat)
    requires j < |layout| && layout[j].entry.run == run
    requires forall k | j < k < |layout| && layout[k].entry.run == run ::
               layout[k].entry.address != layout[j].entry.address
    ensures var e := layout[j].entry;
            e.address in Marks(layout, run, paid) && Marks(layout, run, paid)[e.address] == e.hash
  {
    var e := layout[0].entry;
    var more := if e.run == run then paid[e.address := e.hash] else paid;
    assert forall k | 0 < k < |layout| :: layout[1..][k - 1] == layout[k];
    if j == 0 {
      MarksElsewhere(layout[1..], run, more, e.address);
    } else {
      MarksLast(layout[1..], run, more, j - 1);
    }
  }

  lemma {:induction false} MarksElsewhere(layout: seq<Piece>, run: RunKey, paid: map<Address, Hash>, a: Address)
    requires forall k | 0 <= k < |layout| && layout[k].entry.run == run :: layout[k].entry.address != a
    requires a in paid
    ensures a in Marks(layout, run, paid) && Marks(layout, run, paid)[a] == paid[a]
  {
    if layout != [] {
      var e := layout[0].entry;
      MarksElsewhere(layout[1..], run, if e.run == run then paid[e.address := e.hash] else paid, a);
    }
  }

  /** The records of one run, in order. */
  function OfRun(layout: seq<Piece>, run: RunKey): seq<Piece> {
    if layout == [] then []
    else (if layout[0].entry.run == run then [layout[0]] else []) + OfRun(layout[1..], run)
  }

  lemma {:induction false} MarksOfRun(layout: seq<Piece>, run: RunKey, paid: map<Address, Hash>)
    ensures Marks(layout, run, paid) == Marks(OfRun(layout, run), run, paid)
  {
    if layout != [] {
      var e := layout[0].entry;
      var more := if e.run == run then paid[e.address := e.hash] else paid;
      MarksOfRun(layout[1..], run, more);
      if e.run == run {
        assert OfRun(layout, run)[1..] == OfRun(layout[1..], run);
      } else {
        assert OfRun(layout, run) == OfRun(layout[1..], run);
      }
    }
  }

  lemma {:induction false} OfRunMembers(layout: seq<Piece>, run: RunKey)
    ensures forall p | p in OfRun(layout, run) :: p in layout
  {
    if layout != [] {
      OfRunMembers(layout[1..], run);
    }
  }

  lemma {:induction false} OfRunSnoc(front: seq<Piece>, last: Piece, run: RunKey)
    ensures OfRun(front + [last], run) == OfRun(front, run) + if last.entry.run == run then [last] else []
  {
    if front == [] {
      assert front + [last] == [last];
      assert [last][1..] == [];
    } else {
      OfRunSnoc(front[1..], last, run);
      assert (front + [last])[1..] == front[1..] + [last];
    }
  }

  lemma OfRunReadable(c: Codec, layout: seq<Piece>, run: RunKey)
    requires Shaped(c, layout) && Readable(c, layout)
    ensures Shaped(c, OfRun(layout, run)) && Readable(c, OfRun(layout, run))
  {
    if layout != [] {
      var front, last := layout[..|layout| - 1], layout[|layout| - 1];
      assert layout == front + [last];
      OfRunSnoc(front, last, run);
      OfRunMembers(front, run);
      var own := OfRun(front, run);
      forall i | 0 <= i < |own|
        ensures Clean(c, own[i]) && |c.marshal(own[i].entry)| < MAX_LINE && c.parses(own[i].entry.address)
      {
        assert own[i] in front;
        var j :| 0 <= j < |front| && front[j] == own[i];
        assert front[j] == layout[j];
      }
    }
  }

  /** Run isolation: in a readable journal shared by several airdrops, the marks of one run are
      those of its own lines alone. */
  lemma RunIsolation(c: Codec, layout: seq<Piece>, run: RunKey)
    requires Lawful(c) && Shaped(c, layout) && Readable(c, layout)
    ensures PaidFrom(c, Text(c, layout), run, map[]) == PaidFrom(c, Text(c, OfRun(layout, run)), run, map[])
  {
    OfRunReadable(c, layout, run);
    PaidIsExact(c, layout, run, map[]);
    PaidIsExact(c, OfRun(layout, run), run, map[]);
    MarksOfRun(layout, run, map[]);
  }

  // ---------- losing the unsynced end ----------

  /** The records left when only the first k bytes survive. */
  function Truncate(c: Codec, layout: seq<Piece>, k: nat): seq<Piece>
    requires k <= |Text(c, layout)|
  {
    if layout == [] then []
    else
      var front := layout[..|layout| - 1];
      var held := |Text(c, front)|;
      if k <= held then Truncate(c, front, k)
      else front + [Piece(layout[|layout| - 1].entry, k - held)]
  }

  lemma TruncateUnfold(c: Codec, layout: seq<Piece>, k: nat)
    requires layout != [] && k <= |Text(c, layout)|
    ensures var n, front := |layout| - 1, layout[..|layout| - 1];
            Truncate(c, layout, k) ==
            if k <= |Text(c, front)| then Truncate(c, front, k)
            else front + [Piece(layout[n].entry, k - |Text(c, front)|)]
  {
  }

  lemma CutText(c: Codec, front: seq<Piece>, last: Piece, k: nat)
    requires 0 < last.len <= |Line(c, last.entry)|
    requires |Text(c, front)| < k <= |Text(c, front + [last])|
    ensures var cut := Piece(last.entry, k - |Text(c, front)|);
            cut.len <= last.len && Text(c, front + [cut]) == Text(c, front + [last])[..k]
  {
    hide Text, Line;
    var cut := Piece(last.entry, k - |Text(c, front)|);
    TextAppend(c, front, last);
    TextAppend(c, front, cut);
    assert PieceText(c, cut) == PieceText(c, last)[..cut.len];
  }

  lemma CutShaped(c: Codec, front: seq<Piece>, last: Piece, len: nat)
    requires Shaped(c, front + [last]) && 0 < len <= last.len
    ensures Shaped(c, front + [Piece(last.entry, len)])
  {
    hide Text, Line;
    var a, b := front + [last], front + [Piece(last.entry, len)];
    assert forall i | 0 <= i < |b| :: b[i].entry == a[i].entry && (i < |front| ==> b[i] == a[i]);
    assert a[|front|] == last;
  }

  lemma CutLast(c: Codec, layout: seq<Piece>, k: nat)
    requires Shaped(c, layout) && layout != [] && k <= |Text(c, layout)|
    requires |Text(c, layout[..|layout| - 1])| < k
    ensures var cut := Truncate(c, layout, k);
            && |cut| == |layout| && cut[..|layout| - 1] == layout[..|layout| - 1]
            && cut[|layout| - 1].entry == layout[|layout| - 1].entry
            && Text(c, cut) == Text(c, layout)[..k] && Shaped(c, cut)
  {
    var front, last := layout[..|layout| - 1], layout[|layout| - 1];
    assert 0 < last.len <= |Line(c, last.entry)|;
    hide Text, Line, Shaped, Truncate;
    assert layout == front + [last];
    TruncateUnfold(c, layout, k);
    CutText(c, front, last, k);
    CutShaped(c, front, last, k - |Text(c, front)|);
  }

  lemma ShapedFront(c: Codec, layout: seq<Piece>)
    requires Shaped(c, layout) && layout != []
    ensures Shaped(c, layout[..|layout| - 1])
  {
    hide Text, Line;
  }

  /** The records left are the first of the old ones. */
  ghost predicate SameEntries(cut: seq<Piece>, layout: seq<Piece>) {
    |cut| <= |layout| && forall i | 0 <= i < |cut| :: cut[i].entry == layout[i].entry
  }

  /** Cutting the file anywhere leaves one of the same byte states, made of the same records. */
  lemma {:induction false} TruncateShaped(c: Codec, layout: seq<Piece>, k: nat)
    requires Shaped(c, layout) && k <= |Text(c, layout)|
    ensures Text(c, Truncate(c, layout, k)) == Text(c, layout)[..k]
    ensures Shaped(c, Truncate(c, layout, k)) && SameEntries(Truncate(c, layout, k), layout)
  {
    if layout != [] {
      hide Text, Line, Shaped, Truncate, SameEntries, PieceText;
      var n := |layout| - 1;
      var front := layout[..n];
      ShapedFront(c, layout);
      TruncateUnfold(c, layout, k);
      if k <= |Text(c, front)| {
        TruncateShaped(c, front, k);
        TextTake(c, layout, k);
        FrontEntries(Truncate(c, front, k), layout);
      } else {
        CutLast(c, layout, k);
        SameFront(Truncate(c, layout, k), layout);
      }
    }
  }

  lemma TextTake(c: Codec, layout: seq<Piece>, k: nat)
    requires layout != [] && k <= |Text(c, layout[..|layout| - 1])|
    ensures k <= |Text(c, layout)| && Text(c, layout)[..k] == Text(c, layout[..|layout| - 1])[..k]
  {
    hide PieceText;
  }

  lemma FrontEntries(cut: seq<Piece>, layout: seq<Piece>)
    requires layout != [] && SameEntries(cut, layout[..|layout| - 1])
    ensures SameEntries(cut, layout)
  {
  }

  lemma SameFront(a: seq<Piece>, b: seq<Piece>)
    requires |a| == |b| > 0 && a[..|a| - 1] == b[..|b| - 1] && a[|a| - 1].entry == b[|b| - 1].entry
    ensures SameEntries(a, b)
  {
    assert forall i | 0 <= i < |a| - 1 :: a[i] == a[..|a| - 1][i] && b[i] == b[..|b| - 1][i];
  }

  lemma FullCut(c: Codec, layout: seq<Piece>)
    requires Shaped(c, layout)
    ensures Truncate(c, layout, |Text(c, layout)|) == layout
  {
    if layout != [] {
      var n := |layout| - 1;
      assert |PieceText(c, layout[n])| == layout[n].len;
      assert layout == layout[..n] + [Piece(layout[n].entry, layout[n].len)];
    }
  }

  lemma SlicePrefix<T>(a: seq<T>, b: seq<T>, n: nat, keep: nat)
    requires keep <= n <= |a| && n <= |b| && a[..n] == b[..n]
    ensures a[..keep] == b[..keep]
  {
    assert a[..keep] == a[..n][..keep] && b[..keep] == b[..n][..keep];
  }

  /** Cutting leaves alone every record that lies within the kept bytes. */
  lemma {:induction false} TruncateKeeps(c: Codec, layout: seq<Piece>, k: nat, keep: nat)
    requires Shaped(c, layout) && k <= |Text(c, layout)|
    requires keep <= |layout| && |Text(c, layout[..keep])| <= k
    ensures keep <= |Truncate(c, layout, k)| && Truncate(c, layout, k)[..keep] == layout[..keep]
    decreases |layout|
  {
    hide Text, Line, Shaped, Truncate;
    var n := |layout| - 1;
    if keep == |layout| {
      assert layout[..keep] == layout;
      FullCut(c, layout);
    } else if k <= |Text(c, layout[..n])| {
      var front := layout[..n];
      ShapedFront(c, layout);
      TruncateUnfold(c, layout, k);
      SlicePrefix(front, layout, n, keep);
      TruncateKeeps(c, front, k, keep);
    } else {
      CutLast(c, layout, k);
      SlicePrefix(Truncate(c, layout, k), layout, n, keep);
    }
  }
}
