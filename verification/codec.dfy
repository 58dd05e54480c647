/** The laws assumed of the journal's encoding can be met: one encoding that meets them. */
module Codecs {
  import opened Basics
  import opened Ledger
  import opened Journals

  /** A number in front of a text, as that many ones and a zero. */
  function PutNum(n: nat, rest: string): string {
    if n == 0 then "0" + rest else "1" + PutNum(n - 1, rest)
  }

  function PutStr(s: string, rest: string): string {
    if s == "" then "0" + rest else "1" + PutNum(s[0] as nat, PutStr(s[1..], rest))
  }

  function PutBody(b: Body, rest: string): string {
    match b
    case Send(to, amount, zts) => "0" + PutStr(to, PutNum(amount, PutStr(zts, rest)))
    case Receive(source) => "1" + PutNum(source.id, PutStr(source.zts, PutNum(source.amount, rest)))
  }

  function PutHash(h: Hash, rest: string): string {
    match h
    case ZeroHash => "0" + rest
    case HashOf(b) => "1" + PutHash(b.previous, PutNum(b.height, PutBody(b.body, PutNum(b.stamp, rest))))
  }

  function Code(e: Entry): string {
    PutStr(e.run.preimage, PutNum(e.index, PutStr(e.address, PutNum(e.amount, PutStr(e.zts,
      PutHash(e.hash, PutNum(e.time, "")))))))
  }

  // ---------- reading back in one way only ----------

  lemma TailOf(c: char, x: string, y: string)
    requires [c] + x == [c] + y
    ensures x == y
  {
    assert ([c] + x)[1..] == x && ([c] + y)[1..] == y;
  }

  lemma {:induction false} NumUnique(m: nat, n: nat, x: string, y: string)
    requires PutNum(m, x) == PutNum(n, y)
    ensures m == n && x == y
  {
    assert PutNum(m, x)[0] == PutNum(n, y)[0];
    if m == 0 {
      TailOf('0', x, y);
    } else {
      TailOf('1', PutNum(m - 1, x), PutNum(n - 1, y));
      NumUnique(m - 1, n - 1, x, y);
    }
  }

  lemma {:induction false} StrUnique(s: string, t: string, x: string, y: string)
    requires PutStr(s, x) == PutStr(t, y)
    ensures s == t && x == y
  {
    assert PutStr(s, x)[0] == PutStr(t, y)[0];
    if s == "" {
      TailOf('0', x, y);
    } else {
      TailOf('1', PutNum(s[0] as nat, PutStr(s[1..], x)), PutNum(t[0] as nat, PutStr(t[1..], y)));
      NumUnique(s[0] as nat, t[0] as nat, PutStr(s[1..], x), PutStr(t[1..], y));
      StrUnique(s[1..], t[1..], x, y);
      assert s == [s[0]] + s[1..] && t == [t[0]] + t[1..];
    }
  }

  lemma BodyUnique(a: Body, b: Body, x: string, y: string)
    requires PutBody(a, x) == PutBody(b, y)
    ensures a == b && x == y
  {
    hide PutStr, PutNum;
    assert PutBody(a, x)[0] == PutBody(b, y)[0];
    match a {
      case Send(to, amount, zts) =>
        TailOf('0', PutStr(to, PutNum(amount, PutStr(zts, x))), PutStr(b.to, PutNum(b.amount, PutStr(b.zts, y))));
        StrUnique(to, b.to, PutNum(amount, PutStr(zts, x)), PutNum(b.amount, PutStr(b.zts, y)));
        NumUnique(amount, b.amount, PutStr(zts, x), PutStr(b.zts, y));
        StrUnique(zts, b.zts, x, y);
      case Receive(p) =>
        var q := b.source;
        TailOf('1', PutNum(p.id, PutStr(p.zts, PutNum(p.amount, x))), PutNum(q.id, PutStr(q.zts, PutNum(q.amount, y))));
        NumUnique(p.id, q.id, PutStr(p.zts, PutNum(p.amount, x)), PutStr(q.zts, PutNum(q.amount, y)));
        StrUnique(p.zts, q.zts, PutNum(p.amount, x), PutNum(q.amount, y));
        NumUnique(p.amount, q.amount, x, y);
    }
  }

  lemma {:induction false} HashUnique(g: Hash, h: Hash, x: string, y: string)
    requires PutHash(g, x) == PutHash(h, y)
    ensures g == h && x == y
  {
    hide PutBody, PutNum;
    assert PutHash(g, x)[0] == PutHash(h, y)[0];
    match g {
      case ZeroHash => TailOf('0', x, y);
      case HashOf(a) =>
        var b := h.block;
        var x1, y1 := PutNum(a.stamp, x), PutNum(b.stamp, y);
        var x2, y2 := PutNum(a.height, PutBody(a.body, x1)), PutNum(b.height, PutBody(b.body, y1));
        TailOf('1', PutHash(a.previous, x2), PutHash(b.previous, y2));
        HashUnique(a.previous, b.previous, x2, y2);
        NumUnique(a.height, b.height, PutBody(a.body, x1), PutBody(b.body, y1));
        BodyUnique(a.body, b.body, x1, y1);
        NumUnique(a.stamp, b.stamp, x, y);
    }
  }

  lemma CodeUnique(d: Entry, e: Entry)
    requires Code(d) == Code(e)
    ensures d == e
  {
    hide PutStr, PutNum, PutHash;
    var x5, y5 := PutHash(d.hash, PutNum(d.time, "")), PutHash(e.hash, PutNum(e.time, ""));
    var x4, y4 := PutStr(d.zts, x5), PutStr(e.zts, y5);
    var x3, y3 := PutNum(d.amount, x4), PutNum(e.amount, y4);
    var x2, y2 := PutStr(d.address, x3), PutStr(e.address, y3);
    StrUnique(d.run.preimage, e.run.preimage, PutNum(d.index, x2), PutNum(e.index, y2));
    NumUnique(d.index, e.index, x2, y2);
    StrUnique(d.address, e.address, x3, y3);
    NumUnique(d.amount, e.amount, x4, y4);
    StrUnique(d.zts, e.zts, x5, y5);
    HashUnique(d.hash, e.hash, PutNum(d.time, ""), PutNum(e.time, ""));
    NumUnique(d.time, e.time, "", "");
  }

  // ---------- an object on one line ----------

  predicate Bits(s: string) {
    forall i | 0 <= i < |s| :: s[i] == '0' || s[i] == '1'
  }

  lemma {:induction false} NumBits(n: nat, rest: string)
    requires Bits(rest)
    ensures Bits(PutNum(n, rest))
  {
    if n > 0 {
      NumBits(n - 1, rest);
    }
  }

  lemma {:induction false} StrBits(s: string, rest: string)
    requires Bits(rest)
    ensures Bits(PutStr(s, rest))
  {
    if s != "" {
      StrBits(s[1..], rest);
      NumBits(s[0] as nat, PutStr(s[1..], rest));
    }
  }

  lemma BodyBits(b: Body, rest: string)
    requires Bits(rest)
    ensures Bits(PutBody(b, rest))
  {
    hide PutStr, PutNum;
    match b {
      case Send(to, amount, zts) =>
        StrBits(zts, rest);
        NumBits(amount, PutStr(zts, rest));
        StrBits(to, PutNum(amount, PutStr(zts, rest)));
      case Receive(p) =>
        NumBits(p.amount, rest);
        StrBits(p.zts, PutNum(p.amount, rest));
        NumBits(p.id, PutStr(p.zts, PutNum(p.amount, rest)));
    }
  }

  lemma {:induction false} HashBits(h: Hash, rest: string)
    requires Bits(rest)
    ensures Bits(PutHash(h, rest))
  {
    hide PutBody, PutNum;
    match h {
      case ZeroHash =>
      case HashOf(b) =>
        NumBits(b.stamp, rest);
        BodyBits(b.body, PutNum(b.stamp, rest));
        NumBits(b.height, PutBody(b.body, PutNum(b.stamp, rest)));
        HashBits(b.previous, PutNum(b.height, PutBody(b.body, PutNum(b.stamp, rest))));
    }
  }

  lemma CodeBits(e: Entry)
    ensures Bits(Code(e))
  {
    hide PutStr, PutNum, PutHash;
    var x6 := PutNum(e.time, "");
    NumBits(e.time, "");
    var x5 := PutHash(e.hash, x6);
    HashBits(e.hash, x6);
    StrBits(e.zts, x5);
    NumBits(e.amount, PutStr(e.zts, x5));
    var x3 := PutNum(e.amount, PutStr(e.zts, x5));
    StrBits(e.address, x3);
    NumBits(e.index, PutStr(e.address, x3));
    StrBits(e.run.preimage, PutNum(e.index, PutStr(e.address, x3)));
  }

  function Marshal(e: Entry): string {
    "{" + Code(e) + "}"
  }

  ghost function Unmarshal(s: string): Option<Entry> {
    if exists e :: Marshal(e) == s then
      var e :| Marshal(e) == s;
      Some(e)
    else None
  }

  lemma UnmarshalFinds(e: Entry) returns (d: Entry)
    ensures Unmarshal(Marshal(e)) == Some(d) && Marshal(d) == Marshal(e)
  {
    d := Unmarshal(Marshal(e)).value;
  }

  /** Two entries whose texts agree up to the end of one of them are the same entry, and the texts
      end together. */
  lemma TextsEndTogether(d: Entry, e: Entry, x: string)
    requires Marshal(d) + x == Marshal(e)
    ensures d == e && x == ""
  {
    hide Code;
    var m, n := Marshal(d), Marshal(e);
    CodeBits(d);
    CodeBits(e);
    assert (m + x)[|m| - 1] == '}';
    assert forall i | 0 <= i < |n| - 1 :: n[i] != '}';
    assert m[1..|m| - 1] == Code(d) && n[1..|n| - 1] == Code(e);
    CodeUnique(d, e);
  }

  /** The laws asked of the journal's encoding are consistent. */
  lemma LawfulCodecExists()
    ensures exists c: Codec :: Lawful(c)
  {
    hide Code;
    var c := Codec(Marshal, s => Unmarshal(s), s => true);
    forall e ensures c.unmarshal(c.marshal(e)) == Some(e) && OneLineObject(c.marshal(e)) {
      var d := UnmarshalFinds(e);
      assert Marshal(d) + "" == Marshal(e);
      TextsEndTogether(d, e, "");
      CodeBits(e);
    }
    forall e, k | 0 < k < |c.marshal(e)| ensures c.unmarshal(c.marshal(e)[..k]) == None {
      forall d ensures Marshal(d) != Marshal(e)[..k] {
        if Marshal(d) == Marshal(e)[..k] {
          TextsEndTogether(d, e, Marshal(e)[k..]);
        }
      }
    }
    forall e, x | x != "" && x[0] == '{' ensures c.unmarshal(c.marshal(e) + x) == None {
      forall d ensures Marshal(d) != Marshal(e) + x {
        if Marshal(d) == Marshal(e) + x {
          TextsEndTogether(e, d, x);
        }
      }
    }
    assert Lawful(c);
  }
}
