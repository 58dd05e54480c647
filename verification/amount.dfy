/** Human amounts and smallest-unit integers (amount.go). */
module Amount {
  import opened Basics
  import opened Decimal

  datatype AmountError = Empty | Negative | TooPrecise | NotANumber | RoundsToZero

  // ---------- the string helpers of the Go standard library ----------

  /** unicode.IsSpace */
  predicate IsSpace(c: char): (space: bool)
    ensures var n := c as int;
            space <==> 9 <= n <= 13 || 0x2000 <= n <= 0x200A
                       || n in {0x20, 0x85, 0xA0, 0x1680, 0x2028, 0x2029, 0x202F, 0x205F, 0x3000}
  {
    c in "\t\n\U{0B}\U{0C}\r \U{85}\U{A0}\U{1680}\U{2028}\U{2029}\U{202F}\U{205F}\U{3000}"
    || '\U{2000}' <= c <= '\U{200A}'
  }

  function TrimLeft(s: string): string {
    if s != "" && IsSpace(s[0]) then TrimLeft(s[1..]) else s
  }

  function TrimRight(s: string): string {
    if s != "" && IsSpace(s[|s| - 1]) then TrimRight(s[..|s| - 1]) else s
  }

  function TrimSpace(s: string): string {
    TrimRight(TrimLeft(s))
  }

  /** strings.ReplaceAll(s, "_", "") */
  function RemoveUnderscores(s: string): string {
    if s == "" then ""
    else (if s[0] == '_' then "" else [s[0]]) + RemoveUnderscores(s[1..])
  }

  /** What the parser looks at: outer space removed first, underscores second. */
  function Clean(s: string): string {
    RemoveUnderscores(TrimSpace(s))
  }

  /** strings.Cut */
  function Cut(s: string, c: char): (string, string, bool) {
    var i := IndexOf(s, c);
    if i == |s| then (s, "", false) else (s[..i], s[i + 1..], true)
  }

  /** strings.TrimRight(s, "0") */
  function TrimZeros(s: string): string {
    if s != "" && s[|s| - 1] == '0' then TrimZeros(s[..|s| - 1]) else s
  }

  // ---------- the two conversions ----------

  /** The digits of a fraction as they are appended to the whole part. */
  function Tail(frac: string, decimals: nat): string {
    if |frac| > decimals then frac[..decimals] else frac + Zeros(decimals - |frac|)
  }

  /** Excess places, scaling and conversion. */
  function ParseDigits(whole: string, frac: string, decimals: nat): Result<int, AmountError> {
    if |frac| > decimals && !AllZeros(frac[decimals..]) then Err(TooPrecise)
    else
      match SetString(whole + Tail(frac, decimals))
      case None => Err(NotANumber)
      case Some(v) => if v == 0 then Err(RoundsToZero) else Ok(v)
  }

  /** The parser after it has cut the text at the point. */
  function ParseParts(whole: string, frac: string, hasFrac: bool, decimals: nat): Result<int, AmountError> {
    ParseDigits(if whole == "" then "0" else whole, if hasFrac && frac == "" then "0" else frac, decimals)
  }

  function ParseAmount(text: string, decimals: nat): Result<int, AmountError> {
    var s := Clean(text);
    if s == "" then Err(Empty)
    else if s[0] == '-' then Err(Negative)
    else
      var (cutWhole, cutFrac, hasFrac) := Cut(s, '.');
      ParseParts(cutWhole, cutFrac, hasFrac, decimals)
  }

  function FormatAmount(v: int, decimals: nat): string {
    if decimals == 0 then PrintInt(v)
    else
      var unit := Pow10(decimals);
      var abs: nat := if v < 0 then -v else v;
      var (whole, frac) := QuoRem(abs, unit);
      var sign := if v < 0 then "-" else "";
      if frac == 0 then sign + Print(whole)
      else sign + Print(whole) + "." + TrimZeros(Padded(frac, decimals))
  }

  /** The fraction's digits, left-padded to the token's width. */
  function Padded(frac: nat, decimals: nat): string
    requires decimals > 0 && frac < Pow10(decimals)
  {
    PrintWidth(frac, decimals);
    Zeros(decimals - |Print(frac)|) + Print(frac)
  }

  // ---------- what an accepted amount is ----------

  /** t is an optional plus sign, the digits whole, and optionally a point and the digits frac. */
  ghost predicate Spells(t: string, whole: string, frac: string) {
    && Digits(whole) && Digits(frac)
    && (t == whole + "." + frac || t == "+" + whole + "." + frac
        || (frac == "" && (t == whole || t == "+" + whole)))
  }

  /** whole.frac times 10^decimals is exactly v. */
  ghost predicate Scales(whole: string, frac: string, decimals: nat, v: int)
    requires Digits(whole) && Digits(frac)
  {
    assert Digits(whole + frac);
    Value(whole + frac) * Pow10(decimals) == v * Pow10(|frac|)
  }

  ghost predicate AllSpace(s: string) {
    forall i | 0 <= i < |s| :: IsSpace(s[i])
  }

  /** t is s without the space around it. */
  ghost predicate Trimmed(s: string, t: string) {
    && (exists l, r :: AllSpace(l) && AllSpace(r) && s == l + t + r)
    && (t != "" ==> !IsSpace(t[0]) && !IsSpace(t[|t| - 1]))
  }

  /** u is t with exactly the underscores left out: at names the places in t it comes from. */
  ghost predicate Dropped(t: string, u: string, at: seq<nat>) {
    && |at| == |u|
    && (forall k | 0 <= k < |at| :: at[k] < |t| && t[at[k]] == u[k] != '_')
    && (forall j, k | 0 <= j < k < |at| :: at[j] < at[k])
    && forall i: nat | i < |t| && t[i] != '_' :: i in at
  }

  /** u is what is left of s without the space around it and without underscores. */
  ghost predicate Cleaned(s: string, u: string) {
    exists t, at :: Trimmed(s, t) && Dropped(t, u, at)
  }

  /** The input denotes the positive integer v of smallest units, with nothing rounded away. */
  ghost predicate Denotes(text: string, decimals: nat, v: int) {
    v > 0 && exists u, whole, frac :: Cleaned(text, u) && Spells(u, whole, frac) && Scales(whole, frac, decimals, v)
  }

  // ---------- what is looked at ----------

  lemma {:induction false} TrimLeftIs(l: string, x: string)
    requires AllSpace(l) && (x != "" ==> !IsSpace(x[0]))
    ensures TrimLeft(l + x) == x
  {
    hide IsSpace;
    if l == "" {
      assert l + x == x;
    } else {
      var s := l + x;
      assert s[0] == l[0] && s[1..] == l[1..] + x;
      TrimLeftIs(l[1..], x);
    }
  }

  lemma {:induction false} TrimRightIs(x: string, r: string)
    requires AllSpace(r) && (x != "" ==> !IsSpace(x[|x| - 1]))
    ensures TrimRight(x + r) == x
  {
    hide IsSpace;
    if r == "" {
      assert x + r == x;
    } else {
      var s, n := x + r, |r| - 1;
      assert s[|s| - 1] == r[n] && s[..|s| - 1] == x + r[..n];
      TrimRightIs(x, r[..n]);
    }
  }

  lemma {:induction false} TrimLeftSplits(s: string) returns (l: string)
    ensures AllSpace(l) && s == l + TrimLeft(s) && (TrimLeft(s) != "" ==> !IsSpace(TrimLeft(s)[0]))
  {
    hide IsSpace;
    if s != "" && IsSpace(s[0]) {
      var rest := TrimLeftSplits(s[1..]);
      l := [s[0]] + rest;
    } else {
      l := "";
    }
  }

  lemma {:induction false} TrimRightSplits(s: string) returns (r: string)
    ensures AllSpace(r) && s == TrimRight(s) + r
    ensures var t := TrimRight(s); t != "" ==> !IsSpace(t[|t| - 1])
  {
    hide IsSpace;
    if s != "" && IsSpace(s[|s| - 1]) {
      var n := |s| - 1;
      var rest := TrimRightSplits(s[..n]);
      r := rest + [s[n]];
      assert s == s[..n] + [s[n]] && TrimRight(s) == TrimRight(s[..n]);
    } else {
      r := "";
    }
  }

  /** TrimSpace takes off exactly the space around the text. */
  lemma TrimSpaceIs(s: string, t: string)
    ensures Trimmed(s, t) <==> t == TrimSpace(s)
  {
    hide IsSpace;
    var l := TrimLeftSplits(s);
    var r := TrimRightSplits(TrimLeft(s));
    assert s == l + TrimSpace(s) + r;
    if Trimmed(s, t) {
      var a, b :| AllSpace(a) && AllSpace(b) && s == a + t + b;
      if t == "" {
        assert AllSpace(s) && s + "" == s;
        TrimLeftIs(s, "");
      } else {
        assert s == a + (t + b);
        TrimLeftIs(a, t + b);
        TrimRightIs(t, b);
      }
    }
  }

  lemma RemoveFirst(c: char, rest: string)
    ensures RemoveUnderscores([c] + rest) == (if c == '_' then "" else [c]) + RemoveUnderscores(rest)
  {
    assert ([c] + rest)[1..] == rest;
  }

  lemma {:induction false} RemoveConcat(a: string, b: string)
    ensures RemoveUnderscores("") == ""
    ensures RemoveUnderscores(a + b) == RemoveUnderscores(a) + RemoveUnderscores(b)
  {
    if a == "" {
      assert a + b == b;
    } else {
      hide RemoveUnderscores;
      RemoveConcat(a[1..], b);
      RemoveFirst(a[0], a[1..]);
      RemoveFirst(a[0], a[1..] + b);
      assert a == [a[0]] + a[1..] && a + b == [a[0]] + (a[1..] + b);
    }
  }

  lemma RemoveLast(t: string, c: char)
    ensures RemoveUnderscores(t + [c]) == if c == '_' then RemoveUnderscores(t) else RemoveUnderscores(t) + [c]
  {
    hide RemoveUnderscores;
    RemoveConcat(t, [c]);
    RemoveFirst(c, "");
    assert [c] + "" == [c];
    assert RemoveUnderscores(t) + "" == RemoveUnderscores(t);
  }

  lemma DroppedLast(t: string, u: string, at: seq<nat>, c: char)
    requires Dropped(t, u, at)
    ensures Dropped(t + [c], if c == '_' then u else u + [c], if c == '_' then at else at + [|t|])
  {
    var more := if c == '_' then at else at + [|t|];
    forall i: nat | i <= |t| && (t + [c])[i] != '_' ensures i in more {
      assert if i < |t| then i in at else more[|more| - 1] == i;
    }
  }

  lemma NothingDropped()
    ensures Dropped("", "", [])
  {
  }

  lemma {:induction false} RemoveDrops(t: string) returns (at: seq<nat>)
    ensures Dropped(t, RemoveUnderscores(t), at)
  {
    hide RemoveUnderscores, Dropped;
    RemoveConcat("", "");
    if t == "" {
      at := [];
      NothingDropped();
    } else {
      var n := |t| - 1;
      at := RemoveDrops(t[..n]);
      RemoveLast(t[..n], t[n]);
      DroppedLast(t[..n], RemoveUnderscores(t[..n]), at, t[n]);
      at := if t[n] == '_' then at else at + [n];
      assert t == t[..n] + [t[n]];
    }
  }

  /** What is dropped from a longer text. */
  lemma DroppedFront(t: string, c: char, u: string, at: seq<nat>)
    requires Dropped(t + [c], u, at)
    ensures c == '_' ==> Dropped(t, u, at)
    ensures c != '_' ==> u != "" && var m := |u| - 1; u == u[..m] + [c] && Dropped(t, u[..m], at[..m])
  {
    var s := t + [c];
    assert forall i | 0 <= i < |t| :: s[i] == t[i];
    if c != '_' {
      assert s[|t|] == c;
      var m := |at| - 1;
      assert |t| in at && at[m] == |t|;
      forall i: nat | i < |t| && t[i] != '_' ensures i in at[..m] {
        assert at == at[..m] + [at[m]];
      }
    }
  }

  lemma DroppedWithin(t: string, u: string, at: seq<nat>)
    requires Dropped(t, u, at)
    ensures u != "" ==> t != ""
  {
    if u != "" {
      assert at[0] < |t|;
    }
  }

  lemma {:induction false} DropsOnlyThat(t: string, u: string, at: seq<nat>)
    requires Dropped(t, u, at)
    ensures u == RemoveUnderscores(t)
  {
    if t == "" {
      DroppedWithin(t, u, at);
    } else {
      hide Dropped, RemoveUnderscores;
      var n := |t| - 1;
      assert t == t[..n] + [t[n]];
      RemoveLast(t[..n], t[n]);
      DroppedFront(t[..n], t[n], u, at);
      if t[n] == '_' {
        DropsOnlyThat(t[..n], u, at);
      } else {
        DropsOnlyThat(t[..n], u[..|u| - 1], at[..|u| - 1]);
      }
    }
  }

  /** The parser looks at the text without the space around it and without its underscores. */
  lemma CleanIs(s: string, u: string)
    ensures Cleaned(s, u) <==> u == Clean(s)
  {
    hide TrimSpace, RemoveUnderscores, Trimmed, Dropped;
    var trimmed := TrimSpace(s);
    TrimSpaceIs(s, trimmed);
    var at := RemoveDrops(trimmed);
    assert Trimmed(s, trimmed) && Dropped(trimmed, Clean(s), at);
    if Cleaned(s, u) {
      var t, places :| Trimmed(s, t) && Dropped(t, u, places);
      TrimSpaceIs(s, t);
      DropsOnlyThat(t, u, places);
    }
  }

  // ---------- the arithmetic core ----------

  /** The integer the digits spell at this scale, or None when a non-zero digit does not fit. */
  ghost function Scaled(whole: string, frac: string, decimals: nat): Option<int>
    requires Digits(whole) && Digits(frac)
  {
    if |frac| > decimals then
      if AllZeros(frac[decimals..]) then
        assert Digits(whole + frac[..decimals]);
        Some(Value(whole + frac[..decimals]))
      else None
    else
      assert Digits(whole + frac + Zeros(decimals - |frac|));
      Some(Value(whole + frac + Zeros(decimals - |frac|)))
  }

  lemma ScaledIsNatural(whole: string, frac: string, decimals: nat)
    requires Digits(whole) && Digits(frac)
    ensures Scaled(whole, frac, decimals).Some? ==> Scaled(whole, frac, decimals).value >= 0
  {
    hide Value;
  }

  lemma ScaledIsExact(whole: string, frac: string, decimals: nat, v: int)
    requires Digits(whole) && Digits(frac)
    ensures Scales(whole, frac, decimals, v) <==> Scaled(whole, frac, decimals) == Some(v)
  {
    if |frac| > decimals {
      ExcessIsExact(whole, frac[..decimals], frac[decimals..], v);
      assert frac == frac[..decimals] + frac[decimals..];
    } else {
      FillIsExact(whole, frac, decimals - |frac|, v);
    }
  }

  lemma ExcessSplit(whole: string, kept: string, excess: string) returns (x: nat, a: nat, e: nat)
    requires Digits(whole) && Digits(kept) && Digits(excess)
    ensures Digits(kept + excess) && Digits(whole + kept) && Digits(whole + (kept + excess))
    ensures x == Value(whole + (kept + excess)) && a == Value(whole + kept) && e == Value(excess)
    ensures x == a * Pow10(|excess|) + e && e < Pow10(|excess|) && (AllZeros(excess) <==> e == 0)
  {
    hide Value, Pow10;
    assert Digits(whole + kept) && Digits(kept + excess);
    ValueConcat(whole + kept, excess);
    assert whole + (kept + excess) == whole + kept + excess;
    ZerosValue(excess);
    ValueBound(excess);
    x, a, e := Value(whole + (kept + excess)), Value(whole + kept), Value(excess);
  }

  /** More places written than the token has. */
  lemma ExcessIsExact(whole: string, kept: string, excess: string, v: int)
    requires Digits(whole) && Digits(kept) && Digits(excess)
    ensures Digits(kept + excess) && Digits(whole + kept)
    ensures Scales(whole, kept + excess, |kept|, v) <==> AllZeros(excess) && v == Value(whole + kept)
  {
    hide Value, Pow10, Digits, AllZeros;
    var x, a, e := ExcessSplit(whole, kept, excess);
    PowAdd(|excess|, |kept|);
    ExcessMustVanish(x, a, e, Pow10(|excess|), Pow10(|kept|), Pow10(|kept + excess|), v);
  }

  /** At most as many places written as the token has. */
  lemma FillIsExact(whole: string, frac: string, fill: nat, v: int)
    requires Digits(whole) && Digits(frac)
    ensures Digits(whole + frac + Zeros(fill))
    ensures Scales(whole, frac, |frac| + fill, v) <==> v == Value(whole + frac + Zeros(fill))
  {
    hide Value, Pow10;
    assert Digits(whole + frac);
    ValueConcat(whole + frac, Zeros(fill));
    ZerosValue(Zeros(fill));
    PowAdd(fill, |frac|);
    PaddingIsExact(Value(whole + frac), Pow10(fill), Pow10(|frac|), v);
  }

  lemma PaddingIsExact(a: nat, q: nat, p: nat, v: int)
    requires p > 0
    ensures a * (q * p) == v * p <==> a * q == v
  {
    assert a * (q * p) == (a * q) * p;
    if (a * q) * p == v * p {
      CancelRight(a * q, v, p);
    }
  }

  /** With x = a*k + e, 0 <= e < k and n = k*d: x*d == v*n happens just when e is 0 and v is a. */
  lemma ExcessMustVanish(x: nat, a: nat, e: nat, k: nat, d: nat, n: nat, v: int)
    requires x == a * k + e && e < k && d > 0 && n == k * d
    ensures x * d == v * n <==> e == 0 && v == a
  {
    assert v * n == (v * k) * d;
    if x * d == (v * k) * d {
      CancelRight(x, v * k, d);
      if a < v {
        MulStep(a, v, k);
      } else if v < a {
        MulStep(v, a, k);
      }
    }
  }

  // ---------- ParseAmount is exact ----------

  lemma CutIsUnique(s: string, a: string, b: string)
    requires s == a + "." + b && '.' !in a
    ensures Cut(s, '.') == (a, b, true)
  {
    assert s[|a|] == '.';
    assert forall k | 0 <= k < |a| :: s[k] == a[k];
    assert s[..|a|] == a && s[|a| + 1..] == b;
  }

  lemma SetStringDigits(body: string)
    requires Digits(body) && body != ""
    ensures SetString(body) == Some(Value(body))
    ensures SetString("+" + body) == Some(Value(body))
  {
    assert ("+" + body)[1..] == body;
  }

  /** The whole part as the parser cuts it out, sign included. */
  function Signed(plus: bool, whole: string): string {
    if plus then "+" + whole else whole
  }

  /** Any sign split off, the digits handed to SetString are the ones of the two parts. */
  lemma SignSplit(whole: string, plus: bool, tail: string)
    requires Digits(whole) && Digits(tail) && Digits(whole + tail)
    ensures
      var cut := Signed(plus, whole);
      var digits := (if cut == "" then "0" else cut) + tail;
      SetString(digits) == if digits == "+" then None else Some(Value(whole + tail))
  {
    var body := whole + tail;
    if plus {
      assert "+" + whole + tail == "+" + body;
      if body == "" {
        assert ("+" + body)[1..] == "";
      } else {
        SetStringDigits(body);
      }
    } else if whole == "" {
      assert body == tail;
      LeadingZero(tail);
      SetStringDigits("0" + tail);
    } else {
      SetStringDigits(body);
    }
  }

  lemma LeadingZero(s: string)
    requires Digits(s)
    ensures Digits("0" + s) && Value("0" + s) == Value(s)
  {
    ZerosValue("0");
    ValueConcat("0", s);
  }

  lemma ScaledTail(whole: string, frac: string, decimals: nat)
    requires Digits(whole) && Digits(frac)
    ensures Digits(Tail(frac, decimals)) && Digits(whole + Tail(frac, decimals))
    ensures Scaled(whole, frac, decimals) ==
            if |frac| > decimals && !AllZeros(frac[decimals..]) then None
            else Some(Value(whole + Tail(frac, decimals)))
  {
    if |frac| <= decimals {
      assert whole + frac + Zeros(decimals - |frac|) == whole + Tail(frac, decimals);
    }
  }

  /** Once the fraction is filled in: what the digits scale to, unless that is nothing or 0. */
  lemma DigitsSpelled(whole: string, plus: bool, f: string, decimals: nat, v: int)
    requires Digits(whole) && Digits(f)
    ensures var cut := Signed(plus, whole);
            ParseDigits(if cut == "" then "0" else cut, f, decimals) == Ok(v)
            <==> v != 0 && Scaled(whole, f, decimals) == Some(v)
    ensures var cut := Signed(plus, whole);
            ParseDigits(if cut == "" then "0" else cut, f, decimals) == Err(RoundsToZero)
            <==> Scaled(whole, f, decimals) == Some(0) && !(plus && whole == "" && decimals == 0)
  {
    ScaledTail(whole, f, decimals);
    var tail := Tail(f, decimals);
    SignSplit(whole, plus, tail);
    var cut := Signed(plus, whole);
    var w := if cut == "" then "0" else cut;
    if w + tail == "+" {
      assert whole + tail == "";
    }
  }

  /** Between the cut and the result. */
  lemma PartsSpelled(whole: string, plus: bool, frac: string, hasFrac: bool, decimals: nat, v: int)
    requires Digits(whole) && Digits(frac) && (!hasFrac ==> frac == "")
    ensures ParseParts(Signed(plus, whole), frac, hasFrac, decimals) == Ok(v)
            <==> v != 0 && Scaled(whole, frac, decimals) == Some(v)
    ensures ParseParts(Signed(plus, whole), frac, hasFrac, decimals) == Err(RoundsToZero)
            <==> Scaled(whole, frac, decimals) == Some(0) && !(plus && whole == "" && decimals == 0)
  {
    if hasFrac && frac == "" {
      PointZero(whole, decimals);
      DigitsSpelled(whole, plus, "0", decimals, v);
    } else {
      DigitsSpelled(whole, plus, frac, decimals, v);
    }
  }

  /** On a well-spelled input the parser returns the scaled digits, and nothing when they are 0. */
  lemma ParseSpelled(text: string, decimals: nat, whole: string, frac: string, v: int)
    requires Spells(Clean(text), whole, frac)
    ensures ParseAmount(text, decimals) == Ok(v)
            <==> v != 0 && Scaled(whole, frac, decimals) == Some(v)
    ensures var t := Clean(text);
            ParseAmount(text, decimals) == Err(RoundsToZero)
            <==> t != "" && Scaled(whole, frac, decimals) == Some(0)
                 && !(t[0] == '+' && whole == "" && decimals == 0)
  {
    var t := Clean(text);
    var plus := t != "" && t[0] == '+';
    var cut := Signed(plus, whole);
    var hasFrac := t != cut;
    if hasFrac {
      assert t == cut + "." + frac;
      CutIsUnique(t, cut, frac);
    } else {
      assert frac == "" && Cut(t, '.') == (t, "", false);
    }
    PartsSpelled(whole, plus, frac, hasFrac, decimals, v);
    if t == "" {
      ScaledTail("", "", decimals);
      ZerosValue("" + Tail("", decimals));
    }
  }

  /** "1." is read as "1.0": both scale to the same integer. */
  lemma PointZero(whole: string, decimals: nat)
    requires Digits(whole)
    ensures Scaled(whole, "0", decimals) == Scaled(whole, "", decimals)
  {
    assert whole + "" == whole;
    if decimals == 0 {
      assert "0"[..0] == "";
      assert whole + Zeros(0) == whole;
    } else {
      assert whole + "0" + Zeros(decimals - 1) == whole + Zeros(decimals);
    }
  }

  /** A text SetString accepts is one optional sign and digits. */
  lemma SetStringShape(s: string)
    requires SetString(s).Some?
    ensures s != "" && forall i | 1 <= i < |s| :: IsDigit(s[i])
    ensures IsDigit(s[0]) || s[0] == '+' || s[0] == '-'
  {
    var signed := s[0] == '-' || s[0] == '+';
    var body := if signed then s[1..] else s;
    assert forall i | 1 <= i < |s| :: s[i] == if signed then body[i - 1] else body[i];
  }

  lemma DigitsOfPrefix(w: string, tail: string)
    requires w != "" && forall i | 1 <= i < |w + tail| :: IsDigit((w + tail)[i])
    ensures Digits(tail) && forall i | 1 <= i < |w| :: IsDigit(w[i])
  {
    var all := w + tail;
    assert forall i | 0 <= i < |tail| :: tail[i] == all[|w| + i];
    assert forall i | 0 <= i < |w| :: w[i] == all[i];
  }

  lemma AcceptedDigits(w: string, f: string, decimals: nat)
    requires w != "" && (ParseDigits(w, f, decimals).Ok? || ParseDigits(w, f, decimals) == Err(RoundsToZero))
    ensures Digits(f) && (forall i | 1 <= i < |w| :: IsDigit(w[i]))
    ensures IsDigit(w[0]) || w[0] == '+' || w[0] == '-'
  {
    var tail := Tail(f, decimals);
    SetStringShape(w + tail);
    DigitsOfPrefix(w, tail);
    assert forall i | 0 <= i < |f| :: IsDigit(f[i]) by {
      if |f| > decimals {
        assert f == f[..decimals] + f[decimals..];
      } else {
        assert forall i | 0 <= i < |f| :: f[i] == tail[i];
      }
    }
  }

  /** Putting a cut text back together. */
  lemma CutJoins(s: string)
    ensures var (a, b, cut) := Cut(s, '.'); s == (if cut then a + "." + b else a)
    ensures var (a, b, cut) := Cut(s, '.'); a != "" ==> a[0] == s[0]
    ensures var (a, b, cut) := Cut(s, '.'); !cut ==> b == ""
  {
  }

  /** An input that is accepted or denotes zero is well spelled. */
  lemma AcceptedIsSpelled(text: string, decimals: nat) returns (whole: string, frac: string)
    requires ParseAmount(text, decimals).Ok? || ParseAmount(text, decimals) == Err(RoundsToZero)
    ensures Spells(Clean(text), whole, frac)
  {
    hide Clean, Cut, ParseDigits;
    var s := Clean(text);
    var (a, b, hasFrac) := Cut(s, '.');
    CutJoins(s);
    AcceptedDigits(if a == "" then "0" else a, if hasFrac && b == "" then "0" else b, decimals);
    var plus := a != "" && a[0] == '+';
    whole, frac := if plus then a[1..] else a, b;
    assert a == Signed(plus, whole);
    assert Digits(whole) && Digits(frac);
  }

  /** ParseAmount accepts exactly the spellings of a positive whole number of smallest
      units, and the number it returns is exactly the one spelled. */
  lemma ParseIsExact(text: string, decimals: nat, v: int)
    ensures ParseAmount(text, decimals) == Ok(v) <==> Denotes(text, decimals, v)
  {
    hide Clean, Cleaned, ParseAmount, Scales, Scaled;
    if ParseAmount(text, decimals) == Ok(v) {
      var whole, frac := AcceptedIsSpelled(text, decimals);
      ParseSpelled(text, decimals, whole, frac, v);
      ScaledIsExact(whole, frac, decimals, v);
      CleanIs(text, Clean(text));
      ScaledIsNatural(whole, frac, decimals);
    }
    if Denotes(text, decimals, v) {
      var u, whole, frac :| Cleaned(text, u) && Spells(u, whole, frac) && Scales(whole, frac, decimals, v);
      CleanIs(text, u);
      ParseSpelled(text, decimals, whole, frac, v);
      ScaledIsExact(whole, frac, decimals, v);
    }
  }

  /** Cut at its point, if it has one, the text has a non-zero digit (or anything else but a zero)
      beyond the token's places. */
  ghost predicate Excessive(u: string, decimals: nat) {
    exists whole, frac ::
      u == whole + "." + frac && '.' !in whole && |frac| > decimals && !AllZeros(frac[decimals..])
  }

  /** It spells zero, in digits that survive the cut to the token's places. */
  ghost predicate SpellsZero(u: string, decimals: nat) {
    exists whole, frac ::
      Spells(u, whole, frac) && AllZeros(whole + frac) && !(u != "" && u[0] == '+' && whole == "" && decimals == 0)
  }

  /** Why an input is refused: nothing is left of it, it is negative, it is too precise, it spells
      zero, or else it is not a number. */
  lemma RefusedExactly(text: string, decimals: nat, u: string)
    requires Cleaned(text, u)
    ensures var r, signless := ParseAmount(text, decimals), u != "" && u[0] != '-';
            && (r == Err(Empty) <==> u == "")
            && (r == Err(Negative) <==> u != "" && u[0] == '-')
            && (r == Err(TooPrecise) <==> signless && Excessive(u, decimals))
            && (r == Err(RoundsToZero) <==> signless && SpellsZero(u, decimals))
  {
    hide Clean, Cleaned, SetString, Scaled, Tail;
    CleanIs(text, u);
    if u != "" && u[0] != '-' {
      ExcessiveExactly(text, decimals, u);
      ZeroExactly(text, decimals, u);
    }
  }

  lemma ExcessiveExactly(text: string, decimals: nat, u: string)
    requires u == Clean(text) && u != "" && u[0] != '-'
    ensures ParseAmount(text, decimals) == Err(TooPrecise) <==> Excessive(u, decimals)
  {
    hide Clean, SetString, Tail;
    var (a, b, cut) := Cut(u, '.');
    CutJoins(u);
    if ParseAmount(text, decimals) == Err(TooPrecise) {
      assert u == a + "." + b;
    }
    if Excessive(u, decimals) {
      var whole, frac :| u == whole + "." + frac && '.' !in whole && |frac| > decimals && !AllZeros(frac[decimals..]);
      CutIsUnique(u, whole, frac);
    }
  }

  lemma ZeroExactly(text: string, decimals: nat, u: string)
    requires u == Clean(text) && u != ""
    ensures ParseAmount(text, decimals) == Err(RoundsToZero) <==> SpellsZero(u, decimals)
  {
    hide Clean, ParseAmount, Scaled, Spells, Value;
    if ParseAmount(text, decimals) == Err(RoundsToZero) {
      var whole, frac := AcceptedIsSpelled(text, decimals);
      ParseSpelled(text, decimals, whole, frac, 0);
      ScaledZero(u, decimals, whole, frac);
    }
    if SpellsZero(u, decimals) {
      var whole, frac :| Spells(u, whole, frac) && AllZeros(whole + frac)
                         && !(u != "" && u[0] == '+' && whole == "" && decimals == 0);
      ParseSpelled(text, decimals, whole, frac, 0);
      ScaledZero(u, decimals, whole, frac);
    }
  }

  lemma ScaledZero(u: string, decimals: nat, whole: string, frac: string)
    requires Spells(u, whole, frac)
    ensures Scaled(whole, frac, decimals) == Some(0) <==> AllZeros(whole + frac)
  {
    hide Scaled, Value, AllZeros;
    ScaledIsExact(whole, frac, decimals, 0);
    assert Digits(whole + frac);
    ZerosValue(whole + frac);
    TimesIsZero(Value(whole + frac), Pow10(decimals), Pow10(|frac|));
  }

  lemma TimesIsZero(a: nat, p: nat, q: nat)
    requires p > 0
    ensures a * p == 0 * q <==> a == 0
  {
    if a * p == 0 && a > 0 {
      MulMonotone(0, a, p);
    }
  }

  lemma TimesTen(a: int, p: int, v: int, q: int)
    requires a * p == v * q
    ensures a * (10 * p) == (10 * v) * q
  {
  }

  /** One more decimal place multiplies the accepted amount by ten. */
  lemma OneMoreDecimal(text: string, decimals: nat, v: int)
    requires ParseAmount(text, decimals) == Ok(v)
    ensures ParseAmount(text, decimals + 1) == Ok(10 * v)
  {
    ParseIsExact(text, decimals, v);
    var u, whole, frac :| Cleaned(text, u) && Spells(u, whole, frac) && Scales(whole, frac, decimals, v);
    ValueConcat(whole, frac);
    TimesTen(Value(whole + frac), Pow10(decimals), v, Pow10(|frac|));
    ParseIsExact(text, decimals + 1, 10 * v);
  }

  // ---------- FormatAmount ----------

  /** No sign, no underscore, no spare leading or trailing zero, no bare point, and a
      fraction that fits the token. */
  ghost predicate Canonical(t: string, decimals: nat) {
    || Plain(t)
    || exists whole, frac :: CanonicalParts(t, whole, frac, decimals)
  }

  ghost predicate CanonicalParts(t: string, whole: string, frac: string, decimals: nat) {
    && t == whole + "." + frac && Plain(whole)
    && Digits(frac) && 0 < |frac| <= decimals && frac[|frac| - 1] != '0'
  }

  lemma TrimZerosFacts(s: string)
    requires Digits(s)
    ensures var t := TrimZeros(s);
            && |t| <= |s| && Digits(t) && s == t + Zeros(|s| - |t|)
            && (t != "" ==> t[|t| - 1] != '0') && (t == "" <==> AllZeros(s))
  {
    if s != "" && s[|s| - 1] == '0' {
      var r := s[..|s| - 1];
      TrimZerosFacts(r);
      assert s == r + "0";
      assert Zeros(|s| - |TrimZeros(r)|) == Zeros(|r| - |TrimZeros(r)|) + "0";
      assert AllZeros(s) <==> AllZeros(r);
    } else {
      assert Zeros(0) == "";
    }
  }

  lemma TrimZerosUndoes(t: string, n: nat)
    requires t == "" || t[|t| - 1] != '0'
    ensures TrimZeros(t + Zeros(n)) == t
  {
    if n == 0 {
      assert t + Zeros(0) == t;
    } else {
      var s := t + Zeros(n);
      assert s[..|s| - 1] == t + Zeros(n - 1);
      TrimZerosUndoes(t, n - 1);
    }
  }

  lemma PaddedValue(rest: nat, decimals: nat)
    requires decimals > 0 && rest < Pow10(decimals)
    ensures |Padded(rest, decimals)| == decimals && Digits(Padded(rest, decimals))
    ensures Value(Padded(rest, decimals)) == rest
  {
    PrintWidth(rest, decimals);
    PrintValue(rest);
    var pad := Zeros(decimals - |Print(rest)|);
    ZerosValue(pad);
    ValueConcat(pad, Print(rest));
  }

  /** The fraction as written: padded to the token's width, then trimmed. */
  lemma FractionParts(rest: nat, decimals: nat) returns (frac: string)
    requires decimals > 0 && 0 < rest < Pow10(decimals)
    ensures frac == TrimZeros(Padded(rest, decimals))
    ensures Digits(frac) && 0 < |frac| <= decimals && frac[|frac| - 1] != '0'
    ensures frac + Zeros(decimals - |frac|) == Padded(rest, decimals)
  {
    frac := TrimZeros(Padded(rest, decimals));
    PaddedValue(rest, decimals);
    ZerosValue(Padded(rest, decimals));
    TrimZerosFacts(Padded(rest, decimals));
  }

  /** The parts FormatAmount writes for a value with a fraction. */
  lemma FormatParts(v: int, decimals: nat) returns (whole: string, frac: string)
    requires v > 0 && decimals > 0 && QuoRem(v, Pow10(decimals)).1 != 0
    ensures CanonicalParts(FormatAmount(v, decimals), whole, frac, decimals)
    ensures whole == Print(QuoRem(v, Pow10(decimals)).0)
    ensures Digits(frac + Zeros(decimals - |frac|))
    ensures Value(frac + Zeros(decimals - |frac|)) == QuoRem(v, Pow10(decimals)).1
  {
    hide QuoRem, Pow10, Print, Padded, TrimZeros, Value;
    var (q, r) := QuoRem(v, Pow10(decimals));
    whole := Print(q);
    PrintValue(q);
    frac := FractionParts(r, decimals);
    PaddedValue(r, decimals);
    assert FormatAmount(v, decimals) == whole + "." + frac;
  }

  lemma FormatIsCanonical(v: int, decimals: nat)
    requires v > 0
    ensures Canonical(FormatAmount(v, decimals), decimals)
  {
    if decimals > 0 && QuoRem(v, Pow10(decimals)).1 != 0 {
      var _, _ := FormatParts(v, decimals);
    } else if decimals == 0 {
      PrintValue(v);
    } else {
      var q := QuoRem(v, Pow10(decimals)).0;
      PrintValue(q);
      assert "" + Print(q) == Print(q);
    }
  }

  predicate Solid(t: string) {
    forall i | 0 <= i < |t| :: !IsSpace(t[i]) && t[i] != '_'
  }

  lemma SolidIsClean(t: string)
    requires Solid(t)
    ensures Clean(t) == t
  {
    assert TrimSpace(t) == t;
    NothingToRemove(t);
  }

  lemma NothingToRemove(t: string)
    requires Solid(t)
    ensures RemoveUnderscores(t) == t
  {
    if t != "" {
      NothingToRemove(t[1..]);
    }
  }

  lemma CanonicalIsSolid(t: string, decimals: nat)
    requires Canonical(t, decimals)
    ensures Solid(t)
  {
  }

  /** A plain whole number scales by the token's unit. */
  lemma WholeScales(whole: string, decimals: nat, v: int)
    requires Digits(whole)
    ensures Scales(whole, "", decimals, v) <==> v == Value(whole) * Pow10(decimals)
  {
    assert whole + "" == whole;
  }

  /** A whole number with a fraction padded to the token's width scales to whole*unit + fraction. */
  lemma PartsScale(whole: string, frac: string, decimals: nat, v: int)
    requires Digits(whole) && Digits(frac) && |frac| <= decimals
    requires Digits(frac + Zeros(decimals - |frac|))
    ensures Scales(whole, frac, decimals, v)
            <==> v == Value(whole) * Pow10(decimals) + Value(frac + Zeros(decimals - |frac|))
  {
    hide Pow10, Value;
    var z := Zeros(decimals - |frac|);
    ValueConcat(whole, frac + z);
    assert whole + (frac + z) == whole + frac + z;
    ScaledIsExact(whole, frac, decimals, v);
  }

  /** Reading back what was printed gives the amount that was printed, at any scale. */
  lemma ParseOfFormat(v: int, decimals: nat)
    requires v > 0
    ensures ParseAmount(FormatAmount(v, decimals), decimals) == Ok(v)
  {
    hide ParseAmount, Clean, SetString, TrimZeros, Padded, Value, Print, QuoRem, Canonical;
    var t := FormatAmount(v, decimals);
    FormatIsCanonical(v, decimals);
    CanonicalIsSolid(t, decimals);
    SolidIsClean(t);
    var (q, r) := QuoRem(v, Pow10(decimals));
    PrintValue(q);
    if decimals > 0 && r != 0 {
      var whole, frac := FormatParts(v, decimals);
      PartsScale(whole, frac, decimals, v);
      assert Spells(t, whole, frac);
    } else {
      PrintValue(v);
      assert "" + Print(q) == Print(q);
      WholeScales(t, decimals, v);
      assert Spells(t, t, "");
    }
    CleanIs(t, t);
    ParseIsExact(t, decimals, v);
  }

  lemma PaddedIsUnique(padded: string, decimals: nat)
    requires Digits(padded) && |padded| == decimals > 0
    ensures Value(padded) < Pow10(decimals) && Padded(Value(padded), decimals) == padded
  {
    ValueBound(padded);
    PaddedValue(Value(padded), decimals);
    ValueInjective(Padded(Value(padded), decimals), padded);
  }

  /** Printing a canonical fraction's value, padded and trimmed, gives the fraction back. */
  lemma FractionIsUnique(frac: string, decimals: nat, rest: nat)
    requires Digits(frac) && 0 < |frac| <= decimals && frac[|frac| - 1] != '0'
    requires Digits(frac + Zeros(decimals - |frac|)) && rest == Value(frac + Zeros(decimals - |frac|))
    ensures 0 < rest < Pow10(decimals) && TrimZeros(Padded(rest, decimals)) == frac
  {
    var padded := frac + Zeros(decimals - |frac|);
    PaddedIsUnique(padded, decimals);
    ZerosValue(padded);
    assert padded[|frac| - 1] != '0';
    TrimZerosUndoes(frac, decimals - |frac|);
  }

  lemma UnitAtZero()
    ensures Pow10(0) == 1
  {
  }

  lemma FormatOfWhole(t: string, decimals: nat, v: int)
    requires Plain(t) && v > 0 && v == Value(t) * Pow10(decimals)
    ensures FormatAmount(v, decimals) == t
  {
    hide QuoRem, Print, Value, Padded, TrimZeros;
    PrintOfValue(t);
    PrintValue(v);
    UnitAtZero();
    QuoRemUnique(Value(t), 0, Pow10(decimals));
    assert "" + t == t;
  }

  lemma FormatOfFraction(whole: string, frac: string, decimals: nat, v: int, rest: nat)
    requires CanonicalParts(whole + "." + frac, whole, frac, decimals)
    requires Digits(frac + Zeros(decimals - |frac|)) && rest == Value(frac + Zeros(decimals - |frac|))
    requires v > 0 && v == Value(whole) * Pow10(decimals) + rest
    ensures FormatAmount(v, decimals) == whole + "." + frac
  {
    FractionIsUnique(frac, decimals, rest);
    PrintOfValue(whole);
    QuoRemUnique(Value(whole), rest, Pow10(decimals));
    assert "" + whole == whole;
  }

  /** Printing is the only canonical way to write an amount: a canonical text that parses to v
      is the text printed for v. */
  lemma FormatOfParse(t: string, decimals: nat, v: int)
    requires Canonical(t, decimals) && ParseAmount(t, decimals) == Ok(v)
    ensures FormatAmount(v, decimals) == t
  {
    CanonicalIsSolid(t, decimals);
    SolidIsClean(t);
    ParseIsExact(t, decimals, v);
    if Plain(t) {
      assert Spells(t, t, "");
      ParseSpelled(t, decimals, t, "", v);
      ScaledIsExact(t, "", decimals, v);
      WholeScales(t, decimals, v);
      FormatOfWhole(t, decimals, v);
    } else {
      var whole, frac :| CanonicalParts(t, whole, frac, decimals);
      assert Spells(t, whole, frac);
      ParseSpelled(t, decimals, whole, frac, v);
      ScaledIsExact(whole, frac, decimals, v);
      ValueConcat(frac, Zeros(decimals - |frac|));
      PartsScale(whole, frac, decimals, v);
      FormatOfFraction(whole, frac, decimals, v, Value(frac + Zeros(decimals - |frac|)));
    }
  }

  /** What is printed back for an accepted input is its canonical form: the one canonical text
      that denotes the same amount. */
  lemma CanonicalForm(text: string, decimals: nat, v: int)
    requires ParseAmount(text, decimals) == Ok(v)
    ensures Canonical(FormatAmount(v, decimals), decimals)
    ensures forall t | Canonical(t, decimals) :: ParseAmount(t, decimals) == Ok(v) <==> t == FormatAmount(v, decimals)
  {
    ParseIsExact(text, decimals, v);
    FormatIsCanonical(v, decimals);
    ParseOfFormat(v, decimals);
    forall t | Canonical(t, decimals) && ParseAmount(t, decimals) == Ok(v)
      ensures t == FormatAmount(v, decimals)
    {
      FormatOfParse(t, decimals, v);
    }
  }

  /** A well-spelled amount is refused as too precise just when a non-zero digit lies beyond the
      token's places, and then no integer v of smallest units equals it. */
  lemma TooPreciseIsRefused(text: string, decimals: nat, u: string, whole: string, frac: string, v: int)
    requires Cleaned(text, u) && Spells(u, whole, frac)
    ensures ParseAmount(text, decimals) == Err(TooPrecise)
            <==> |frac| > decimals && !AllZeros(frac[decimals..])
    ensures ParseAmount(text, decimals) == Err(TooPrecise) ==> !Scales(whole, frac, decimals, v)
  {
    CleanIs(text, u);
    ScaledIsExact(whole, frac, decimals, v);
    SpelledParts(text, decimals, whole, frac);
  }

  lemma SpelledParts(text: string, decimals: nat, whole: string, frac: string)
    requires Spells(Clean(text), whole, frac)
    ensures ParseAmount(text, decimals) == Err(TooPrecise)
            <==> |frac| > decimals && !AllZeros(frac[decimals..])
  {
    hide Clean, SetString, Tail, Value;
    var t := Clean(text);
    var cut := Signed(t != "" && t[0] == '+', whole);
    if t != cut {
      CutIsUnique(t, cut, frac);
    } else {
      assert frac == "" && Cut(t, '.') == (t, "", false);
    }
  }

  /** Two positive amounts that print alike at one scale are the same amount. */
  lemma FormatIsInjective(v: int, w: int, decimals: nat)
    requires v > 0 && w > 0 && FormatAmount(v, decimals) == FormatAmount(w, decimals)
    ensures v == w
  {
    ParseOfFormat(v, decimals);
    ParseOfFormat(w, decimals);
  }

  /** Zero prints as zero at every scale, and a negative amount as its opposite with a minus. */
  lemma FormatOfOthers(v: int, decimals: nat)
    requires v > 0
    ensures FormatAmount(0, decimals) == "0" && FormatAmount(-v, decimals) == "-" + FormatAmount(v, decimals)
  {
    hide Padded, TrimZeros, Digits;
    QuoRemUnique(0, 0, Pow10(decimals));
    if decimals > 0 {
      var (q, r) := QuoRem(v, Pow10(decimals));
      assert "" + Print(q) == Print(q);
      if r != 0 {
        var places := TrimZeros(Padded(r, decimals));
        assert "-" + Print(q) + "." + places == "-" + (Print(q) + "." + places);
      }
    }
  }
}
