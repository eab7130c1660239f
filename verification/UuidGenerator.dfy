/** The version 4 UUID generator: a template whose digits 0, 1 and 8 are replaced by random hexadecimal digits. */
module UuidGenerator {

  /** A draw is the integer part of Math.random() * 16. */
  type Draw = bv4

  // ---------- the template ----------

  function DecimalDigit(d: nat): char
    requires d < 10
  {
    "0123456789"[d]
  }

  function Natural(n: nat): string {
    if n < 10 then [DecimalDigit(n)] else Natural(n / 10) + [DecimalDigit(n % 10)]
  }

  /** A number as the string concatenation writes it. */
  function Decimal(n: int): string {
    if n < 0 then "-" + Natural(-n) else Natural(n)
  }

  const TEMPLATE := "10000000-1000-4000-8000-100000000000"

  function Zeros(n: nat): (s: string)
    ensures |s| == n
  {
    seq(n, _ => '0')
  }

  function Pow10(n: nat): nat {
    if n == 0 then 1 else 10 * Pow10(n - 1)
  }

  lemma {:induction false} NaturalOfPower(d: nat, n: nat)
    requires 0 < d < 10
    ensures Pow10(n) > 0 && Natural(d * Pow10(n)) == [DecimalDigit(d)] + Zeros(n)
  {
    if n == 0 {
      assert d * Pow10(0) == d;
    } else {
      NaturalOfPower(d, n - 1);
      var m := d * Pow10(n - 1);
      assert m >= 1;
      assert d * Pow10(n) == 10 * m && (10 * m) / 10 == m && (10 * m) % 10 == 0;
      assert Natural(10 * m) == Natural(m) + ['0'];
      assert Zeros(n) == Zeros(n - 1) + ['0'];
    }
  }

  /** One number of the expression, as it appears in the template. */
  function Piece(sign: string, c: char, n: nat): string {
    sign + [c] + Zeros(n)
  }

  lemma TemplatePieces()
    ensures TEMPLATE
            == Piece("", '1', 7) + Piece("-", '1', 3) + Piece("-", '4', 3) + Piece("-", '8', 3) + Piece("-", '1', 11)
  {
  }

  lemma TemplateIsConcatenation()
    ensures TEMPLATE == Decimal(10000000) + Decimal(-1000) + Decimal(-4000) + Decimal(-8000) + Decimal(-100000000000)
  {
    NaturalOfPower(1, 7);
    NaturalOfPower(1, 3);
    NaturalOfPower(4, 3);
    NaturalOfPower(8, 3);
    NaturalOfPower(1, 11);
    assert Pow10(3) == 1000 && Pow10(7) == 10000 * Pow10(3) && Pow10(11) == 10000 * Pow10(7);
    assert Decimal(10000000) == Piece("", '1', 7) && Decimal(-1000) == Piece("-", '1', 3)
           && Decimal(-4000) == Piece("-", '4', 3) && Decimal(-8000) == Piece("-", '8', 3)
           && Decimal(-100000000000) == Piece("-", '1', 11);
    TemplatePieces();
  }

  // ---------- one digit ----------

  const HEX := "0123456789abcdef"

  function HexDigit(v: Draw): char {
    HEX[v as int]
  }

  predicate IsHex(c: char) {
    '0' <= c <= '9' || 'a' <= c <= 'f'
  }

  function HexValue(c: char): (v: Draw)
    requires IsHex(c)
    ensures HexDigit(v) == c
  {
    if c <= '9' then (c as int - '0' as int) as bv4 else (c as int - 'a' as int + 10) as bv4
  }

  lemma HexRoundTrip(v: Draw)
    ensures IsHex(HexDigit(v)) && HexValue(HexDigit(v)) == v
  {
    assert 0 <= v as int < 16;
  }

  /** The characters the expression replaces. */
  predicate IsSlot(c: char) {
    c == '0' || c == '1' || c == '8'
  }

  /** a ^ draw >> a / 4 for the digit a. */
  function Mix(c: char, draw: Draw): Draw
    requires IsSlot(c)
  {
    match c
    case '0' => 0 ^ draw
    case '1' => 1 ^ draw
    case _ => 8 ^ (draw >> 2)
  }

  /** What of a draw reaches the identifier: all four bits, or the upper two. */
  function Effective(c: char, draw: Draw): Draw
    requires IsSlot(c)
  {
    if c == '8' then draw >> 2 else draw
  }

  /** The digits a template character allows. */
  predicate Fits(c: char, d: char) {
    if c == '0' || c == '1' then IsHex(d)
    else if c == '8' then d == '8' || d == '9' || d == 'a' || d == 'b'
    else d == c
  }

  /** The draw that gives digit `d`, with nothing in the bits that do not matter. */
  function Unmix(c: char, d: char): (draw: Draw)
    requires IsSlot(c) && Fits(c, d)
  {
    match c
    case '0' => HexValue(d)
    case '1' => HexValue(d) ^ 1
    case _ => (HexValue(d) ^ 8) << 2
  }

  lemma MixTwoBits(v: Draw)
    ensures (8 ^ (v >> 2)) in {8, 9, 10, 11} && (((8 ^ (v >> 2)) ^ 8) << 2) >> 2 == v >> 2
  {
  }

  lemma MixFits(c: char, draw: Draw)
    requires IsSlot(c)
    ensures Fits(c, HexDigit(Mix(c, draw)))
    ensures Effective(c, Unmix(c, HexDigit(Mix(c, draw)))) == Effective(c, draw)
  {
    HexRoundTrip(Mix(c, draw));
    if c == '8' { MixTwoBits(draw); }
  }

  lemma UnmixMixes(c: char, d: char)
    requires IsSlot(c) && Fits(c, d)
    ensures HexDigit(Mix(c, Unmix(c, d))) == d
  {
    if c == '8' {
      assert HexValue(d) in {8, 9, 10, 11};
    }
  }

  /** The digit depends on the effective part of the draw, and determines it. */
  lemma MixInjective(c: char, x: Draw, y: Draw)
    requires IsSlot(c)
    ensures HexDigit(Mix(c, x)) == HexDigit(Mix(c, y)) <==> Effective(c, x) == Effective(c, y)
  {
    MixFits(c, x);
    MixFits(c, y);
  }

  // ---------- whole templates ----------

  function Slots(template: string): nat {
    if template == "" then 0 else (if IsSlot(template[0]) then 1 else 0) + Slots(template[1..])
  }

  /** Replaces the slots of the template from left to right. */
  function Fill(template: string, draws: seq<Draw>): string
    requires |draws| == Slots(template)
  {
    if template == "" then ""
    else if IsSlot(template[0]) then [HexDigit(Mix(template[0], draws[0]))] + Fill(template[1..], draws[1..])
    else [template[0]] + Fill(template[1..], draws)
  }

  ghost predicate Matches(template: string, s: string) {
    |s| == |template| && forall i :: 0 <= i < |s| ==> Fits(template[i], s[i])
  }

  /** The draws behind an identifier. */
  function Unfill(template: string, s: string): (draws: seq<Draw>)
    requires Matches(template, s)
    ensures |draws| == Slots(template)
  {
    if template == "" then []
    else if IsSlot(template[0]) then [Unmix(template[0], s[0])] + Unfill(template[1..], s[1..])
    else Unfill(template[1..], s[1..])
  }

  function EffectiveDraws(template: string, draws: seq<Draw>): (r: seq<Draw>)
    requires |draws| == Slots(template)
    ensures |r| == |draws|
  {
    if template == "" then []
    else if IsSlot(template[0]) then [Effective(template[0], draws[0])] + EffectiveDraws(template[1..], draws[1..])
    else EffectiveDraws(template[1..], draws)
  }

  lemma {:induction false} FillMatches(template: string, draws: seq<Draw>)
    requires |draws| == Slots(template)
    ensures Matches(template, Fill(template, draws))
  {
    if template != "" {
      if IsSlot(template[0]) {
        MixFits(template[0], draws[0]);
        FillMatches(template[1..], draws[1..]);
      } else {
        FillMatches(template[1..], draws);
      }
    }
  }

  lemma {:induction false} FillUnfill(template: string, s: string)
    requires Matches(template, s)
    ensures Fill(template, Unfill(template, s)) == s
  {
    if template != "" {
      FillUnfill(template[1..], s[1..]);
      assert s == [s[0]] + s[1..];
      if IsSlot(template[0]) {
        UnmixMixes(template[0], s[0]);
        assert ([Unmix(template[0], s[0])] + Unfill(template[1..], s[1..]))[1..] == Unfill(template[1..], s[1..]);
      }
    }
  }

  lemma {:induction false} FillInjective(template: string, x: seq<Draw>, y: seq<Draw>)
    requires |x| == |y| == Slots(template)
    ensures Fill(template, x) == Fill(template, y) <==> EffectiveDraws(template, x) == EffectiveDraws(template, y)
  {
    if template != "" {
      var c, rest := template[0], template[1..];
      if IsSlot(c) {
        MixInjective(c, x[0], y[0]);
        FillInjective(rest, x[1..], y[1..]);
        ConsEqual(HexDigit(Mix(c, x[0])), Fill(rest, x[1..]), HexDigit(Mix(c, y[0])), Fill(rest, y[1..]));
        ConsEqual(Effective(c, x[0]), EffectiveDraws(rest, x[1..]), Effective(c, y[0]), EffectiveDraws(rest, y[1..]));
      } else {
        FillInjective(rest, x, y);
        ConsEqual(c, Fill(rest, x), c, Fill(rest, y));
      }
    }
  }

  lemma ConsEqual<X>(a: X, s: seq<X>, b: X, t: seq<X>)
    ensures [a] + s == [b] + t <==> a == b && s == t
  {
    assert ([a] + s)[1..] == s && ([b] + t)[1..] == t;
    assert ([a] + s)[0] == a && ([b] + t)[0] == b;
  }

  // ---------- version 4 identifiers ----------

  /** The string form of section 3 of RFC 4122 with the variant bits 10 (section 4.1.1) and version 4
      (sections 4.1.3 and 4.4), in lower case. */
  ghost predicate IsV4(s: string) {
    && |s| == 36
    && s[8] == s[13] == s[18] == s[23] == '-'
    && s[14] == '4'
    && s[19] in {'8', '9', 'a', 'b'}
    && forall i :: 0 <= i < 36 && i !in {8, 13, 18, 23} ==> IsHex(s[i])
  }

  lemma TemplateCharacter(i: nat)
    requires i < 36
    ensures TEMPLATE[i] == (if i in {8, 13, 18, 23} then '-' else if i == 14 then '4' else if i == 19 then '8'
                            else if i in {0, 9, 24} then '1' else '0')
  {
  }

  lemma MatchesIsV4(s: string)
    ensures Matches(TEMPLATE, s) <==> IsV4(s)
  {
    forall i: nat | i < 36 { TemplateCharacter(i); }
    if Matches(TEMPLATE, s) {
      assert Fits(TEMPLATE[8], s[8]) && Fits(TEMPLATE[13], s[13]);
      assert Fits(TEMPLATE[18], s[18]) && Fits(TEMPLATE[23], s[23]);
      assert Fits(TEMPLATE[14], s[14]) && Fits(TEMPLATE[19], s[19]);
    }
  }

  const DRAWS := 31

  lemma {:induction false} SlotsAppend(a: string, b: string)
    ensures Slots(a + b) == Slots(a) + Slots(b)
  {
    if a == "" {
      assert a + b == b;
    } else {
      assert (a + b)[1..] == a[1..] + b;
      SlotsAppend(a[1..], b);
    }
  }

  lemma {:induction false} SlotsOfZeros(n: nat)
    ensures Slots(Zeros(n)) == n
  {
    if n > 0 {
      assert Zeros(n)[1..] == Zeros(n - 1);
      SlotsOfZeros(n - 1);
    }
  }

  lemma PieceSlots(sign: string, c: char, n: nat)
    requires sign == "" || sign == "-"
    ensures Slots(Piece(sign, c, n)) == (if IsSlot(c) then 1 else 0) + n
  {
    SlotsOfZeros(n);
    SlotsAppend(sign + [c], Zeros(n));
    SlotsAppend(sign, [c]);
    assert [c][1..] == [] && "-"[1..] == "";
  }

  lemma FivePieces(a: string, b: string, c: string, d: string, e: string)
    ensures Slots(a + b + c + d + e) == Slots(a) + Slots(b) + Slots(c) + Slots(d) + Slots(e)
  {
    SlotsAppend(a, b);
    SlotsAppend(a + b, c);
    SlotsAppend(a + b + c, d);
    SlotsAppend(a + b + c + d, e);
  }

  lemma TemplateSlots()
    ensures Slots(TEMPLATE) == DRAWS
  {
    TemplatePieces();
    PieceSlots("", '1', 7);
    PieceSlots("-", '1', 3);
    PieceSlots("-", '4', 3);
    PieceSlots("-", '8', 3);
    PieceSlots("-", '1', 11);
    FivePieces(Piece("", '1', 7), Piece("-", '1', 3), Piece("-", '4', 3), Piece("-", '8', 3), Piece("-", '1', 11));
  }

  /** generateId for a sequence of draws. */
  function GenerateId(draws: seq<Draw>): (id: string)
    requires |draws| == DRAWS
    ensures IsV4(id)
  {
    TemplateSlots();
    FillMatches(TEMPLATE, draws);
    MatchesIsV4(Fill(TEMPLATE, draws));
    Fill(TEMPLATE, draws)
  }

  /** The 30 four-bit and one two-bit parts of the draws that matter. */
  function Choices(draws: seq<Draw>): (r: seq<Draw>)
    requires |draws| == DRAWS
    ensures |r| == DRAWS
  {
    TemplateSlots();
    EffectiveDraws(TEMPLATE, draws)
  }

  /** One-to-one: two sequences of draws give the same identifier exactly when their choices agree. */
  lemma IdentifierInjective(x: seq<Draw>, y: seq<Draw>)
    requires |x| == |y| == DRAWS
    ensures GenerateId(x) == GenerateId(y) <==> Choices(x) == Choices(y)
  {
    TemplateSlots();
    FillInjective(TEMPLATE, x, y);
  }

  /** Onto: every version 4 identifier is generated. */
  lemma IdentifierSurjective(id: string) returns (draws: seq<Draw>)
    requires IsV4(id)
    ensures |draws| == DRAWS && GenerateId(draws) == id
  {
    TemplateSlots();
    MatchesIsV4(id);
    draws := Unfill(TEMPLATE, id);
    FillUnfill(TEMPLATE, id);
  }

  function BeforeEight(): string {
    Piece("", '1', 7) + Piece("-", '1', 3) + Piece("-", '4', 3) + "-" + Zeros(0)
  }

  function AfterEight(): string {
    Zeros(3) + Piece("-", '1', 11)
  }

  lemma Halves()
    ensures TEMPLATE == BeforeEight() + (['8'] + AfterEight())
  {
    TemplatePieces();
  }

  lemma BeforeSlots()
    ensures Slots(BeforeEight()) == 15
  {
    PieceSlots("", '1', 7);
    PieceSlots("-", '1', 3);
    PieceSlots("-", '4', 3);
    SlotsOfZeros(0);
    assert "-"[1..] == "";
    FivePieces(Piece("", '1', 7), Piece("-", '1', 3), Piece("-", '4', 3), "-", Zeros(0));
  }

  lemma AfterSlots()
    ensures Slots(AfterEight()) == 15
  {
    SlotsOfZeros(3);
    PieceSlots("-", '1', 11);
    SlotsAppend(Zeros(3), Piece("-", '1', 11));
  }

  lemma PieceWithoutEight(sign: string, c: char, n: nat)
    requires c != '8' && (sign == "" || sign == "-")
    ensures '8' !in Piece(sign, c, n)
  {
  }

  lemma NoOtherEight()
    ensures '8' !in BeforeEight() && '8' !in AfterEight()
  {
    PieceWithoutEight("", '1', 7);
    PieceWithoutEight("-", '1', 3);
    PieceWithoutEight("-", '4', 3);
    PieceWithoutEight("-", '1', 11);
  }

  lemma OneEight(before: string, after: string, draws: seq<Draw>)
    requires '8' !in before && '8' !in after && |draws| == Slots(before) + 1 + Slots(after)
    ensures Slots(before + (['8'] + after)) == |draws|
    ensures var n := Slots(before);
            EffectiveDraws(before + (['8'] + after), draws) == draws[..n] + ([draws[n] >> 2] + draws[n + 1..])
  {
    var n := Slots(before);
    var upper := draws[n..];
    SlotsAppend(before, ['8'] + after);
    assert (['8'] + after)[0] == '8' && (['8'] + after)[1..] == after && upper[1..] == draws[n + 1..];
    EffectiveSplit(before, ['8'] + after, draws);
    PlainDraws(before, draws[..n]);
    PlainDraws(after, draws[n + 1..]);
  }

  /** The two-bit choice is the one at index 15; the other 30 are whole draws. */
  lemma ChoicesAre(draws: seq<Draw>)
    requires |draws| == DRAWS
    ensures Choices(draws) == draws[..15] + ([draws[15] >> 2] + draws[16..])
  {
    TemplateSlots();
    Halves();
    BeforeSlots();
    AfterSlots();
    NoOtherEight();
    OneEight(BeforeEight(), AfterEight(), draws);
  }

  lemma {:induction false} EffectiveSplit(a: string, b: string, draws: seq<Draw>)
    requires Slots(a) <= |draws| && |draws| == Slots(a + b) == Slots(a) + Slots(b)
    ensures EffectiveDraws(a + b, draws) == EffectiveDraws(a, draws[..Slots(a)]) + EffectiveDraws(b, draws[Slots(a)..])
  {
    if a == "" {
      assert a + b == b && draws[0..] == draws;
    } else {
      assert (a + b)[1..] == a[1..] + b && (a + b)[0] == a[0];
      if IsSlot(a[0]) {
        assert draws[1..][..Slots(a[1..])] == draws[..Slots(a)][1..];
        assert draws[1..][Slots(a[1..])..] == draws[Slots(a)..];
        EffectiveSplit(a[1..], b, draws[1..]);
      } else {
        EffectiveSplit(a[1..], b, draws);
      }
    }
  }

  lemma {:induction false} PlainDraws(template: string, draws: seq<Draw>)
    requires |draws| == Slots(template) && '8' !in template
    ensures EffectiveDraws(template, draws) == draws
  {
    if template != "" {
      if IsSlot(template[0]) {
        PlainDraws(template[1..], draws[1..]);
        assert draws == [draws[0]] + draws[1..];
      } else {
        PlainDraws(template[1..], draws);
      }
    }
  }
}
