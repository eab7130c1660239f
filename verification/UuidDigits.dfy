/** Which digit each draw gives, position by position, with the value of a digit read off its character code. */
module UuidDigits {
  import opened UuidGenerator

  /** The value of a lower-case hexadecimal digit. */
  function ValueOf(c: char): int {
    if c <= '9' then c as int - '0' as int else c as int - 'a' as int + 10
  }

  /** The digit of the template that the expression calls `a`. */
  function A(c: char): bv4
    requires c in {'0', '1', '8'}
  {
    if c == '0' then 0 else if c == '1' then 1 else 8
  }

  /** The replaced characters in front of position `i`. */
  function SlotsBefore(template: string, i: nat): nat
    requires i <= |template|
  {
    if i == 0 then 0 else (if template[0] in {'0', '1', '8'} then 1 else 0) + SlotsBefore(template[1..], i - 1)
  }

  lemma DigitValue(v: Draw)
    ensures ValueOf(HexDigit(v)) == v as int
  {
    assert 0 <= v as int < 16;
    assert v as int < 10 ==> HEX[v as int] == "0123456789"[v as int];
    assert v as int >= 10 ==> HEX[v as int] == "abcdef"[v as int - 10];
  }

  lemma MixValue(c: char, draw: Draw)
    requires c in {'0', '1', '8'}
    ensures ValueOf(HexDigit(Mix(c, draw))) == (A(c) ^ (draw >> (A(c) / 4))) as int
  {
    DigitValue(Mix(c, draw));
    assert draw >> 0 == draw;
  }

  lemma {:induction false} FillAt(template: string, draws: seq<Draw>, i: nat)
    requires |draws| == Slots(template) && i < |template|
    ensures |Fill(template, draws)| == |template|
    ensures var c, n, d := template[i], SlotsBefore(template, i), Fill(template, draws)[i];
            if c in {'0', '1', '8'} then n < |draws| && d == HexDigit(Mix(c, draws[n])) else d == c
  {
    var rest := if IsSlot(template[0]) then draws[1..] else draws;
    FillMatches(template, draws);
    if i > 0 { FillAt(template[1..], rest, i - 1); }
  }

  /** The four hyphens and the '4' of the template take no draw. */
  function DrawIndex(i: nat): int {
    if i <= 8 then i else if i <= 13 then i - 1 else if i == 14 then i - 2 else if i <= 18 then i - 3
    else if i <= 23 then i - 4 else i - 5
  }

  lemma {:induction false} OneMore(template: string, i: nat)
    requires i < |template|
    ensures SlotsBefore(template, i + 1)
            == SlotsBefore(template, i) + if template[i] in {'0', '1', '8'} then 1 else 0
  {
    if i > 0 { OneMore(template[1..], i - 1); }
  }

  lemma {:induction false} DrawIndexIs(i: nat)
    requires i < 36
    ensures SlotsBefore(TEMPLATE, i) == DrawIndex(i)
  {
    if i > 0 {
      DrawIndexIs(i - 1);
      OneMore(TEMPLATE, i - 1);
      TemplateCharacter(i - 1);
    }
  }

  /** Main result, for every position of an identifier: a replaced digit `a` of the template gives the digit with the
      value a ^ (draw >> (a / 4)), where the draw is the one with as many draws before it as there are replaced digits
      before `a`; every other character is that of the template. */
  lemma DigitAt(draws: seq<Draw>, i: nat)
    requires |draws| == 31 && i < 36
    ensures |TEMPLATE| == 36 && SlotsBefore(TEMPLATE, i) == DrawIndex(i)
    ensures var c, n, d := TEMPLATE[i], DrawIndex(i), GenerateId(draws)[i];
            if c in {'0', '1', '8'} then 0 <= n < 31 && ValueOf(d) == (A(c) ^ (draws[n] >> (A(c) / 4))) as int
            else d == c
  {
    TemplateSlots();
    DrawIndexIs(i);
    FillAt(TEMPLATE, draws, i);
    var c := TEMPLATE[i];
    if c in {'0', '1', '8'} { MixValue(c, draws[SlotsBefore(TEMPLATE, i)]); }
  }
}
