/** The card model: suits, numbers (ranks) and a card packed into one byte,
    suit in the high nibble and number in the low nibble. */
module Cards {
  import opened BitOps
  import opened Wrappers

  datatype Suit = Hearts | Diamonds | Clubs | Spades

  /** The `repr(u8)` discriminant of a suit (`suit as u8`). */
  function SuitCode(s: Suit): (r: u8)
    ensures r <= 3
  {
    match s
    case Hearts => 0
    case Diamonds => 1
    case Clubs => 2
    case Spades => 3
  }

  /** `Suit::from_u8`: the suit with code `v`; `None` where the source panics. */
  function SuitFromU8(v: u8): (r: Option<Suit>)
    ensures r.Some? <==> v <= 3
    ensures r.Some? ==> SuitCode(r.value) == v
  {
    match v
    case 0 => Some(Hearts)
    case 1 => Some(Diamonds)
    case 2 => Some(Clubs)
    case 3 => Some(Spades)
    case _ => None
  }

  /** `Suit::from_u8_unchecked`, which is only defined on codes 0 to 3. */
  function SuitFromU8Unchecked(v: u8): (r: Suit)
    requires v <= 3
    ensures SuitCode(r) == v
  {
    SuitFromU8(v).value
  }

  lemma SuitRoundTrip(s: Suit)
    ensures SuitFromU8(SuitCode(s)) == Some(s)
  {
  }

  /** A card number: the discriminants Two = 2 through Ace = 14 of the source's
      `Number`, ordered as numbers (the derived `Ord`). */
  type Number = n: int | 2 <= n <= 14 witness 2

  const Two: Number := 2
  const Three: Number := 3
  const Four: Number := 4
  const Five: Number := 5
  const Six: Number := 6
  const Seven: Number := 7
  const Eight: Number := 8
  const Nine: Number := 9
  const Ten: Number := 10
  const Jack: Number := 11
  const Queen: Number := 12
  const King: Number := 13
  const Ace: Number := 14

  /** `Number::from_u8`: `None` where the source panics. */
  function NumberFromU8(v: u8): (r: Option<Number>)
    ensures r.Some? <==> 2 <= v <= 14
    ensures r.Some? ==> r.value as int == v
  {
    if 2 <= v <= 14 then Some(v as Number) else None
  }

  /** `Number::as_bit`: `1 << n` as a `u16`. */
  function AsBit(n: Number): u16
  {
    Shl16(1, n)
  }

  /** The bit of a number is the set holding just that number. */
  lemma AsBitIsSingleton(n: Number)
    ensures AsBit(n) == Pow2(n)
    ensures Bits16(AsBit(n)) == {n}
  {
    var r := Shl16(1, n);
    Bits16Pow2(n);
    forall i | 0 <= i < 16 ensures Has(r, i) == (i == n) {
      HasShl16(1, n, i);
      if i >= n { HasPow2(0, i - n); }
    }
    Bits16Determine(r, Pow2(n));
  }

  /** A packed card byte. */
  datatype RawCard = RawCard(value: u8)

  /** Every card the source can build: suit code 0 to 3 in the high nibble,
      number 2 to 14 in the low nibble. */
  type Card = c: RawCard | IsCardByte(c.value) witness RawCard(2)

  predicate IsCardByte(v: int)
  {
    0x02 <= v <= 0x0E || 0x12 <= v <= 0x1E || 0x22 <= v <= 0x2E || 0x32 <= v <= 0x3E
  }

  /** `Card::new`: the suit code in the high nibble and the number in the low
      one (`NewCardIsShiftOr` shows this is the source's `suit << 4 | number`). */
  function NewCard(s: Suit, n: Number): (c: Card)
    ensures c.value == 16 * SuitCode(s) + n
  {
    RawCard(16 * SuitCode(s) + n)
  }

  /** `Card::suit`: the suit whose code is the high nibble. */
  function CardSuit(c: Card): (s: Suit)
    ensures 16 * SuitCode(s) + 2 <= c.value <= 16 * SuitCode(s) + 14
  {
    if c.value < 0x10 then Hearts
    else if c.value < 0x20 then Diamonds
    else if c.value < 0x30 then Clubs
    else Spades
  }

  /** `Card::number`: the low nibble, what is left above the suit's sixteens. */
  function CardNumber(c: Card): (n: Number)
    ensures c.value == 16 * SuitCode(CardSuit(c)) + n
  {
    c.value - 16 * SuitCode(CardSuit(c))
  }

  /** The packing is the source's shift-or. */
  lemma NewCardIsShiftOr(s: Suit, n: Number)
    ensures NewCard(s, n).value == Or(Shl8(SuitCode(s), 4), n)
  {
    PackValue(SuitCode(s), n);
  }

  /** Unpacking is the source's mask and shift: the low and high nibbles. */
  lemma CardPartsAreMasks(c: Card)
    ensures CardNumber(c) == And(c.value, 0xF) == c.value % 16
    ensures SuitCode(CardSuit(c)) == Shr(c.value, 4) == c.value / 16
  {
    DivMod16(c.value, SuitCode(CardSuit(c)), CardNumber(c));
    Nibbles(c.value);
  }

  /** Building a card and taking it apart again gives back its suit and number. */
  lemma NewCardParts(s: Suit, n: Number)
    ensures CardSuit(NewCard(s, n)) == s
    ensures CardNumber(NewCard(s, n)) == n
  {
    var c := NewCard(s, n);
    assert SuitCode(CardSuit(c)) == SuitCode(s);
  }

  /** Every card is built from its own suit and number. */
  lemma CardFromParts(c: Card)
    ensures NewCard(CardSuit(c), CardNumber(c)) == c
  {
  }

  /** Two cards are equal exactly when their suits and numbers are. */
  lemma CardEquality(a: Card, b: Card)
    ensures a == b <==> CardSuit(a) == CardSuit(b) && CardNumber(a) == CardNumber(b)
  {
    if CardSuit(a) == CardSuit(b) && CardNumber(a) == CardNumber(b) {
      CardFromParts(a);
      CardFromParts(b);
    }
  }

  // ---------------------------------------------------------------------------
  // Nibble arithmetic behind the packing

  lemma Nibbles(v: u8)
    ensures And(v, 0xF) == v % 16
    ensures Shr(v, 4) == v / 16
  {
    Pow2Values();
    AndLowMask(v, 4);
    SplitAt(v, 4, 4);
    var q, r := Shr(v, 4), Trunc(v, 4);
    assert v == 16 * q + r && r < 16;
    DivMod16(v, q, r);
  }

  lemma DivMod16(v: int, q: int, r: int)
    requires v == 16 * q + r && 0 <= r < 16
    ensures v / 16 == q && v % 16 == r
  {
  }

  lemma PackValue(code: nat, n: nat)
    requires code <= 3 && n < 16
    ensures Or(Shl8(code, 4), n) == 16 * code + n
  {
    Pow2Values();
    ShiftLeft4(code);
    TruncSmall(16 * code, 8);
    assert Shl8(code, 4) == 16 * code;
    var hi := ShiftLeft(code, 4);
    forall i | 0 <= i < 8 ensures !Has(And(hi, n), i) {
      HasAnd(hi, n, i);
      HasShiftLeft(code, 4, i);
      if i >= 4 { NoHighBits(n, 4, i); }
    }
    ZeroBits(And(hi, n), 8);
    OrDisjoint(hi, n);
  }
}
