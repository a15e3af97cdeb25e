/** The identifier value object: a UUID string, supplied or generated, that is
    validated once at construction and never changes afterwards. */
module UniqueEntityIds {
  import opened Errors

  newtype Byte = x: int | 0 <= x < 256

  /** The 16 random bytes a version-4 UUID is made from. The source draws them
      from a random source; here they are a parameter. */
  type Entropy = s: seq<Byte> | |s| == 16
    witness [0, 0, 0, 0, 0, 0, 0, 0, 0, 0, 0, 0, 0, 0, 0, 0]

  predicate IsHexDigit(c: char)
  {
    '0' <= c <= '9' || 'a' <= c <= 'f' || 'A' <= c <= 'F'
  }

  /** The positions of the four hyphens in the 8-4-4-4-12 form. */
  predicate IsHyphenIndex(i: int)
  {
    i == 8 || i == 13 || i == 18 || i == 23
  }

  /** The string form of a UUID in section 3 of RFC 4122: 32 hexadecimal
      digits in groups of 8, 4, 4, 4 and 12, separated by hyphens; hex digits
      may be upper or lower case. */
  predicate IsUuid(s: string)
  {
    |s| == 36 && forall i | 0 <= i < 36 :: IsUuidChar(s, i)
  }

  /** Position `i` of `s` holds a hyphen where the form has one and a hex digit elsewhere. */
  predicate IsUuidChar(s: string, i: int)
    requires 0 <= i < |s|
  {
    if IsHyphenIndex(i) then s[i] == '-' else IsHexDigit(s[i])
  }

  /** The lower-case hexadecimal digit for a value below 16. */
  function HexDigit(n: nat): (c: char)
    requires n < 16
    ensures IsHexDigit(c)
  {
    if n < 10 then (n + 48) as char else (n - 10 + 97) as char
  }

  /** Two lower-case hex digits per byte, most significant first. */
  function Hex(bytes: seq<Byte>): (s: string)
    ensures |s| == 2 * |bytes|
    ensures forall i | 0 <= i < |s| :: IsHexDigit(s[i])
  {
    if bytes == [] then ""
    else [HexDigit(bytes[0] as int / 16), HexDigit(bytes[0] as int % 16)] + Hex(bytes[1..])
  }

  /** The 8-4-4-4-12 rendering of 16 bytes: the hex of the groups of 4, 2, 2,
      2 and 6 bytes, joined by hyphens. */
  function Stringify(b: Entropy): string
  {
    Hex(b[..4]) + ("-" + (Hex(b[4..6]) + ("-" + (Hex(b[6..8]) + ("-" + (Hex(b[8..10]) + ("-" + Hex(b[10..]))))))))
  }

  /** Sets the version nibble of byte 6 to 4 and the variant bits of byte 8 to
      binary 10, as a version-4 UUID requires (section 4.4 of RFC 4122). */
  function WithVersion4Bits(b: Entropy): Entropy
  {
    b[6 := (b[6] % 16) + 0x40][8 := (b[8] % 64) + 0x80]
  }

  /** A freshly generated version-4 UUID, from the given random bytes. */
  function GenerateV4(entropy: Entropy): string
  {
    Stringify(WithVersion4Bits(entropy))
  }

  lemma {:induction false} StringifyIsUuid(b: Entropy)
    ensures IsUuid(Stringify(b))
  {
    var h1, h2, h3, h4, h5 := Hex(b[..4]), Hex(b[4..6]), Hex(b[6..8]), Hex(b[8..10]), Hex(b[10..]);
    var s := Stringify(b);
    assert s == h1 + ("-" + (h2 + ("-" + (h3 + ("-" + (h4 + ("-" + h5)))))));
    forall i | 0 <= i < 36
      ensures IsUuidChar(s, i)
    {
      if i < 8 { assert s[i] == h1[i]; }
      else if 8 < i < 13 { assert s[i] == h2[i - 9]; }
      else if 13 < i < 18 { assert s[i] == h3[i - 14]; }
      else if 18 < i < 23 { assert s[i] == h4[i - 19]; }
      else if 23 < i { assert s[i] == h5[i - 24]; }
    }
  }

  /** Every generated identifier is a valid UUID whose version digit is 4 and
      whose variant digit is one of 8, 9, a, b. */
  lemma GeneratedIsVersion4Uuid(entropy: Entropy)
    ensures IsUuid(GenerateV4(entropy))
    ensures GenerateV4(entropy)[14] == '4'
    ensures GenerateV4(entropy)[19] in {'8', '9', 'a', 'b'}
  {
    var b := WithVersion4Bits(entropy);
    StringifyIsUuid(b);
    var h3, h4 := Hex(b[6..8]), Hex(b[8..10]);
    assert Stringify(b)[14] == h3[0] == HexDigit(b[6] as int / 16);
    assert b[6] as int / 16 == 4;
    assert Stringify(b)[19] == h4[0] == HexDigit(b[8] as int / 16);
    assert 8 <= b[8] as int / 16 < 12;
  }

  /** The identifier value object. Its value is fixed at construction. */
  datatype UniqueEntityId = UniqueEntityId(value: string)
  {
    function ToString(): string
    {
      value
    }
  }

  /** The identifiers that construction can produce: their value is always a UUID. */
  type EntityId = u: UniqueEntityId | IsUuid(u.value)
    witness UniqueEntityId("00000000-0000-0000-0000-000000000000")

  /** `new UniqueEntityId(id)`: takes `id` unless it is absent or empty, in which
      case a generated version-4 UUID, and then validates the chosen value. */
  function Create(id: Option<string>, entropy: Entropy): (r: Result<EntityId>)
    ensures (id.None? || id == Some("")) ==> r == Success(UniqueEntityId(GenerateV4(entropy)))
    ensures id.Some? && id.value != "" ==>
      if IsUuid(id.value) then r.Success? && r.value.ToString() == id.value
      else r == Failure(InvalidUuid(id.value))
  {
    var value := if id.None? || id.value == "" then GenerateV4(entropy) else id.value;
    GeneratedIsVersion4Uuid(entropy);
    if IsUuid(value) then Success(UniqueEntityId(value)) else Failure(InvalidUuid(value))
  }

  /** Re-validating an identifier's own string gives the identifier back:
      construction accepts every value it can produce. */
  lemma CreateAcceptsOwnValue(u: EntityId, entropy: Entropy)
    ensures Create(Some(u.ToString()), entropy) == Success(u)
  {
  }
}
