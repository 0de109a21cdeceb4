/** Document identifiers: a type prefix followed by a lowercase hexadecimal suffix.
    The source draws the suffix from uuid4; here it is the hex form of a serial
    number handed out by the order processor, so uniqueness can be proved. */
module DocIds {

  /** The five document kinds, named after their identifier prefixes. */
  datatype DocKind = SO | PL | PO | DLV | INV

  function Prefix(k: DocKind): (p: string)
    ensures |p| >= 3 && p[|p| - 1] == '-'
  {
    match k
    case SO => "SO-"
    case PL => "PL-"
    case PO => "PO-"
    case DLV => "DLV-"
    case INV => "INV-"
  }

  predicate IsHexDigit(c: char) {
    '0' <= c <= '9' || 'a' <= c <= 'f'
  }

  function HexDigit(d: nat): (c: char)
    requires d < 16
    ensures IsHexDigit(c)
  {
    if d < 10 then (48 + d) as char else (87 + d) as char
  }

  /** Lowercase hexadecimal numeral of n, most significant digit first, no leading zeros. */
  function Hex(n: nat): (s: string)
    ensures |s| >= 1
    ensures forall i :: 0 <= i < |s| ==> IsHexDigit(s[i])
    decreases n
  {
    if n < 16 then [HexDigit(n)] else Hex(n / 16) + [HexDigit(n % 16)]
  }

  /** The identifier of the document of kind k built for the order with the given serial. */
  function MakeId(k: DocKind, serial: nat): (id: string)
    ensures |id| > |Prefix(k)| && id[..|Prefix(k)|] == Prefix(k)
    ensures forall i :: |Prefix(k)| <= i < |id| ==> IsHexDigit(id[i])
  {
    Prefix(k) + Hex(serial)
  }

  lemma HexDigitInjective(a: nat, b: nat)
    requires a < 16 && b < 16 && HexDigit(a) == HexDigit(b)
    ensures a == b
  {
  }

  lemma {:induction false} HexInjective(a: nat, b: nat)
    requires Hex(a) == Hex(b)
    ensures a == b
    decreases a
  {
    if a < 16 && b < 16 {
      HexDigitInjective(a, b);
    } else if a < 16 || b < 16 {
      // a one-digit numeral never equals a numeral of two or more digits
      assert false;
    } else {
      var s := Hex(a);
      assert s == Hex(a / 16) + [HexDigit(a % 16)];
      assert s == Hex(b / 16) + [HexDigit(b % 16)];
      assert Hex(a / 16) == s[..|s| - 1] == Hex(b / 16);
      HexInjective(a / 16, b / 16);
      HexDigitInjective(a % 16, b % 16);
    }
  }

  /** Two identifiers are equal exactly when they name the same kind and the same serial:
      the prefix tells the document kind apart by inspection, the suffix the order. */
  lemma IdUnique(k1: DocKind, m: nat, k2: DocKind, n: nat)
    ensures MakeId(k1, m) == MakeId(k2, n) <==> k1 == k2 && m == n
  {
    var a, b := MakeId(k1, m), MakeId(k2, n);
    if a == b {
      assert a[..2] == Prefix(k1)[..2] && b[..2] == Prefix(k2)[..2];
      assert k1 == k2;
      assert Hex(m) == a[|Prefix(k1)|..] && Hex(n) == b[|Prefix(k2)|..];
      HexInjective(m, n);
    }
  }
}
