/**
 * Document identifiers: MongoDB ObjectIds (12 bytes), how `_id.toString()`
 * renders them and how Mongoose casts a route parameter such as
 * `req.params.id` back to one.
 */
module ObjectIds {
  import opened Wrappers

  function Pow16(k: nat): (r: nat)
    ensures r >= 1
  {
    if k == 0 then 1 else 16 * Pow16(k - 1)
  }

  /** An ObjectId is a 96-bit number: 24 hexadecimal digits. */
  type ObjectId = n: nat | n < Pow16(24)

  function HexChar(d: nat): char
    requires d < 16
  {
    "0123456789abcdef"[d]
  }

  /** The value of a hexadecimal digit of either case. */
  function HexValue(c: char): (r: Option<nat>)
    ensures r.Some? ==> r.value < 16
  {
    if '0' <= c <= '9' then Some(c as nat - '0' as nat)
    else if 'a' <= c <= 'f' then Some(c as nat - 'a' as nat + 10)
    else if 'A' <= c <= 'F' then Some(c as nat - 'A' as nat + 10)
    else None
  }

  lemma HexValueOfChar(d: nat)
    requires d < 16
    ensures HexValue(HexChar(d)) == Some(d)
  {
    assert "0123456789abcdef"[d] as nat == if d < 10 then '0' as nat + d else 'a' as nat + d - 10;
  }

  /** The lowest `width` hexadecimal digits of `n`, most significant first, lower case. */
  function ToHex(n: nat, width: nat): (s: string)
    ensures |s| == width
  {
    if width == 0 then "" else ToHex(n / 16, width - 1) + [HexChar(n % 16)]
  }

  /** The number a string of hexadecimal digits denotes, or None if one is not a digit. */
  function ParseHex(s: string): (r: Option<nat>)
    ensures r.Some? ==> r.value < Pow16(|s|)
  {
    if s == "" then Some(0)
    else
      match (ParseHex(s[..|s| - 1]), HexValue(s[|s| - 1]))
      case (Some(h), Some(d)) => Some(h * 16 + d)
      case _ => None
  }

  /** `_id.toString()`: 24 lower-case hexadecimal digits. */
  function IdText(id: ObjectId): (s: string)
  {
    ToHex(id, 24)
  }

  /**
   * Casting a path parameter to an ObjectId: 24 hexadecimal digits of either
   * case, anything else is a cast error (None).
   */
  function CastObjectId(s: string): (r: Option<ObjectId>)
    ensures r.Some? ==> |s| == 24 && ParseHex(s) == Some(r.value as nat)
    ensures r.None? ==> |s| != 24 || ParseHex(s).None?
  {
    if |s| != 24 then None
    else
      match ParseHex(s)
      case Some(n) => Some(n)
      case None => None
  }

  lemma {:induction false} ParseToHex(n: nat, width: nat)
    requires n < Pow16(width)
    ensures ParseHex(ToHex(n, width)) == Some(n)
  {
    if width > 0 {
      var s := ToHex(n, width);
      assert s[..|s| - 1] == ToHex(n / 16, width - 1);
      ParseToHex(n / 16, width - 1);
      HexValueOfChar(n % 16);
    }
  }

  /** Rendering an id and casting the text back gives the same id. */
  lemma CastIdText(id: ObjectId)
    ensures CastObjectId(IdText(id)) == Some(id)
  {
    ParseToHex(id, 24);
  }

  /** Two different ids never render to the same text. */
  lemma IdTextInjective(a: ObjectId, b: ObjectId)
    ensures IdText(a) == IdText(b) ==> a == b
  {
    CastIdText(a);
    CastIdText(b);
  }
}
