/**
 * The cache key of an item, "hn:item:" followed by the id in decimal
 * (TempletonTestApi/Services/HackerNewsService.cs, the prefix constant and
 * the interpolated key), and the proof that distinct ids get distinct keys,
 * by parsing the id back out of its key.
 */
module CacheKeys {
  import opened Wrappers

  const CACHE_KEY_PREFIX: string := "hn:item"

  predicate IsDigit(c: char) {
    '0' <= c <= '9'
  }

  function DigitChar(d: nat): (c: char)
    requires d < 10
    ensures IsDigit(c) && c as int - '0' as int == d
  {
    ('0' as int + d) as char
  }

  /** The decimal digits of a natural number, most significant first, without leading zeros. */
  function NatToDecimal(n: nat): (s: string)
    ensures |s| >= 1
    ensures forall i :: 0 <= i < |s| ==> IsDigit(s[i])
    decreases n
  {
    if n < 10 then [DigitChar(n)] else NatToDecimal(n / 10) + [DigitChar(n % 10)]
  }

  /** How `long` is interpolated into a string: a minus sign before negative numbers. */
  function IntToDecimal(i: int): string
  {
    if i < 0 then "-" + NatToDecimal(-i) else NatToDecimal(i)
  }

  /** The value of a string of digits. */
  function DecimalValue(s: string): nat
    requires forall i :: 0 <= i < |s| ==> IsDigit(s[i])
  {
    if s == [] then 0
    else
      assert IsDigit(s[|s| - 1]);
      DecimalValue(s[..|s| - 1]) * 10 + (s[|s| - 1] as int - '0' as int)
  }

  /** Parses what IntToDecimal produces: an optional minus sign and at least one digit. */
  function ParseDecimal(s: string): Option<int>
  {
    if |s| >= 2 && s[0] == '-' && forall i :: 1 <= i < |s| ==> IsDigit(s[i]) then
      Some(-(DecimalValue(s[1..]) as int))
    else if |s| >= 1 && forall i :: 0 <= i < |s| ==> IsDigit(s[i]) then
      Some(DecimalValue(s))
    else None
  }

  /** The key an item is cached under: "hn:item:" followed by the id's decimal text. */
  function ItemKey(id: int): string
  {
    CACHE_KEY_PREFIX + ":" + IntToDecimal(id)
  }

  /** The id a key belongs to, if it is an item key. */
  function IdOfKey(key: string): Option<int>
  {
    if |key| >= 8 && key[..8] == CACHE_KEY_PREFIX + ":" then ParseDecimal(key[8..]) else None
  }

  lemma {:induction false} NatDecimalRoundTrip(n: nat)
    ensures DecimalValue(NatToDecimal(n)) == n
    decreases n
  {
    var s := NatToDecimal(n);
    if n >= 10 {
      NatDecimalRoundTrip(n / 10);
      assert s[..|s| - 1] == NatToDecimal(n / 10);
    }
  }

  lemma IntDecimalRoundTrip(i: int)
    ensures ParseDecimal(IntToDecimal(i)) == Some(i)
  {
    var s := IntToDecimal(i);
    if i < 0 {
      NatDecimalRoundTrip(-i);
      assert s[1..] == NatToDecimal(-i);
    } else {
      NatDecimalRoundTrip(i);
      assert !IsDigit('-');
    }
  }

  /** An item key gives its id back. */
  lemma ItemKeyRoundTrip(id: int)
    ensures IdOfKey(ItemKey(id)) == Some(id)
  {
    var key := ItemKey(id);
    assert key[..8] == CACHE_KEY_PREFIX + ":";
    assert key[8..] == IntToDecimal(id);
    IntDecimalRoundTrip(id);
  }

  /** Distinct ids are cached under distinct keys, so one id's entry never stands for another's. */
  lemma ItemKeyInjective(a: int, b: int)
    ensures ItemKey(a) == ItemKey(b) <==> a == b
  {
    ItemKeyRoundTrip(a);
    ItemKeyRoundTrip(b);
  }

  /** The key of item 8863 is "hn:item:8863"; a negative id keeps its minus sign. */
  lemma ItemKeyExamples()
    ensures ItemKey(8863) == "hn:item:8863"
    ensures ItemKey(-7) == "hn:item:-7"
  {
    assert NatToDecimal(8) == "8";
    assert NatToDecimal(88) == "88";
    assert NatToDecimal(886) == "886";
    assert NatToDecimal(8863) == "8863";
    assert NatToDecimal(7) == "7";
  }
}
