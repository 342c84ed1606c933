/**
  Values shared by the feed listener, the aggregation task and the consumers:
  an Option type, the trade record kept in the per-symbol buffers, the
  ASCII case mappings applied to exchange symbols, and the buffer key.
 */
module Common {

  datatype Option<T> = None | Some(value: T)

  /** One buffered trade, as the listener stores it and the task reads it back.
      Prices and quantities are exact values; times are epoch milliseconds. */
  datatype Trade = Trade(symbol: string, price: real, quantity: real, tradeTime: int)

  function LowerChar(c: char): char
  {
    if 'A' <= c <= 'Z' then (c as int + 32) as char else c
  }

  function UpperChar(c: char): char
  {
    if 'a' <= c <= 'z' then (c as int - 32) as char else c
  }

  /** `str.lower()` restricted to ASCII letters. */
  function Lower(s: string): (r: string)
    ensures |r| == |s|
    ensures forall i :: 0 <= i < |s| ==> r[i] == LowerChar(s[i])
  {
    if s == [] then [] else [LowerChar(s[0])] + Lower(s[1..])
  }

  /** `str.upper()` restricted to ASCII letters. */
  function Upper(s: string): (r: string)
    ensures |r| == |s|
    ensures forall i :: 0 <= i < |s| ==> r[i] == UpperChar(s[i])
  {
    if s == [] then [] else [UpperChar(s[0])] + Upper(s[1..])
  }

  /** Lower-casing twice is lower-casing once. */
  lemma LowerIdempotent(s: string)
    ensures Lower(Lower(s)) == Lower(s)
  {
    assert forall i :: 0 <= i < |s| ==> Lower(Lower(s))[i] == Lower(s)[i];
  }

  /** Upper-casing forgets an earlier lower-casing: the listener keys a trade by
      the lower-cased exchange symbol, and the task's records carry that key's
      symbol upper-cased, which is the exchange symbol upper-cased. */
  lemma UpperOfLower(s: string)
    ensures Upper(Lower(s)) == Upper(s)
  {
    assert forall i :: 0 <= i < |s| ==> Upper(Lower(s))[i] == Upper(s)[i];
  }

  lemma AppendAssoc<T>(a: seq<T>, b: seq<T>, c: seq<T>)
    ensures a + b + c == a + (b + c)
  {
  }

  const KeyPrefix: string := "trades:"

  /** The Redis key of a symbol's buffer, `f"trades:{symbol}"`. */
  function Key(symbol: string): (k: string)
    ensures |k| == |KeyPrefix| + |symbol|
    ensures k[..|KeyPrefix|] == KeyPrefix && k[|KeyPrefix|..] == symbol
  {
    KeyPrefix + symbol
  }

  /** Distinct symbols have distinct buffers. */
  lemma KeyInjective(a: string, b: string)
    ensures Key(a) == Key(b) <==> a == b
  {
    if Key(a) == Key(b) {
      assert a == Key(a)[|KeyPrefix|..] == Key(b)[|KeyPrefix|..] == b;
    }
  }
}
