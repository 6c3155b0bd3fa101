/**
 * The standard base 64 encoding with padding (section 4 of RFC 4648), which
 * the legacy manager applies to captured screenshot bytes. Only encoding is
 * used by the code, so only encoding is modelled.
 */
module Base64 {

  type byte = x: int | 0 <= x < 256

  type sextet = x: int | 0 <= x < 64

  const Alphabet: string := "ABCDEFGHIJKLMNOPQRSTUVWXYZabcdefghijklmnopqrstuvwxyz0123456789+/"

  function Digit(x: sextet): char {
    assert |Alphabet| == 64;
    Alphabet[x]
  }

  function High6(b: byte): sextet { b / 4 }

  function Low2High4(a: byte, b: byte): sextet { (a % 4) * 16 + b / 16 }

  function Low4High2(b: byte, c: byte): sextet { (b % 16) * 4 + c / 64 }

  function Low6(c: byte): sextet { c % 64 }

  /** Every 3 input bytes become 4 output characters; a short last group is padded with '='. */
  function Encode(data: seq<byte>): (s: string)
    ensures |s| == (|data| + 2) / 3 * 4
    ensures s == [] <==> data == []
    decreases |data|
  {
    if |data| == 0 then ""
    else if |data| == 1 then
      [Digit(High6(data[0])), Digit(Low2High4(data[0], 0)), '=', '=']
    else if |data| == 2 then
      [Digit(High6(data[0])), Digit(Low2High4(data[0], data[1])), Digit(Low4High2(data[1], 0)), '=']
    else
      var rest := Encode(data[3..]);
      OneMoreGroup(|data| - 3);
      [Digit(High6(data[0])), Digit(Low2High4(data[0], data[1])),
       Digit(Low4High2(data[1], data[2])), Digit(Low6(data[2]))] + rest
  }

  /** A group of three more bytes adds one group of four characters. */
  lemma OneMoreGroup(n: nat)
    ensures (n + 3 + 2) / 3 * 4 == 4 + (n + 2) / 3 * 4
  {
    assert (n + 5) / 3 == (n + 2) / 3 + 1;
  }
}
