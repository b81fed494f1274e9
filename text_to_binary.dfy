/**
 * The text-to-binary agent (`TexttoBinaryAgent.run`): every character of the
 * message becomes its code point written in base 2, zero-padded to at least
 * eight digits, and the tokens are joined with single spaces.
 */
module TextToBinary {
  import opened Wrappers
  import opened Strings

  predicate IsBit(c: char) { c == '0' || c == '1' }

  predicate AllBits(s: string) { forall i :: 0 <= i < |s| ==> IsBit(s[i]) }

  /** Python's `format(n, 'b')`: the base-2 digits of `n`, most significant first. */
  function Bits(n: nat): (r: string)
    ensures |r| >= 1 && AllBits(r)
    decreases n
  {
    var d := if n % 2 == 0 then "0" else "1";
    if n < 2 then d else Bits(n / 2) + d
  }

  function Zeros(k: nat): (r: string)
    ensures |r| == k && AllBits(r)
  {
    seq(k, _ => '0')
  }

  /** Python's `format(n, '08b')`: `Bits(n)` padded on the left with zeros to width eight. */
  function Byte(n: nat): string {
    var b := Bits(n);
    if |b| < 8 then Zeros(8 - |b|) + b else b
  }

  /** The number a string of binary digits denotes. */
  function BinValue(s: string): nat
    decreases |s|
  {
    if s == [] then 0
    else 2 * BinValue(s[..|s| - 1]) + (if s[|s| - 1] == '1' then 1 else 0)
  }

  /** One token per character of the message, in order. */
  function Tokens(message: string): seq<string>
  {
    seq(|message|, i requires 0 <= i < |message| => Byte(message[i] as int))
  }

  /** `TexttoBinaryAgent.run`: the tokens joined by single spaces. */
  function Encode(message: string): string {
    Join(Tokens(message), " ")
  }

  // ---------------------------------------------------------------------------
  // An independent decoder, used to state that nothing is lost

  predicate IsScalar(v: int) { 0 <= v < 0xD800 || 0xE000 <= v < 0x11_0000 }

  function DecodeToken(t: string): Option<char> {
    var v := BinValue(t);
    if |t| > 0 && AllBits(t) && IsScalar(v) then Some(v as char) else None
  }

  function DecodeTokens(ts: seq<string>): Option<string>
    decreases |ts|
  {
    if ts == [] then Some("")
    else match (DecodeToken(ts[0]), DecodeTokens(ts[1..]))
      case (Some(c), Some(rest)) => Some([c] + rest)
      case _ => None
  }

  /** Reads a space-separated list of binary tokens back into text. */
  function Decode(s: string): Option<string> {
    if s == "" then Some("") else DecodeTokens(SplitOn(s, ' '))
  }

  // ---------------------------------------------------------------------------
  // Properties

  lemma {:induction false} BinValueBits(n: nat)
    ensures BinValue(Bits(n)) == n
    decreases n
  {
    var d := if n % 2 == 0 then "0" else "1";
    if n >= 2 {
      BinValueBits(n / 2);
      var b := Bits(n / 2) + d;
      assert b[..|b| - 1] == Bits(n / 2);
    }
  }

  lemma {:induction false} BinValueZeros(k: nat)
    ensures BinValue(Zeros(k)) == 0
    decreases k
  {
    if k > 0 {
      assert Zeros(k)[..k - 1] == Zeros(k - 1);
      BinValueZeros(k - 1);
    }
  }

  /** Leading zeros do not change the value of a binary string. */
  lemma {:induction false} BinValuePadded(k: nat, b: string)
    ensures BinValue(Zeros(k) + b) == BinValue(b)
    decreases |b|
  {
    if b == [] {
      assert Zeros(k) + b == Zeros(k);
      BinValueZeros(k);
    } else {
      var s := Zeros(k) + b;
      assert s[..|s| - 1] == Zeros(k) + b[..|b| - 1];
      BinValuePadded(k, b[..|b| - 1]);
    }
  }

  function Pow2(k: nat): nat { if k == 0 then 1 else 2 * Pow2(k - 1) }

  lemma {:induction false} BitsShort(n: nat, k: nat)
    requires k >= 1 && n < Pow2(k)
    ensures |Bits(n)| <= k
    decreases k
  {
    if n >= 2 {
      BitsShort(n / 2, k - 1);
    }
  }

  /** Each token has at least eight binary digits and denotes the code point of its character. */
  lemma ByteToken(n: nat)
    ensures |Byte(n)| >= 8 && AllBits(Byte(n))
    ensures BinValue(Byte(n)) == n
  {
    var b := Bits(n);
    BinValueBits(n);
    if |b| < 8 {
      BinValuePadded(8 - |b|, b);
      var t := Zeros(8 - |b|) + b;
      assert forall i :: 0 <= i < |t| ==> IsBit(t[i]) by {
        forall i | 0 <= i < |t| ensures IsBit(t[i]) {
          if i >= 8 - |b| { assert t[i] == b[i - (8 - |b|)]; }
        }
      }
    }
  }

  /** For a code point below 256 the token is exactly eight digits. */
  lemma ByteTokenOfOctet(n: nat)
    requires n < 256
    ensures |Byte(n)| == 8
  {
    assert Pow2(8) == 256;
    BitsShort(n, 8);
  }

  /** An empty message yields the empty string. */
  lemma EncodeEmpty()
    ensures Encode("") == ""
  {
  }

  /** The output is written with '0', '1' and ' ' only. */
  lemma EncodeAlphabet(message: string)
    ensures forall k :: 0 <= k < |Encode(message)| ==> Encode(message)[k] in {'0', '1', ' '}
  {
    var ts := Tokens(message);
    forall i, k | 0 <= i < |ts| && 0 <= k < |ts[i]| ensures ts[i][k] in {'0', '1', ' '} {
      ByteToken(message[i] as int);
    }
    JoinChars(ts, " ", {'0', '1', ' '});
  }

  /** Splitting a non-empty output at its spaces gives exactly one token per input character, in order. */
  lemma EncodeTokens(message: string)
    requires message != ""
    ensures SplitOn(Encode(message), ' ') == Tokens(message)
  {
    var ts := Tokens(message);
    forall i | 0 <= i < |ts| ensures ' ' !in ts[i] {
      ByteToken(message[i] as int);
    }
    SplitOnJoin(ts, ' ');
  }

  lemma {:induction false} DecodeAllTokens(message: string)
    ensures DecodeTokens(Tokens(message)) == Some(message)
    decreases |message|
  {
    if message != "" {
      var c := message[0];
      ByteToken(c as int);
      assert DecodeToken(Byte(c as int)) == Some(c);
      assert Tokens(message)[1..] == Tokens(message[1..]);
      DecodeAllTokens(message[1..]);
      assert [c] + message[1..] == message;
    }
  }

  /** Decoding the output gives back the message: no character is lost or reordered. */
  lemma EncodeRoundTrip(message: string)
    ensures Decode(Encode(message)) == Some(message)
  {
    if message != "" {
      EncodeTokens(message);
      DecodeAllTokens(message);
      assert Encode(message) != "" by {
        ByteToken(message[0] as int);
        if |message| == 1 {
          assert Encode(message) == Tokens(message)[0];
        } else {
          assert Encode(message) == Tokens(message)[0] + " " + Join(Tokens(message)[1..], " ");
        }
      }
    }
  }
}
