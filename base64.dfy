/** Base64 as the session writes it and as the remote shell reads it back.

    The encoder is Ruby's `Base64.encode64`: the alphabet and padding of
    section 4 of RFC 4648, broken into lines of 60 output characters (45
    input bytes, Ruby's own line length, within the 76-character limit of
    section 6.8 of RFC 2045), each line ended by a line feed.  The decoder is the remote `base64 -d`, which skips those
    line feeds.  The point of the module is `DecodeEncode`: what the remote
    side decodes is exactly what was encoded. */
module Base64 {
  import opened Wrappers

  type Byte = b: int | 0 <= b < 256

  /** Input bytes per output line of `encode64` (60 characters). */
  const LineBytes: nat := 45

  /** The 64-character alphabet of section 4 of RFC 4648. */
  function Digit(v: nat): (c: char)
    requires v < 64
    ensures Value(c) == v
    ensures c != '=' && c != '\n' && c != '\''
  {
    if v < 26 then ('A' as int + v) as char
    else if v < 52 then ('a' as int + (v - 26)) as char
    else if v < 62 then ('0' as int + (v - 52)) as char
    else if v == 62 then '+'
    else '/'
  }

  /** The 6-bit value of an alphabet character, -1 for any other character. */
  function Value(c: char): int
  {
    if 'A' <= c <= 'Z' then c as int - 'A' as int
    else if 'a' <= c <= 'z' then c as int - 'a' as int + 26
    else if '0' <= c <= '9' then c as int - '0' as int + 52
    else if c == '+' then 62
    else if c == '/' then 63
    else -1
  }

  /** No character of `s` is a line feed or a single quote. */
  predicate Plain(s: string)
  {
    forall i :: 0 <= i < |s| ==> s[i] != '\n' && s[i] != '\''
  }

  /** One group of one to three bytes as four characters, '=' padding the
      groups of one and two bytes. */
  function EncodeGroup(g: seq<Byte>): (s: string)
    requires 1 <= |g| <= 3
    ensures |s| == 4 && Plain(s)
  {
    if |g| == 1 then
      [Digit(g[0] / 4), Digit((g[0] % 4) * 16), '=', '=']
    else if |g| == 2 then
      [Digit(g[0] / 4), Digit((g[0] % 4) * 16 + g[1] / 16), Digit((g[1] % 16) * 4), '=']
    else
      [Digit(g[0] / 4), Digit((g[0] % 4) * 16 + g[1] / 16),
       Digit((g[1] % 16) * 4 + g[2] / 64), Digit(g[2] % 64)]
  }

  /** The padded encoding of section 4 of RFC 4648, without line breaks. */
  function Encode(b: seq<Byte>): (s: string)
    ensures |s| == 4 * ((|b| + 2) / 3)
    ensures Plain(s)
    decreases |b|
  {
    if |b| == 0 then ""
    else if |b| <= 3 then EncodeGroup(b)
    else EncodeGroup(b[..3]) + Encode(b[3..])
  }

  /** Ruby's `Base64.encode64`: `Encode` cut into lines of 60 characters,
      each line (the last one too) ended by a line feed; "" for no bytes. */
  function EncodeLines(b: seq<Byte>): (s: string)
    ensures b == [] <==> s == []
    ensures forall i :: 0 <= i < |s| ==> s[i] != '\''
    decreases |b|
  {
    if |b| == 0 then ""
    else if |b| <= LineBytes then Encode(b) + "\n"
    else Encode(b[..LineBytes]) + "\n" + EncodeLines(b[LineBytes..])
  }

  /** `s` with its line feeds removed. */
  function StripNewlines(s: string): (r: string)
    ensures forall i :: 0 <= i < |r| ==> r[i] != '\n'
    ensures |r| <= |s|
  {
    if s == [] then []
    else if s[0] == '\n' then StripNewlines(s[1..])
    else [s[0]] + StripNewlines(s[1..])
  }

  /** Four characters back to one, two or three bytes; None when a character
      is outside the alphabet where a digit is needed. */
  function DecodeGroup(q: string): Option<seq<Byte>>
    requires |q| == 4
  {
    var a, b, c, d := Value(q[0]), Value(q[1]), Value(q[2]), Value(q[3]);
    if a < 0 || b < 0 then None
    else if q[2] == '=' && q[3] == '=' then Some([a * 4 + b / 16])
    else if c < 0 then None
    else if q[3] == '=' then Some([a * 4 + b / 16, (b % 16) * 16 + c / 4])
    else if d < 0 then None
    else Some([a * 4 + b / 16, (b % 16) * 16 + c / 4, (c % 4) * 64 + d])
  }

  /** Decoding of unbroken text: whole groups of four, a padded group only
      at the end. */
  function DecodePlain(s: string): Option<seq<Byte>>
    decreases |s|
  {
    if |s| == 0 then Some([])
    else if |s| < 4 then None
    else match DecodeGroup(s[..4])
      case None => None
      case Some(g) =>
        if |g| < 3 && |s| > 4 then None
        else match DecodePlain(s[4..])
          case None => None
          case Some(rest) => Some(g + rest)
  }

  /** `base64 -d`: line feeds are skipped, the rest decoded. */
  function Decode(s: string): Option<seq<Byte>>
  {
    DecodePlain(StripNewlines(s))
  }

  lemma DecodeEncodeGroup(g: seq<Byte>)
    requires 1 <= |g| <= 3
    ensures DecodeGroup(EncodeGroup(g)) == Some(g)
  {
    var q := EncodeGroup(g);
    var x := g[0];
    assert Value(q[0]) == x / 4;
    if |g| == 1 {
      assert (x / 4) * 4 + ((x % 4) * 16) / 16 == x;
      assert DecodeGroup(q) == Some([x]);
      assert [x] == g;
    } else if |g| == 2 {
      var y := g[1];
      assert ((x % 4) * 16 + y / 16) / 16 == x % 4;
      assert ((x % 4) * 16 + y / 16) % 16 == y / 16;
      assert ((y % 16) * 4) / 4 == y % 16;
      assert DecodeGroup(q) == Some([x, y]);
      assert [x, y] == g;
    } else {
      var y, z := g[1], g[2];
      assert ((x % 4) * 16 + y / 16) / 16 == x % 4;
      assert ((x % 4) * 16 + y / 16) % 16 == y / 16;
      assert ((y % 16) * 4 + z / 64) / 4 == y % 16;
      assert ((y % 16) * 4 + z / 64) % 4 == z / 64;
      assert q[2] != '=' && q[3] != '=';
      assert DecodeGroup(q) == Some([x, y, z]);
      assert [x, y, z] == g;
    }
  }

  /** Decoding undoes the unbroken encoding. */
  lemma {:induction false} DecodePlainEncode(b: seq<Byte>)
    ensures DecodePlain(Encode(b)) == Some(b)
    decreases |b|
  {
    if |b| == 0 {
    } else if |b| <= 3 {
      DecodeEncodeGroup(b);
      assert Encode(b)[..4] == EncodeGroup(b);
      assert Encode(b)[4..] == "";
      assert DecodePlain(Encode(b)[4..]) == Some([]);
      assert b + [] == b;
    } else {
      var s := Encode(b);
      DecodeEncodeGroup(b[..3]);
      assert s[..4] == EncodeGroup(b[..3]);
      assert s[4..] == Encode(b[3..]);
      DecodePlainEncode(b[3..]);
      assert b[..3] + b[3..] == b;
    }
  }

  /** Encoding distributes over a cut at a multiple of three bytes. */
  lemma {:induction false} EncodeAppend(x: seq<Byte>, y: seq<Byte>)
    requires |x| % 3 == 0
    ensures Encode(x + y) == Encode(x) + Encode(y)
    decreases |x|
  {
    if |x| == 0 {
      assert x + y == y;
    } else if |x + y| <= 3 {
      assert y == [] && x + y == x;
    } else {
      assert (x + y)[..3] == x[..3];
      assert (x + y)[3..] == x[3..] + y;
      EncodeAppend(x[3..], y);
      if |x| == 3 {
        assert x[..3] == x;
        assert x[3..] == [];
      }
    }
  }

  lemma {:induction false} StripAppend(s: string, t: string)
    ensures StripNewlines(s + t) == StripNewlines(s) + StripNewlines(t)
    decreases |s|
  {
    if s == [] {
      assert s + t == t;
    } else {
      assert (s + t)[1..] == s[1..] + t;
      StripAppend(s[1..], t);
    }
  }

  lemma {:induction false} StripPlain(s: string)
    requires Plain(s)
    ensures StripNewlines(s) == s
    decreases |s|
  {
    if s != [] {
      StripPlain(s[1..]);
    }
  }

  /** Skipping the line feeds of `encode64` leaves the unbroken encoding. */
  lemma {:induction false} StripEncodeLines(b: seq<Byte>)
    ensures StripNewlines(EncodeLines(b)) == Encode(b)
    decreases |b|
  {
    if |b| == 0 {
    } else if |b| <= LineBytes {
      StripAppend(Encode(b), "\n");
      StripPlain(Encode(b));
    } else {
      var head, tail := b[..LineBytes], b[LineBytes..];
      StripAppend(Encode(head) + "\n", EncodeLines(tail));
      StripAppend(Encode(head), "\n");
      StripPlain(Encode(head));
      StripEncodeLines(tail);
      assert head + tail == b;
      EncodeAppend(head, tail);
    }
  }

  /** The round trip: `base64 -d` gives back exactly the bytes `encode64`
      was given. */
  lemma DecodeEncode(b: seq<Byte>)
    ensures Decode(EncodeLines(b)) == Some(b)
  {
    StripEncodeLines(b);
    DecodePlainEncode(b);
  }
}
