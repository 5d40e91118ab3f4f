/** Base64 with padding, section 4 of RFC 4648, and its decoder. */
module Base64Coding {
  import opened Prelude

  type Byte = b: int | 0 <= b < 256

  const ALPHABET := "ABCDEFGHIJKLMNOPQRSTUVWXYZ" + "abcdefghijklmnopqrstuvwxyz" + "0123456789+/"

  /** A character of the base64 alphabet. */
  function Sextet(n: int): (c: char)
    requires 0 <= n < 64
    ensures c != '_' && c != '='
  {
    if n < 26 then ('A' as int + n) as char
    else if n < 52 then ('a' as int + n - 26) as char
    else if n < 62 then ('0' as int + n - 52) as char
    else if n == 62 then '+' else '/'
  }

  function Quad(x: Byte, y: Byte, z: Byte): (s: string)
    ensures '_' !in s && |s| == 4
  {
    [Sextet(x / 4), Sextet(x % 4 * 16 + y / 16), Sextet(y % 16 * 4 + z / 64), Sextet(z % 64)]
  }

  function Base64(b: seq<Byte>): (s: string)
    ensures '_' !in s && |s| == 4 * ((|b| + 2) / 3)
  {
    if |b| == 0 then ""
    else if |b| == 1 then Quad(b[0], 0, 0)[..2] + "=="
    else if |b| == 2 then Quad(b[0], b[1], 0)[..3] + "="
    else
      assert |b[3..]| == |b| - 3;
      assert (|b| + 2) / 3 == (|b| - 3 + 2) / 3 + 1;
      Quad(b[0], b[1], b[2]) + Base64(b[3..])
  }

  // ------------------------------------------------------------------ decoding

  /** The place of a character in the alphabet. */
  function ValueOf(c: char): Option<nat> {
    var k := IndexOf(ALPHABET, c);
    if k < |ALPHABET| then Some(k) else None
  }

  /** The bytes of a group of four characters, the last of which may be padding at the end of a text. */
  function DecodeGroup(a: char, b: char, c: char, d: char, last: bool): Option<seq<int>> {
    var p, q, r, s := ValueOf(a), ValueOf(b), ValueOf(c), ValueOf(d);
    if p.None? || q.None? then None
    else
      var x := p.value * 4 + q.value / 16;
      if last && c == '=' && d == '=' then Some([x])
      else if r.None? then None
      else
        var y := q.value % 16 * 16 + r.value / 4;
        if last && d == '=' then Some([x, y])
        else if s.None? then None
        else Some([x, y, r.value % 4 * 64 + s.value])
  }

  function Decode(s: string): Option<seq<int>>
    decreases |s|
  {
    if s == "" then Some([])
    else if |s| < 4 then None
    else
      var group, rest := DecodeGroup(s[0], s[1], s[2], s[3], |s| == 4), Decode(s[4..]);
      if group.None? || rest.None? then None else Some(group.value + rest.value)
  }

  // ---------------------------------------------------------------- round trip

  lemma AlphabetAt(n: int)
    requires 0 <= n < 64
    ensures |ALPHABET| == 64 && ALPHABET[n] == Sextet(n)
  {
    if n < 26 {
      assert ALPHABET[n] == "ABCDEFGHIJKLMNOPQRSTUVWXYZ"[n];
    } else if n < 52 {
      assert ALPHABET[n] == "abcdefghijklmnopqrstuvwxyz"[n - 26];
    } else {
      assert ALPHABET[n] == "0123456789+/"[n - 52];
    }
  }

  lemma SextetsDiffer(m: int, n: int)
    requires 0 <= m < 64 && 0 <= n < 64 && Sextet(m) == Sextet(n)
    ensures m == n
  {
  }

  lemma ValueOfSextet(n: int)
    requires 0 <= n < 64
    ensures ValueOf(Sextet(n)) == Some(n)
  {
    AlphabetAt(n);
    hide Sextet;
    var k := IndexOf(ALPHABET, Sextet(n));
    assert ALPHABET[n] == Sextet(n);
    if n < k {
      assert false;
    }
    AlphabetAt(k);
    SextetsDiffer(k, n);
  }

  lemma ValueOfPadding()
    ensures ValueOf('=') == None
  {
    var k := IndexOf(ALPHABET, '=');
    if k < |ALPHABET| {
      AlphabetLength();
      AlphabetAt(k);
      assert false;
    }
  }

  lemma AlphabetLength()
    ensures |ALPHABET| == 64
  {
  }

  lemma GroupRoundTrip(x: Byte, y: Byte, z: Byte, last: bool)
    ensures var q := Quad(x, y, z); DecodeGroup(q[0], q[1], q[2], q[3], last) == Some([x, y, z])
    ensures var q := Quad(x, y, 0); DecodeGroup(q[0], q[1], q[2], '=', true) == Some([x, y])
    ensures var q := Quad(x, 0, 0); DecodeGroup(q[0], q[1], '=', '=', true) == Some([x])
  {
    hide Sextet, ValueOf;
    ValueOfSextet(x / 4);
    ValueOfSextet(x % 4 * 16 + y / 16);
    ValueOfSextet(x % 4 * 16 + 0 / 16);
    ValueOfSextet(y % 16 * 4 + z / 64);
    ValueOfSextet(y % 16 * 4 + 0 / 64);
    ValueOfSextet(z % 64);
    ValueOfPadding();
  }

  /** Every byte sequence is decoded from its base64 text. */
  lemma {:induction false} Base64RoundTrip(b: seq<Byte>)
    ensures Decode(Base64(b)) == Some(b)
    decreases |b|
  {
    hide DecodeGroup, Quad;
    if |b| == 1 {
      GroupRoundTrip(b[0], 0, 0, true);
      LastGroup(Base64(b));
      assert b == [b[0]];
    } else if |b| == 2 {
      GroupRoundTrip(b[0], b[1], 0, true);
      LastGroup(Base64(b));
      assert b == [b[0], b[1]];
    } else if |b| >= 3 {
      var s, rest := Base64(b), Base64(b[3..]);
      GroupRoundTrip(b[0], b[1], b[2], |s| == 4);
      Base64RoundTrip(b[3..]);
      assert s[4..] == rest;
      assert b == [b[0], b[1], b[2]] + b[3..];
    }
  }

  lemma LastGroup(s: string)
    requires |s| == 4
    ensures Decode(s) == DecodeGroup(s[0], s[1], s[2], s[3], true)
  {
    hide DecodeGroup;
    assert s[4..] == "";
    var g := DecodeGroup(s[0], s[1], s[2], s[3], true);
    if g.Some? {
      assert g.value + [] == g.value;
    }
  }
}
