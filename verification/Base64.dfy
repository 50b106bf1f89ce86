/** `imageEncoder`: the streaming base64 encoder, against the grouped encoding of section 4 of RFC 4648. */
module Base64 {
  const UPPER := "ABCDEFGHIJKLMNOPQRSTUVWXYZ"
  const LOWER := "abcdefghijklmnopqrstuvwxyz"
  const DIGITS := "0123456789"
  const ALPHABET := UPPER + LOWER + DIGITS + "+/"

  function Char(x: bv8): char
    requires x < 64
  {
    ALPHABET[x as int]
  }

  /** Capital letters, small letters, digits, plus and slash, in this order. */
  lemma AlphabetIs(x: bv8)
    requires x < 64
    ensures x < 26 ==> Char(x) as int == 'A' as int + x as int
    ensures 26 <= x < 52 ==> Char(x) as int == 'a' as int + (x as int - 26)
    ensures 52 <= x < 62 ==> Char(x) as int == '0' as int + (x as int - 52)
    ensures Char(62) == '+' && Char(63) == '/'
  {}

  // ---- The grouped encoding: three bytes make a 24-bit group of four six-bit characters ----

  function Bits(a: bv8, b: bv8, c: bv8): bv24 { ((a as bv24) << 16) | ((b as bv24) << 8) | (c as bv24) }

  /** The k-th six-bit piece of a group, from the left. */
  function Sextet(g: bv24, k: int): (x: bv8)
    requires 0 <= k < 4
    ensures x < 64
  {
    if k == 0 then ((g >> 18) & 0x3F) as bv8
    else if k == 1 then ((g >> 12) & 0x3F) as bv8
    else if k == 2 then ((g >> 6) & 0x3F) as bv8
    else (g & 0x3F) as bv8
  }

  function Group(a: bv8, b: bv8, c: bv8): (g: string)
    ensures |g| == 4
  {
    var g := Bits(a, b, c);
    [Char(Sextet(g, 0)), Char(Sextet(g, 1)), Char(Sextet(g, 2)), Char(Sextet(g, 3))]
  }

  /** How many of `n` bytes, and of `n` characters, lie in complete groups. */
  function Whole3(n: nat): (m: nat)
    ensures m <= n < m + 3 && m % 3 == 0
  {
    n - n % 3
  }

  function Whole4(n: nat): (m: nat)
    ensures m <= n < m + 4 && m % 4 == 0
  {
    n - n % 4
  }

  function FullGroups(s: seq<bv8>): (t: string)
    requires |s| % 3 == 0
    ensures |t| % 4 == 0
  {
    if s == [] then "" else FullGroups(s[..|s| - 3]) + Group(s[|s| - 3], s[|s| - 2], s[|s| - 1])
  }

  /** The last one or two bytes, with zero bits added on the right. */
  function Tail(s: seq<bv8>, padding: bool): string
    requires |s| < 3
  {
    if |s| == 0 then ""
    else if |s| == 1 then Group(s[0], 0, 0)[..2] + if padding then "==" else ""
    else Group(s[0], s[1], 0)[..3] + if padding then "=" else ""
  }

  function Encode(s: seq<bv8>, padding: bool): string {
    var n := Whole3(|s|);
    FullGroups(s[..n]) + Tail(s[n..], padding)
  }

  // ---- The streaming encoder ----

  // The indices the encoder computes from the current byte and the bits left over from the one before.
  function FromFirst(b: bv8): (x: bv8)
    ensures x < 64
  {
    (b & 0xFC) >> 2
  }

  function FromSecond(b: bv8, left: bv8): (x: bv8)
    requires left < 64
    ensures x < 64
  {
    ((b & 0xF0) >> 4) | left
  }

  function FromThird(b: bv8, left: bv8): (x: bv8)
    requires left < 64
    ensures x < 64
  {
    ((b & 0xC0) >> 6) | left
  }

  function Low6(b: bv8): (x: bv8)
    ensures x < 64
  {
    b & 0x3F
  }

  /** The bits of a first, and of a second byte that are left for the next character. */
  function LeftOfFirst(b: bv8): (left: bv8)
    ensures left < 64
  {
    (b & 0x03) << 4
  }

  function LeftOfSecond(b: bv8): (left: bv8)
    ensures left < 64
  {
    (b & 0x0F) << 2
  }

  lemma Pieces(a: bv8, b: bv8, c: bv8)
    ensures Sextet(Bits(a, b, c), 0) == FromFirst(a)
    ensures Sextet(Bits(a, b, c), 1) == FromSecond(b, LeftOfFirst(a))
    ensures Sextet(Bits(a, b, c), 2) == FromThird(c, LeftOfSecond(b))
    ensures Sextet(Bits(a, b, c), 3) == Low6(c)
  {}

  lemma LastPieces(a: bv8, b: bv8)
    ensures FromSecond(0, LeftOfFirst(a)) == LeftOfFirst(a)
    ensures FromThird(0, LeftOfSecond(b)) == LeftOfSecond(b)
  {}

  /** A group, as the stream of characters the encoder writes for it. */
  lemma GroupIs(a: bv8, b: bv8, c: bv8)
    ensures Group(a, b, c) == [
      Char(FromFirst(a)), Char(FromSecond(b, LeftOfFirst(a))), Char(FromThird(c, LeftOfSecond(b))), Char(Low6(c))]
  {
    hide Bits;
    hide Sextet;
    hide Char;
    hide FromFirst;
    hide FromSecond;
    hide FromThird;
    hide Low6;
    Pieces(a, b, c);
  }

  /** What the encoder has written for the bytes of a group that is not complete yet. */
  function Started(s: seq<bv8>): string
    requires |s| < 3
  {
    if |s| == 0 then ""
    else if |s| == 1 then Group(s[0], 0, 0)[..1]
    else Group(s[0], s[1], 0)[..2]
  }

  /** Everything written after the bytes `s`. */
  function Written(s: seq<bv8>): string {
    var n := Whole3(|s|);
    FullGroups(s[..n]) + Started(s[n..])
  }

  /** The bits of the last byte that are still to be written. */
  function Pending(s: seq<bv8>): (left: bv8)
    ensures left < 64
  {
    if |s| % 3 == 1 then LeftOfFirst(s[|s| - 1])
    else if |s| % 3 == 2 then LeftOfSecond(s[|s| - 1])
    else 0
  }

  lemma NothingWritten()
    ensures Written([]) == ""
  {}

  lemma WrittenIs(base: seq<bv8>, rest: seq<bv8>)
    requires |base| % 3 == 0 && |rest| < 3
    ensures Written(base + rest) == FullGroups(base) + Started(rest)
    ensures Encode(base + rest, true) == FullGroups(base) + Tail(rest, true)
    ensures Encode(base + rest, false) == FullGroups(base) + Tail(rest, false)
  {
    hide FullGroups;
    hide Started;
    hide Tail;
    var u := base + rest;
    assert Whole3(|u|) == |base|;
    assert u[..|base|] == base;
    assert u[|base|..] == rest;
  }

  lemma OneMoreFullGroup(base: seq<bv8>, a: bv8, b: bv8, c: bv8)
    requires |base| % 3 == 0
    ensures FullGroups(base + [a, b, c]) == FullGroups(base) + Group(a, b, c)
  {
    hide Group;
    var u := base + [a, b, c];
    assert u[..|u| - 3] == base;
  }

  lemma OneMoreGroup(base: seq<bv8>, a: bv8, b: bv8, c: bv8)
    requires |base| % 3 == 0
    ensures Written(base + [a, b, c]) == FullGroups(base) + Group(a, b, c)
  {
    hide Group;
    hide Written;
    hide FullGroups;
    var u := base + [a, b, c];
    assert u + [] == u;
    OneMoreFullGroup(base, a, b, c);
    WrittenIs(u, []);
  }

  /** What one more byte adds, in each of the three states. */
  lemma FirstByte(s: seq<bv8>, b: bv8)
    requires |s| % 3 == 0
    ensures Written(s + [b]) == Written(s) + [Char(FromFirst(b))]
  {
    hide Written;
    hide FullGroups;
    hide Group;
    hide Char;
    hide FromFirst;
    hide FromSecond;
    hide FromThird;
    hide Low6;
    hide LeftOfFirst;
    hide LeftOfSecond;
    assert s + [] == s;
    WrittenIs(s, []);
    WrittenIs(s, [b]);
    GroupIs(b, 0, 0);
  }

  lemma SecondByte(s: seq<bv8>, b: bv8)
    requires |s| % 3 == 1
    ensures Written(s + [b]) == Written(s) + [Char(FromSecond(b, LeftOfFirst(s[|s| - 1])))]
  {
    hide Written;
    hide FullGroups;
    hide Group;
    hide Char;
    hide FromFirst;
    hide FromSecond;
    hide FromThird;
    hide Low6;
    hide LeftOfFirst;
    hide LeftOfSecond;
    var n := |s| - 1;
    var base, a := s[..n], s[n];
    assert s == base + [a] && s + [b] == base + [a, b];
    WrittenIs(base, [a]);
    WrittenIs(base, [a, b]);
    GroupIs(a, 0, 0);
    GroupIs(a, b, 0);
  }

  lemma ThirdByte(s: seq<bv8>, c: bv8)
    requires |s| % 3 == 2
    ensures Written(s + [c]) == Written(s) + [Char(FromThird(c, LeftOfSecond(s[|s| - 1]))), Char(Low6(c))]
  {
    hide Written;
    hide FullGroups;
    hide Group;
    hide Char;
    hide FromFirst;
    hide FromSecond;
    hide FromThird;
    hide Low6;
    hide LeftOfFirst;
    hide LeftOfSecond;
    var n := |s| - 2;
    var base, a, b := s[..n], s[n], s[n + 1];
    assert s == base + [a, b] && s + [c] == base + [a, b, c];
    WrittenIs(base, [a, b]);
    OneMoreGroup(base, a, b, c);
    GroupIs(a, b, 0);
    GroupIs(a, b, c);
  }

  /** The remaining bits and the padding finish the encoding. */
  lemma Finishing(s: seq<bv8>, padding: bool)
    ensures Encode(s, padding) == Written(s) +
      (if |s| % 3 == 0 then "" else [Char(Pending(s))]) +
      (if !padding || |s| % 3 == 0 then "" else if |s| % 3 == 1 then "==" else "=")
  {
    hide Written;
    hide FullGroups;
    hide Group;
    hide Char;
    hide FromFirst;
    hide FromSecond;
    hide FromThird;
    hide Low6;
    hide LeftOfFirst;
    hide LeftOfSecond;
    hide Encode;
    var n := Whole3(|s|);
    var base := s[..n];
    assert s == base + s[n..];
    WrittenIs(base, s[n..]);
    if |s| % 3 == 1 {
      var a := s[n];
      assert s[n..] == [a];
      GroupIs(a, 0, 0);
      LastPieces(a, 0);
    } else if |s| % 3 == 2 {
      var a, b := s[n], s[n + 1];
      assert s[n..] == [a, b];
      GroupIs(a, b, 0);
      LastPieces(a, b);
    }
  }

  method ImageEncoder(bytes: array<bv8>, padding: bool, before: string) returns (result: string)
    ensures result == before + Encode(bytes[..], padding)
  {
    hide Written;
    hide Encode;
    hide Char;
    hide FromFirst;
    hide FromSecond;
    hide FromThird;
    hide Low6;
    hide LeftOfFirst;
    hide LeftOfSecond;
    NothingWritten();
    assert bytes[..0] == [];
    result := before;
    var state, index, lastStuff: bv8 := 0, 0, 0;
    while index < bytes.Length
      invariant 0 <= index <= bytes.Length && state == index % 3
      invariant result == before + Written(bytes[..index])
      invariant state != 0 ==> lastStuff == Pending(bytes[..index])
    {
      var b := bytes[index];
      assert bytes[..index + 1] == bytes[..index] + [b];
      if state == 0 {
        FirstByte(bytes[..index], b);
        result := result + [Char(FromFirst(b))];
        lastStuff := LeftOfFirst(b);
        state := 1;
      } else if state == 1 {
        SecondByte(bytes[..index], b);
        result := result + [Char(FromSecond(b, lastStuff))];
        lastStuff := LeftOfSecond(b);
        state := 2;
      } else {
        ThirdByte(bytes[..index], b);
        result := result + [Char(FromThird(b, lastStuff))];
        result := result + [Char(Low6(b))];
        state := 0;
      }
      index := index + 1;
    }
    assert bytes[..index] == bytes[..];
    Finishing(bytes[..], padding);
    if state != 0 {
      result := result + [Char(lastStuff)];
      if padding {
        if state == 1 {
          result := result + "==";
        } else {
          result := result + "=";
        }
      }
    }
  }

  // ---- Lengths ----

  lemma {:induction false} FullGroupsLength(s: seq<bv8>)
    requires |s| % 3 == 0
    ensures 3 * |FullGroups(s)| == 4 * |s|
  {
    if s == [] {
    } else {
      FullGroupsLength(s[..|s| - 3]);
    }
  }

  /** Four characters for every three bytes or part of them; without padding, only as many as carry bits. */
  lemma EncodedLength(s: seq<bv8>)
    ensures |Encode(s, true)| == 4 * ((|s| + 2) / 3)
    ensures |Encode(s, false)| == (4 * |s| + 2) / 3
  {
    hide Group;
    hide FullGroups;
    FullGroupsLength(s[..Whole3(|s|)]);
  }

  // ---- A decoder, and the round trip ----

  /** The number a character of the alphabet stands for; 64 for any other character. */
  function Position(c: char): (p: int)
    ensures 0 <= p <= 64
  {
    if 'A' <= c <= 'Z' then c as int - 'A' as int
    else if 'a' <= c <= 'z' then c as int - 'a' as int + 26
    else if '0' <= c <= '9' then c as int - '0' as int + 52
    else if c == '+' then 62
    else if c == '/' then 63
    else 64
  }

  function Value(c: char): bv8 { Position(c) as bv8 }

  function Bytes(w: bv8, x: bv8, y: bv8, z: bv8): (bv8, bv8, bv8) {
    ((w << 2) | ((x >> 4) & 0x03), (x << 4) | ((y >> 2) & 0x0F), (y << 6) | z)
  }

  function Ungroup(t: string): seq<bv8>
    requires |t| == 4
  {
    var g := Bytes(Value(t[0]), Value(t[1]), Value(t[2]), Value(t[3]));
    [g.0, g.1, g.2]
  }

  function DecodeFull(t: string): seq<bv8>
    requires |t| % 4 == 0
  {
    if t == "" then [] else DecodeFull(t[..|t| - 4]) + Ungroup(t[|t| - 4..])
  }

  function DecodeTail(t: string): seq<bv8>
    requires |t| < 4
  {
    if |t| < 2 then []
    else if |t| == 2 then Ungroup(t + "AA")[..1]
    else Ungroup(t + "A")[..2]
  }

  function Strip(t: string): string {
    if t != "" && t[|t| - 1] == '=' then Strip(t[..|t| - 1]) else t
  }

  function Decode(t: string): seq<bv8> {
    var u := Strip(t);
    var n := Whole4(|u|);
    DecodeFull(u[..n]) + DecodeTail(u[n..])
  }

  lemma UpperIs(i: nat)
    requires i < 26
    ensures UPPER[i] as int == 'A' as int + i
  {
    if i < 13 {
      if i < 6 {} else {}
    } else if i < 20 {
    } else {
    }
  }

  lemma LowerIs(i: nat)
    requires i < 26
    ensures LOWER[i] as int == 'a' as int + i
  {
    if i < 13 {
    } else {
    }
  }

  lemma AlphabetPosition(i: nat)
    requires i < 64
    ensures Position(ALPHABET[i]) == i
  {
    if i < 26 {
      UpperIs(i);
    } else if i < 52 {
      LowerIs(i - 26);
    }
  }

  lemma ValueOfChar(x: bv8)
    requires x < 64
    ensures Value(Char(x)) == x
    ensures Char(x) != '='
  {
    AlphabetPosition(x as int);
  }

  lemma BytesFromPieces(a: bv8, b: bv8, c: bv8)
    ensures var g := Bits(a, b, c); Bytes(Sextet(g, 0), Sextet(g, 1), Sextet(g, 2), Sextet(g, 3)) == (a, b, c)
  {}

  lemma UngroupGroup(a: bv8, b: bv8, c: bv8)
    ensures Ungroup(Group(a, b, c)) == [a, b, c]
    ensures forall k :: 0 <= k < 4 ==> Group(a, b, c)[k] != '='
  {
    var g := Bits(a, b, c);
    ValueOfChar(Sextet(g, 0));
    ValueOfChar(Sextet(g, 1));
    ValueOfChar(Sextet(g, 2));
    ValueOfChar(Sextet(g, 3));
    BytesFromPieces(a, b, c);
  }

  lemma DecodeOneMore(f: string, g: string)
    requires |f| % 4 == 0 && |g| == 4
    ensures DecodeFull(f + g) == DecodeFull(f) + Ungroup(g)
  {
    hide Ungroup;
    var t := f + g;
    assert t[..|t| - 4] == f;
    assert t[|t| - 4..] == g;
  }

  lemma NothingDecodes()
    ensures DecodeFull(FullGroups([])) == []
  {}

  lemma {:induction false} DecodeFullGroups(s: seq<bv8>)
    requires |s| % 3 == 0
    ensures DecodeFull(FullGroups(s)) == s
  {
    hide Group, Ungroup, FullGroups, DecodeFull;
    if s == [] {
      NothingDecodes();
    } else {
      var m := |s| - 3;
      var base, a, b, c := s[..m], s[m], s[m + 1], s[m + 2];
      assert s == base + [a, b, c];
      DecodeFullGroups(base);
      OneMoreFullGroup(base, a, b, c);
      DecodeOneMore(FullGroups(base), Group(a, b, c));
      UngroupGroup(a, b, c);
    }
  }

  lemma NoPaddingInGroups(s: seq<bv8>)
    requires |s| % 3 == 0
    ensures var f := FullGroups(s); f == "" || f[|f| - 1] != '='
  {
    hide Group;
    hide Ungroup;
    if s != [] {
      UngroupGroup(s[|s| - 3], s[|s| - 2], s[|s| - 1]);
    }
  }

  lemma NoPaddingInTail(s: seq<bv8>)
    requires |s| < 3
    ensures var t := Tail(s, false); t == "" || t[|t| - 1] != '='
  {
    hide Group;
    hide Ungroup;
    if |s| == 1 {
      UngroupGroup(s[0], 0, 0);
    } else if |s| == 2 {
      UngroupGroup(s[0], s[1], 0);
    }
  }

  /** The unpadded text never ends with a padding character. */
  lemma NoPadding(s: seq<bv8>)
    ensures var t := Encode(s, false); t == "" || t[|t| - 1] != '='
  {
    hide FullGroups;
    hide Tail;
    var n := Whole3(|s|);
    NoPaddingInGroups(s[..n]);
    NoPaddingInTail(s[n..]);
  }

  lemma StripPadding(t: string)
    ensures Strip(t + "=") == Strip(t)
    ensures Strip(t + "==") == Strip(t)
  {
    assert (t + "=")[..|t|] == t;
    assert (t + "==")[..|t| + 1] == t + "=";
  }

  /** Padding is all that stripping takes away. */
  lemma StripEncoded(s: seq<bv8>, padding: bool)
    ensures Strip(Encode(s, padding)) == Encode(s, false)
  {
    hide Group;
    var t := Encode(s, false);
    NoPadding(s);
    StripPadding(t);
    assert Encode(s, padding) == t || Encode(s, padding) == t + "=" || Encode(s, padding) == t + "==";
  }

  lemma ZeroPieces(a: bv8, b: bv8)
    ensures Group(a, b, 0) == Group(a, b, 0)[..3] + "A"
    ensures Group(a, 0, 0) == Group(a, 0, 0)[..2] + "AA"
  {
    assert Sextet(Bits(a, b, 0), 3) == 0;
    assert Sextet(Bits(a, 0, 0), 3) == 0 && Sextet(Bits(a, 0, 0), 2) == 0;
    assert Char(0) == 'A';
  }

  lemma DecodeTailOf(s: seq<bv8>)
    requires |s| < 3
    ensures |Tail(s, false)| < 4 && DecodeTail(Tail(s, false)) == s
  {
    hide Group;
    hide Ungroup;
    if |s| == 1 {
      ZeroPieces(s[0], 0);
      assert Tail(s, false) + "AA" == Group(s[0], 0, 0);
      UngroupGroup(s[0], 0, 0);
    } else if |s| == 2 {
      ZeroPieces(s[0], s[1]);
      assert Tail(s, false) + "A" == Group(s[0], s[1], 0);
      UngroupGroup(s[0], s[1], 0);
      assert [s[0], s[1], 0][..2] == s;
    }
  }

  /** Decoding undoes encoding, padded or not. */
  lemma RoundTrip(s: seq<bv8>, padding: bool)
    ensures Decode(Encode(s, padding)) == s
  {
    hide Tail;
    hide DecodeTail;
    hide FullGroups;
    hide DecodeFull;
    hide Strip;
    var n := Whole3(|s|);
    var f, t := FullGroups(s[..n]), Tail(s[n..], false);
    DecodeFullGroups(s[..n]);
    DecodeTailOf(s[n..]);
    StripEncoded(s, padding);
    assert Whole4(|f + t|) == |f|;
    assert (f + t)[..|f|] == f;
    assert (f + t)[|f|..] == t;
    assert s == s[..n] + s[n..];
  }

  /** Two images with the same text are the same image, whichever of them was padded. */
  lemma EncodeIsInjective(s: seq<bv8>, p: bool, t: seq<bv8>, q: bool)
    requires Encode(s, p) == Encode(t, q)
    ensures s == t
  {
    RoundTrip(s, p);
    RoundTrip(t, q);
  }
}
