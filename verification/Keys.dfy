/** Composite string keys: "contentID:platform" and "scope:key". */
module Keys {

  predicate ColonFree(s: string) {
    ':' !in s
  }

  function Join(left: string, right: string): string {
    left + ":" + right
  }

  /** The key under which the indexed task store and the lease of a task file a pair. */
  function Combo(contentID: string, platform: string): string {
    Join(contentID, platform)
  }

  /** The key of the publish package's idempotency table. */
  function ScopedKey(scope: string, key: string): string {
    Join(scope, key)
  }

  /** Length of the longest colon-free start of s. */
  function FirstColon(s: string): (i: nat)
    ensures i <= |s|
  {
    if s == [] || s[0] == ':' then 0 else 1 + FirstColon(s[1..])
  }

  lemma {:induction false} FirstColonOfJoin(l: string, r: string)
    requires ColonFree(l)
    ensures FirstColon(Join(l, r)) == |l|
  {
    if l != [] {
      assert Join(l, r)[1..] == Join(l[1..], r);
      FirstColonOfJoin(l[1..], r);
    }
  }

  /** Splitting at the first colon recovers a colon-free left part, so the joined key is unambiguous. */
  lemma {:induction false} JoinInjective(l1: string, r1: string, l2: string, r2: string)
    requires ColonFree(l1) && ColonFree(l2)
    requires Join(l1, r1) == Join(l2, r2)
    ensures l1 == l2 && r1 == r2
  {
    FirstColonOfJoin(l1, r1);
    FirstColonOfJoin(l2, r2);
    var k := Join(l1, r1);
    assert k[..|l1|] == l1 && k[..|l2|] == l2;
    assert k[|l1| + 1..] == r1 && k[|l2| + 1..] == r2;
  }

  /** Some platforms make the two content ids share a key. */
  ghost predicate CanCollide(id1: string, id2: string) {
    exists p1: string, p2: string :: Combo(id1, p1) == Combo(id2, p2)
  }

  /** Exactly when two ids can share a key: one of them, with its separator, starts the other. */
  lemma {:induction false} CollisionExactly(id1: string, id2: string)
    ensures CanCollide(id1, id2) <==> id1 + ":" <= id2 + ":" || id2 + ":" <= id1 + ":"
  {
    if CanCollide(id1, id2) {
      var p1: string, p2: string :| Combo(id1, p1) == Combo(id2, p2);
      var k := Combo(id1, p1);
      assert id1 + ":" == k[..|id1| + 1] && id2 + ":" == k[..|id2| + 1];
    }
    if id1 + ":" <= id2 + ":" {
      PrefixCollides(id1, id2);
    }
    if id2 + ":" <= id1 + ":" {
      PrefixCollides(id2, id1);
      assert CanCollide(id2, id1);
      var p1: string, p2: string :| Combo(id2, p1) == Combo(id1, p2);
      assert Combo(id1, p2) == Combo(id2, p1);
    }
  }

  lemma {:induction false} PrefixCollides(id1: string, id2: string)
    requires id1 + ":" <= id2 + ":"
    ensures CanCollide(id1, id2)
  {
    var whole := id2 + ":";
    var rest := whole[|id1| + 1..];
    assert (id1 + ":") + rest == whole;
    assert Combo(id1, rest) == whole == Combo(id2, "");
  }

  // ----- Generated identifiers -----

  type Byte = b: int | 0 <= b < 256

  function HexDigit(n: int): char
    requires 0 <= n < 16
  {
    if n < 10 then (48 + n) as char else (87 + n) as char
  }

  function Hex(bytes: seq<Byte>): (s: string)
    ensures |s| == 2 * |bytes|
    ensures ColonFree(s)
  {
    if bytes == [] then ""
    else [HexDigit(bytes[0] / 16), HexDigit(bytes[0] % 16)] + Hex(bytes[1..])
  }

  /** Stamp the version nibble (4) into byte 6 and the variant bits (10) into byte 8. */
  function StampV4(raw: seq<Byte>): (b: seq<Byte>)
    requires |raw| == 16
    ensures |b| == 16
    ensures b[6] / 16 == 4 && b[8] / 64 == 2
    ensures b[6] % 16 == raw[6] % 16 && b[8] % 64 == raw[8] % 64
    ensures forall i :: 0 <= i < 16 && i != 6 && i != 8 ==> b[i] == raw[i]
  {
    raw[6 := raw[6] % 16 + 64][8 := raw[8] % 64 + 128]
  }

  /** The five dash-separated groups of a version 4 UUID. */
  function FormatID(raw: seq<Byte>): string
    requires |raw| == 16
  {
    var b := StampV4(raw);
    Hex(b[0..4]) + "-" + Hex(b[4..6]) + "-" + Hex(b[6..8]) + "-" + Hex(b[8..10]) + "-" + Hex(b[10..16])
  }

  /** Fill the buffer with the drawn bytes, patch two of them in place, and print it. */
  method GenerateID(draw: seq<Byte>) returns (id: string)
    requires |draw| == 16
    ensures id == FormatID(draw)
  {
    var b := new Byte[16](i requires 0 <= i < 16 => draw[i]);
    b[6] := b[6] % 16 + 64;
    b[8] := b[8] % 64 + 128;
    assert b[..] == StampV4(draw);
    assert b[0..4] == b[..][0..4] && b[4..6] == b[..][4..6] && b[6..8] == b[..][6..8];
    assert b[8..10] == b[..][8..10] && b[10..16] == b[..][10..16];
    return Hex(b[0..4]) + "-" + Hex(b[4..6]) + "-" + Hex(b[6..8]) + "-" + Hex(b[8..10]) + "-" + Hex(b[10..16]);
  }

  lemma {:induction false} HexInjective(a: seq<Byte>, b: seq<Byte>)
    requires Hex(a) == Hex(b)
    ensures a == b
  {
    assert |a| == |b|;
    if a != [] {
      var x, y := a[0], b[0];
      assert Hex(a)[0] == Hex(b)[0] && Hex(a)[1] == Hex(b)[1];
      assert Hex(a)[2..] == Hex(a[1..]) && Hex(b)[2..] == Hex(b[1..]);
      HexInjective(a[1..], b[1..]);
      assert a == [x] + a[1..] && b == [y] + b[1..];
    }
  }

  /** Where the five groups of an id stand. */
  lemma Groups(raw: seq<Byte>)
    requires |raw| == 16
    ensures var b, s := StampV4(raw), FormatID(raw);
            && |s| == 36
            && s[0..8] == Hex(b[0..4]) && s[9..13] == Hex(b[4..6]) && s[14..18] == Hex(b[6..8])
            && s[19..23] == Hex(b[8..10]) && s[24..36] == Hex(b[10..16])
  {
    var b := StampV4(raw);
    hide Hex, StampV4;
    var g0, g1, g2, g3, g4 := Hex(b[0..4]), Hex(b[4..6]), Hex(b[6..8]), Hex(b[8..10]), Hex(b[10..16]);
    assert FormatID(raw) == g0 + "-" + g1 + "-" + g2 + "-" + g3 + "-" + g4;
  }

  lemma FromGroups(b: seq<Byte>, c: seq<Byte>)
    requires |b| == 16 && |c| == 16
    requires Hex(b[0..4]) == Hex(c[0..4]) && Hex(b[4..6]) == Hex(c[4..6]) && Hex(b[6..8]) == Hex(c[6..8])
    requires Hex(b[8..10]) == Hex(c[8..10]) && Hex(b[10..16]) == Hex(c[10..16])
    ensures b == c
  {
    hide Hex;
    HexInjective(b[0..4], c[0..4]);
    HexInjective(b[4..6], c[4..6]);
    HexInjective(b[6..8], c[6..8]);
    HexInjective(b[8..10], c[8..10]);
    HexInjective(b[10..16], c[10..16]);
    assert b == b[0..4] + b[4..6] + b[6..8] + b[8..10] + b[10..16];
    assert c == c[0..4] + c[4..6] + c[6..8] + c[8..10] + c[10..16];
  }

  lemma VersionShows(raw: seq<Byte>)
    requires |raw| == 16
    ensures Hex(StampV4(raw)[6..8])[0] == '4'
    ensures Hex(StampV4(raw)[8..10])[0] in "89ab"
  {
    var b := StampV4(raw);
    assert Hex(b[8..10])[0] == HexDigit(b[8] / 16);
    LowerCase(b[8] / 16);
    assert "0123456789abcdef"[8..12] == "89ab";
    assert "0123456789abcdef"[b[8] / 16] == "0123456789abcdef"[8..12][b[8] / 16 - 8];
  }

  lemma LowerCase(n: int)
    requires 0 <= n < 16
    ensures HexDigit(n) == "0123456789abcdef"[n]
  {
  }

  /** Two digits for each byte, the high half first. */
  lemma {:induction false} HexDigits(bytes: seq<Byte>, k: nat)
    requires k < |Hex(bytes)|
    ensures Hex(bytes)[k] ==
            "0123456789abcdef"[if k % 2 == 0 then bytes[k / 2] / 16 else bytes[k / 2] % 16]
  {
    LowerCase(bytes[0] / 16);
    LowerCase(bytes[0] % 16);
    hide HexDigit;
    if k >= 2 {
      HexDigits(bytes[1..], k - 2);
      assert Hex(bytes)[k] == Hex(bytes[1..])[k - 2] && bytes[1..][(k - 2) / 2] == bytes[k / 2];
    }
  }

  /** A part of an id shows the bytes that it stands for. */
  lemma GroupShows(s: string, from: nat, b: seq<Byte>, first: nat, count: nat, i: nat)
    requires first + count <= |b| && from + 2 * count <= |s| && first <= i < first + count
    requires s[from..from + 2 * count] == Hex(b[first..first + count])
    ensures var k := from + 2 * (i - first);
            s[k] == "0123456789abcdef"[b[i] / 16] && s[k + 1] == "0123456789abcdef"[b[i] % 16]
  {
    var k: nat := 2 * (i - first);
    HexDigits(b[first..first + count], k);
    HexDigits(b[first..first + count], k + 1);
    assert s[from + k] == s[from..from + 2 * count][k] && s[from + k + 1] == s[from..from + 2 * count][k + 1];
    hide Hex;
  }

  /** Where the digits of byte i stand. */
  function Place(i: nat): nat {
    2 * i + (if i < 4 then 0 else if i < 6 then 1 else if i < 8 then 2 else if i < 10 then 3 else 4)
  }

  /** An id shows all its bytes in order, in lower-case hexadecimal digits, with dashes between the five groups. */
  lemma {:induction false} IDShows(raw: seq<Byte>, i: nat)
    requires |raw| == 16 && i < 16
    ensures var s, byte := FormatID(raw), StampV4(raw)[i];
            && |s| == 36 && s[8] == s[13] == s[18] == s[23] == '-'
            && s[Place(i)] == "0123456789abcdef"[byte / 16] && s[Place(i) + 1] == "0123456789abcdef"[byte % 16]
  {
    hide Hex, StampV4;
    Groups(raw);
    Dashes(raw);
    var s, b := FormatID(raw), StampV4(raw);
    var first, from, count :=
      if i < 4 then 0 else if i < 6 then 4 else if i < 8 then 6 else if i < 10 then 8 else 10,
      if i < 4 then 0 else if i < 6 then 9 else if i < 8 then 14 else if i < 10 then 19 else 24,
      if i < 4 then 4 else if i < 10 then 2 else 6;
    GroupShows(s, from, b, first, count, i);
    hide FormatID;
  }

  lemma Dashes(raw: seq<Byte>)
    requires |raw| == 16
    ensures var s := FormatID(raw); |s| == 36 && s[8] == s[13] == s[18] == s[23] == '-'
  {
    hide Hex, StampV4;
    var b := StampV4(raw);
    var g0, g1, g2, g3 := Hex(b[0..4]), Hex(b[4..6]), Hex(b[6..8]), Hex(b[8..10]);
    assert FormatID(raw) == g0 + "-" + g1 + "-" + g2 + "-" + g3 + "-" + Hex(b[10..16]);
  }

  /** Whatever bytes are drawn, the id has 36 characters, shows version 4 and holds no colon; and it keeps
      every drawn bit that is not overwritten: equal ids come from draws that agree on all 122 of them. */
  lemma {:induction false} GeneratedIDs(raw: seq<Byte>, raw': seq<Byte>)
    requires |raw| == 16 && |raw'| == 16
    ensures |FormatID(raw)| == 36 && ColonFree(FormatID(raw)) && FormatID(raw)[14] == '4'
    ensures FormatID(raw)[19] in "89ab"
    ensures FormatID(raw) == FormatID(raw') <==> StampV4(raw) == StampV4(raw')
  {
    hide Hex, StampV4;
    Groups(raw);
    Groups(raw');
    VersionShows(raw);
    assert FormatID(raw)[14] == FormatID(raw)[14..18][0] && FormatID(raw)[19] == FormatID(raw)[19..23][0];
    if FormatID(raw) == FormatID(raw') {
      FromGroups(StampV4(raw), StampV4(raw'));
    }
  }
}
