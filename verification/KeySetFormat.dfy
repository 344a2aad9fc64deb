/** The wire format of a key set in plain terms: the 64 letters, the four-letter quanta (RFC 4648 sections 4 and 5),
    and which entries of a list make which keys. */
module KeySetFormat {
  import opened Common
  import opened KeySet

  /** The 64 letters: A to Z, a to z, 0 to 9, minus and underscore stand for 0 to 63, by their ASCII codes. */
  function Letter(c: char): (n: Option<nat>)
    ensures n.Some? ==> n.value < 64
  {
    var code := c as int;
    if 65 <= code <= 90 then Some(code - 65)
    else if 97 <= code <= 122 then Some(code - 71)
    else if 48 <= code <= 57 then Some(code + 4)
    else if code == 45 then Some(62)
    else if code == 95 then Some(63)
    else None
  }

  lemma LettersAreUsed(c: char)
    ensures Sextet(c) == Letter(c)
  {
  }

  /** Line breaks are skipped wherever they stand. */
  lemma {:induction false} LineBreaksAreSkipped(before: string, after: string, c: char)
    requires c == '\n' || c == '\r'
    ensures Strip(before + [c] + after) == Strip(before + after)
    ensures DecodeString(before + [c] + after) == DecodeString(before + after)
  {
    if before == "" {
      assert (before + [c] + after)[1..] == after == before + after;
    } else {
      LineBreaksAreSkipped(before[1..], after, c);
      assert (before + [c] + after)[1..] == before[1..] + [c] + after;
      assert (before + after)[1..] == before[1..] + after;
    }
  }

  /** Text without line breaks. */
  predicate Plain(s: string) {
    forall i :: 0 <= i < |s| ==> s[i] != '\n' && s[i] != '\r'
  }

  lemma {:induction false} PlainStays(s: string)
    requires Plain(s)
    ensures Strip(s) == s
  {
    if s != "" {
      PlainStays(s[1..]);
      assert s == [s[0]] + s[1..];
    }
  }

  lemma Pairs(a: nat, b: nat)
    ensures Value64([a, b]) == 64 * a + b
  {
    assert [a, b][..1] == [a] && [a][..0] == [];
    assert Value64([a]) == a;
  }

  lemma Triples(a: nat, b: nat, c: nat)
    ensures Value64([a, b, c]) == 64 * (64 * a + b) + c
  {
    assert [a, b, c][..2] == [a, b];
    Pairs(a, b);
  }

  lemma Quadruples(a: nat, b: nat, c: nat, d: nat)
    ensures Value64([a, b, c, d]) == 64 * (64 * (64 * a + b) + c) + d
  {
    assert [a, b, c, d][..3] == [a, b, c];
    Triples(a, b, c);
  }

  lemma OneByte(n: nat)
    requires n < 256
    ensures Bytes(n, 1) == [n]
  {
    assert Bytes(n, 1) == Bytes(n / 256, 0) + [n % 256];
  }

  lemma TwoBytes(x: Byte, y: Byte)
    ensures Bytes(256 * x + y, 2) == [x, y]
  {
    assert (256 * x + y) / 256 == x && (256 * x + y) % 256 == y;
    OneByte(x);
  }

  lemma ThreeBytes(x: Byte, y: Byte, z: Byte)
    ensures Bytes(256 * (256 * x + y) + z, 3) == [x, y, z]
  {
    assert (256 * (256 * x + y) + z) / 256 == 256 * x + y && (256 * (256 * x + y) + z) % 256 == z;
    TwoBytes(x, y);
  }

  /** The 24 bits of four letters, as three bytes. */
  function Three(a: nat, b: nat, c: nat, d: nat): seq<Byte>
    requires a < 64 && b < 64 && c < 64 && d < 64
  {
    [4 * a + b / 16, 16 * (b % 16) + c / 4, 64 * (c % 4) + d]
  }

  /** Four letters make three bytes; two or three at the end make one or two, and their spare bits are dropped. */
  lemma QuantaPack(a: nat, b: nat, c: nat, d: nat, rest: seq<nat>)
    requires a < 64 && b < 64 && c < 64 && d < 64
    ensures Pack([a, b, c, d] + rest)
            == match Pack(rest)
               case Some(more) => Some(Three(a, b, c, d) + more)
               case None => None
    ensures Pack([a, b, c]) == Some([4 * a + b / 16, 16 * (b % 16) + c / 4])
    ensures Pack([a, b]) == Some([4 * a + b / 16])
    ensures Pack([a]) == None && Pack([]) == Some([])
  {
    var x: Byte, y: Byte, z: Byte := 4 * a + b / 16, 16 * (b % 16) + c / 4, 64 * (c % 4) + d;
    Pairs(a, b);
    Triples(a, b, c);
    Quadruples(a, b, c, d);
    assert (64 * a + b) / 16 == x;
    assert (64 * (64 * a + b) + c) / 4 == 256 * x + y;
    assert 64 * (64 * (64 * a + b) + c) + d == 256 * (256 * x + y) + z;
    OneByte(x);
    TwoBytes(x, y);
    ThreeBytes(x, y, z);
    assert ([a, b, c, d] + rest)[..4] == [a, b, c, d] && ([a, b, c, d] + rest)[4..] == rest;
  }

  lemma SextetsSplit(s: string)
    requires |s| >= 4
    ensures Sextets(s).Some? <==>
            (forall i :: 0 <= i < 4 ==> Letter(s[i]).Some?) && Sextets(s[4..]).Some?
    ensures Sextets(s).Some? ==>
              |Sextets(s).value| == |s| && Sextets(s).value[4..] == Sextets(s[4..]).value
              && forall i :: 0 <= i < 4 ==> Letter(s[i]) == Some(Sextets(s).value[i])
  {
    forall i | 0 <= i < |s| ensures Sextet(s[i]) == Letter(s[i]) {
      LettersAreUsed(s[i]);
    }
    assert forall i :: 4 <= i < |s| ==> s[i] == s[4..][i - 4];
  }

  /** The first four letters of a text decode to three bytes, in front of what the rest decodes to. */
  lemma FourLetters(s: string)
    requires |s| >= 4 && Plain(s)
    ensures DecodeString(s).Some? <==> (forall i :: 0 <= i < 4 ==> Letter(s[i]).Some?) && DecodeString(s[4..]).Some?
    ensures DecodeString(s).Some? ==>
              var a, b, c, d := Letter(s[0]).value, Letter(s[1]).value, Letter(s[2]).value, Letter(s[3]).value;
              DecodeString(s).value == Three(a, b, c, d) + DecodeString(s[4..]).value
  {
    PlainStays(s);
    PlainStays(s[4..]);
    SextetsSplit(s);
    if Sextets(s).Some? {
      var d := Sextets(s).value;
      assert d[0] < 64 && d[1] < 64 && d[2] < 64 && d[3] < 64;
      QuantaPack(d[0], d[1], d[2], d[3], d[4..]);
      assert d == [d[0], d[1], d[2], d[3]] + d[4..];
    }
  }

  /** What at most three letters decode to. */
  lemma FewLetters(s: string)
    requires |s| < 4 && Plain(s)
    ensures |s| == 0 ==> DecodeString(s) == Some([])
    ensures |s| == 1 ==> DecodeString(s) == None
    ensures |s| == 2 ==>
              var a, b := Letter(s[0]), Letter(s[1]);
              DecodeString(s) == if a.None? || b.None? then None else Some([4 * a.value + b.value / 16])
    ensures |s| == 3 ==>
              var a, b, c := Letter(s[0]), Letter(s[1]), Letter(s[2]);
              DecodeString(s) == if a.None? || b.None? || c.None? then None
                                 else Some([4 * a.value + b.value / 16, 16 * (b.value % 16) + c.value / 4])
  {
    PlainStays(s);
    forall i | 0 <= i < |s| ensures Sextet(s[i]) == Letter(s[i]) {
      LettersAreUsed(s[i]);
    }
    if Sextets(s).Some? {
      var d := Sextets(s).value;
      var b, c := if |d| > 1 then d[1] else 0, if |d| > 2 then d[2] else 0;
      QuantaPack(if |d| > 0 then d[0] else 0, b, c, 0, []);
      assert d == if |d| == 0 then [] else if |d| == 1 then [d[0]] else if |d| == 2 then [d[0], b] else [d[0], b, c];
    }
  }

  /** Octets read from the left, each one more place in base 256. */
  lemma NumberReads(bytes: seq<Byte>, b: Byte)
    ensures Number([]) == 0 && Number(bytes + [b]) == 256 * Number(bytes) + b
  {
    assert (bytes + [b])[..|bytes|] == bytes;
  }

  /** The low 64 bits as a signed number. */
  lemma SixtyFourBits(n: nat)
    ensures -0x8000_0000_0000_0000 <= Int64(n) < 0x8000_0000_0000_0000
    ensures (n - Int64(n)) % 0x1_0000_0000_0000_0000 == 0
  {
  }

  /** An entry that counts. */
  predicate IsKey(entry: Entry) {
    entry.kty == "RSA" && |entry.kid| > 0
  }

  predicate Decodes(entry: Entry) {
    DecodeString(entry.n).Some? && DecodeString(entry.e).Some?
  }

  /** The last entry that counts for the ID. */
  ghost predicate LastFor(entries: seq<Entry>, i: int, kid: string) {
    && 0 <= i < |entries| && IsKey(entries[i]) && entries[i].kid == kid
    && forall j :: i < j < |entries| && IsKey(entries[j]) ==> entries[j].kid != kid
  }

  lemma LastIsLast(entries: seq<Entry>, i: int)
    requires forall j :: 0 <= j < |entries| && IsKey(entries[j]) ==> Decodes(entries[j])
    requires 0 <= i < |entries|
    ensures Last(Items(entries), i) <==> LastFor(entries, i, entries[i].kid)
    ensures Last(Items(entries), i) ==>
              Items(entries)[i].value
              == (entries[i].kid, PublicKey(Number(DecodeString(entries[i].n).value),
                                            Int64(Number(DecodeString(entries[i].e).value))))
  {
  }

  /** What loadKeys answers, in plain terms. RSA entries with an ID must decode, or the first that does not is named;
      all others are skipped. */
  lemma ErrorsNameTheFirst(entries: seq<Entry>, result: KeySetResult)
    requires Loads(entries, result)
    ensures result.Keys? <==> forall i :: 0 <= i < |entries| && IsKey(entries[i]) ==> Decodes(entries[i])
    ensures !result.Keys? ==>
              exists i :: 0 <= i < |entries| && IsKey(entries[i]) && !Decodes(entries[i])
                          && entries[i].kid == result.kid && (result.BadModulus? <==> DecodeString(entries[i].n).None?)
                          && forall j :: 0 <= j < i && IsKey(entries[j]) ==> Decodes(entries[j])
  {
  }

  /** The map then holds exactly the IDs of the RSA entries, each with the numbers of its last entry. */
  lemma MapHoldsTheLast(entries: seq<Entry>, result: KeySetResult, kid: string)
    requires Loads(entries, result) && result.Keys?
    ensures kid in result.keys <==> exists i :: LastFor(entries, i, kid)
    ensures forall i :: LastFor(entries, i, kid) && kid in result.keys ==>
              result.keys[kid] == PublicKey(Number(DecodeString(entries[i].n).value),
                                            Int64(Number(DecodeString(entries[i].e).value)))
  {
    ErrorsNameTheFirst(entries, result);
    forall i | 0 <= i < |entries| ensures Last(Items(entries), i) <==> LastFor(entries, i, entries[i].kid) {
      LastIsLast(entries, i);
    }
    if kid in result.keys {
      var i :| Last(Items(entries), i) && Items(entries)[i].value.0 == kid;
      LastIsLast(entries, i);
    }
    forall i | LastFor(entries, i, kid)
      ensures kid in result.keys
      ensures result.keys[kid] == PublicKey(Number(DecodeString(entries[i].n).value),
                                            Int64(Number(DecodeString(entries[i].e).value)))
    {
      LastIsLast(entries, i);
    }
  }
}
