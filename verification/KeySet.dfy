/** Turning an issuer's JWKS into a key map: raw base64url (RFC 4648 section 5, no padding),
    big-endian integers (RFC 7518 section 6.3.1), and the loop of loadKeys. */
module KeySet {
  import opened Common

  datatype PublicKey = PublicKey(modulus: nat, exponent: int)
  type KeyMap = map<string, PublicKey>

  // ---------------------------------------------------------------- base64url

  function Symbol(n: nat): (c: char)
    requires n < 64
  {
    if n < 26 then 'A' + n as char
    else if n < 52 then 'a' + (n - 26) as char
    else if n < 62 then '0' + (n - 52) as char
    else if n == 62 then '-' else '_'
  }

  function Sextet(c: char): (n: Option<nat>)
    ensures n.Some? ==> n.value < 64
  {
    if 'A' <= c <= 'Z' then Some((c - 'A') as nat)
    else if 'a' <= c <= 'z' then Some((c - 'a') as nat + 26)
    else if '0' <= c <= '9' then Some((c - '0') as nat + 52)
    else if c == '-' then Some(62) else if c == '_' then Some(63) else None
  }

  /** Go's decoder skips line breaks wherever they occur. */
  function Strip(s: string): string {
    if s == "" then "" else (if s[0] in "\r\n" then "" else [s[0]]) + Strip(s[1..])
  }

  /** Big-endian positional notation: bytes are digits in base 256, sextets are digits in base 64. */
  function Number(bytes: seq<Byte>): nat {
    if bytes == [] then 0 else Number(bytes[..|bytes| - 1]) * 256 + bytes[|bytes| - 1]
  }

  function Value64(d: seq<nat>): nat {
    if d == [] then 0 else Value64(d[..|d| - 1]) * 64 + d[|d| - 1]
  }

  function Bytes(n: nat, width: nat): (bytes: seq<Byte>)
    ensures |bytes| == width
  {
    if width == 0 then [] else Bytes(n / 256, width - 1) + [n % 256]
  }

  function Digits(n: nat, width: nat): (d: seq<nat>)
    ensures |d| == width && forall i :: 0 <= i < width ==> d[i] < 64
  {
    if width == 0 then [] else Digits(n / 64, width - 1) + [n % 64]
  }

  /** Three bytes and four sextets spell the same 24 bits; one or two bytes at the end are
      filled up with 4 or 2 zero bits. */
  function Unpack(bytes: seq<Byte>): (d: seq<nat>)
    ensures forall i :: 0 <= i < |d| ==> d[i] < 64
  {
    if bytes == [] then []
    else if |bytes| == 1 then Digits(Number(bytes) * 16, 2)
    else if |bytes| == 2 then Digits(Number(bytes) * 4, 3)
    else Digits(Number(bytes[..3]), 4) + Unpack(bytes[3..])
  }

  /** base64.RawURLEncoding.EncodeToString. */
  function Encode(bytes: seq<Byte>): (s: string)
    ensures |s| == |Unpack(bytes)|
  {
    seq(|Unpack(bytes)|, i requires 0 <= i < |Unpack(bytes)| => Symbol(Unpack(bytes)[i]))
  }

  function Sextets(s: string): (r: Option<seq<nat>>)
    ensures r.Some? ==> |r.value| == |s| && forall i :: 0 <= i < |s| ==> Sextet(s[i]) == Some(r.value[i])
    ensures r.Some? <==> forall i :: 0 <= i < |s| ==> Sextet(s[i]).Some?
  {
    if s == "" then Some([])
    else match (Sextet(s[0]), Sextets(s[1..]))
         case (Some(n), Some(rest)) => Some([n] + rest)
         case _ => None
  }

  /** Whole quanta of four sextets, then a rest of two or three; spare trailing bits are dropped. */
  function Pack(d: seq<nat>): (bytes: Option<seq<Byte>>)
    ensures bytes.Some? <==> |d| % 4 != 1
  {
    if d == [] then Some([])
    else if |d| == 1 then None
    else if |d| == 2 then Some(Bytes(Value64(d) / 16, 1))
    else if |d| == 3 then Some(Bytes(Value64(d) / 4, 2))
    else match Pack(d[4..])
         case Some(rest) => Some(Bytes(Value64(d[..4]), 3) + rest)
         case None => None
  }

  /** base64.RawURLEncoding.DecodeString. */
  function DecodeString(s: string): Option<seq<Byte>> {
    match Sextets(Strip(s))
    case Some(d) => Pack(d)
    case None => None
  }

  /** What decodes: only alphabet characters besides line breaks, and no lone character at the end. */
  lemma DecodableStrings(s: string)
    ensures DecodeString(s).Some? <==>
            (forall i :: 0 <= i < |s| ==> s[i] in "\r\n" || Sextet(s[i]).Some?) && |Strip(s)| % 4 != 1
  {
    StripKeepsTheRest(s);
  }

  lemma {:induction false} StripKeepsTheRest(s: string)
    ensures forall c :: c in Strip(s) <==> c in s && c !in "\r\n"
    ensures Sextets(Strip(s)).Some? <==> forall i :: 0 <= i < |s| ==> s[i] in "\r\n" || Sextet(s[i]).Some?
  {
    if s != "" {
      StripKeepsTheRest(s[1..]);
      assert s == [s[0]] + s[1..];
      var t := Strip(s);
      assert Sextets(t).Some? <==> forall c :: c in t ==> Sextet(c).Some?;
      assert (forall c :: c in s ==> c in "\r\n" || Sextet(c).Some?)
             <==> forall i :: 0 <= i < |s| ==> s[i] in "\r\n" || Sextet(s[i]).Some?;
    }
  }

  lemma SymbolRoundTrip(n: nat)
    requires n < 64
    ensures Sextet(Symbol(n)) == Some(n) && Symbol(n) !in "\r\n"
  {
  }

  lemma {:induction false} CleanStripsToItself(s: string)
    requires forall i :: 0 <= i < |s| ==> s[i] !in "\r\n"
    ensures Strip(s) == s
  {
    if s != "" {
      CleanStripsToItself(s[1..]);
      assert s == [s[0]] + s[1..];
    }
  }

  lemma {:induction false} SpelledSextets(s: string, d: seq<nat>)
    requires |s| == |d| && forall i :: 0 <= i < |d| ==> Sextet(s[i]) == Some(d[i])
    ensures Sextets(s) == Some(d)
  {
    if s != "" {
      SpelledSextets(s[1..], d[1..]);
      assert d == [d[0]] + d[1..];
    }
  }

  lemma {:induction false} BytesOfNumber(bytes: seq<Byte>)
    ensures Bytes(Number(bytes), |bytes|) == bytes
  {
    if bytes != [] {
      var front, last := bytes[..|bytes| - 1], bytes[|bytes| - 1];
      BytesOfNumber(front);
      assert (Number(front) * 256 + last) / 256 == Number(front);
      assert bytes == front + [last];
    }
  }

  function Power64(width: nat): nat {
    if width == 0 then 1 else 64 * Power64(width - 1)
  }

  lemma {:induction false} ValueOfDigits(n: nat, width: nat)
    requires n < Power64(width)
    ensures Value64(Digits(n, width)) == n
  {
    if width > 0 {
      ValueOfDigits(n / 64, width - 1);
      assert Digits(n, width)[..width - 1] == Digits(n / 64, width - 1);
    }
  }

  lemma {:induction false} SmallNumber(bytes: seq<Byte>)
    ensures Number(bytes) < Power256(|bytes|)
  {
    if bytes != [] {
      SmallNumber(bytes[..|bytes| - 1]);
    }
  }

  function Power256(width: nat): nat {
    if width == 0 then 1 else 256 * Power256(width - 1)
  }

  /** Filling up with zero bits and dropping them again changes nothing. */
  lemma PaddedRoundTrip(bytes: seq<Byte>, pad: nat, width: nat)
    requires pad in {1, 4, 16} && Number(bytes) * pad < Power64(width)
    ensures Bytes(Value64(Digits(Number(bytes) * pad, width)) / pad, |bytes|) == bytes
  {
    ValueOfDigits(Number(bytes) * pad, width);
    var n := Number(bytes);
    assert n * 1 / 1 == n && n * 4 / 4 == n && n * 16 / 16 == n;
    BytesOfNumber(bytes);
  }

  lemma SmallEnough(bytes: seq<Byte>)
    ensures |bytes| == 1 ==> Number(bytes) * 16 < Power64(2)
    ensures |bytes| == 2 ==> Number(bytes) * 4 < Power64(3)
    ensures |bytes| == 3 ==> Number(bytes) * 1 < Power64(4)
  {
    SmallNumber(bytes);
  }

  lemma {:induction false} PackUnpacked(bytes: seq<Byte>)
    ensures Pack(Unpack(bytes)) == Some(bytes)
  {
    if |bytes| == 1 {
      SmallEnough(bytes);
      PaddedRoundTrip(bytes, 16, 2);
    } else if |bytes| == 2 {
      SmallEnough(bytes);
      PaddedRoundTrip(bytes, 4, 3);
    } else if |bytes| >= 3 {
      SmallEnough(bytes[..3]);
      PaddedRoundTrip(bytes[..3], 1, 4);
      PackUnpacked(bytes[3..]);
      var d := Unpack(bytes);
      assert d[..4] == Digits(Number(bytes[..3]), 4) && d[4..] == Unpack(bytes[3..]);
      assert bytes == bytes[..3] + bytes[3..];
    }
  }

  /** Every byte string survives encoding and decoding. */
  lemma Base64RoundTrip(bytes: seq<Byte>)
    ensures DecodeString(Encode(bytes)) == Some(bytes)
  {
    var s, d := Encode(bytes), Unpack(bytes);
    forall i | 0 <= i < |d| ensures Sextet(s[i]) == Some(d[i]) && s[i] !in "\r\n" { SymbolRoundTrip(d[i]); }
    CleanStripsToItself(s);
    SpelledSextets(s, d);
    PackUnpacked(bytes);
  }

  // ---------------------------------------------------------------- integers

  /** The shortest big-endian form; zero is one zero octet (RFC 7518 section 2, Base64urlUInt). */
  function Octets(n: nat): seq<Byte> {
    if n < 256 then [n] else Octets(n / 256) + [n % 256]
  }

  lemma {:induction false} NumberRoundTrip(n: nat)
    ensures Number(Octets(n)) == n
  {
    if n < 256 {
      assert [n][..0] == [];
    } else {
      NumberRoundTrip(n / 256);
      assert Octets(n)[..|Octets(n)| - 1] == Octets(n / 256);
    }
  }

  const TWO_63: int := 0x8000_0000_0000_0000

  /** big.Int.Int64: the low 64 bits, read as a signed number. */
  function Int64(n: nat): int {
    var low := n % (2 * TWO_63);
    if low < TWO_63 then low else low - 2 * TWO_63
  }

  // ---------------------------------------------------------------- loadKeys

  datatype Entry = Entry(kty: string, kid: string, n: string, e: string)

  datatype KeySetResult = Keys(keys: KeyMap) | BadModulus(kid: string) | BadExponent(kid: string)

  /** Entries of other types, and without an ID, are skipped. */
  predicate Relevant(entry: Entry) {
    entry.kty == "RSA" && entry.kid != ""
  }

  predicate Decodable(entry: Entry) {
    DecodeString(entry.n).Some? && DecodeString(entry.e).Some?
  }

  function KeyOf(entry: Entry): PublicKey
    requires Decodable(entry)
  {
    PublicKey(Number(DecodeString(entry.n).value), Int64(Number(DecodeString(entry.e).value)))
  }

  /** What an entry contributes to the key map. */
  function Item(entry: Entry): Option<(string, PublicKey)> {
    if Relevant(entry) && Decodable(entry) then Some((entry.kid, KeyOf(entry))) else None
  }

  function Items(entries: seq<Entry>): (items: seq<Option<(string, PublicKey)>>)
    ensures |items| == |entries| && forall i :: 0 <= i < |items| ==> items[i] == Item(entries[i])
  {
    seq(|entries|, i requires 0 <= i < |entries| => Item(entries[i]))
  }

  /** Item i is the last one for its ID. */
  ghost predicate Last<V>(items: seq<Option<(string, V)>>, i: int) {
    && 0 <= i < |items| && items[i].Some?
    && forall j :: i < j < |items| && items[j].Some? ==> items[j].value.0 != items[i].value.0
  }

  /** The map holds each ID, with the value of its last item, and nothing else. */
  ghost predicate LastWins<V>(items: seq<Option<(string, V)>>, m: map<string, V>) {
    && (forall i :: Last(items, i) ==> items[i].value.0 in m && m[items[i].value.0] == items[i].value.1)
    && (forall k :: k in m ==> exists i :: Last(items, i) && items[i].value.0 == k)
  }

  predicate Bad(entry: Entry) {
    Relevant(entry) && !Decodable(entry)
  }

  /** What loadKeys answers for a key list: the map, or the complaint about the first bad entry. */
  ghost predicate Loads(entries: seq<Entry>, result: KeySetResult) {
    match result
    case Keys(keys) => (forall i :: 0 <= i < |entries| ==> !Bad(entries[i])) && LastWins(Items(entries), keys)
    case BadModulus(kid) => exists i :: FirstBad(entries, i, kid) && DecodeString(entries[i].n).None?
    case BadExponent(kid) => exists i :: FirstBad(entries, i, kid) && DecodeString(entries[i].n).Some?
  }

  ghost predicate FirstBad(entries: seq<Entry>, i: int, kid: string) {
    0 <= i < |entries| && Bad(entries[i]) && entries[i].kid == kid && forall j :: 0 <= j < i ==> !Bad(entries[j])
  }

  method LoadKeys(entries: seq<Entry>) returns (result: KeySetResult)
    ensures Loads(entries, result)
    ensures result.Keys? <==> forall i :: 0 <= i < |entries| ==> !Bad(entries[i])
  {
    var keys: KeyMap := map[];
    for i := 0 to |entries|
      invariant forall j :: 0 <= j < i ==> !Bad(entries[j])
      invariant LastWins(Items(entries)[..i], keys)
    {
      var entry := entries[i];
      assert Items(entries)[..i + 1] == Items(entries)[..i] + [Item(entry)];
      if entry.kty != "RSA" || entry.kid == "" {
        SkippedItem(Items(entries)[..i], keys);
        continue;
      }
      var modulus := DecodeString(entry.n);
      if modulus.None? {
        assert Bad(entry);
        assert FirstBad(entries, i, entry.kid);
        return BadModulus(entry.kid);
      }
      var exponent := DecodeString(entry.e);
      if exponent.None? {
        assert FirstBad(entries, i, entry.kid);
        return BadExponent(entry.kid);
      }
      AddedItem(Items(entries)[..i], keys, entry.kid, KeyOf(entry));
      keys := keys[entry.kid := PublicKey(Number(modulus.value), Int64(Number(exponent.value)))];
    }
    assert Items(entries)[..|entries|] == Items(entries);
    return Keys(keys);
  }

  lemma LastAfter<V>(items: seq<Option<(string, V)>>, x: Option<(string, V)>, j: int)
    ensures Last(items + [x], j) <==>
            if j == |items| then x.Some?
            else Last(items, j) && (x.Some? ==> items[j].value.0 != x.value.0)
  {
    var after := items + [x];
    assert forall i :: 0 <= i < |items| ==> after[i] == items[i];
    assert after[|items|] == x;
    if Last(after, j) && j < |items| {
      assert forall i :: j < i < |items| && items[i].Some? ==> after[i].value.0 != after[j].value.0;
    }
  }

  lemma SkippedItem<V>(items: seq<Option<(string, V)>>, m: map<string, V>)
    requires LastWins(items, m)
    ensures LastWins(items + [None], m)
  {
    var after := items + [None];
    forall j ensures Last(after, j) <==> Last(items, j) { LastAfter(items, None, j); }
    forall k | k in m ensures exists j :: Last(after, j) && after[j].value.0 == k {
      var j :| Last(items, j) && items[j].value.0 == k;
    }
  }

  lemma AddedItem<V>(items: seq<Option<(string, V)>>, m: map<string, V>, kid: string, value: V)
    requires LastWins(items, m)
    ensures LastWins(items + [Some((kid, value))], m[kid := value])
  {
    var x := Some((kid, value));
    var after := items + [x];
    forall j ensures Last(after, j) <==> (if j == |items| then true else Last(items, j) && items[j].value.0 != kid) {
      LastAfter(items, x, j);
    }
    assert Last(after, |items|) && after[|items|].value.0 == kid;
    forall k | k in m && k != kid ensures exists j :: Last(after, j) && after[j].value.0 == k {
      var j :| Last(items, j) && items[j].value.0 == k;
      assert Last(after, j);
    }
  }

  lemma LastWinsIsUnique<V>(items: seq<Option<(string, V)>>, m: map<string, V>, m': map<string, V>)
    requires LastWins(items, m) && LastWins(items, m')
    ensures m == m'
  {
    forall k | k in m ensures k in m' && m[k] == m'[k] {
      var i :| Last(items, i) && items[i].value.0 == k;
    }
    forall k | k in m' ensures k in m {
      var i :| Last(items, i) && items[i].value.0 == k;
    }
    assert m.Keys == m'.Keys;
  }

  /** The answer is determined by the key list. */
  lemma LoadsIsUnique(entries: seq<Entry>, r: KeySetResult, r': KeySetResult)
    requires Loads(entries, r) && Loads(entries, r')
    ensures r == r'
  {
    if r.Keys? && r'.Keys? {
      LastWinsIsUnique(Items(entries), r.keys, r'.keys);
    }
  }

  /** How an issuer publishes a key. */
  function Publish(kid: string, key: PublicKey): Entry
    requires 0 <= key.exponent
  {
    Entry("RSA", kid, Encode(Octets(key.modulus)), Encode(Octets(key.exponent)))
  }

  /** A published key is read back: the modulus always, the exponent when it fits 64 signed bits. */
  lemma PublishedKeyIsReadBack(kid: string, key: PublicKey)
    requires 0 <= key.exponent
    ensures Decodable(Publish(kid, key)) && KeyOf(Publish(kid, key)).modulus == key.modulus
    ensures KeyOf(Publish(kid, key)).exponent == key.exponent <==> key.exponent < TWO_63
  {
    var entry := Publish(kid, key);
    Base64RoundTrip(Octets(key.modulus));
    Base64RoundTrip(Octets(key.exponent));
    NumberRoundTrip(key.modulus);
    NumberRoundTrip(key.exponent);
    FitsInt64(key.exponent);
    assert KeyOf(entry) == PublicKey(key.modulus, Int64(key.exponent));
  }

  lemma FitsInt64(n: nat)
    ensures Int64(n) == n <==> n < TWO_63
  {
  }

  predicate Publishable(keys: KeyMap) {
    forall k :: k in keys ==> k != "" && 0 <= keys[k].exponent < TWO_63
  }

  /** A list of key IDs, with their keys, as the issuer publishes them. */
  function PublishAll(kids: seq<string>, keys: KeyMap): seq<Entry>
    requires Publishable(keys) && forall i :: 0 <= i < |kids| ==> kids[i] in keys
  {
    seq(|kids|, i requires 0 <= i < |kids| => Publish(kids[i], keys[kids[i]]))
  }

  /** A published key set is loaded exactly, in whatever order and however often its keys are listed. */
  lemma PublishedSetIsLoaded(kids: seq<string>, keys: KeyMap)
    requires Publishable(keys) && forall k :: k in keys <==> k in kids
    ensures Loads(PublishAll(kids, keys), Keys(keys))
  {
    var entries := PublishAll(kids, keys);
    var items := Items(entries);
    forall i | 0 <= i < |kids| ensures items[i] == Some((kids[i], keys[kids[i]])) && !Bad(entries[i]) {
      PublishedKeyIsReadBack(kids[i], keys[kids[i]]);
    }
    forall k | k in keys ensures exists i :: Last(items, i) && items[i].value.0 == k {
      var i := LastOccurrence(kids, k);
      assert Last(items, i);
    }
  }

  lemma {:induction false} LastOccurrence(kids: seq<string>, k: string) returns (i: nat)
    requires k in kids
    ensures i < |kids| && kids[i] == k && forall j :: i < j < |kids| ==> kids[j] != k
  {
    i := |kids| - 1;
    if kids[i] != k {
      i := LastOccurrence(kids[..i], k);
    }
  }
}
