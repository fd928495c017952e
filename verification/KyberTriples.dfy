/** String keys of the kyber pre-key triple cache.

    A triple (kyber key id, signed pre-key id, base key) is cached as one string, and all the
    triples of a removed kyber key are found by testing a string prefix. The lemmas below say
    that the encoding loses nothing and that the prefix test selects exactly that key's triples. */
module KyberTriples {

  type Byte = n: int | 0 <= n < 256

  predicate IsUuidChar(c: char) {
    '0' <= c <= '9' || 'a' <= c <= 'f' || c == '-'
  }

  predicate IsUuid(s: string) {
    |s| == 36 && forall i :: 0 <= i < |s| ==> IsUuidChar(s[i])
  }

  /** An ACI is a bare UUID, a PNI is a UUID behind the tag `PNI:`. */
  datatype ServiceId = Aci(uuid: string) | Pni(uuid: string) {
    predicate Valid() { IsUuid(uuid) }

    function ToString(): string {
      match this
      case Aci(u) => u
      case Pni(u) => "PNI:" + u
    }
  }

  datatype PreKeyId = PreKeyId(serviceId: ServiceId, keyId: nat) {
    predicate Valid() { serviceId.Valid() }

    function ToString(): string {
      serviceId.ToString() + ":" + Decimal(keyId)
    }
  }

  datatype Triple = Triple(id: PreKeyId, signedPreKeyId: nat, baseKey: seq<Byte>) {
    predicate Valid() { id.Valid() }

    function CacheKey(): string {
      Prefix(id) + (Decimal(signedPreKeyId) + ":" + Hex(baseKey))
    }
  }

  /** What `startsWith` is called with when all triples of a key are dropped. */
  function Prefix(id: PreKeyId): string {
    id.ToString() + ":"
  }

  predicate StartsWith(s: string, prefix: string) {
    prefix <= s
  }

  // ---------- digits ----------

  function Digit(d: nat): char
    requires d < 16
  {
    "0123456789abcdef"[d]
  }

  function DigitValue(c: char): int {
    if '0' <= c <= '9' then c as int - '0' as int else c as int - 'a' as int + 10
  }

  lemma DigitFacts(d: nat)
    requires d < 16
    ensures DigitValue(Digit(d)) == d && Digit(d) != ':'
  {
  }

  function Decimal(n: nat): string {
    if n < 10 then [Digit(n)] else Decimal(n / 10) + [Digit(n % 10)]
  }

  function ParseDecimal(s: string): int {
    if s == [] then 0 else 10 * ParseDecimal(s[..|s| - 1]) + DigitValue(s[|s| - 1])
  }

  lemma {:induction false} DecimalRoundTrip(n: nat)
    ensures ParseDecimal(Decimal(n)) == n && ':' !in Decimal(n)
  {
    DigitFacts(n % 10);
    if n < 10 {
      assert Decimal(n)[..0] == [];
    } else {
      DecimalRoundTrip(n / 10);
      assert Decimal(n)[..|Decimal(n)| - 1] == Decimal(n / 10);
    }
  }

  function Hex(bytes: seq<Byte>): string {
    if bytes == [] then ""
    else [Digit(bytes[0] / 16), Digit(bytes[0] % 16)] + Hex(bytes[1..])
  }

  lemma {:induction false} HexInjective(a: seq<Byte>, b: seq<Byte>)
    requires Hex(a) == Hex(b)
    ensures a == b
  {
    if a != [] && b != [] {
      DigitFacts(a[0] / 16); DigitFacts(a[0] % 16);
      DigitFacts(b[0] / 16); DigitFacts(b[0] % 16);
      assert Hex(a)[0] == Hex(b)[0] && Hex(a)[1] == Hex(b)[1];
      assert Hex(a)[2..] == Hex(a[1..]) && Hex(b)[2..] == Hex(b[1..]);
      HexInjective(a[1..], b[1..]);
      assert a == [a[0]] + a[1..] && b == [b[0]] + b[1..];
    }
  }

  // ---------- splitting at a colon ----------

  lemma FirstColon(a: string, x: string)
    requires ':' !in a
    ensures (a + ":" + x)[|a|] == ':'
    ensures forall i :: 0 <= i < |a| ==> (a + ":" + x)[i] != ':'
  {
  }

  /** Text before the first colon is determined by the whole string. */
  lemma SplitAtColon(a: string, x: string, b: string, y: string)
    requires ':' !in a && ':' !in b
    requires a + ":" + x == b + ":" + y
    ensures a == b && x == y
  {
    var s, t := a + ":" + x, b + ":" + y;
    FirstColon(a, x);
    FirstColon(b, y);
    assert |a| == |b|;
    assert s[..|a|] == a && t[..|b|] == b;
    assert s[|a| + 1..] == x && t[|b| + 1..] == y;
  }

  /** The text of a service id up to its first colon, and what follows it. */
  lemma FirstPart(a: ServiceId, x: string) returns (head: string, tail: string)
    requires a.Valid()
    ensures ':' !in head && a.ToString() + ":" + x == head + ":" + tail
    ensures if a.Pni? then head == "PNI" && tail == a.uuid + ":" + x else head == a.uuid && tail == x
  {
    if a.Pni? {
      head, tail := "PNI", a.uuid + ":" + x;
      assert "PNI:" == "PNI" + ":";
      assert a.ToString() + ":" + x == "PNI:" + (a.uuid + ":" + x);
    } else {
      head, tail := a.uuid, x;
    }
  }

  /** The same for service ids, although a PNI contains a colon itself. */
  lemma ServiceIdSplit(a: ServiceId, x: string, b: ServiceId, y: string)
    requires a.Valid() && b.Valid()
    requires a.ToString() + ":" + x == b.ToString() + ":" + y
    ensures a == b && x == y
  {
    var headA, tailA := FirstPart(a, x);
    var headB, tailB := FirstPart(b, y);
    SplitAtColon(headA, tailA, headB, tailB);
    assert |a.uuid| == 36 && |b.uuid| == 36 && |"PNI"| == 3;
    if a.Pni? {
      SplitAtColon(a.uuid, x, b.uuid, y);
    }
  }

  lemma PreKeyIdSplit(a: PreKeyId, x: string, b: PreKeyId, y: string)
    requires a.Valid() && b.Valid()
    requires Prefix(a) + x == Prefix(b) + y
    ensures a == b && x == y
  {
    var da, db := Decimal(a.keyId), Decimal(b.keyId);
    assert Prefix(a) + x == a.serviceId.ToString() + ":" + (da + ":" + x);
    assert Prefix(b) + y == b.serviceId.ToString() + ":" + (db + ":" + y);
    ServiceIdSplit(a.serviceId, da + ":" + x, b.serviceId, db + ":" + y);
    DecimalRoundTrip(a.keyId);
    DecimalRoundTrip(b.keyId);
    SplitAtColon(da, x, db, y);
  }

  /** Two different triples never share a cache key. */
  lemma CacheKeyInjective(t: Triple, u: Triple)
    requires t.Valid() && u.Valid() && t.CacheKey() == u.CacheKey()
    ensures t == u
  {
    var dt, du := Decimal(t.signedPreKeyId), Decimal(u.signedPreKeyId);
    PreKeyIdSplit(t.id, dt + ":" + Hex(t.baseKey), u.id, du + ":" + Hex(u.baseKey));
    DecimalRoundTrip(t.signedPreKeyId);
    DecimalRoundTrip(u.signedPreKeyId);
    SplitAtColon(dt, Hex(t.baseKey), du, Hex(u.baseKey));
    HexInjective(t.baseKey, u.baseKey);
  }

  /** The prefix test finds the triples of a key, all of them and no others: key 1 never takes
      the triples of key 12, and an ACI never those of a PNI with the same UUID. */
  lemma PrefixExact(t: Triple, id: PreKeyId)
    requires t.Valid() && id.Valid()
    ensures StartsWith(t.CacheKey(), Prefix(id)) <==> t.id == id
  {
    if StartsWith(t.CacheKey(), Prefix(id)) {
      var rest := t.CacheKey()[|Prefix(id)|..];
      assert t.CacheKey() == Prefix(id) + rest;
      PreKeyIdSplit(t.id, Decimal(t.signedPreKeyId) + ":" + Hex(t.baseKey), id, rest);
    }
  }
}
