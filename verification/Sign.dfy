/** Webhook signatures (crates/hooks/src/sign.rs). The keyed hash is HMAC-SHA-256 (RFC 2104); here it is any function of
    a secret and a message. */
module Signatures {
  import opened ByteStrings
  import opened Faults
  import opened Int64
  import opened Options
  import opened Text

  type Hmac = (string, Bytes) -> Bytes

  const STRIPE_HEADER := "stripe-signature"
  const GITHUB_HEADER := "x-hub-signature-256"

  datatype Header = Header(name: string, value: string)

  predicate IsAscii(s: string) {
    forall c :: c in s ==> (c as int) < 128
  }

  function AsciiBytes(s: string): Bytes
    requires IsAscii(s)
  {
    seq(|s|, i requires 0 <= i < |s| => assert s[i] in s; (s[i] as int) as byte)
  }

  lemma PrintIntIsAscii(t: int)
    ensures IsAscii(PrintInt(t) + ".")
  {
    PrintIntChars(t);
  }

  function StripePayload(t: int, body: Bytes): Bytes {
    PrintIntIsAscii(t);
    AsciiBytes(PrintInt(t) + ".") + body
  }

  /** What is signed. */
  function Message(scheme: SigningScheme, t: int, body: Bytes): Bytes {
    if scheme == Stripe then StripePayload(t, body) else body
  }

  function Part(key: string, value: string): string {
    key + ['='] + value
  }

  function StripeValue(t: int, mac: Bytes): string {
    Part("t", PrintInt(t)) + [','] + Part("v1", HexEncode(mac))
  }

  /** The header a delivery carries at second `t` of the virtual clock. */
  function HeaderFor(hmac: Hmac, scheme: SigningScheme, secret: string, body: Bytes, t: int): Option<Header> {
    match scheme
    case Unsigned => None
    case Stripe => Some(Header(STRIPE_HEADER, StripeValue(t, hmac(secret, StripePayload(t, body)))))
    case Github => Some(Header(GITHUB_HEADER, Part("sha256", HexEncode(hmac(secret, body)))))
  }

  // ----- Reading a Stripe header -----

  /** One part of the header, `key=value`. */
  function Field(part: string): Option<Pair> {
    SplitOnce(Trim(part), '=')
  }

  /** The value of the last part with this key. */
  function LastField(parts: seq<string>, key: string): Option<string> {
    if parts == [] then None
    else
      var field := Field(parts[|parts| - 1]);
      if field.Some? && field.value.left == key then Some(field.value.right) else LastField(parts[..|parts| - 1], key)
  }

  datatype Stamp = Stamp(t: int, mac: string)

  /** What a Stripe header says. For each key the last part counts, even when an earlier one could be read and the last
      cannot. */
  function Stamped(value: string): Option<Stamp> {
    var parts := Split(value, ',');
    var raw, mac := LastField(parts, "t"), LastField(parts, "v1");
    var t := if raw.Some? then ParseI64(raw.value) else None;
    if t.Some? && mac.Some? then Some(Stamp(t.value, mac.value)) else None
  }

  method ParseStripe(value: string) returns (stamp: Option<Stamp>)
    ensures stamp == Stamped(value)
  {
    var t: Option<int> := None;
    var v1: Option<string> := None;
    var parts := Split(value, ',');
    for i := 0 to |parts|
      invariant t == var raw := LastField(parts[..i], "t"); if raw.Some? then ParseI64(raw.value) else None
      invariant v1 == LastField(parts[..i], "v1")
    {
      assert parts[..i + 1][..i] == parts[..i];
      var field := Field(parts[i]);
      if field.Some? && field.value.left == "t" {
        t := ParseI64(field.value.right);
      } else if field.Some? && field.value.left == "v1" {
        v1 := Some(field.value.right);
      }
    }
    assert parts[..|parts|] == parts;
    stamp := if t.Some? && v1.Some? then Some(Stamp(t.value, v1.value)) else None;
  }

  // ----- Verifying -----

  function StripPrefix(s: string, prefix: string): Option<string> {
    if prefix <= s then Some(s[|prefix|..]) else None
  }

  predicate MacMatches(hmac: Hmac, secret: string, message: Bytes, expectedHex: string) {
    var expected := HexDecode(expectedHex);
    expected.Some? && hmac(secret, message) == expected.value
  }

  predicate Verify(hmac: Hmac, scheme: SigningScheme, secret: string, body: Bytes, value: string) {
    match scheme
    case Unsigned => false
    case Stripe =>
      var stamp := Stamped(value);
      stamp.Some? && MacMatches(hmac, secret, StripePayload(stamp.value.t, body), stamp.value.mac)
    case Github =>
      var mac := StripPrefix(value, "sha256=");
      mac.Some? && MacMatches(hmac, secret, body, mac.value)
  }

  // ----- The printer and the parser agree -----

  predicate PlainChar(c: char) {
    !IsSpace(c) && c != '=' && c != ','
  }

  predicate Plain(s: string) {
    forall i :: 0 <= i < |s| ==> PlainChar(s[i])
  }

  lemma PartReads(key: string, value: string)
    requires key != [] && Plain(key) && Plain(value)
    ensures ',' !in Part(key, value)
    ensures Field(Part(key, value)) == Some(Pair(key, value))
  {
    var part := Part(key, value);
    assert PlainChar(part[0]);
    assert part[|part| - 1] == '=' || PlainChar(part[|part| - 1]);
    TrimmedStays(part);
    SplitOnceAt(key, value, '=');
  }

  lemma ValuesArePlain(t: int, mac: Bytes)
    ensures Plain(PrintInt(t)) && Plain(HexEncode(mac))
  {
    PrintIntChars(t);
    HexRoundTrip(mac);
    var p, h := PrintInt(t), HexEncode(mac);
    forall i | 0 <= i < |p| ensures PlainChar(p[i]) {
      assert p[i] in p;
    }
    forall i | 0 <= i < |h| ensures PlainChar(h[i]) {
      assert h[i] in h;
    }
  }

  lemma LastOfTwo(first: string, second: string, key: string)
    ensures LastField([first, second], key) ==
      if Field(second).Some? && Field(second).value.left == key then Some(Field(second).value.right)
      else LastField([first], key)
    ensures LastField([first], key) ==
      if Field(first).Some? && Field(first).value.left == key then Some(Field(first).value.right) else None
  {
    assert [first, second][..1] == [first] && [first][..0] == [];
  }

  lemma StampOfStripeValue(t: int, mac: Bytes)
    requires I64_MIN <= t <= I64_MAX
    ensures Stamped(StripeValue(t, mac)) == Some(Stamp(t, HexEncode(mac)))
  {
    var first, second := Part("t", PrintInt(t)), Part("v1", HexEncode(mac));
    ValuesArePlain(t, mac);
    PartReads("t", PrintInt(t));
    PartReads("v1", HexEncode(mac));
    SplitTwo(first, second, ',');
    LastOfTwo(first, second, "t");
    LastOfTwo(first, second, "v1");
    assert "t"[0] != "v1"[0];
    ParsePrint(t);
  }

  /** A Stripe header verifies exactly when the hash it carries is the hash of its own timestamp and the body. */
  lemma StripeVerifiesIff(hmac: Hmac, secret: string, body: Bytes, t: int, mac: Bytes)
    requires I64_MIN <= t <= I64_MAX
    ensures Verify(hmac, Stripe, secret, body, StripeValue(t, mac)) <==> hmac(secret, StripePayload(t, body)) == mac
  {
    StampOfStripeValue(t, mac);
    HexRoundTrip(mac);
  }

  /** A header made for one secret and body verifies against another exactly when the two messages hash alike: so
      always against its own, and otherwise only on a collision of the keyed hash. */
  lemma VerifiesIff(hmac: Hmac, scheme: SigningScheme, secret: string, body: Bytes, secret': string, body': Bytes, t: int)
    requires I64_MIN <= t <= I64_MAX && scheme != Unsigned
    ensures HeaderFor(hmac, scheme, secret, body, t).Some?
    ensures Verify(hmac, scheme, secret', body', HeaderFor(hmac, scheme, secret, body, t).value.value) <==>
      hmac(secret', Message(scheme, t, body')) == hmac(secret, Message(scheme, t, body))
  {
    if scheme == Stripe {
      StripeVerifiesIff(hmac, secret', body', t, hmac(secret, StripePayload(t, body)));
    } else {
      var mac := HexEncode(hmac(secret, body));
      assert Part("sha256", mac)[|"sha256="|..] == mac && "sha256=" <= Part("sha256", mac);
      HexRoundTrip(hmac(secret, body));
    }
  }

  /** What is signed under the Stripe scheme tells the timestamp and the body apart. */
  lemma StripePayloadInjective(t: int, body: Bytes, t': int, body': Bytes)
    requires I64_MIN <= t <= I64_MAX && I64_MIN <= t' <= I64_MAX
    requires StripePayload(t, body) == StripePayload(t', body')
    ensures t == t' && body == body'
  {
    if |PrintInt(t)| <= |PrintInt(t')| {
      SameStamp(t, body, t', body');
    } else {
      SameStamp(t', body', t, body);
    }
    ParsePrint(t);
    ParsePrint(t');
    var n := |PrintInt(t)| + 1;
    assert StripePayload(t, body)[n..] == body && StripePayload(t', body')[n..] == body';
  }

  lemma PayloadBytes(t: int, body: Bytes)
    ensures |StripePayload(t, body)| == |PrintInt(t)| + 1 + |body|
    ensures forall i :: 0 <= i < |PrintInt(t)| ==> StripePayload(t, body)[i] as int == PrintInt(t)[i] as int != '.' as int
    ensures StripePayload(t, body)[|PrintInt(t)|] as int == '.' as int
  {
    var p := PrintInt(t);
    PrintIntIsAscii(t);
    PrintIntChars(t);
    assert (p + ".")[|p|] == '.';
    forall i | 0 <= i < |p| ensures StripePayload(t, body)[i] as int == p[i] as int != '.' as int {
      assert (p + ".")[i] == p[i] && p[i] in p;
    }
  }

  /** The point ends the printed number: no printed number goes on past it. */
  lemma SameStamp(t: int, body: Bytes, t': int, body': Bytes)
    requires StripePayload(t, body) == StripePayload(t', body') && |PrintInt(t)| <= |PrintInt(t')|
    ensures PrintInt(t) == PrintInt(t')
  {
    PayloadBytes(t, body);
    PayloadBytes(t', body');
    assert |PrintInt(t)| >= |PrintInt(t')|;
  }

  /** Moving the timestamp of a signed delivery changes the message, so it still verifies only on a collision. */
  lemma MovedTimestampNeedsCollision(hmac: Hmac, secret: string, body: Bytes, t: int, moved: int)
    requires I64_MIN <= t <= I64_MAX && I64_MIN <= moved <= I64_MAX && t != moved
    requires Verify(hmac, Stripe, secret, body, StripeValue(moved, hmac(secret, StripePayload(t, body))))
    ensures StripePayload(moved, body) != StripePayload(t, body)
    ensures hmac(secret, StripePayload(moved, body)) == hmac(secret, StripePayload(t, body))
  {
    StripeVerifiesIff(hmac, secret, body, moved, hmac(secret, StripePayload(t, body)));
    if StripePayload(moved, body) == StripePayload(t, body) {
      StripePayloadInjective(moved, body, t, body);
    }
  }

  /** Neither scheme accepts a header of the other, whatever the hash. */
  lemma SchemesAreApart(hmac: Hmac, secret: string, body: Bytes, t: int, secret': string, body': Bytes)
    ensures !Verify(hmac, Github, secret', body', HeaderFor(hmac, Stripe, secret, body, t).value.value)
    ensures !Verify(hmac, Stripe, secret', body', HeaderFor(hmac, Github, secret, body, t).value.value)
  {
    var stripe := HeaderFor(hmac, Stripe, secret, body, t).value.value;
    assert stripe[0] == 't' && "sha256="[0] == 's';
    var mac := HexEncode(hmac(secret, body));
    var github := Part("sha256", mac);
    ValuesArePlain(0, hmac(secret, body));
    PartReads("sha256", mac);
    SplitWhole(github, ',');
    assert "sha256"[0] == 's' && "t"[0] == 't';
    LastOfTwo(github, github, "t");
  }

  // ----- Any header, word for word -----

  /** What is sent: the name of the header and its value, spelled out. */
  lemma HeadersAre(hmac: Hmac, secret: string, body: Bytes, t: int)
    ensures HeaderFor(hmac, Unsigned, secret, body, t) == None
    ensures IsAscii(PrintInt(t) + ".")
    ensures HeaderFor(hmac, Stripe, secret, body, t) == Some(Header(
      "stripe-signature", "t=" + PrintInt(t) + ",v1=" + HexEncode(hmac(secret, AsciiBytes(PrintInt(t) + ".") + body))))
    ensures HeaderFor(hmac, Github, secret, body, t) == Some(Header(
      "x-hub-signature-256", "sha256=" + HexEncode(hmac(secret, body))))
  {
    PrintIntIsAscii(t);
    var mac := HexEncode(hmac(secret, AsciiBytes(PrintInt(t) + ".") + body));
    assert "t" + ['='] + PrintInt(t) + [','] + ("v1" + ['='] + mac) == "t=" + PrintInt(t) + ",v1=" + mac;
    assert "sha256" + ['='] == "sha256=";
  }

  /** The last part with this key has this value. */
  ghost predicate SaysLast(parts: seq<string>, key: string, value: string) {
    exists i :: 0 <= i < |parts| && Field(parts[i]) == Some(Pair(key, value)) && NoneAfter(parts, key, i)
  }

  ghost predicate NoneAfter(parts: seq<string>, key: string, i: int) {
    forall j :: 0 <= j < |parts| && i < j && Field(parts[j]).Some? ==> Field(parts[j]).value.left != key
  }

  lemma SaysLastNext(front: seq<string>, part: string, key: string, value: string, field: Option<Pair>)
    requires field == Field(part)
    ensures SaysLast(front + [part], key, value) <==>
      if field.Some? && field.value.left == key then field.value.right == value else SaysLast(front, key, value)
  {
    var parts, n := front + [part], |front|;
    if field.Some? && field.value.left == key {
      assert parts[n] == part;
      if field.value.right == value { assert NoneAfter(parts, key, n); }
    } else {
      forall i | 0 <= i < n ensures NoneAfter(parts, key, i) <==> NoneAfter(front, key, i) {
        assert forall j :: 0 <= j < n ==> parts[j] == front[j];
      }
      if SaysLast(front, key, value) {
        var i :| 0 <= i < n && Field(front[i]) == Some(Pair(key, value)) && NoneAfter(front, key, i);
        assert parts[i] == front[i] && NoneAfter(parts, key, i);
      }
    }
  }

  lemma {:induction false} LastFieldSays(parts: seq<string>, key: string, value: string)
    ensures LastField(parts, key) == Some(value) <==> SaysLast(parts, key, value)
    decreases |parts|
  {
    if parts != [] {
      var front, part := parts[..|parts| - 1], parts[|parts| - 1];
      assert parts == front + [part];
      LastFieldSays(front, key, value);
      SaysLastNext(front, part, key, value, Field(part));
    }
  }

  /** A Stripe header says `t` and `mac` exactly when its last part with key `t` reads as the number and its last one with
      key `v1` is the text. */
  lemma StampedIff(value: string, t: int, mac: string)
    ensures Stamped(value) == Some(Stamp(t, mac)) <==>
      (exists raw :: SaysLast(Split(value, ','), "t", raw) && ParseI64(raw) == Some(t)) && SaysLast(Split(value, ','), "v1", mac)
  {
    var parts := Split(value, ',');
    LastFieldSays(parts, "v1", mac);
    forall raw ensures LastField(parts, "t") == Some(raw) <==> SaysLast(parts, "t", raw) {
      LastFieldSays(parts, "t", raw);
    }
    if LastField(parts, "t").Some? {
      assert SaysLast(parts, "t", LastField(parts, "t").value);
    }
  }

  /** A header of whatever origin is accepted exactly when, letter case aside, it carries the hash of what it should sign:
      behind the fixed prefix for one scheme, under its own timestamp for the other. Unsigned is never accepted. */
  lemma AcceptedIff(hmac: Hmac, secret: string, body: Bytes, value: string)
    ensures Verify(hmac, Github, secret, body, value) <==>
      "sha256=" <= value && Lower(value[7..]) == HexEncode(hmac(secret, body))
    ensures Verify(hmac, Stripe, secret, body, value) <==>
      Stamped(value).Some? && Lower(Stamped(value).value.mac) == HexEncode(hmac(secret, StripePayload(Stamped(value).value.t, body)))
    ensures !Verify(hmac, Unsigned, secret, body, value)
  {
    assert |"sha256="| == 7;
    if "sha256=" <= value {
      HexDecodesIff(value[7..], hmac(secret, body));
    }
    if Stamped(value).Some? {
      HexDecodesIff(Stamped(value).value.mac, hmac(secret, StripePayload(Stamped(value).value.t, body)));
    }
  }
}
