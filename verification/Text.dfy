/** Strings the services build and take apart: decimal numerals, the retry
    payload, and the composite keys.  Only the separator ':' matters to them. */
module Text {
  import opened Wrappers

  predicate ColonFree(s: string) {
    ':' !in s
  }

  // ---------------------------------------------------------------- numerals

  predicate IsDigit(c: char) {
    '0' <= c <= '9'
  }

  predicate AllDigits(s: string) {
    forall i :: 0 <= i < |s| ==> IsDigit(s[i])
  }

  /** Decimal text of a natural number, as a template string prints it. */
  function Digits(n: nat): (s: string)
    ensures s != [] && AllDigits(s)
  {
    var last := [(48 + n % 10) as char];
    if n < 10 then last else Digits(n / 10) + last
  }

  function Value(s: string): nat
    requires AllDigits(s)
  {
    if s == [] then 0 else 10 * Value(s[..|s| - 1]) + (s[|s| - 1] as int - 48)
  }

  /** Length of the longest prefix made of digits. */
  function DigitRun(s: string): (k: nat)
    ensures k <= |s| && AllDigits(s[..k])
    ensures k < |s| ==> !IsDigit(s[k])
  {
    if s == [] || !IsDigit(s[0]) then 0 else
    var k := 1 + DigitRun(s[1..]);
    assert s[..k] == [s[0]] + s[1..][..k - 1];
    k
  }

  /** White space of ECMAScript (white space and line terminators). */
  predicate IsSpace(c: char) {
    var u := c as int;
    9 <= u <= 13 || u == 32 || u == 0xA0 || u == 0x1680 || 0x2000 <= u <= 0x200A
    || u == 0x2028 || u == 0x2029 || u == 0x202F || u == 0x205F || u == 0x3000 || u == 0xFEFF
  }

  /** The 25 white space characters, one by one. */
  lemma SpacesAre(c: char)
    ensures IsSpace(c) <==>
            c in ['\t', '\n', '\U{B}', '\U{C}', '\r', ' ', '\U{A0}', '\U{1680}',
                  '\U{2000}', '\U{2001}', '\U{2002}', '\U{2003}', '\U{2004}', '\U{2005}',
                  '\U{2006}', '\U{2007}', '\U{2008}', '\U{2009}', '\U{200A}',
                  '\U{2028}', '\U{2029}', '\U{202F}', '\U{205F}', '\U{3000}', '\U{FEFF}']
  {
    if IsSpace(c) {
      assert c == (c as int) as char;
    }
  }

  function TrimStart(s: string): string {
    if s != [] && IsSpace(s[0]) then TrimStart(s[1..]) else s
  }

  function ParseNat(s: string): Option<int> {
    var k := DigitRun(s);
    if k == 0 then None else Some(Value(s[..k]))
  }

  /** parseInt(s, 10); None is NaN. */
  function ParseInt(s: string): Option<int> {
    var t := TrimStart(s);
    if t != [] && t[0] == '-' then
      match ParseNat(t[1..])
      case None => None
      case Some(n) => Some(-n)
    else if t != [] && t[0] == '+' then ParseNat(t[1..])
    else ParseNat(t)
  }

  lemma {:induction false} ValueOfDigits(n: nat)
    ensures Value(Digits(n)) == n
  {
    if n < 10 {
    } else {
      ValueOfDigits(n / 10);
      assert Digits(n)[..|Digits(n)| - 1] == Digits(n / 10);
    }
  }

  /** parseInt undoes the decimal numeral of every natural number. */
  lemma ParseIntOfDigits(n: nat)
    ensures ParseInt(Digits(n)) == Some(n)
  {
    ValueOfDigits(n);
    assert Digits(n)[..|Digits(n)|] == Digits(n);
  }

  lemma {:induction false} ValueOfZero(d: string)
    requires AllDigits(d)
    ensures Value("0" + d) == Value(d)
  {
    if d == [] {
      assert Value("0") == 10 * Value("0"[..0]) + 0;
    } else {
      var front := d[..|d| - 1];
      ValueOfZero(front);
      assert ("0" + d)[..|d|] == "0" + front;
    }
  }

  lemma {:induction false} TrimmedText(blank: string, s: string)
    requires (forall c :: c in blank ==> IsSpace(c)) && (s == [] || !IsSpace(s[0]))
    ensures TrimStart(blank + s) == s
  {
    if blank == [] {
      assert blank + s == s;
    } else {
      assert (blank + s)[1..] == blank[1..] + s;
      TrimmedText(blank[1..], s);
    }
  }

  lemma {:induction false} DigitRunIs(d: string, rest: string)
    requires AllDigits(d) && (rest == [] || !IsDigit(rest[0]))
    ensures DigitRun(d + rest) == |d|
  {
    if d == [] {
      assert d + rest == rest;
    } else {
      assert (d + rest)[1..] == d[1..] + rest;
      DigitRunIs(d[1..], rest);
    }
  }

  lemma ParseNatIs(d: string, rest: string)
    requires AllDigits(d) && (rest == [] || !IsDigit(rest[0]))
    ensures ParseNat(d + rest) == if d == [] then None else Some(Value(d))
  {
    DigitRunIs(d, rest);
    assert (d + rest)[..|d|] == d;
  }

  lemma ParseSigned(blank: string, minus: bool, d: string, rest: string)
    requires (forall c :: c in blank ==> IsSpace(c)) && AllDigits(d) && (rest == [] || !IsDigit(rest[0]))
    ensures var n := ParseInt(blank + ((if minus then "-" else "+") + (d + rest)));
            var v: int := Value(d);
            (n.None? <==> d == []) && (n.Some? ==> n.value == if minus then -v else v)
  {
    var s := (if minus then "-" else "+") + (d + rest);
    TrimmedText(blank, s);
    ParseNatIs(d, rest);
    assert s[1..] == d + rest;
  }

  /** parseInt reads leading white space, one sign, and the longest run of digits,
      and is NaN when that run is empty; whatever follows is ignored. */
  lemma ParseIntIs(blank: string, d: string, rest: string)
    requires (forall c :: c in blank ==> IsSpace(c)) && AllDigits(d) && (rest == [] || !IsDigit(rest[0]))
    requires d != [] || rest == [] || !(rest[0] == '-' || rest[0] == '+' || IsSpace(rest[0]))
    ensures var n := ParseInt(blank + (d + rest)); (n.None? <==> d == []) && (n.Some? ==> n.value == Value(d))
  {
    var s := d + rest;
    assert d != [] ==> s[0] == d[0];
    TrimmedText(blank, s);
    ParseNatIs(d, rest);
  }

  // ------------------------------------------------------------------- split

  /** s.split(":") */
  function Split(s: string): (parts: seq<string>)
    ensures parts != []
    ensures forall p :: p in parts ==> ColonFree(p)
  {
    SplitFrom(s, [])
  }

  function SplitFrom(s: string, piece: string): (parts: seq<string>)
    requires ColonFree(piece)
    ensures parts != []
    ensures forall p :: p in parts ==> ColonFree(p)
  {
    if s == [] then [piece]
    else if s[0] == ':' then [piece] + SplitFrom(s[1..], [])
    else SplitFrom(s[1..], piece + [s[0]])
  }

  /** parts.join(":") */
  function Join(parts: seq<string>): string
    requires parts != []
  {
    if |parts| == 1 then parts[0] else parts[0] + ":" + Join(parts[1..])
  }

  lemma {:induction false} JoinSplitFrom(s: string, piece: string)
    requires ColonFree(piece)
    ensures Join(SplitFrom(s, piece)) == piece + s
  {
    if s == [] {
      assert piece + s == piece;
    } else if s[0] == ':' {
      var rest := SplitFrom(s[1..], []);
      JoinSplitFrom(s[1..], []);
      assert ([piece] + rest)[1..] == rest;
      assert Join(rest) == s[1..];
      assert piece + ":" + s[1..] == piece + s;
    } else {
      JoinSplitFrom(s[1..], piece + [s[0]]);
      assert piece + [s[0]] + s[1..] == piece + s;
    }
  }

  /** Splitting loses nothing: joined with colons, the parts are the string again. */
  lemma JoinSplit(s: string)
    ensures Join(Split(s)) == s
  {
    JoinSplitFrom(s, []);
  }

  lemma {:induction false} SplitFromColonFree(a: string, piece: string)
    requires ColonFree(a) && ColonFree(piece)
    ensures SplitFrom(a, piece) == [piece + a]
  {
    if a == [] {
      assert piece + a == piece;
    } else {
      SplitFromColonFree(a[1..], piece + [a[0]]);
      assert piece + [a[0]] + a[1..] == piece + a;
    }
  }

  lemma {:induction false} SplitFromFirst(a: string, rest: string, piece: string)
    requires ColonFree(a) && ColonFree(piece)
    ensures SplitFrom(a + ":" + rest, piece) == [piece + a] + SplitFrom(rest, [])
  {
    var s := a + ":" + rest;
    if a == [] {
      assert s[0] == ':' && s[1..] == rest && piece + a == piece;
    } else {
      assert s[1..] == a[1..] + ":" + rest;
      SplitFromFirst(a[1..], rest, piece + [a[0]]);
      assert piece + [a[0]] + a[1..] == piece + a;
    }
  }

  // ----------------------------------------------------------- retry payload

  /** `${messageId}:${channel}:${attempt}` */
  function Payload(messageId: string, channel: string, attempt: nat): string {
    messageId + ":" + (channel + ":" + Digits(attempt))
  }

  /** What a poll reads back; None stands for undefined, or NaN for the attempt. */
  datatype Retry = Retry(messageId: string, channel: Option<string>, attempt: Option<int>)

  /** const [messageId, channel, attempt] = item.split(":"), then parseInt(attempt, 10) */
  function Decode(item: string): Retry {
    var parts := Split(item);
    Retry(parts[0],
          if |parts| > 1 then Some(parts[1]) else None,
          if |parts| > 2 then ParseInt(parts[2]) else None)
  }

  function DecodeAll(items: seq<string>): (r: seq<Retry>)
    ensures |r| == |items|
    ensures forall i :: 0 <= i < |items| ==> r[i] == Decode(items[i])
  {
    seq(|items|, i requires 0 <= i < |items| => Decode(items[i]))
  }

  lemma PayloadRoundTrip(messageId: string, channel: string, attempt: nat)
    requires ColonFree(messageId) && ColonFree(channel)
    ensures Decode(Payload(messageId, channel, attempt)) == Retry(messageId, Some(channel), Some(attempt))
  {
    var digits := Digits(attempt);
    assert ColonFree(digits);
    SplitFromFirst(messageId, channel + ":" + digits, []);
    SplitFromFirst(channel, digits, []);
    SplitFromColonFree(digits, []);
    ParseIntOfDigits(attempt);
    assert [] + messageId == messageId && [] + channel == channel && [] + digits == digits;
    assert Split(Payload(messageId, channel, attempt)) == [messageId, channel, digits];
  }

  /** The payload is read back as it was written exactly when neither the id
      nor the channel holds a colon; nothing is asked of the attempt number. */
  lemma PayloadRoundTripIff(messageId: string, channel: string, attempt: nat)
    ensures Decode(Payload(messageId, channel, attempt)) == Retry(messageId, Some(channel), Some(attempt))
       <==> ColonFree(messageId) && ColonFree(channel)
  {
    var item := Payload(messageId, channel, attempt);
    var parts := Split(item);
    if ColonFree(messageId) && ColonFree(channel) {
      PayloadRoundTrip(messageId, channel, attempt);
    } else {
      assert parts[0] in parts;
      assert |parts| > 1 ==> parts[1] in parts;
    }
  }

  lemma PayloadInjective(m1: string, c1: string, n1: nat, m2: string, c2: string, n2: nat)
    requires ColonFree(m1) && ColonFree(c1) && ColonFree(m2) && ColonFree(c2)
    requires Payload(m1, c1, n1) == Payload(m2, c2, n2)
    ensures m1 == m2 && c1 == c2 && n1 == n2
  {
    PayloadRoundTrip(m1, c1, n1);
    PayloadRoundTrip(m2, c2, n2);
  }

  // ---------------------------------------------------------- composite keys

  /** `${tenantId}:${idempotencyKey}`, the index of the bulk check. */
  function TenantKey(tenantId: string, idempotencyKey: string): string {
    tenantId + ":" + idempotencyKey
  }

  /** `idem:tenant:${tenantId}:key:${idempotencyKey}`, the ingress cache key. */
  function IngressKey(tenantId: string, idempotencyKey: string): string {
    "idem:tenant:" + (tenantId + ":key:" + idempotencyKey)
  }

  /** `delivered:${dedupKey}`, the delivery cache key. */
  function DeliveryKey(dedupKey: string): string {
    "delivered:" + dedupKey
  }

  /** The text the dedup hash is taken of. */
  function DedupPreimage(body: string, userId: string, recipient: string, tenantId: string): string {
    ((body + ":" + userId) + ":" + recipient) + ":" + tenantId
  }

  lemma {:induction false} FirstColonUnique(a: string, x: string, b: string, y: string)
    requires ColonFree(a) && ColonFree(b)
    requires a + ":" + x == b + ":" + y
    ensures a == b && x == y
  {
    var s, t := a + ":" + x, b + ":" + y;
    assert s[|a|] == ':' && t[|b|] == ':';
    assert a == s[..|a|] && b == t[..|b|];
    assert x == s[|a| + 1..] && y == t[|b| + 1..];
  }

  lemma {:induction false} LastColonUnique(x: string, a: string, y: string, b: string)
    requires ColonFree(a) && ColonFree(b)
    requires x + ":" + a == y + ":" + b
    ensures x == y && a == b
  {
    var s, t := x + ":" + a, y + ":" + b;
    assert s[|x|] == ':' && t[|y|] == ':';
    assert x == s[..|x|] && y == t[..|y|];
    assert a == s[|x| + 1..] && b == t[|y| + 1..];
  }

  lemma TenantKeyInjective(t1: string, k1: string, t2: string, k2: string)
    requires ColonFree(t1) && ColonFree(t2)
    requires TenantKey(t1, k1) == TenantKey(t2, k2)
    ensures t1 == t2 && k1 == k2
  {
    FirstColonUnique(t1, k1, t2, k2);
  }

  lemma IngressKeyInjective(t1: string, k1: string, t2: string, k2: string)
    requires ColonFree(t1) && ColonFree(t2)
    requires IngressKey(t1, k1) == IngressKey(t2, k2)
    ensures t1 == t2 && k1 == k2
  {
    var prefix := "idem:tenant:";
    var s1, s2 := t1 + ":key:" + k1, t2 + ":key:" + k2;
    assert s1 == IngressKey(t1, k1)[|prefix|..] && s2 == IngressKey(t2, k2)[|prefix|..];
    assert s1 == t1 + ":" + ("key:" + k1) && s2 == t2 + ":" + ("key:" + k2);
    FirstColonUnique(t1, "key:" + k1, t2, "key:" + k2);
    assert k1 == ("key:" + k1)[4..] && k2 == ("key:" + k2)[4..];
  }

  /** A tenant id without ":key:" is not enough: these two tenants have none,
      yet share a cache key. */
  lemma IngressKeyCollision()
    ensures IngressKey("a:key", "x") == IngressKey("a", "key:x")
  {
  }

  lemma DeliveryKeyInjective(d1: string, d2: string)
    requires DeliveryKey(d1) == DeliveryKey(d2)
    ensures d1 == d2
  {
    var prefix := "delivered:";
    assert d1 == DeliveryKey(d1)[|prefix|..] && d2 == DeliveryKey(d2)[|prefix|..];
  }

  /** The body may hold any text; only the three parts after it must be free of colons. */
  lemma DedupPreimageInjective(b1: string, u1: string, r1: string, t1: string,
                               b2: string, u2: string, r2: string, t2: string)
    requires ColonFree(u1) && ColonFree(r1) && ColonFree(t1)
    requires ColonFree(u2) && ColonFree(r2) && ColonFree(t2)
    requires DedupPreimage(b1, u1, r1, t1) == DedupPreimage(b2, u2, r2, t2)
    ensures b1 == b2 && u1 == u2 && r1 == r2 && t1 == t2
  {
    LastColonUnique((b1 + ":" + u1) + ":" + r1, t1, (b2 + ":" + u2) + ":" + r2, t2);
    LastColonUnique(b1 + ":" + u1, r1, b2 + ":" + u2, r2);
    LastColonUnique(b1, u1, b2, u2);
  }

  lemma SplitTwo(a: string, b: string)
    requires ColonFree(a) && ColonFree(b)
    ensures Split(a + ":" + b) == [a, b]
  {
    SplitFromFirst(a, b, []);
    SplitFromColonFree(b, []);
    assert [] + a == a && [] + b == b;
  }

  lemma SplitFirst(a: string, rest: string)
    requires ColonFree(a)
    ensures Split(a + ":" + rest) == [a] + Split(rest)
  {
    SplitFromFirst(a, rest, []);
    assert [] + a == a;
  }

  /** The parts of the composite keys, in their order. */
  lemma KeyParts(tenantId: string, key: string, dedupKey: string)
    requires ColonFree(tenantId) && ColonFree(key) && ColonFree(dedupKey)
    ensures Split(TenantKey(tenantId, key)) == [tenantId, key]
    ensures Split(IngressKey(tenantId, key)) == ["idem", "tenant", tenantId, "key", key]
    ensures Split(DeliveryKey(dedupKey)) == ["delivered", dedupKey]
  {
    SplitTwo(tenantId, key);
    SplitTwo("delivered", dedupKey);
    assert DeliveryKey(dedupKey) == "delivered" + ":" + dedupKey;
    SplitTwo("key", key);
    SplitFirst(tenantId, "key" + ":" + key);
    SplitFirst("tenant", tenantId + ":" + ("key" + ":" + key));
    SplitFirst("idem", "tenant" + ":" + (tenantId + ":" + ("key" + ":" + key)));
    assert IngressKey(tenantId, key) == "idem" + ":" + ("tenant" + ":" + (tenantId + ":" + ("key" + ":" + key)));
  }

  /** The parts of the hashed text, in their order. */
  lemma DedupParts(body: string, userId: string, recipient: string, tenantId: string)
    requires ColonFree(body) && ColonFree(userId) && ColonFree(recipient) && ColonFree(tenantId)
    ensures Split(DedupPreimage(body, userId, recipient, tenantId)) == [body, userId, recipient, tenantId]
  {
    SplitTwo(recipient, tenantId);
    SplitFirst(userId, recipient + ":" + tenantId);
    SplitFirst(body, userId + ":" + (recipient + ":" + tenantId));
    assert DedupPreimage(body, userId, recipient, tenantId) ==
           body + ":" + (userId + ":" + (recipient + ":" + tenantId));
  }

  /** The parts of a retry payload, in their order. */
  lemma PayloadParts(messageId: string, channel: string, attempt: nat)
    requires ColonFree(messageId) && ColonFree(channel)
    ensures Split(Payload(messageId, channel, attempt)) == [messageId, channel, Digits(attempt)]
  {
    assert ColonFree(Digits(attempt));
    SplitTwo(channel, Digits(attempt));
    SplitFirst(messageId, channel + ":" + Digits(attempt));
  }
}
