/** The signed cookies and tokens: browser-integrity cookies bound to a subnet, clearance cookies,
    and proof-of-work challenges. `mac` stands for the keyed hash of a payload, base64url-coded. */
module Tokens {
  import opened Net
  import opened Text
  import opened Words

  type Mac = string -> string

  // ---- Browser-integrity cookies: <exp>.<subnet>.<sig> ----

  const BIC_TTL: nat := 1800

  function SubnetMarker(ip: IpAddr): string {
    match ip
    case V4(o0, o1, o2, _) => "4" + Hex2(o0) + Hex2(o1) + Hex2(o2)
    case V6(s0, s1, s2, s3, _, _, _, _) => "6" + Hex4(s0) + Hex4(s1) + Hex4(s2) + Hex4(s3)
  }

  function BicPayload(exp: nat, marker: string): string {
    "bic|" + Decimal(exp) + "|" + marker
  }

  function BicCookie(mac: Mac, exp: nat, marker: string): string {
    Decimal(exp) + "." + (marker + "." + mac(BicPayload(exp, marker)))
  }

  function MintBic(mac: Mac, ip: IpAddr, now: nat): string {
    BicCookie(mac, now + BIC_TTL, SubnetMarker(ip))
  }

  predicate VerifyBic(mac: Mac, value: string, ip: IpAddr, now: nat) {
    match SplitOnce(value, '.')
    case None => false
    case Some(first) =>
      match SplitOnce(first.1, '.')
      case None => false
      case Some(second) =>
        match ParseU64(first.0)
        case None => false
        case Some(exp) =>
          && exp > now
          && second.0 == SubnetMarker(ip)
          && second.1 == mac(BicPayload(exp, second.0))
  }

  /** The marker tells two addresses apart exactly when they are in different subnets, and so
      exactly when the subnet tracker's key does. */
  lemma MarkerPartition(a: IpAddr, b: IpAddr)
    ensures SubnetMarker(a) == SubnetMarker(b) <==> SameSubnet(a, b)
    ensures SubnetMarker(a) == SubnetMarker(b) <==> SubnetKey(a) == SubnetKey(b)
  {
    SubnetKeyPartition(a, b);
    match (a, b)
    case (V4(a0, a1, a2, _), V4(b0, b1, b2, _)) =>
      ThreeParts(Hex2(a0), Hex2(a1), Hex2(a2), Hex2(b0), Hex2(b1), Hex2(b2));
      Hex2Injective(a0, b0);
      Hex2Injective(a1, b1);
      Hex2Injective(a2, b2);
    case (V6(a0, a1, a2, a3, _, _, _, _), V6(b0, b1, b2, b3, _, _, _, _)) =>
      FourParts(Hex4(a0), Hex4(a1), Hex4(a2), Hex4(a3), Hex4(b0), Hex4(b1), Hex4(b2), Hex4(b3));
      Hex4Injective(a0, b0);
      Hex4Injective(a1, b1);
      Hex4Injective(a2, b2);
      Hex4Injective(a3, b3);
    case _ =>
      assert SubnetMarker(a)[0] != SubnetMarker(b)[0];
  }

  lemma ThreeParts(a: string, b: string, c: string, d: string, e: string, f: string)
    requires |a| == |d| == 2 && |b| == |e| == 2 && |c| == |f| == 2
    ensures "4" + a + b + c == "4" + d + e + f <==> a == d && b == e && c == f
  {
    var s, t := "4" + a + b + c, "4" + d + e + f;
    assert s[1..3] == a && s[3..5] == b && s[5..] == c;
    assert t[1..3] == d && t[3..5] == e && t[5..] == f;
  }

  lemma FourParts(a: string, b: string, c: string, d: string, e: string, f: string, g: string, h: string)
    requires |a| == |e| == 4 && |b| == |f| == 4 && |c| == |g| == 4 && |d| == |h| == 4
    ensures "6" + a + b + c + d == "6" + e + f + g + h <==> a == e && b == f && c == g && d == h
  {
    var s, t := "6" + a + b + c + d, "6" + e + f + g + h;
    assert s[1..5] == a && s[5..9] == b && s[9..13] == c && s[13..] == d;
    assert t[1..5] == e && t[5..9] == f && t[9..13] == g && t[13..] == h;
  }

  lemma HexHasNo(b: Octet, c: char)
    requires c == '.' || c == '|'
    ensures c !in Hex2(b)
  {
  }

  lemma SegmentHasNo(s: Segment, c: char)
    requires c == '.' || c == '|'
    ensures c !in Hex4(s)
  {
    HexHasNo(s / 0x100, c);
    HexHasNo(s % 0x100, c);
  }

  /** A marker holds neither of the separators. */
  lemma MarkerHasNo(ip: IpAddr, c: char)
    requires c == '.' || c == '|'
    ensures c !in SubnetMarker(ip)
  {
    match ip
    case V4(o0, o1, o2, _) =>
      HexHasNo(o0, c);
      HexHasNo(o1, c);
      HexHasNo(o2, c);
    case V6(s0, s1, s2, s3, _, _, _, _) =>
      SegmentHasNo(s0, c);
      SegmentHasNo(s1, c);
      SegmentHasNo(s2, c);
      SegmentHasNo(s3, c);
  }

  /** A cookie put together for (exp, subnet) is taken apart again to the same. */
  lemma BicCookieParts(mac: Mac, exp: nat, ip: IpAddr)
    ensures var marker := SubnetMarker(ip);
            var rest := marker + "." + mac(BicPayload(exp, marker));
      && SplitOnce(BicCookie(mac, exp, marker), '.') == Some((Decimal(exp), rest))
      && SplitOnce(rest, '.') == Some((marker, mac(BicPayload(exp, marker))))
  {
    var marker := SubnetMarker(ip);
    DecimalHasNo(exp, '.');
    MarkerHasNo(ip, '.');
    SplitOnceAt(Decimal(exp), marker + "." + mac(BicPayload(exp, marker)), '.');
    SplitOnceAt(marker, mac(BicPayload(exp, marker)), '.');
  }

  /** A cookie minted for ip at t0 is accepted from ip' at t exactly when less than half an hour has
      passed and the two are in the same /24 or /64. */
  lemma BicRoundTrip(mac: Mac, ip: IpAddr, t0: nat, ip': IpAddr, t: nat)
    requires t0 + 1800 <= U64_MAX
    ensures VerifyBic(mac, MintBic(mac, ip, t0), ip', t) <==> t < t0 + 1800 && SameSubnet(ip, ip')
  {
    BicCookieParts(mac, t0 + BIC_TTL, ip);
    ParseDecimal(t0 + BIC_TTL);
    MarkerPartition(ip, ip');
  }

  // ---- Clearance cookies: <exp>.<sig> ----

  function ClearancePayload(exp: nat): string {
    "clr|" + Decimal(exp)
  }

  function MintClearance(mac: Mac, now: nat, ttl: nat): string {
    Decimal(now + ttl) + "." + mac(ClearancePayload(now + ttl))
  }

  predicate VerifyClearance(mac: Mac, value: string, now: nat) {
    match SplitOnce(value, '.')
    case None => false
    case Some(p) =>
      match ParseU64(p.0)
      case None => false
      case Some(exp) => exp > now && p.1 == mac(ClearancePayload(exp))
  }

  lemma ClearanceParts(mac: Mac, exp: nat)
    ensures SplitOnce(Decimal(exp) + "." + mac(ClearancePayload(exp)), '.')
         == Some((Decimal(exp), mac(ClearancePayload(exp))))
  {
    DecimalHasNo(exp, '.');
    SplitOnceAt(Decimal(exp), mac(ClearancePayload(exp)), '.');
  }

  /** A clearance is accepted exactly until its time is up. */
  lemma ClearanceRoundTrip(mac: Mac, t0: nat, ttl: nat, t: nat)
    requires t0 + ttl <= U64_MAX
    ensures VerifyClearance(mac, MintClearance(mac, t0, ttl), t) <==> t < t0 + ttl
  {
    ClearanceParts(mac, t0 + ttl);
    ParseDecimal(t0 + ttl);
  }

  // ---- Neither passes for the other ----

  /** Base64url has no dot. */
  ghost predicate Dotless(mac: Mac) {
    forall payload :: '.' !in mac(payload)
  }

  lemma ClearanceIsNoBic(mac: Mac, t0: nat, ttl: nat, ip: IpAddr, t: nat)
    requires Dotless(mac)
    ensures !VerifyBic(mac, MintClearance(mac, t0, ttl), ip, t)
  {
    ClearanceParts(mac, t0 + ttl);
    SplitNone(mac(ClearancePayload(t0 + ttl)), '.');
  }

  lemma BicIsNoClearance(mac: Mac, ip: IpAddr, t0: nat, t: nat)
    requires Dotless(mac)
    ensures !VerifyClearance(mac, MintBic(mac, ip, t0), t)
  {
    var (exp, marker) := (t0 + BIC_TTL, SubnetMarker(ip));
    BicCookieParts(mac, exp, ip);
    var rest := marker + "." + mac(BicPayload(exp, marker));
    assert rest[|marker|] == '.';
  }

  // ---- What a signature vouches for ----

  /** Signed by the proof-of-work challenge and by the browser check alike, under the one secret that
      signs the cookies too; what comes back to be checked may hold any string as its challenge. */
  function TokenPayload(challenge: string, exp: nat): string {
    challenge + "|" + Decimal(exp)
  }

  /** A string falls apart at its last bar in one way only. */
  lemma LastBar(a: string, b: string, c: string, d: string)
    requires '|' !in b && '|' !in d && a + "|" + b == c + "|" + d
    ensures a == c && b == d
  {
    var (s, t) := (a + "|" + b, c + "|" + d);
    assert s[|a|] == '|' && t[|c|] == '|';
    assert forall i | |a| < i < |s| :: s[i] == b[i - |a| - 1];
    assert forall i | |c| < i < |t| :: t[i] == d[i - |c| - 1];
    assert s[..|a|] == a && t[..|c|] == c && s[|a| + 1..] == b && t[|c| + 1..] == d;
  }

  /** A token's signature vouches for its challenge and its time and no others, whatever strings the
      challenges are. */
  lemma TokenPayloadInjective(c: string, exp: nat, c': string, exp': nat)
    requires TokenPayload(c, exp) == TokenPayload(c', exp')
    ensures c == c' && exp == exp'
  {
    DecimalHasNo(exp, '|');
    DecimalHasNo(exp', '|');
    LastBar(c, Decimal(exp), c', Decimal(exp'));
    DecimalInjective(exp, exp');
  }

  lemma ClearancePayloadInjective(exp: nat, exp': nat)
    requires ClearancePayload(exp) == ClearancePayload(exp')
    ensures exp == exp'
  {
    assert ClearancePayload(exp)[4..] == Decimal(exp) && ClearancePayload(exp')[4..] == Decimal(exp');
    DecimalInjective(exp, exp');
  }

  /** An integrity cookie's signature vouches for its time and subnet and no others. */
  lemma BicPayloadInjective(exp: nat, ip: IpAddr, exp': nat, ip': IpAddr)
    requires BicPayload(exp, SubnetMarker(ip)) == BicPayload(exp', SubnetMarker(ip'))
    ensures exp == exp' && SameSubnet(ip, ip')
  {
    var (head, head') := ("bic|" + Decimal(exp), "bic|" + Decimal(exp'));
    MarkerHasNo(ip, '|');
    MarkerHasNo(ip', '|');
    LastBar(head, SubnetMarker(ip), head', SubnetMarker(ip'));
    assert head[4..] == Decimal(exp) && head'[4..] == Decimal(exp');
    DecimalInjective(exp, exp');
    MarkerPartition(ip, ip');
  }

  /** The two cookies never sign the same payload. */
  lemma CookiesSeparate(exp: nat, exp': nat, marker: string)
    ensures ClearancePayload(exp) != BicPayload(exp', marker)
  {
    assert ClearancePayload(exp)[0] == 'c' && BicPayload(exp', marker)[0] == 'b';
  }

  /** A token and a clearance do, for one challenge: the payload of a clearance is that of the
      challenge "clr" with the same time, and of no other token. */
  lemma TokenMeetsClearance(c: string, exp: nat, exp': nat)
    ensures TokenPayload(c, exp) == ClearancePayload(exp') <==> c == "clr" && exp == exp'
  {
    assert ClearancePayload(exp') == TokenPayload("clr", exp');
    if TokenPayload(c, exp) == ClearancePayload(exp') { TokenPayloadInjective(c, exp, "clr", exp'); }
  }

  /** A token and an integrity cookie do when the cookie's head is the challenge and its subnet marker
      reads as the token's time. */
  lemma TokenMeetsBic(c: string, exp: nat, exp': nat, ip: IpAddr)
    ensures TokenPayload(c, exp) == BicPayload(exp', SubnetMarker(ip))
       <==> c == "bic|" + Decimal(exp') && Decimal(exp) == SubnetMarker(ip)
  {
    var head := "bic|" + Decimal(exp');
    assert BicPayload(exp', SubnetMarker(ip)) == head + "|" + SubnetMarker(ip);
    DecimalHasNo(exp, '|');
    MarkerHasNo(ip, '|');
    if TokenPayload(c, exp) == BicPayload(exp', SubnetMarker(ip)) {
      LastBar(c, Decimal(exp), head, SubnetMarker(ip));
    }
  }

  /** Which the marker does exactly when none of its hexadecimal digits is a letter. */
  lemma MarkerReadsAsTime(ip: IpAddr)
    ensures (exists exp :: Decimal(exp) == SubnetMarker(ip))
       <==> forall i | 0 <= i < |SubnetMarker(ip)| :: IsDigit(SubnetMarker(ip)[i])
  {
    var marker := SubnetMarker(ip);
    if forall i | 0 <= i < |marker| :: IsDigit(marker[i]) {
      var exp := DigitsPrint(marker);
    }
  }

  lemma MarkerOfSample()
    ensures SubnetMarker(V4(1, 2, 3, 4)) == "4010203"
  {
    assert Hex2(1) == "01" && Hex2(2) == "02" && Hex2(3) == "03";
  }

  lemma PrintOfSample()
    ensures Decimal(4_010_203) == "4010203"
  {
    assert Decimal(40) == "40" && Decimal(401) == "401" && Decimal(4_010) == "4010";
    assert Decimal(40_102) == "40102" && Decimal(401_020) == "401020";
  }

  /** So a token for the time 4010203 can bear the signature of an integrity cookie of 1.2.3.0/24. */
  lemma SomeMarkerReadsAsTime(exp: nat)
    ensures TokenPayload("bic|" + Decimal(exp), 4_010_203) == BicPayload(exp, SubnetMarker(V4(1, 2, 3, 4)))
  {
    MarkerOfSample();
    PrintOfSample();
    TokenMeetsBic("bic|" + Decimal(exp), 4_010_203, exp, V4(1, 2, 3, 4));
  }

  predicate IsHex(s: string) {
    forall i | 0 <= i < |s| :: IsDigit(s[i]) || 'a' <= s[i] <= 'f'
  }

  /** The challenges the source itself hands out are hexadecimal, and those meet no cookie. */
  lemma IssuedMeetsNoCookie(c: string, exp: nat, exp': nat, ip: IpAddr)
    requires IsHex(c)
    ensures TokenPayload(c, exp) != ClearancePayload(exp')
    ensures TokenPayload(c, exp) != BicPayload(exp', SubnetMarker(ip))
  {
    TokenMeetsClearance(c, exp, exp');
    TokenMeetsBic(c, exp, exp', ip);
    assert "clr"[1] == 'l' && ("bic|" + Decimal(exp'))[1] == 'i';
  }

  /** Whatever string a client sends as a cookie, it is accepted exactly when it carries the mac of
      an unexpired time and the client's own subnet, the time written in any way that reads as it. */
  lemma BicAcceptance(mac: Mac, value: string, ip: IpAddr, now: nat)
    ensures VerifyBic(mac, value, ip, now)
       <==> exists exp_s, exp ::
              && ParseU64(exp_s) == Some(exp) && exp > now && '.' !in exp_s
              && value == exp_s + "." + (SubnetMarker(ip) + "." + mac(BicPayload(exp, SubnetMarker(ip))))
  {
    var marker := SubnetMarker(ip);
    if VerifyBic(mac, value, ip, now) {
      var first := SplitOnce(value, '.').value;
      var exp := ParseU64(first.0).value;
      assert value == first.0 + "." + (marker + "." + mac(BicPayload(exp, marker)));
    }
    forall exp_s, exp |
        && ParseU64(exp_s) == Some(exp) && exp > now && '.' !in exp_s
        && value == exp_s + "." + (marker + "." + mac(BicPayload(exp, marker)))
      ensures VerifyBic(mac, value, ip, now)
    {
      MarkerHasNo(ip, '.');
      SplitOnceAt(exp_s, marker + "." + mac(BicPayload(exp, marker)), '.');
      SplitOnceAt(marker, mac(BicPayload(exp, marker)), '.');
    }
  }

  // ---- Proof of work ----

  /** The test the browser runs: the hex digest starts with d zeroes. */
  predicate LeadingZeroes(hex: string, d: nat) {
    d <= |hex| && forall k | 0 <= k < d :: hex[k] == '0'
  }

  lemma HexZero(n: nat)
    requires n < 16
    ensures HexDigit(n) == '0' <==> n == 0
  {
  }

  /** Whole zero bytes are pairs of zero digits. */
  lemma {:induction false} ZeroBytes(digest: seq<Octet>, n: nat)
    requires n <= |digest|
    ensures (forall i | 0 <= i < n :: digest[i] == 0) <==> LeadingZeroes(Hex(digest), 2 * n)
  {
    if n > 0 {
      ZeroBytes(digest, n - 1);
      HexAt(digest, n - 1);
      HexZero(digest[n - 1] / 16);
      HexZero(digest[n - 1] % 16);
    }
  }

  /** Byte by byte, then the upper half of one more byte: the same test without the hex string. */
  method VerifyPow(digest: seq<Octet>, difficulty: nat) returns (ok: bool)
    requires |digest| == 32 && 1 <= difficulty <= 8
    ensures ok <==> LeadingZeroes(Hex(digest), difficulty)
  {
    var fullBytes := difficulty / 2;
    for i := 0 to fullBytes
      invariant forall j | 0 <= j < i :: digest[j] == 0
    {
      if digest[i] != 0 {
        ZeroBytes(digest, fullBytes);
        return false;
      }
    }
    ZeroBytes(digest, fullBytes);
    HexAt(digest, fullBytes);
    HexZero(digest[fullBytes] / 16);
    if difficulty % 2 == 1 {
      if digest[fullBytes] / 16 != 0 { return false; }
    }
    ok := true;
  }

  /** The half-byte at position k of a digest, the upper half of each byte first. */
  function Nibble(digest: seq<Octet>, k: nat): nat
    requires k < 2 * |digest|
  {
    if k % 2 == 0 then digest[k / 2] / 16 else digest[k / 2] % 16
  }

  lemma Halves(i: nat)
    ensures 2 * i % 2 == 0 && 2 * i / 2 == i && (2 * i + 1) % 2 == 1 && (2 * i + 1) / 2 == i
  {
  }

  lemma NibblesOf(digest: seq<Octet>, i: nat)
    requires i < |digest|
    ensures Nibble(digest, 2 * i) == digest[i] / 16 && Nibble(digest, 2 * i + 1) == digest[i] % 16
  {
    Halves(i);
  }

  lemma NibblesShown(digest: seq<Octet>, i: nat)
    requires i < |digest|
    ensures Hex(digest)[2 * i] == '0' <==> Nibble(digest, 2 * i) == 0
    ensures Hex(digest)[2 * i + 1] == '0' <==> Nibble(digest, 2 * i + 1) == 0
  {
    HexAt(digest, i);
    HexZero(digest[i] / 16);
    HexZero(digest[i] % 16);
    NibblesOf(digest, i);
  }

  lemma HalfOf(k: nat)
    ensures k == if k % 2 == 0 then 2 * (k / 2) else 2 * (k / 2) + 1
  {
  }

  /** In bits: the first d half-bytes of the digest are zero, so that 16^d attempts are needed on average. */
  lemma WorkInNibbles(digest: seq<Octet>, d: nat)
    ensures LeadingZeroes(Hex(digest), d) <==> d <= 2 * |digest| && forall k: nat | k < d :: Nibble(digest, k) == 0
  {
    if d <= 2 * |digest| {
      forall k: nat | k < d
        ensures Hex(digest)[k] == '0' <==> Nibble(digest, k) == 0
      {
        HalfOf(k);
        NibblesShown(digest, k / 2);
      }
    }
  }

  // ---- Challenge tokens ----

  const SOLVE_SECS: nat := 120

  datatype Token = Token(challenge: string, expiresAt: nat, signature: string)

  datatype Checked = Accepted | Expired | BadSig | BadPow

  function Issue(mac: Mac, challenge: string, now: nat): Token {
    Token(challenge, now + SOLVE_SECS, mac(TokenPayload(challenge, now + SOLVE_SECS)))
  }

  /** The checks in their order; `digest` is the hash of challenge and nonce. */
  ghost function CheckToken(mac: Mac, t: Token, digest: seq<Octet>, difficulty: nat, now: nat): Checked {
    if now > t.expiresAt then Expired
    else if mac(TokenPayload(t.challenge, t.expiresAt)) != t.signature then BadSig
    else if !LeadingZeroes(Hex(digest), difficulty) then BadPow
    else Accepted
  }

  method VerifyToken(mac: Mac, t: Token, digest: seq<Octet>, difficulty: nat, now: nat) returns (r: Checked)
    requires |digest| == 32 && 1 <= difficulty <= 8
    ensures r == CheckToken(mac, t, digest, difficulty, now)
  {
    if now > t.expiresAt { return Expired; }
    if mac(TokenPayload(t.challenge, t.expiresAt)) != t.signature { return BadSig; }
    var solved := VerifyPow(digest, difficulty);
    r := if solved then Accepted else BadPow;
  }

  /** An issued token is accepted with a solution for two minutes, the last second included, and
      turned down for the right reason otherwise. */
  lemma TokenRoundTrip(mac: Mac, challenge: string, t0: nat, digest: seq<Octet>, difficulty: nat, t: nat)
    requires 1 <= difficulty <= 8 && |digest| == 32
    ensures CheckToken(mac, Issue(mac, challenge, t0), digest, difficulty, t)
         == if t > t0 + 120 then Expired else if LeadingZeroes(Hex(digest), difficulty) then Accepted else BadPow
  {
  }

  /** Any token at all: the time is looked at first, then the signature, then the work. */
  lemma TokenAcceptance(mac: Mac, t: Token, digest: seq<Octet>, difficulty: nat, now: nat)
    requires 1 <= difficulty <= 8 && |digest| == 32
    ensures var genuine := t.signature == mac(t.challenge + "|" + Decimal(t.expiresAt));
            var solved := forall k: nat | k < difficulty :: Nibble(digest, k) == 0;
      && (CheckToken(mac, t, digest, difficulty, now) == Accepted <==> now <= t.expiresAt && genuine && solved)
      && (CheckToken(mac, t, digest, difficulty, now) == Expired <==> now > t.expiresAt)
      && (CheckToken(mac, t, digest, difficulty, now) == BadSig <==> now <= t.expiresAt && !genuine)
  {
    WorkInNibbles(digest, difficulty);
  }

  /** So a token is told from a clearance by its challenge alone: put forward as a token for the
      challenge "clr", a clearance's time and signature are accepted, with a solution for it, for as
      long as the clearance lasts. */
  lemma ClearanceReadsAsToken(mac: Mac, t0: nat, ttl: nat, digest: seq<Octet>, difficulty: nat, t: nat)
    requires 1 <= difficulty <= 8 && |digest| == 32
    ensures var (exp, sig) := (t0 + ttl, mac(ClearancePayload(t0 + ttl)));
      && MintClearance(mac, t0, ttl) == Decimal(exp) + "." + sig
      && CheckToken(mac, Token("clr", exp, sig), digest, difficulty, t)
         == if t > exp then Expired else if LeadingZeroes(Hex(digest), difficulty) then Accepted else BadPow
  {
    TokenMeetsClearance("clr", t0 + ttl, t0 + ttl);
  }

  // ---- The browser check ----

  const BROWSER_SECS: nat := 60

  datatype Proved = Proven | TooLate | WrongSig | WrongProof

  function IssueBrowser(mac: Mac, challenge: string, now: nat): Token {
    Token(challenge, now + BROWSER_SECS, mac(TokenPayload(challenge, now + BROWSER_SECS)))
  }

  /** The checks in their order; `hash` is the digest of a text. */
  function CheckBrowser(mac: Mac, hash: string -> seq<Octet>, t: Token, proof: string, now: nat): Proved {
    var digest := hash(t.challenge + "2t1bic");
    if now > t.expiresAt then TooLate
    else if mac(TokenPayload(t.challenge, t.expiresAt)) != t.signature then WrongSig
    else if |digest| < 8 || Hex(digest[..8]) != proof then WrongProof
    else Proven
  }

  /** A browser token is accepted with the proof the page computes for a minute, the last second
      included. */
  lemma BrowserRoundTrip(mac: Mac, hash: string -> seq<Octet>, challenge: string, t0: nat, proof: string, t: nat)
    requires |hash(challenge + "2t1bic")| == 32
    ensures CheckBrowser(mac, hash, IssueBrowser(mac, challenge, t0), proof, t)
         == if t > t0 + 60 then TooLate
            else if proof == Hex(hash(challenge + "2t1bic")[..8]) then Proven
            else WrongProof
  {
  }

  /** Any browser token at all: the proof is the first sixteen hexadecimal digits of the digest, in lower
      case. */
  lemma BrowserAcceptance(mac: Mac, hash: string -> seq<Octet>, t: Token, proof: string, now: nat)
    requires |hash(t.challenge + "2t1bic")| == 32
    ensures var genuine := t.signature == mac(t.challenge + "|" + Decimal(t.expiresAt));
            var proven := Unhex(proof) == Some(hash(t.challenge + "2t1bic")[..8]);
      && (CheckBrowser(mac, hash, t, proof, now) == Proven <==> now <= t.expiresAt && genuine && proven)
      && (CheckBrowser(mac, hash, t, proof, now) == TooLate <==> now > t.expiresAt)
      && (CheckBrowser(mac, hash, t, proof, now) == WrongSig <==> now <= t.expiresAt && !genuine)
  {
    var digest := hash(t.challenge + "2t1bic")[..8];
    HexReadsBack(digest);
    if Unhex(proof) == Some(digest) { HexUnique(proof, digest); }
  }

  /** The two tokens are signed alike, so each passes the other's check of time and signature: only
      the work asked for tells them apart. */
  lemma TokensInterchange(mac: Mac, hash: string -> seq<Octet>, challenge: string, t0: nat,
                          digest: seq<Octet>, difficulty: nat, proof: string, t: nat)
    requires 1 <= difficulty <= 8 && |digest| == 32
    ensures t <= t0 + 60 ==>
      CheckToken(mac, IssueBrowser(mac, challenge, t0), digest, difficulty, t)
      == if LeadingZeroes(Hex(digest), difficulty) then Accepted else BadPow
    ensures t <= t0 + 120 ==>
      CheckBrowser(mac, hash, Issue(mac, challenge, t0), proof, t) in {Proven, WrongProof}
  {
  }
}
