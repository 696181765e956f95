/** `OtpService` (src/services/otp/otp.service.ts): the one-time-password challenge a
    restore must pass. The service keeps the bearer token it was handed, asks the API to send
    a code, and polls the API every five seconds until the code is verified or the challenge
    expires.

    The API client is an oracle: `requestOtp` is the reply it gives, and `verifyOtp` answers
    with a flag and, by its own contract, never rejects (a failed request reads as "not
    verified"). The wall clock is the sequence of values `Date.now()` returns at the loop's
    successive tests; a parsed expiry is a number of milliseconds, and an expiry that does not
    parse (`NaN`) is `None`. */
module Otp {
  import opened Wrappers
  import opened Records
  import Strings
  import Base

  const ClassName := "OtpService"
  const PollingInterval := 5000
  const TokenNotSet := "Authentication token not set"
  const TokenNotSetOnRequest := "Authentication token not set. Call setAuthToken first."
  const RequestContext := "Failed to request OTP"

  /** A call the service made to the API client. */
  datatype ApiCall = SendOtp(deliveryMethod: string, token: string) | OtpStatus(uniqueKey: string, token: string)

  function StatusCalls(uniqueKey: string, token: string, n: nat): (r: seq<ApiCall>)
    ensures |r| == n && forall i :: 0 <= i < n ==> r[i] == OtpStatus(uniqueKey, token)
  {
    seq(n, _ => OtpStatus(uniqueKey, token))
  }

  // ---------------------------------------------------------------------------
  // Polling
  // ---------------------------------------------------------------------------

  /** Each pass of the loop sleeps `PollingInterval` ms before the next test of the clock. */
  ghost predicate Advancing(clock: nat -> int)
  {
    forall i: nat, j: nat :: i < j ==> clock(i) + PollingInterval * (j - i) <= clock(j)
  }

  /** How polling from the `k`-th loop test on ends: the number of status checks made and
      whether the last one reported the code verified. */
  datatype Poll = Poll(checks: nat, verified: bool)

  ghost function Polling(expiry: int, clock: nat -> int, answers: nat -> bool, k: nat): (p: Poll)
    requires Advancing(clock)
    decreases expiry - clock(k)
  {
    if clock(k) >= expiry then Poll(0, false)
    else if answers(k) then Poll(1, true)
    else
      assert clock(k) + PollingInterval * 1 <= clock(k + 1);
      var rest := Polling(expiry, clock, answers, k + 1);
      Poll(rest.checks + 1, rest.verified)
  }

  /** Polling reports success exactly when some check made before the expiry is answered
      "verified". */
  lemma {:induction false} PollingVerifiedIff(expiry: int, clock: nat -> int, answers: nat -> bool, k: nat)
    requires Advancing(clock)
    ensures Polling(expiry, clock, answers, k).verified <==> exists j: nat :: k <= j && clock(j) < expiry && answers(j)
    decreases expiry - clock(k)
  {
    if clock(k) >= expiry {
      forall j: nat | k <= j ensures clock(j) >= expiry {
        if k < j { assert clock(k) + PollingInterval * (j - k) <= clock(j); }
      }
    } else if !answers(k) {
      assert clock(k) + PollingInterval * 1 <= clock(k + 1);
      PollingVerifiedIff(expiry, clock, answers, k + 1);
      if exists j: nat :: k <= j && clock(j) < expiry && answers(j) {
        var j: nat :| k <= j && clock(j) < expiry && answers(j);
        assert k + 1 <= j;
      }
    }
  }

  /** Polling stops at the first check answered "verified": every earlier check was answered
      "not verified". */
  lemma {:induction false} PollingStopsAtFirst(expiry: int, clock: nat -> int, answers: nat -> bool, k: nat)
    requires Advancing(clock)
    ensures var p := Polling(expiry, clock, answers, k);
      && (p.verified ==> answers(k + p.checks - 1))
      && (forall i: nat :: k <= i < k + p.checks - 1 ==> !answers(i))
    decreases expiry - clock(k)
  {
    if clock(k) < expiry && !answers(k) {
      assert clock(k) + PollingInterval * 1 <= clock(k + 1);
      PollingStopsAtFirst(expiry, clock, answers, k + 1);
    }
  }

  /** Polling makes at most ceil((expiry - start) / 5000) status checks, and none at all when
      the challenge has already expired. */
  lemma {:induction false} PollingBound(expiry: int, clock: nat -> int, answers: nat -> bool, k: nat)
    requires Advancing(clock)
    ensures var p := Polling(expiry, clock, answers, k);
      && (clock(k) >= expiry <==> p.checks == 0)
      && (p.checks > 0 ==> PollingInterval * (p.checks - 1) < expiry - clock(k))
    decreases expiry - clock(k)
  {
    if clock(k) < expiry && !answers(k) {
      assert clock(k) + PollingInterval * 1 <= clock(k + 1);
      PollingBound(expiry, clock, answers, k + 1);
    }
  }

  // ---------------------------------------------------------------------------
  // Remaining time
  // ---------------------------------------------------------------------------

  /** `getRemainingTime(expiresAt)` at time `now`: whole seconds left, rounded up, never
      negative; `None` when the expiry is `NaN`, which the arithmetic carries through. */
  function RemainingTime(expiresAt: Option<int>, now: int): (r: Option<nat>)
    ensures expiresAt.None? <==> r.None?
    ensures r.Some? ==> var left := expiresAt.value - now;
      && (left <= 0 ==> r.value == 0)
      && (left > 0 ==> (r.value - 1) * 1000 < left <= r.value * 1000)
  {
    match expiresAt
    case None => None
    case Some(expiry) =>
      var left := if expiry - now > 0 then expiry - now else 0;
      Some((left + 999) / 1000)
  }

  /** `formatRemainingTime(expiresAt)`, given the remaining seconds: "Expired", "<m>m <s>s"
      or "<s>s"; `NaN` seconds pass every test and print as "NaNs". */
  function FormatRemaining(remaining: Option<nat>): string
  {
    match remaining
    case None => "NaNs"
    case Some(r) =>
      if r <= 0 then "Expired"
      else if r / 60 > 0 then Strings.NatToString(r / 60) + "m " + Strings.NatToString(r % 60) + "s"
      else Strings.NatToString(r % 60) + "s"
  }

  /** A number followed by a one-letter unit. */
  predicate IsAmount(p: string, unit: char)
  {
    |p| >= 2 && p[|p| - 1] == unit && forall i :: 0 <= i < |p| - 1 ==> Strings.IsDigit(p[i])
  }

  function Amount(p: string, unit: char): nat
    requires IsAmount(p, unit)
  {
    Strings.ParseNat(p[..|p| - 1])
  }

  /** A reader for the formatted text: the reference reading of `FormatRemaining`. */
  function ReadRemaining(text: string): Option<nat>
  {
    if text == "Expired" then Some(0)
    else
      var parts := Strings.Split(text, ' ');
      if |parts| == 2 && IsAmount(parts[0], 'm') && IsAmount(parts[1], 's') then
        Some(Amount(parts[0], 'm') * 60 + Amount(parts[1], 's'))
      else if |parts| == 1 && IsAmount(parts[0], 's') then Some(Amount(parts[0], 's'))
      else None
  }

  lemma AmountOf(n: nat, unit: char)
    ensures IsAmount(Strings.NatToString(n) + [unit], unit)
    ensures Amount(Strings.NatToString(n) + [unit], unit) == n
  {
    var p := Strings.NatToString(n) + [unit];
    assert p[..|p| - 1] == Strings.NatToString(n);
    Strings.ParseNatToString(n);
  }

  /** The formatted remaining time reads back as the number of seconds it was made from. */
  lemma FormatRemainingReadsBack(r: nat)
    ensures ReadRemaining(FormatRemaining(Some(r))) == Some(r)
  {
    if r == 0 {
      ExpiredReadsBack("Expired");
    } else if r / 60 > 0 {
      MinutesReadBack(r);
    } else {
      SecondsReadBack(r);
    }
  }

  lemma MinutesReadBack(r: nat)
    requires r / 60 > 0
    ensures ReadRemaining(FormatRemaining(Some(r))) == Some(r)
  {
    var minutes, seconds := r / 60, r % 60;
    assert FormatRemaining(Some(r))
        == Strings.NatToString(minutes) + "m " + Strings.NatToString(seconds) + "s";
    ReadsBackMinutes(minutes, seconds);
    MinutesAndSecondsMake(r);
  }

  lemma ReadsBackMinutes(minutes: nat, seconds: nat)
    ensures ReadRemaining(Strings.NatToString(minutes) + "m " + Strings.NatToString(seconds) + "s")
            == Some(minutes * 60 + seconds)
  {
    var digitsM, digitsS := Strings.NatToString(minutes), Strings.NatToString(seconds);
    MinutesText(digitsM, digitsS);
    AmountOf(seconds, 's');
    AmountOf(minutes, 'm');
    MinutesAndSeconds(digitsM + "m", digitsS + "s");
  }

  lemma MinutesText(digitsM: string, digitsS: string)
    ensures digitsM + "m " + digitsS + "s" == (digitsM + "m") + [' '] + (digitsS + "s")
  {
  }

  lemma MinutesAndSecondsMake(r: nat)
    ensures (r / 60) * 60 + r % 60 == r
  {
  }

  lemma SecondsReadBack(r: nat)
    requires 0 < r < 60
    ensures ReadRemaining(FormatRemaining(Some(r))) == Some(r)
  {
    var s := Strings.NatToString(r % 60) + "s";
    AmountOf(r % 60, 's');
    assert FormatRemaining(Some(r)) == s;
    SecondsOnly(s);
  }

  lemma ExpiredReadsBack(text: string)
    requires text == "Expired"
    ensures ReadRemaining(text) == Some(0)
  {
  }

  lemma MinutesAndSeconds(m: string, s: string)
    requires IsAmount(m, 'm') && IsAmount(s, 's')
    ensures ReadRemaining(m + [' '] + s) == Some(Amount(m, 'm') * 60 + Amount(s, 's'))
  {
    var text := m + [' '] + s;
    assert text != "Expired" by { assert text[|text| - 1] == 's'; }
    assert ' ' !in m by { assert forall i :: 0 <= i < |m| ==> m[i] == 'm' || Strings.IsDigit(m[i]); }
    assert ' ' !in s by { assert forall i :: 0 <= i < |s| ==> s[i] == 's' || Strings.IsDigit(s[i]); }
    Strings.SplitCons(m, s, ' ');
    NoSeparator(s, ' ');
  }

  lemma SecondsOnly(s: string)
    requires IsAmount(s, 's')
    ensures ReadRemaining(s) == Some(Amount(s, 's'))
  {
    assert s != "Expired" by { assert s[|s| - 1] == 's'; }
    assert ' ' !in s by { assert forall i :: 0 <= i < |s| ==> s[i] == 's' || Strings.IsDigit(s[i]); }
    NoSeparator(s, ' ');
  }

  lemma NoSeparator(s: string, sep: char)
    requires sep !in s
    ensures Strings.Split(s, sep) == [s]
  {
    Strings.SplitJoin([s], sep);
    assert Strings.Join([s], sep) == s;
  }

  // ---------------------------------------------------------------------------
  // Verification link
  // ---------------------------------------------------------------------------

  /** The characters `URLSearchParams` leaves as they are. */
  predicate FormSafe(c: char)
  {
    ('A' <= c <= 'Z') || ('a' <= c <= 'z') || ('0' <= c <= '9') || c == '*' || c == '-' || c == '.' || c == '_'
  }

  /** The UTF-8 encoding of one character: its first byte announces how many bytes follow,
      and the bytes read back as the character's code point. */
  function Utf8(c: char): (bytes: seq<byte>)
    ensures 1 <= |bytes| <= 4
    ensures Utf8Width(bytes[0]) == |bytes|
    ensures Utf8CodePoint(bytes) == c as int
  {
    // The code point in base 64, low digit first: cp == ((q3 * 64 + d2) * 64 + d1) * 64 + d0.
    var cp := c as int;
    var d0, q1 := cp % 0x40, cp / 0x40;
    var d1, q2 := q1 % 0x40, q1 / 0x40;
    var d2, q3 := q2 % 0x40, q2 / 0x40;
    if cp < 0x80 then [cp]
    else if cp < 0x800 then [0xC0 + q1, 0x80 + d0]
    else if cp < 0x10000 then [0xE0 + q2, 0x80 + d1, 0x80 + d0]
    else [0xF0 + q3, 0x80 + d2, 0x80 + d1, 0x80 + d0]
  }

  /** The length of a UTF-8 sequence, read from its first byte. */
  function Utf8Width(lead: byte): (n: nat)
    ensures 1 <= n <= 4
  {
    if lead < 0x80 then 1 else if lead < 0xE0 then 2 else if lead < 0xF0 then 3 else 4
  }

  /** The code point a UTF-8 sequence of one to four bytes stands for: the payload bits of
      each byte, high first. Continuation markers are not checked. */
  function Utf8CodePoint(bytes: seq<byte>): int
    requires 1 <= |bytes| <= 4
  {
    var b := seq(|bytes|, i requires 0 <= i < |bytes| => bytes[i] as int);
    if |b| == 1 then b[0]
    else if |b| == 2 then (b[0] - 0xC0) * 0x40 + (b[1] - 0x80)
    else if |b| == 3 then ((b[0] - 0xE0) * 0x40 + (b[1] - 0x80)) * 0x40 + (b[2] - 0x80)
    else (((b[0] - 0xF0) * 0x40 + (b[1] - 0x80)) * 0x40 + (b[2] - 0x80)) * 0x40 + (b[3] - 0x80)
  }

  function HexUpper(n: nat): (c: char)
    requires n < 16
    ensures Strings.IsDigit(c) || 'A' <= c <= 'F'
    ensures HexValue(c) == Some(n)
  {
    if n < 10 then (n + '0' as int) as char else (n - 10 + 'A' as int) as char
  }

  /** The value of one hexadecimal digit, in either case. */
  function HexValue(c: char): (r: Option<nat>)
    ensures r.Some? ==> r.value < 16
  {
    if '0' <= c <= '9' then Some(c as int - '0' as int)
    else if 'A' <= c <= 'F' then Some(c as int - 'A' as int + 10)
    else if 'a' <= c <= 'f' then Some(c as int - 'a' as int + 10)
    else None
  }

  /** "%XX" for every byte: three characters per byte, the byte's high then low nibble in
      upper-case hexadecimal. */
  function PercentEncode(bytes: seq<byte>): (s: string)
    ensures |s| == 3 * |bytes|
    ensures forall i :: 0 <= i < |s| ==> s[i] == '%' || Strings.IsDigit(s[i]) || 'A' <= s[i] <= 'F'
  {
    if bytes == [] then ""
    else PercentTriple(bytes[0]) + PercentEncode(bytes[1..])
  }

  /** '%', then the byte's high and low nibble in upper-case hexadecimal. */
  function PercentTriple(b: byte): string
  {
    ['%', HexUpper(b / 16), HexUpper(b % 16)]
  }

  /** The i-th byte is written as the i-th triple of the encoding. */
  lemma {:induction false} PercentTriples(bytes: seq<byte>)
    ensures forall i :: 0 <= i < |bytes| ==> PercentEncode(bytes)[3 * i..3 * i + 3] == PercentTriple(bytes[i])
  {
    if bytes != [] {
      PercentTriples(bytes[1..]);
      var s := PercentEncode(bytes);
      var rest := PercentEncode(bytes[1..]);
      assert s == PercentTriple(bytes[0]) + rest;
      forall i | 0 <= i < |bytes|
        ensures s[3 * i..3 * i + 3] == PercentTriple(bytes[i])
      {
        if i > 0 {
          assert s[3 * i..3 * i + 3] == rest[3 * (i - 1)..3 * (i - 1) + 3];
          assert bytes[i] == bytes[1..][i - 1];
        }
      }
    }
  }

  /** One character in the `application/x-www-form-urlencoded` serialisation. */
  function FormEncodeChar(c: char): (s: string)
    ensures s != [] && '&' !in s && '=' !in s
  {
    if FormSafe(c) then [c] else if c == ' ' then "+" else PercentEncode(Utf8(c))
  }

  /** A name or value as `URLSearchParams.toString()` writes it. */
  function FormEncode(s: string): (r: string)
    ensures '&' !in r && '=' !in r
  {
    if s == [] then [] else FormEncodeChar(s[0]) + FormEncode(s[1..])
  }

  /** The bytes of the first `n` "%XX" triples of `s`: the reference reading of
      `PercentEncode`. */
  function PercentDecode(s: string, n: nat): (r: Option<seq<byte>>)
    ensures r.Some? ==> |r.value| == n && 3 * n <= |s|
  {
    if n == 0 then Some([])
    else if |s| < 3 || s[0] != '%' then None
    else
      match (HexValue(s[1]), HexValue(s[2]), PercentDecode(s[3..], n - 1))
      case (Some(high), Some(low), Some(rest)) => Some([high * 16 + low] + rest)
      case _ => None
  }

  function Prepend(c: char, r: Option<string>): Option<string>
  {
    match r
    case Some(t) => Some([c] + t)
    case None => None
  }

  /** Reading an `application/x-www-form-urlencoded` name or value back: '+' is a space, a
      run of "%XX" triples is the UTF-8 encoding of one character, and any other character
      stands for itself. `None` when the text is not such an encoding. */
  function FormDecode(s: string): (r: Option<string>)
    decreases |s|
  {
    if s == [] then Some([])
    else if s[0] == '+' then Prepend(' ', FormDecode(s[1..]))
    else if s[0] != '%' then Prepend(s[0], FormDecode(s[1..]))
    else
      match PercentDecode(s, 1)
      case None => None
      case Some(lead) =>
        var n := Utf8Width(lead[0]);
        match PercentDecode(s, n)
        case None => None
        case Some(bytes) =>
          var cp := Utf8CodePoint(bytes);
          if 0 <= cp < 0xD800 || 0xE000 <= cp < 0x11_0000 then Prepend(cp as char, FormDecode(s[3 * n..]))
          else None
  }

  /** The "%XX" triples of some bytes read back as those bytes, whatever follows them. */
  lemma {:induction false} PercentDecodeEncode(bytes: seq<byte>, rest: string)
    ensures PercentDecode(PercentEncode(bytes) + rest, |bytes|) == Some(bytes)
  {
    if bytes != [] {
      var s := PercentEncode(bytes) + rest;
      assert s[3..] == PercentEncode(bytes[1..]) + rest;
      PercentDecodeEncode(bytes[1..], rest);
      assert [bytes[0] / 16 * 16 + bytes[0] % 16] + bytes[1..] == bytes;
    }
  }

  /** One encoded character reads back as that character, followed by the reading of what
      comes after it. */
  lemma FormDecodeChar(c: char, rest: string)
    ensures FormDecode(FormEncodeChar(c) + rest) == Prepend(c, FormDecode(rest))
  {
    var s := FormEncodeChar(c) + rest;
    if FormSafe(c) || c == ' ' {
      assert s[1..] == rest;
    } else {
      FormDecodePercent(c, rest);
    }
  }

  /** A character written as the "%XX" triples of its UTF-8 bytes reads back as itself. */
  lemma FormDecodePercent(c: char, rest: string)
    requires !FormSafe(c) && c != ' '
    ensures FormDecode(PercentEncode(Utf8(c)) + rest) == Prepend(c, FormDecode(rest))
  {
    var bytes := Utf8(c);
    var n := |bytes|;
    var s := PercentEncode(bytes) + rest;
    PercentDecodeEncode(bytes, rest);
    PercentDecodeLead(bytes, rest);
    assert s[0] == '%';
    assert s[3 * n..] == rest;
  }

  /** The first "%XX" triple of an encoding reads back as the first byte. */
  lemma PercentDecodeLead(bytes: seq<byte>, rest: string)
    requires bytes != []
    ensures PercentDecode(PercentEncode(bytes) + rest, 1) == Some([bytes[0]])
  {
    var s := PercentEncode(bytes) + rest;
    assert s[0] == '%' && s[1] == HexUpper(bytes[0] / 16) && s[2] == HexUpper(bytes[0] % 16);
    assert HexValue(s[1]) == Some(bytes[0] / 16) && HexValue(s[2]) == Some(bytes[0] % 16);
    assert PercentDecode(s[3..], 0) == Some([]);
    assert [bytes[0] / 16 * 16 + bytes[0] % 16] + [] == [bytes[0]];
  }

  /** The serialisation of a name or value reads back as that name or value: nothing of it
      is lost, whatever characters it holds. */
  lemma {:induction false} FormRoundTrip(s: string)
    ensures FormDecode(FormEncode(s)) == Some(s)
  {
    if s != [] {
      FormDecodeChar(s[0], FormEncode(s[1..]));
      FormRoundTrip(s[1..]);
      assert [s[0]] + s[1..] == s;
    }
  }

  /** Different names or values are serialised differently. */
  lemma FormEncodeInjective(a: string, b: string)
    requires FormEncode(a) == FormEncode(b)
    ensures a == b
  {
    FormRoundTrip(a);
    FormRoundTrip(b);
  }

  /** Text made only of safe characters is written as it is. */
  lemma {:induction false} FormEncodeKeepsSafe(s: string)
    requires forall i :: 0 <= i < |s| ==> FormSafe(s[i])
    ensures FormEncode(s) == s
  {
    if s != [] {
      FormEncodeKeepsSafe(s[1..]);
    }
  }

  /** The parameters of the verification link, in the order they are given; the names and
      "FileDownload" are letters only, which the serialisation writes as they are. */
  function VerificationParams(otp: OtpResponse): seq<string>
  {
    ["createdAt" + "=" + FormEncode(otp.createdAt), "expiresAt" + "=" + FormEncode(otp.expiresAt),
     "uniqueKey" + "=" + FormEncode(otp.uniqueKey), "source" + "=" + "FileDownload"]
  }

  /** `new URLSearchParams({...}).toString()`: the `name=value` pairs joined with '&'. */
  function VerificationQuery(otp: OtpResponse): string
  {
    Strings.Join(VerificationParams(otp), '&')
  }

  /** `getVerificationUrl(otpResponse)`. */
  function VerificationUrl(managementBaseUrl: string, otp: OtpResponse): string
  {
    managementBaseUrl + "/git-security/?" + VerificationQuery(otp)
  }

  /** A pair whose name and value hold neither separator reads back, on '=', as its name and
      value. */
  lemma PairSplits(name: string, value: string)
    requires '=' !in name && '&' !in name && '=' !in value && '&' !in value
    ensures '&' !in name + "=" + value
    ensures Strings.Split(name + "=" + value, '=') == [name, value]
  {
    Strings.SplitCons(name, value, '=');
    NoSeparator(value, '=');
  }

  /** Read back on '&', the query holds createdAt, expiresAt, uniqueKey and source, in that
      order; read back on '=', each holds its name and its encoded value. */
  lemma VerificationQueryParams(otp: OtpResponse)
    ensures Strings.Split(VerificationQuery(otp), '&') == VerificationParams(otp)
    ensures Strings.Split(VerificationParams(otp)[0], '=') == ["createdAt", FormEncode(otp.createdAt)]
    ensures Strings.Split(VerificationParams(otp)[1], '=') == ["expiresAt", FormEncode(otp.expiresAt)]
    ensures Strings.Split(VerificationParams(otp)[2], '=') == ["uniqueKey", FormEncode(otp.uniqueKey)]
    ensures Strings.Split(VerificationParams(otp)[3], '=') == ["source", "FileDownload"]
  {
    PlainNames("createdAt", "expiresAt", "uniqueKey", "source", "FileDownload");
    FourPairs("createdAt", FormEncode(otp.createdAt), "expiresAt", FormEncode(otp.expiresAt),
              "uniqueKey", FormEncode(otp.uniqueKey), "source", "FileDownload");
  }

  /** The link carries the challenge: read back on '&' and then on '=', the values of its
      first three parameters decode to `createdAt`, `expiresAt` and `uniqueKey`, whatever
      characters (such as the ':' of an ISO date) they hold. */
  lemma VerificationLinkReadsBack(otp: OtpResponse)
    ensures var pairs := Strings.Split(VerificationQuery(otp), '&');
      && |pairs| == 4
      && |Strings.Split(pairs[0], '=')| == 2 && FormDecode(Strings.Split(pairs[0], '=')[1]) == Some(otp.createdAt)
      && |Strings.Split(pairs[1], '=')| == 2 && FormDecode(Strings.Split(pairs[1], '=')[1]) == Some(otp.expiresAt)
      && |Strings.Split(pairs[2], '=')| == 2 && FormDecode(Strings.Split(pairs[2], '=')[1]) == Some(otp.uniqueKey)
  {
    VerificationQueryParams(otp);
    FormRoundTrip(otp.createdAt);
    FormRoundTrip(otp.expiresAt);
    FormRoundTrip(otp.uniqueKey);
  }

  lemma PlainNames(n1: string, n2: string, n3: string, n4: string, v4: string)
    requires n1 == "createdAt" && n2 == "expiresAt" && n3 == "uniqueKey" && n4 == "source"
    requires v4 == "FileDownload"
    ensures '=' !in n1 && '&' !in n1 && '=' !in n2 && '&' !in n2 && '=' !in n3 && '&' !in n3
    ensures '=' !in n4 && '&' !in n4 && '=' !in v4 && '&' !in v4
  {
  }

  /** Four pairs joined with '&' split back into the same pairs, each of which splits back
      into its name and value. */
  lemma {:induction false} FourPairs(n1: string, v1: string, n2: string, v2: string, n3: string, v3: string,
                  n4: string, v4: string)
    requires '=' !in n1 && '&' !in n1 && '=' !in v1 && '&' !in v1
    requires '=' !in n2 && '&' !in n2 && '=' !in v2 && '&' !in v2
    requires '=' !in n3 && '&' !in n3 && '=' !in v3 && '&' !in v3
    requires '=' !in n4 && '&' !in n4 && '=' !in v4 && '&' !in v4
    ensures Strings.Split(Strings.Join(Pairs(n1, v1, n2, v2, n3, v3, n4, v4), '&'), '&')
            == Pairs(n1, v1, n2, v2, n3, v3, n4, v4)
    ensures Strings.Split(n1 + "=" + v1, '=') == [n1, v1]
    ensures Strings.Split(n2 + "=" + v2, '=') == [n2, v2]
    ensures Strings.Split(n3 + "=" + v3, '=') == [n3, v3]
    ensures Strings.Split(n4 + "=" + v4, '=') == [n4, v4]
  {
    PairSplits(n1, v1);
    PairSplits(n2, v2);
    PairSplits(n3, v3);
    PairSplits(n4, v4);
    FourSplit(n1 + "=" + v1, n2 + "=" + v2, n3 + "=" + v3, n4 + "=" + v4);
  }

  function Pairs(n1: string, v1: string, n2: string, v2: string, n3: string, v3: string,
                 n4: string, v4: string): seq<string>
  {
    [n1 + "=" + v1, n2 + "=" + v2, n3 + "=" + v3, n4 + "=" + v4]
  }

  lemma FourSplit(a: string, b: string, c: string, d: string)
    requires '&' !in a && '&' !in b && '&' !in c && '&' !in d
    ensures Strings.Split(Strings.Join([a, b, c, d], '&'), '&') == [a, b, c, d]
  {
    assert Strings.NoneContains([a, b, c, d], '&');
    Strings.SplitJoin([a, b, c, d], '&');
  }

  // ---------------------------------------------------------------------------
  // The service
  // ---------------------------------------------------------------------------

  class OtpService {
    const managementBaseUrl: string
    var initialized: bool
    var token: string
    /** Every call made to the API client, oldest first. */
    var calls: seq<ApiCall>

    constructor (managementBaseUrl: string)
      ensures this.managementBaseUrl == managementBaseUrl
      ensures !initialized && token == "" && calls == []
    {
      this.managementBaseUrl := managementBaseUrl;
      initialized := false;
      token := "";
      calls := [];
    }

    /** `initialize()`, whose hook initialises the API client; `clientInit` is how that ends. */
    method Initialize(clientInit: Outcome) returns (r: Outcome)
      modifies this
      ensures old(initialized) ==> r == Pass
      ensures !old(initialized) ==> r == clientInit
      ensures initialized == (old(initialized) || clientInit.Pass?)
      ensures token == old(token) && calls == old(calls)
    {
      if initialized {
        return Pass;
      }
      if clientInit.Fail? {
        return clientInit;
      }
      initialized := true;
      r := Pass;
    }

    /** `setAuthToken(token)`. */
    method SetAuthToken(t: string)
      modifies this
      ensures token == t && initialized == old(initialized) && calls == old(calls)
    {
      token := t;
    }

    /** `requestOtp(deliveryMethod)`; `reply` is how the API client's request settles. */
    method RequestOtp(deliveryMethod: string, reply: Result<OtpResponse>) returns (r: Result<OtpResponse>)
      modifies this
      ensures !initialized ==> r == Err(Base.NotInitializedMessage(ClassName)) && calls == old(calls)
      ensures initialized && token == "" ==> r == Err(TokenNotSetOnRequest) && calls == old(calls)
      ensures initialized && token != "" ==>
        && calls == old(calls) + [SendOtp(deliveryMethod, token)]
        && (reply.Ok? ==> r == reply)
        && (reply.Err? ==> r == Err(Base.Wrapped(RequestContext, reply.error)))
      ensures token == old(token) && initialized == old(initialized)
    {
      if !initialized {
        return Err(Base.NotInitializedMessage(ClassName));
      }
      if token == "" {
        return Err(TokenNotSetOnRequest);
      }
      calls := calls + [SendOtp(deliveryMethod, token)];
      if reply.Err? {
        return Err(Base.Wrapped(RequestContext, reply.error));
      }
      r := reply;
    }

    /** `waitForOtpVerification(uniqueKey, expiresAt)`: `clock(k)` is the time at the k-th
        test of the loop and `answers(k)` the k-th status answer. */
    method WaitForOtpVerification(uniqueKey: string, expiresAt: Option<int>, clock: nat -> int, answers: nat -> bool)
      returns (r: Result<bool>)
      requires Advancing(clock)
      modifies this
      ensures !initialized ==> r == Err(Base.NotInitializedMessage(ClassName)) && calls == old(calls)
      ensures initialized && token == "" ==> r == Err(TokenNotSet) && calls == old(calls)
      ensures initialized && token != "" && expiresAt.None? ==> r == Ok(false) && calls == old(calls)
      ensures initialized && token != "" && expiresAt.Some? ==>
        var p := Polling(expiresAt.value, clock, answers, 0);
        calls == old(calls) + StatusCalls(uniqueKey, token, p.checks) && r == Ok(p.verified)
      ensures token == old(token) && initialized == old(initialized)
    {
      if !initialized {
        return Err(Base.NotInitializedMessage(ClassName));
      }
      if token == "" {
        return Err(TokenNotSet);
      }
      if expiresAt.None? {
        return Ok(false);
      }
      var expiry := expiresAt.value;
      ghost var total := Polling(expiry, clock, answers, 0);
      var k := 0;
      while clock(k) < expiry
        invariant calls == old(calls) + StatusCalls(uniqueKey, token, k)
        invariant total.checks == k + Polling(expiry, clock, answers, k).checks
        invariant total.verified == Polling(expiry, clock, answers, k).verified
        invariant token == old(token) && initialized == old(initialized)
        decreases expiry - clock(k)
      {
        calls := calls + [OtpStatus(uniqueKey, token)];
        if answers(k) {
          return Ok(true);
        }
        assert clock(k) + PollingInterval * 1 <= clock(k + 1);
        k := k + 1;
      }
      r := Ok(false);
    }

    /** `checkOtpStatus(uniqueKey)`: one status check; `answer` is what it reports. */
    method CheckOtpStatus(uniqueKey: string, answer: bool) returns (r: Result<bool>)
      modifies this
      ensures !initialized ==> r == Err(Base.NotInitializedMessage(ClassName)) && calls == old(calls)
      ensures initialized && token == "" ==> r == Err(TokenNotSet) && calls == old(calls)
      ensures initialized && token != "" ==> r == Ok(answer) && calls == old(calls) + [OtpStatus(uniqueKey, token)]
      ensures token == old(token) && initialized == old(initialized)
    {
      if !initialized {
        return Err(Base.NotInitializedMessage(ClassName));
      }
      if token == "" {
        return Err(TokenNotSet);
      }
      calls := calls + [OtpStatus(uniqueKey, token)];
      r := Ok(answer);
    }
  }
}
