/** The HMAC middleware: header checks, the freshness window, what is signed, and the body hand-over. */
module HmacAuth {
  import opened Common
  import Callbacks

  const MAX_DURATION: int := 0x7fff_ffff_ffff_ffff
  const SECOND: int := 1_000_000_000

  // ---- the timestamp header ----

  predicate IsDigit(c: char) { '0' <= c <= '9' }

  function Digits(s: string): Option<nat> {
    if s == [] then None
    else if !IsDigit(s[|s| - 1]) then None
    else
      var low := s[|s| - 1] as int - '0' as int;
      if |s| == 1 then Some(low)
      else match Digits(s[..|s| - 1])
        case None => None
        case Some(high) => Some(10 * high + low)
  }

  /** `strconv.ParseInt(s, 10, 64)`: an optional sign, digits, and an int64 value. */
  function ParseInt(s: string): Option<int> {
    if s == [] then None
    else
      var signed := s[0] == '-' || s[0] == '+';
      match Digits(if signed then s[1..] else s)
      case None => None
      case Some(n) =>
        var value: int := if s[0] == '-' then 0 - n else n;
        if -MAX_DURATION - 1 <= value <= MAX_DURATION then Some(value) else None
  }

  lemma {:induction false} DigitsIff(s: string)
    ensures Digits(s).Some? <==> s != "" && forall k | 0 <= k < |s| :: IsDigit(s[k])
  {
    if |s| > 1 {
      DigitsIff(s[..|s| - 1]);
      if Digits(s).Some? {
        assert forall k | 0 <= k < |s| - 1 :: s[k] == s[..|s| - 1][k];
      }
    }
  }

  /** The usual decimal notation. */
  function Decimal(n: nat): string {
    (if n < 10 then "" else Decimal(n / 10)) + [('0' as int + n % 10) as char]
  }

  function Rendered(value: int): string { if value < 0 then ['-'] + Decimal(-value) else Decimal(value) }

  lemma {:induction false} DigitsRoundTrip(n: nat)
    ensures Decimal(n) != "" && Digits(Decimal(n)) == Some(n) && IsDigit(Decimal(n)[0])
  {
    if n >= 10 {
      DigitsRoundTrip(n / 10);
      assert Decimal(n)[..|Decimal(n)| - 1] == Decimal(n / 10);
    }
  }

  lemma ParsePlain(s: string, n: nat)
    requires Digits(s) == Some(n) && s != "" && IsDigit(s[0])
    ensures ParseInt(s) == if n < 0x8000_0000_0000_0000 then Some(n) else None
  {
  }

  lemma ParseNegative(s: string, n: nat)
    requires Digits(s) == Some(n)
    ensures ParseInt(['-'] + s) == if n <= 0x8000_0000_0000_0000 then Some(0 - n) else None
  {
    assert (['-'] + s)[0] == '-' && (['-'] + s)[1..] == s;
  }

  /** A number in decimal notation is read back exactly when it is an int64. */
  lemma ParseRendered(value: int)
    ensures ParseInt(Rendered(value)) ==
            if -0x8000_0000_0000_0000 <= value < 0x8000_0000_0000_0000 then Some(value) else None
  {
    if value < 0 {
      DigitsRoundTrip(-value);
      ParseNegative(Decimal(-value), -value);
    } else {
      DigitsRoundTrip(value);
      ParsePlain(Decimal(value), value);
    }
  }

  // ---- verify ----

  datatype AuthError = MissingSignature | MissingTimestamp | StaleTimestamp | InvalidSignature | UnreadableBody

  /** `mac` is HMAC-SHA256 under the configured secret, in lower-case hex. */
  datatype Verifier = Verifier(secretSet: bool, maxSkew: int, mac: string -> string)

  /** `time.Time.Sub` saturates at the ends of the duration range. */
  function Saturate(d: int): int {
    if d > MAX_DURATION then MAX_DURATION else if d < -MAX_DURATION - 1 then -MAX_DURATION - 1 else d
  }

  /** An incoming request; an absent header is empty, `body` is what is left to read. */
  class HttpRequest {
    const signature: string
    const timestamp: string
    const hasBody: bool
    var body: string

    constructor (signature: string, timestamp: string, hasBody: bool, body: string)
      ensures this.signature == signature && this.timestamp == timestamp && this.hasBody == hasBody && this.body == body
    {
      this.signature, this.timestamp, this.hasBody, this.body := signature, timestamp, hasBody, body;
    }

    /** `readBody`: drains the body and puts an equal one back, so the handler reads the bytes that were signed. */
    method ReadBody(readable: bool) returns (r: Result<string, AuthError>)
      modifies this`body
      ensures r == if !hasBody then Ok("") else if readable then Ok(old(body)) else Err(UnreadableBody)
      ensures r.Ok? ==> body == old(body)
    {
      if !hasBody { return Ok(""); }
      var content := body;
      body := "";
      if !readable { return Err(UnreadableBody); }
      body := content;
      return Ok(content);
    }

    method Verify(v: Verifier, now: int, readable: bool) returns (r: Result<(), AuthError>)
      modifies this`body
      ensures r == Verdict(v, signature, timestamp, hasBody, old(body), now, readable)
      ensures r.Ok? ==> body == old(body)
      // what was verified is what the handler reads next
      ensures v.secretSet && r.Ok? ==> signature == v.mac(timestamp + (if hasBody then body else ""))
    {
      if !v.secretSet { return Ok(()); }
      if signature == "" { return Err(MissingSignature); }
      if timestamp == "" { return Err(MissingTimestamp); }
      var ts := ParseInt(timestamp);
      if ts.None? { return Err(MissingTimestamp); }
      var reqTime := ts.value * SECOND;
      if Saturate(now - reqTime) > v.maxSkew || Saturate(reqTime - now) > v.maxSkew { return Err(StaleTimestamp); }
      var content := ReadBody(readable);
      if content.Err? { return Err(content.error); }
      if v.mac(timestamp + content.value) != signature { return Err(InvalidSignature); }
      return Ok(());
    }
  }

  /** The outcome for a request, by the first check that fails. */
  function Verdict(v: Verifier, signature: string, timestamp: string, hasBody: bool, body: string, now: int, readable: bool)
    : Result<(), AuthError>
  {
    if !v.secretSet then Ok(())
    else if signature == "" then Err(MissingSignature)
    else if ParseInt(timestamp).None? then Err(MissingTimestamp)
    else if v.maxSkew < MAX_DURATION && !Callbacks.FreshRequest(ParseInt(timestamp).value * SECOND, now, v.maxSkew) then
      Err(StaleTimestamp)
    else if hasBody && !readable then Err(UnreadableBody)
    else if v.mac(timestamp + (if hasBody then body else "")) != signature then Err(InvalidSignature)
    else Ok(())
  }

  /** The bytes that are signed for a request. */
  function Content(hasBody: bool, body: string): string { if hasBody then body else "" }

  /** Within the skew of now, in nanoseconds; a skew of 2^63 - 1 or more is no restriction. */
  predicate Timely(timestamp: string, now: int, maxSkew: int)
    requires ParseInt(timestamp).Some?
  {
    var sent := ParseInt(timestamp).value * 1_000_000_000;
    maxSkew >= 0x7fff_ffff_ffff_ffff || sent - maxSkew <= now <= sent + maxSkew
  }

  /** A request with the right signature is accepted exactly when its timestamp is a timely number and its body can be read. */
  lemma GenuineAcceptedIff(v: Verifier, timestamp: string, hasBody: bool, body: string, now: int, readable: bool)
    requires v.secretSet && v.mac(timestamp + Content(hasBody, body)) != ""
    ensures Verdict(v, v.mac(timestamp + Content(hasBody, body)), timestamp, hasBody, body, now, readable).Ok? <==>
            ParseInt(timestamp).Some? && Timely(timestamp, now, v.maxSkew) && (hasBody ==> readable)
  {
  }

  /** Any other signature is refused, each request with the error of the first thing wrong; without a secret all pass. */
  lemma RefusedWith(v: Verifier, signature: string, timestamp: string, hasBody: bool, body: string, now: int, readable: bool)
    ensures !v.secretSet ==> Verdict(v, signature, timestamp, hasBody, body, now, readable).Ok?
    ensures v.secretSet ==>
      Verdict(v, signature, timestamp, hasBody, body, now, readable) ==
        if signature == "" then Err(MissingSignature)
        else if ParseInt(timestamp).None? then Err(MissingTimestamp)
        else if !Timely(timestamp, now, v.maxSkew) then Err(StaleTimestamp)
        else if hasBody && !readable then Err(UnreadableBody)
        else if signature == v.mac(timestamp + Content(hasBody, body)) then Ok(())
        else Err(InvalidSignature)
  {
  }

  /** A verified request can be verified again, unchanged, for at most two skews. */
  lemma AcceptedSpan(v: Verifier, signature: string, timestamp: string, hasBody: bool, body: string, first: int, again: int)
    requires v.secretSet && v.maxSkew < MAX_DURATION
    requires Verdict(v, signature, timestamp, hasBody, body, first, true).Ok?
    ensures Verdict(v, signature, timestamp, hasBody, body, again, true).Ok? <==>
            Callbacks.FreshRequest(ParseInt(timestamp).value * SECOND, again, v.maxSkew)
    ensures Verdict(v, signature, timestamp, hasBody, body, again, true).Ok? ==> first - 2 * v.maxSkew <= again <= first + 2 * v.maxSkew
  {
  }

  // ---- what is signed ----

  lemma {:induction false} DigitsOnly(s: string, k: nat)
    requires Digits(s).Some? && k < |s|
    ensures IsDigit(s[k])
  {
    if k < |s| - 1 { DigitsOnly(s[..|s| - 1], k); }
  }

  predicate NumberChar(c: char) { IsDigit(c) || c == '-' || c == '+' }

  lemma TimestampChars(s: string, k: nat)
    requires ParseInt(s).Some? && k < |s|
    ensures NumberChar(s[k])
  {
    if s[0] == '-' || s[0] == '+' {
      if k > 0 { DigitsOnly(s[1..], k - 1); }
    } else {
      DigitsOnly(s, k);
    }
  }

  predicate NotANumber(body: string) { body == "" || !NumberChar(body[0]) }

  /** The signed bytes are timestamp and body run together; bodies that do not start like a number keep them apart. */
  lemma SignedBytesDetermineRequest(t1: string, b1: string, t2: string, b2: string)
    requires ParseInt(t1).Some? && ParseInt(t2).Some? && NotANumber(b1) && NotANumber(b2)
    requires t1 + b1 == t2 + b2
    ensures t1 == t2 && b1 == b2
  {
    var all := t1 + b1;
    if |t1| < |t2| {
      assert all[|t1|] == t2[|t1|] && all[|t1|] == b1[0];
      TimestampChars(t2, |t1|);
    } else if |t2| < |t1| {
      assert (t2 + b2)[|t2|] == t1[|t2|] && (t2 + b2)[|t2|] == b2[0];
      TimestampChars(t1, |t2|);
    }
    assert all[..|t1|] == t1 && (t2 + b2)[..|t2|] == t2;
    assert all[|t1|..] == b1 && (t2 + b2)[|t2|..] == b2;
  }

  /** Another timestamp and body that sign alike, with the longer timestamp. */
  ghost predicate LongerReading(t: string, b: string, t2: string, b2: string) {
    |t| < |t2| && ParseInt(t2).Some? && t2 + b2 == t + b
  }

  lemma {:induction false} DigitsPrefix(s: string, k: nat)
    requires Digits(s).Some? && 0 < k <= |s|
    ensures Digits(s[..k]).Some? && Digits(s[..k]).value <= Digits(s).value
    decreases |s|
  {
    if k == |s| {
      assert s[..k] == s;
    } else {
      DigitsPrefix(s[..|s| - 1], k);
      assert s[..|s| - 1][..k] == s[..k];
    }
  }

  lemma ParsePrefix(s: string, k: nat)
    requires ParseInt(s).Some? && k <= |s| && k >= (if s[0] == '-' || s[0] == '+' then 2 else 1)
    ensures ParseInt(s[..k]).Some?
  {
    if s[0] == '-' || s[0] == '+' {
      DigitsPrefix(s[1..], k - 1);
      assert s[..k][1..] == s[1..][..k - 1];
    } else {
      DigitsPrefix(s, k);
    }
  }

  /**
   * The same bytes can also be signed for a longer timestamp exactly when the body's first character continues the
   * number; so of two requests that sign alike, the one with the shorter timestamp has such a body.
   */
  lemma LongerReadingIff(t: string, b: string)
    requires ParseInt(t).Some?
    ensures (exists t2: string, b2: string :: LongerReading(t, b, t2, b2)) <==> b != "" && ParseInt(t + [b[0]]).Some?
  {
    if b != "" && ParseInt(t + [b[0]]).Some? {
      assert (t + [b[0]]) + b[1..] == t + b;
      assert LongerReading(t, b, t + [b[0]], b[1..]);
    }
    if t2: string, b2: string :| LongerReading(t, b, t2, b2) {
      assert |t2 + b2| == |t + b|;
      assert (t2 + b2)[..|t2|] == t2;
      var k := |t| + 1;
      if b != "" {
        assert t2[..k] == (t + b)[..k] == t + [b[0]];
        assert t2[0] == t[0];
        ParsePrefix(t2, k);
      }
    }
  }

  /** For instance "1" with body "23" and "12" with body "3". */
  lemma AmbiguousPair()
    ensures ParseInt("1") == Some(1) && ParseInt("12") == Some(12) && LongerReading("1", "23", "12", "3")
  {
    assert Digits("1") == Some(1);
    assert "12"[..1] == "1";
    assert Digits("12") == Some(12);
    assert "1" + "23" == "123" == "12" + "3";
  }

  /** No two of these byte strings have the same MAC; none can promise this of all inputs at once. */
  ghost predicate CollisionFree(mac: string -> string, inputs: set<string>) {
    forall x, y | x in inputs && y in inputs && mac(x) == mac(y) :: x == y
  }

  ghost function InPlay(signed: set<(string, string)>, timestamp: string, content: string): set<string> {
    (set p | p in signed :: p.0 + p.1) + {timestamp + content}
  }

  /**
   * Whoever only has signatures of the pairs in `signed` gets nothing else accepted: the timestamp and the body of an
   * accepted request are one of those pairs.
   */
  lemma AcceptedWasSigned(v: Verifier, signed: set<(string, string)>, signature: string, timestamp: string, hasBody: bool, body: string,
                          now: int, readable: bool)
    requires v.secretSet && Verdict(v, signature, timestamp, hasBody, body, now, readable).Ok?
    requires exists p :: p in signed && signature == v.mac(p.0 + p.1)
    requires CollisionFree(v.mac, InPlay(signed, timestamp, Content(hasBody, body)))
    requires NotANumber(Content(hasBody, body)) && forall p | p in signed :: ParseInt(p.0).Some? && NotANumber(p.1)
    ensures (timestamp, Content(hasBody, body)) in signed
  {
    var content := Content(hasBody, body);
    var p :| p in signed && signature == v.mac(p.0 + p.1);
    assert v.mac(timestamp + content) == signature;
    assert p.0 + p.1 in InPlay(signed, timestamp, content) && timestamp + content in InPlay(signed, timestamp, content);
    SignedBytesDetermineRequest(p.0, p.1, timestamp, content);
    assert p == (timestamp, content);
  }
}
