/**
 * `commons_falcon/middlewares/request_id.py`: the request-id middleware that
 * takes the id from the request header or generates one, and stores it in
 * the request context and, when given, a shared context object.
 */
module RequestId {
  import opened Wrappers
  import opened Json
  import opened Falcon

  newtype byte = x: int | 0 <= x < 256

  /** A lower-case hex digit. */
  predicate IsHexDigit(c: char) {
    '0' <= c <= '9' || 'a' <= c <= 'f'
  }

  /** The lower-case hex digit of a nibble. */
  function HexDigit(n: int): (c: char)
    requires 0 <= n < 16
    ensures IsHexDigit(c)
  {
    if n < 10 then ('0' as int + n) as char else ('a' as int + n - 10) as char
  }

  /** The nibble a lower-case hex digit stands for. */
  function DigitValue(c: char): (n: int)
    requires IsHexDigit(c)
    ensures 0 <= n < 16 && HexDigit(n) == c
  {
    if '0' <= c <= '9' then c as int - '0' as int else c as int - 'a' as int + 10
  }

  /** `bytes.hex()`: two lower-case digits per byte, high nibble first. */
  function Hex(bytes: seq<byte>): (s: string)
    ensures |s| == 2 * |bytes|
    ensures forall i :: 0 <= i < |s| ==> IsHexDigit(s[i])
  {
    if |bytes| == 0 then ""
    else [HexDigit(bytes[0] as int / 16), HexDigit(bytes[0] as int % 16)] + Hex(bytes[1..])
  }

  /** `bytes.fromhex` on lower-case digits. */
  function Unhex(s: string): seq<byte>
    requires |s| % 2 == 0 && forall i :: 0 <= i < |s| ==> IsHexDigit(s[i])
  {
    if |s| == 0 then []
    else [(DigitValue(s[0]) * 16 + DigitValue(s[1])) as byte] + Unhex(s[2..])
  }

  /** The two digits of a byte give the byte back. */
  lemma ByteRoundTrip(b: byte)
    ensures DigitValue(HexDigit(b as int / 16)) * 16 + DigitValue(HexDigit(b as int % 16)) == b as int
  {
    var hi, lo := b as int / 16, b as int % 16;
    assert DigitValue(HexDigit(hi)) == hi;
    assert DigitValue(HexDigit(lo)) == lo;
  }

  /** The hex text gives back the bytes it was made from. */
  lemma {:induction false} UnhexHex(bytes: seq<byte>)
    ensures Unhex(Hex(bytes)) == bytes
  {
    if |bytes| > 0 {
      var s := Hex(bytes);
      assert s[2..] == Hex(bytes[1..]);
      ByteRoundTrip(bytes[0]);
      UnhexHex(bytes[1..]);
    }
  }

  /**
   * `generate_request_id()`: the clock's timestamp text, a `.`, and the hex
   * of 16 random bytes; the timestamp and the bytes are parameters.
   */
  function GenerateRequestId(timestamp: string, entropy: seq<byte>): (id: string)
    requires |entropy| == 16
    ensures |id| == |timestamp| + 33 && id[..|timestamp|] == timestamp && id[|timestamp|] == '.'
  {
    timestamp + "." + Hex(entropy)
  }

  /**
   * A generated id ends with 32 lower-case hex digits that decode to the
   * random bytes, preceded by a `.` and the timestamp.
   */
  lemma GeneratedIdShape(timestamp: string, entropy: seq<byte>)
    requires |entropy| == 16
    ensures var id := GenerateRequestId(timestamp, entropy);
            && |id| == |timestamp| + 33
            && id[..|timestamp|] == timestamp && id[|timestamp|] == '.'
            && (forall i :: |timestamp| < i < |id| ==> IsHexDigit(id[i]))
            && Unhex(id[|timestamp| + 1..]) == entropy
  {
    var id := GenerateRequestId(timestamp, entropy);
    assert id[|timestamp| + 1..] == Hex(entropy);
    UnhexHex(entropy);
  }

  /** `FALCON_HEADER_REQUEST_ID`, the header name the middleware looks up. */
  const FALCON_HEADER_REQUEST_ID: string := "x-request-id"

  /** The same header under the upper-case name the framework gives request headers. */
  const CANONICAL_HEADER_REQUEST_ID: string := "X-REQUEST-ID"

  /** The id chosen for a request: the header's value if the name is present (even empty), else `generated`. */
  function ChosenRequestId(headers: map<string, string>, name: string, generated: string): (id: string)
    ensures name in headers ==> id == headers[name]
    ensures name !in headers ==> id == generated
  {
    Header(headers, name).GetOr(generated)
  }

  /** Header names as the framework delivers them: no lower-case ASCII letters. */
  predicate CanonicalNames(headers: map<string, string>) {
    forall name :: name in headers ==> forall i :: 0 <= i < |name| ==> !('a' <= name[i] <= 'z')
  }

  /**
   * As written, the lower-case name never matches a canonical header name:
   * a client-supplied `X-Request-Id` is ignored and an id is always generated.
   */
  lemma SuppliedIdIgnoredAsWritten(headers: map<string, string>, generated: string)
    requires CanonicalNames(headers) && CANONICAL_HEADER_REQUEST_ID in headers
    ensures ChosenRequestId(headers, FALCON_HEADER_REQUEST_ID, generated) == generated
  {
    assert FALCON_HEADER_REQUEST_ID[0] == 'x';
  }

  /** Looked up under its canonical name, a supplied id is used verbatim and a missing one is generated. */
  lemma SuppliedIdUsedWhenCanonical(headers: map<string, string>, generated: string)
    requires CanonicalNames(headers)
    ensures CANONICAL_HEADER_REQUEST_ID in headers ==>
              ChosenRequestId(headers, CANONICAL_HEADER_REQUEST_ID, generated) == headers[CANONICAL_HEADER_REQUEST_ID]
    ensures CANONICAL_HEADER_REQUEST_ID !in headers ==>
              ChosenRequestId(headers, CANONICAL_HEADER_REQUEST_ID, generated) == generated
  {
  }

  /** The `threading.local()` context object the middleware may be given. */
  class ThreadContext {
    var requestId: Option<string>

    constructor()
      ensures requestId == None
    {
      requestId := None;
    }
  }

  /** `FalconRequestIdMiddleware`, holding the optional shared context. */
  class FalconRequestIdMiddleware {
    const ctx: ThreadContext?

    constructor(ctx: ThreadContext?)
      ensures this.ctx == ctx
    {
      this.ctx := ctx;
    }

    /**
     * `process_request`, as written (looking up `x-request-id`); `timestamp`
     * and `entropy` are what the clock and the random source would give.
     */
    method ProcessRequest(req: Request, timestamp: string, entropy: seq<byte>) returns (id: string)
      requires |entropy| == 16
      modifies req, ctx
      ensures id == ChosenRequestId(req.headers, FALCON_HEADER_REQUEST_ID, GenerateRequestId(timestamp, entropy))
      ensures req.context == old(req.context)["request_id" := JsonValue(JString(id))]
      ensures req.user == old(req.user)
      ensures ctx != null ==> ctx.requestId == Some(id)
    {
      var requestId := Header(req.headers, FALCON_HEADER_REQUEST_ID);
      if requestId.None? {
        requestId := Some(GenerateRequestId(timestamp, entropy));
      }
      id := requestId.value;
      req.context := req.context["request_id" := JsonValue(JString(id))];
      if ctx != null {
        ctx.requestId := Some(id);
      }
    }
  }
}
