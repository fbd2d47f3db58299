/** Between raw UDS messages and requests or responses. */
module Codec {
  import opened DiagTypes

  /** Shortest message of a service that decodes. */
  function MinLength(serviceId: byte): nat {
    if serviceId == SESSION_CONTROL || serviceId == TESTER_PRESENT || serviceId == SECURITY_ACCESS then 2
    else if serviceId == READ_DATA then 3
    else if serviceId == ROUTINE_CONTROL then 4
    else 1
  }

  predicate Decodable(raw: bytes) { raw != [] && |raw| >= MinLength(raw[0]) }

  /** The request a decodable message stands for. Fields and payload a message does not
      carry keep the values they had in `request`. */
  function DecodeSpec(raw: bytes, request: Request): Request
    requires Decodable(raw)
  {
    var r := request.(serviceId := raw[0]);
    if raw[0] == SESSION_CONTROL || raw[0] == TESTER_PRESENT then r.(subFunction := raw[1])
    else if raw[0] == READ_DATA then r.(didOrRid := Join16(raw[1], raw[2]))
    else if raw[0] == ROUTINE_CONTROL then
      r.(subFunction := raw[1], didOrRid := Join16(raw[2], raw[3]),
         payload := if |raw| > 4 then raw[4..] else request.payload)
    else
      r.(subFunction := if |raw| > 1 then raw[1] else request.subFunction,
         payload := if |raw| > 2 then raw[2..] else request.payload)
  }

  method Decode(raw: bytes, request: Request) returns (ok: bool, decoded: Request)
    ensures ok <==> Decodable(raw)
    ensures ok ==> decoded == DecodeSpec(raw, request)
    ensures !ok ==> decoded == if raw == [] then request else request.(serviceId := raw[0])
  {
    decoded := request;
    if raw == [] {
      return false, decoded;
    }
    decoded := decoded.(serviceId := raw[0]);
    if decoded.serviceId == SESSION_CONTROL {
      if |raw| < 2 { return false, decoded; }
      decoded := decoded.(subFunction := raw[1]);
    } else if decoded.serviceId == TESTER_PRESENT {
      if |raw| < 2 { return false, decoded; }
      decoded := decoded.(subFunction := raw[1]);
    } else if decoded.serviceId == SECURITY_ACCESS {
      if |raw| < 2 { return false, decoded; }
      decoded := decoded.(subFunction := raw[1]);
      if |raw| > 2 {
        decoded := decoded.(payload := raw[2..]);
      }
    } else if decoded.serviceId == READ_DATA {
      if |raw| < 3 { return false, decoded; }
      decoded := decoded.(didOrRid := Join16(raw[1], raw[2]));
    } else if decoded.serviceId == ROUTINE_CONTROL {
      if |raw| < 4 { return false, decoded; }
      decoded := decoded.(subFunction := raw[1]);
      decoded := decoded.(didOrRid := Join16(raw[2], raw[3]));
      if |raw| > 4 {
        decoded := decoded.(payload := raw[4..]);
      }
    } else {
      if |raw| > 1 {
        decoded := decoded.(subFunction := raw[1]);
      }
      if |raw| > 2 {
        decoded := decoded.(payload := raw[2..]);
      }
    }
    ok := true;
  }

  function EncodeSpec(response: Response): bytes {
    if response.positive then
      [response.serviceId]
      + (if response.serviceId == READ_DATA + 0x40 then [] else [response.subFunction])
      + response.payload
    else [NEGATIVE_RESPONSE, response.subFunction, response.nrc]
  }

  method Encode(response: Response) returns (raw: bytes)
    ensures raw == EncodeSpec(response)
  {
    raw := [];
    if response.positive {
      raw := raw + [response.serviceId];
      if response.serviceId != READ_DATA + 0x40 {
        raw := raw + [response.subFunction];
      }
      raw := raw + response.payload;
    } else {
      raw := raw + [NEGATIVE_RESPONSE];
      raw := raw + [response.subFunction];
      raw := raw + [response.nrc];
    }
  }

  // ---- What decoding keeps ----------------------------------------------

  /** The shortest messages that decode: two bytes for 0x10, 0x27 and 0x3E, three for 0x22,
      four for 0x31, one for everything else. */
  lemma DecodableExactly(raw: bytes)
    ensures Decodable(raw) <==>
              && |raw| >= 1
              && (raw[0] in {0x10, 0x27, 0x3E} ==> |raw| >= 2)
              && (raw[0] == 0x22 ==> |raw| >= 3)
              && (raw[0] == 0x31 ==> |raw| >= 4)
  {
  }

  /** The part of a message that decoding keeps: session control and tester present
      lose everything after the sub-function, a read loses everything after the
      identifier, and for other services a missing sub-function reads as zero. */
  function Canonical(raw: bytes): bytes
    requires Decodable(raw)
  {
    if raw[0] == SESSION_CONTROL || raw[0] == TESTER_PRESENT then raw[..2]
    else if raw[0] == READ_DATA then raw[..3]
    else if |raw| == 1 then raw + [0]
    else raw
  }

  /** The message of a request. */
  function Rebuild(r: Request): bytes {
    if r.serviceId == SESSION_CONTROL || r.serviceId == TESTER_PRESENT then [r.serviceId, r.subFunction]
    else if r.serviceId == READ_DATA then [r.serviceId] + Big16(r.didOrRid)
    else if r.serviceId == ROUTINE_CONTROL then [r.serviceId, r.subFunction] + Big16(r.didOrRid) + r.payload
    else [r.serviceId, r.subFunction] + r.payload
  }

  lemma Join16RoundTrip(hi: byte, lo: byte)
    ensures Big16(Join16(hi, lo)) == [hi, lo]
  {
  }

  lemma Big16RoundTrip(x: u16)
    ensures Join16(Big16(x)[0], Big16(x)[1]) == x
  {
  }

  lemma RebuildInvertsDecode(raw: bytes)
    requires Decodable(raw)
    ensures Rebuild(DecodeSpec(raw, FRESH_REQUEST)) == Canonical(raw)
  {
  }

  lemma DecodeSeesCanonical(raw: bytes)
    requires Decodable(raw)
    ensures Decodable(Canonical(raw))
    ensures DecodeSpec(Canonical(raw), FRESH_REQUEST) == DecodeSpec(raw, FRESH_REQUEST)
  {
  }

  /** Two messages decode to the same fresh request exactly when they agree on the part
      that decoding keeps. */
  lemma DecodeKernel(a: bytes, b: bytes)
    requires Decodable(a) && Decodable(b)
    ensures DecodeSpec(a, FRESH_REQUEST) == DecodeSpec(b, FRESH_REQUEST) <==> Canonical(a) == Canonical(b)
  {
    RebuildInvertsDecode(a);
    RebuildInvertsDecode(b);
    DecodeSeesCanonical(a);
    DecodeSeesCanonical(b);
  }

  /** Hence routine control and security access lose nothing; the other three known
      services lose exactly their trailing bytes. */
  lemma DecodeLosses(raw: bytes, tail: bytes)
    requires Decodable(raw)
    ensures var same := DecodeSpec(raw + tail, FRESH_REQUEST) == DecodeSpec(raw, FRESH_REQUEST);
            if raw[0] == ROUTINE_CONTROL || raw[0] == SECURITY_ACCESS then same <==> tail == []
            else if MinLength(raw[0]) > 1 then same
            else same <==> tail == [] || (|raw| == 1 && tail == [0])
  {
  }
}
