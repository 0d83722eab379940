/**
 * Decoding of one live packet from the gateway's WebSocket, as the
 * dashboard's message handler does it: a heuristic structural check, a
 * split on commas, a field-count check, then best-effort parsing of the
 * numeric fields by position.
 */
module LivePacket {
  import opened Wrappers
  import opened JsValues
  import opened JsText

  /**
   * `safeParseFloat(str)`: what `parseFloat` reads, with NaN replaced by 0.
   * The result is never NaN; it is 0 exactly when the parse gives NaN or 0.
   */
  function SafeParseFloat(s: string): (r: JsNumber)
    ensures !r.NaN?
    ensures ParseFloat(s).NaN? ==> r == Finite(0.0)
    ensures !ParseFloat(s).NaN? ==> r == ParseFloat(s)
    ensures r == Finite(0.0) <==> ParseFloat(s).NaN? || ParseFloat(s) == Finite(0.0)
  {
    var num := ParseFloat(s);
    if num.NaN? then Finite(0.0) else num
  }

  /** The shortest packet the handler accepts. */
  const MinPacketLength: nat := 15
  /** The number of fields in a packet. */
  const PacketFields: nat := 9
  const Separator: char := ','

  /**
   * A decoded packet, in wire order: time, temperature, heat index,
   * humidity, rain, water status code, soil beds 1 to 3.
   */
  datatype Packet = Packet(
    time: string, temperature: JsNumber, heatIndex: JsNumber, humidity: JsNumber, rain: JsNumber,
    waterStatus: string, soil1: JsNumber, soil2: JsNumber, soil3: JsNumber)

  /** Why a packet is dropped: no comma or too short, or too few fields after the split. */
  datatype PacketError = BadPacket | IncompleteFields(count: nat)

  /**
   * The decoding part of the message handler.  The contract gives both
   * rejection conditions in full, in terms of the raw text.
   */
  function Decode(raw: string): (r: Result<Packet, PacketError>)
    ensures r == Failure(BadPacket) <==> Separator !in raw || |raw| < MinPacketLength
    ensures (r.Failure? && r.error.IncompleteFields?) <==>
      Separator in raw && |raw| >= MinPacketLength && multiset(raw)[Separator] + 1 < PacketFields
    ensures r.Failure? && r.error.IncompleteFields? ==> r.error.count == multiset(raw)[Separator] + 1
    ensures r.Success? ==> |raw| >= MinPacketLength && multiset(raw)[Separator] + 1 >= PacketFields
  {
    if Separator !in raw || |raw| < MinPacketLength then Failure(BadPacket)
    else
      var dataArray := Split(raw, Separator);
      if |dataArray| < PacketFields then Failure(IncompleteFields(|dataArray|))
      else
        Success(Packet(
          dataArray[0],
          SafeParseFloat(dataArray[1]), SafeParseFloat(dataArray[2]),
          SafeParseFloat(dataArray[3]), SafeParseFloat(dataArray[4]),
          ToUpper(Trim(dataArray[5])),
          SafeParseFloat(dataArray[6]), SafeParseFloat(dataArray[7]), SafeParseFloat(dataArray[8])))
  }

  /** Joining two or more pieces puts a separator in the text. */
  lemma JoinHasSeparator(parts: seq<string>, sep: char)
    requires |parts| >= 2
    ensures sep in Join(parts, sep)
  {
    assert Join(parts, sep)[|parts[0]|] == sep;
  }

  /**
   * A packet assembled from comma-free fields decodes field by field from
   * fixed positions: the time verbatim, fields 1 to 4 and 6 to 8 through
   * `SafeParseFloat`, field 5 trimmed and upper-cased; fields past the
   * ninth are not read.
   */
  lemma DecodeFields(fields: seq<string>)
    requires |fields| >= PacketFields
    requires forall k :: 0 <= k < |fields| ==> Separator !in fields[k]
    requires |Join(fields, Separator)| >= MinPacketLength
    ensures Decode(Join(fields, Separator)) == Success(Packet(
      fields[0],
      SafeParseFloat(fields[1]), SafeParseFloat(fields[2]),
      SafeParseFloat(fields[3]), SafeParseFloat(fields[4]),
      ToUpper(Trim(fields[5])),
      SafeParseFloat(fields[6]), SafeParseFloat(fields[7]), SafeParseFloat(fields[8])))
  {
    JoinHasSeparator(fields, Separator);
    SplitJoin(fields, Separator);
  }

  /** Appending more fields to an accepted packet changes nothing that is decoded. */
  lemma DecodeIgnoresExtraFields(raw: string, tail: string)
    requires Decode(raw).Success?
    ensures Decode(raw + [Separator] + tail) == Decode(raw)
  {
    SplitAppend(raw, Separator, tail);
    var longer := raw + [Separator] + tail;
    assert Separator in longer by { assert longer[|raw|] == Separator; }
    assert Split(raw, Separator) <= Split(longer, Separator);
    assert |Split(raw, Separator)| >= PacketFields;
  }

  /**
   * The water status is the device's own code, shown after trimming and
   * upper-casing: a single-letter code padded with whitespace comes out as
   * that letter in upper case, whatever the numeric fields hold.
   */
  lemma StatusCodeShownVerbatim(pre: string, code: char, post: string)
    requires forall k :: 0 <= k < |pre| ==> IsSpace(pre[k])
    requires forall k :: 0 <= k < |post| ==> IsSpace(post[k])
    requires !IsSpace(code)
    ensures ToUpper(Trim(pre + [code] + post)) == [UpperChar(code)]
  {
    TrimPadded(pre, [code], post);
  }

  /** A reading the device writes as a whole count is shown as that count. */
  lemma SafeParseFloatCount(n: nat)
    ensures SafeParseFloat(Show(n)) == Finite(n as real)
  {
    ParseFloatShow(n);
  }
}
