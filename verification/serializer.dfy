/**
 * The structural validator and buffer padding of src/public/basic-serializer.ts.
 *
 * Decoded payloads are JavaScript values (`JsValue`). An object lists its
 * fields in the order `Object.keys(..).sort()` yields them, so the
 * validator's positional pairing is pairing by index here. BSON itself is
 * a pair of function parameters: `serialize`, and `deserialize`, which gives
 * `None` where the library throws.
 */
module Serializer {
  import opened Options
  import opened Framing

  datatype JsValue =
    | JsNull
    | JsUndefined
    | JsBool(b: bool)
    | JsNumber(n: real)
    | JsString(s: string)
    | JsArray(elems: seq<JsValue>)
    | JsObject(fields: seq<Field>)

  datatype Field = Field(key: string, value: JsValue)

  /** The answers of `typeof` the validator can meet. */
  datatype JsType = Undefined | Boolean | Number | String | Object

  function TypeOf(v: JsValue): JsType {
    match v
    case JsUndefined => Undefined
    case JsBool(_) => Boolean
    case JsNumber(_) => Number
    case JsString(_) => String
    case _ => Object
  }

  /** A validator either answers or throws (`Object.keys(null)` is a TypeError). */
  datatype Verdict = Pass | Fail | Throws

  /** The values `Object.keys` pairs up, in key order. */
  function OwnValues(v: JsValue): seq<JsValue>
    requires v.JsArray? || v.JsObject?
  {
    match v
    case JsArray(elems) => elems
    case JsObject(fields) => seq(|fields|, k requires 0 <= k < |fields| => fields[k].value)
  }

  predicate ValidatePrimitive(check: JsValue, candidate: JsValue) {
    TypeOf(check) in {Boolean, Number, String} && TypeOf(check) == TypeOf(candidate)
  }

  /** `validatePrimitive(..) || validateArray(..) || validateObject(..)`, short-circuiting. */
  function CheckElement(check: JsValue, candidate: JsValue): Verdict
    decreases candidate, 2, 0
  {
    if ValidatePrimitive(check, candidate) then Pass
    else
      match ValidateArray(check, candidate)
      case Pass => Pass
      case Throws => Throws
      case Fail => ValidateObject(check, candidate)
  }

  function ValidateArray(check: JsValue, candidate: JsValue): Verdict
    decreases candidate, 1, 0
  {
    if TypeOf(check) != Object || TypeOf(candidate) != Object then Fail
    else if !(check.JsArray? && candidate.JsArray?) then Fail
    else if |check.elems| == 0 then (if |candidate.elems| == 0 then Pass else Fail)
    else ScanArray(check.elems[0], candidate, 0)
  }

  /** Every element from index `i` on against the one template element; the first non-pass is the answer. */
  function ScanArray(template: JsValue, candidate: JsValue, i: nat): Verdict
    requires candidate.JsArray? && i <= |candidate.elems|
    decreases candidate, 0, |candidate.elems| - i
  {
    if i == |candidate.elems| then Pass
    else
      match CheckElement(template, candidate.elems[i])
      case Pass => ScanArray(template, candidate, i + 1)
      case Fail => Fail
      case Throws => Throws
  }

  function ValidateObject(check: JsValue, candidate: JsValue): Verdict
    decreases candidate, 1, 0
  {
    if TypeOf(check) != Object || TypeOf(candidate) != Object then Fail
    else if check.JsNull? || candidate.JsNull? then Throws
    else if |OwnValues(check)| != |OwnValues(candidate)| then Fail
    else ScanObject(check, candidate, 0)
  }

  /** The `i`-th value of an array or object. */
  function ValueAt(v: JsValue, i: nat): (r: JsValue)
    requires v.JsArray? || v.JsObject?
    requires i < |OwnValues(v)|
    ensures r == OwnValues(v)[i]
  {
    match v
    case JsArray(elems) => elems[i]
    case JsObject(fields) => fields[i].value
  }

  function ScanObject(check: JsValue, candidate: JsValue, i: nat): Verdict
    requires check.JsArray? || check.JsObject?
    requires candidate.JsArray? || candidate.JsObject?
    requires |OwnValues(check)| == |OwnValues(candidate)| && i <= |OwnValues(candidate)|
    decreases candidate, 0, |OwnValues(candidate)| - i
  {
    if i == |OwnValues(candidate)| then Pass
    else
      match CheckElement(ValueAt(check, i), ValueAt(candidate, i))
      case Pass => ScanObject(check, candidate, i + 1)
      case Fail => Fail
      case Throws => Throws
  }

  /** `validatePrimitive` accepts exactly two booleans, two numbers or two strings. */
  lemma PrimitiveIff(check: JsValue, candidate: JsValue)
    ensures ValidatePrimitive(check, candidate) <==>
      (check.JsBool? && candidate.JsBool?) || (check.JsNumber? && candidate.JsNumber?) || (check.JsString? && candidate.JsString?)
  {
  }

  /** A scan passes iff every remaining element passes against the template. */
  lemma {:induction false} ScanArrayPass(template: JsValue, candidate: JsValue, i: nat)
    requires candidate.JsArray? && i <= |candidate.elems|
    ensures ScanArray(template, candidate, i) == Pass <==>
      forall k :: i <= k < |candidate.elems| ==> CheckElement(template, candidate.elems[k]) == Pass
    decreases |candidate.elems| - i
  {
    if i < |candidate.elems| {
      ScanArrayPass(template, candidate, i + 1);
      var c := CheckElement(template, candidate.elems[i]);
      assert ScanArray(template, candidate, i) == if c == Pass then ScanArray(template, candidate, i + 1) else c;
    }
  }

  /** A scan that does not pass answers with the verdict of the first element that does not. */
  lemma {:induction false} ScanArrayFirst(template: JsValue, candidate: JsValue, i: nat)
    requires candidate.JsArray? && i <= |candidate.elems|
    ensures ScanArray(template, candidate, i) != Pass ==>
      exists k :: i <= k < |candidate.elems| && CheckElement(template, candidate.elems[k]) == ScanArray(template, candidate, i) &&
        forall j :: i <= j < k ==> CheckElement(template, candidate.elems[j]) == Pass
    decreases |candidate.elems| - i
  {
    if i < |candidate.elems| {
      var c := CheckElement(template, candidate.elems[i]);
      assert ScanArray(template, candidate, i) == if c == Pass then ScanArray(template, candidate, i + 1) else c;
      if c != Pass {
        assert CheckElement(template, candidate.elems[i]) == ScanArray(template, candidate, i);
      } else {
        ScanArrayFirst(template, candidate, i + 1);
        if ScanArray(template, candidate, i + 1) != Pass {
          var k :| i + 1 <= k < |candidate.elems| && CheckElement(template, candidate.elems[k]) == ScanArray(template, candidate, i + 1) &&
            forall j :: i + 1 <= j < k ==> CheckElement(template, candidate.elems[j]) == Pass;
          assert forall j :: i <= j < k ==> CheckElement(template, candidate.elems[j]) == Pass;
        }
      }
    }
  }

  /** An object scan passes iff every remaining value passes against the template's value at the same position. */
  lemma {:induction false} ScanObjectPass(check: JsValue, candidate: JsValue, i: nat)
    requires check.JsArray? || check.JsObject?
    requires candidate.JsArray? || candidate.JsObject?
    requires |OwnValues(check)| == |OwnValues(candidate)| && i <= |OwnValues(candidate)|
    ensures ScanObject(check, candidate, i) == Pass <==>
      forall k :: i <= k < |OwnValues(candidate)| ==> CheckElement(OwnValues(check)[k], OwnValues(candidate)[k]) == Pass
    decreases |OwnValues(candidate)| - i
  {
    var cs, os := OwnValues(check), OwnValues(candidate);
    if i < |os| {
      ScanObjectPass(check, candidate, i + 1);
      var c := CheckElement(cs[i], os[i]);
      assert ScanObject(check, candidate, i) == if c == Pass then ScanObject(check, candidate, i + 1) else c;
    }
  }

  /** An object scan that does not pass answers with the verdict of the first value that does not. */
  lemma {:induction false} ScanObjectFirst(check: JsValue, candidate: JsValue, i: nat)
    requires check.JsArray? || check.JsObject?
    requires candidate.JsArray? || candidate.JsObject?
    requires |OwnValues(check)| == |OwnValues(candidate)| && i <= |OwnValues(candidate)|
    ensures ScanObject(check, candidate, i) != Pass ==>
      exists k :: i <= k < |OwnValues(candidate)| && CheckElement(OwnValues(check)[k], OwnValues(candidate)[k]) == ScanObject(check, candidate, i) &&
        forall j :: i <= j < k ==> CheckElement(OwnValues(check)[j], OwnValues(candidate)[j]) == Pass
    decreases |OwnValues(candidate)| - i
  {
    var cs, os := OwnValues(check), OwnValues(candidate);
    if i < |os| {
      var c := CheckElement(cs[i], os[i]);
      assert ScanObject(check, candidate, i) == if c == Pass then ScanObject(check, candidate, i + 1) else c;
      if c != Pass {
        assert CheckElement(cs[i], os[i]) == ScanObject(check, candidate, i);
      } else {
        ScanObjectFirst(check, candidate, i + 1);
        if ScanObject(check, candidate, i + 1) != Pass {
          var k :| i + 1 <= k < |os| && CheckElement(cs[k], os[k]) == ScanObject(check, candidate, i + 1) &&
            forall j :: i + 1 <= j < k ==> CheckElement(cs[j], os[j]) == Pass;
          assert forall j :: i <= j < k ==> CheckElement(cs[j], os[j]) == Pass;
        }
      }
    }
  }

  /**
   * `validateArray` passes iff both sides are arrays, an empty template meets
   * only an empty value, and every element passes against the template's
   * first element.
   */
  lemma ValidateArrayPass(check: JsValue, candidate: JsValue)
    ensures ValidateArray(check, candidate) == Pass <==>
      check.JsArray? && candidate.JsArray? &&
      (|check.elems| == 0 ==> |candidate.elems| == 0) &&
      (|check.elems| > 0 ==> forall k :: 0 <= k < |candidate.elems| ==> CheckElement(check.elems[0], candidate.elems[k]) == Pass)
  {
    if check.JsArray? && candidate.JsArray? && |check.elems| > 0 {
      ScanArrayPass(check.elems[0], candidate, 0);
    }
  }

  /**
   * `validateObject` passes iff both sides are non-null objects (arrays
   * included) with equally many keys whose values pass pairwise by position.
   * Key names play no part.
   */
  lemma ValidateObjectPass(check: JsValue, candidate: JsValue)
    ensures ValidateObject(check, candidate) == Pass <==>
      (check.JsArray? || check.JsObject?) && (candidate.JsArray? || candidate.JsObject?) &&
      |OwnValues(check)| == |OwnValues(candidate)| &&
      forall k :: 0 <= k < |OwnValues(candidate)| ==> CheckElement(OwnValues(check)[k], OwnValues(candidate)[k]) == Pass
  {
    if (check.JsArray? || check.JsObject?) && (candidate.JsArray? || candidate.JsObject?) && |OwnValues(check)| == |OwnValues(candidate)| {
      ScanObjectPass(check, candidate, 0);
    }
  }

  /** A primitive template field takes the primitive check and nothing else; `undefined` accepts nothing. */
  lemma PrimitiveTemplate(check: JsValue, candidate: JsValue)
    requires TypeOf(check) != Object
    ensures CheckElement(check, candidate) == Pass <==> ValidatePrimitive(check, candidate)
    ensures CheckElement(check, candidate) != Throws
    ensures check.JsUndefined? ==> CheckElement(check, candidate) == Fail
  {
  }

  /** No `null` anywhere. */
  predicate NullFree(v: JsValue) {
    match v
    case JsNull => false
    case JsArray(elems) => forall k :: 0 <= k < |elems| ==> NullFree(elems[k])
    case JsObject(fields) => forall k :: 0 <= k < |fields| ==> NullFree(fields[k].value)
    case _ => true
  }

  /** Only a `null` on either side can make the validator throw. */
  lemma {:induction false} ElementNeverThrows(check: JsValue, candidate: JsValue)
    requires NullFree(check) && NullFree(candidate)
    ensures CheckElement(check, candidate) != Throws
    decreases candidate, 2, 0
  {
    ArrayNeverThrows(check, candidate);
    ObjectNeverThrows(check, candidate);
  }

  lemma {:induction false} ArrayNeverThrows(check: JsValue, candidate: JsValue)
    requires NullFree(check) && NullFree(candidate)
    ensures ValidateArray(check, candidate) != Throws
    decreases candidate, 1, 0
  {
    if check.JsArray? && candidate.JsArray? && |check.elems| > 0 {
      ScanArrayNeverThrows(check.elems[0], candidate, 0);
    }
  }

  lemma {:induction false} ScanArrayNeverThrows(template: JsValue, candidate: JsValue, i: nat)
    requires candidate.JsArray? && i <= |candidate.elems|
    requires NullFree(template) && NullFree(candidate)
    ensures ScanArray(template, candidate, i) != Throws
    decreases candidate, 0, |candidate.elems| - i
  {
    if i < |candidate.elems| {
      ElementNeverThrows(template, candidate.elems[i]);
      ScanArrayNeverThrows(template, candidate, i + 1);
    }
  }

  lemma {:induction false} ObjectNeverThrows(check: JsValue, candidate: JsValue)
    requires NullFree(check) && NullFree(candidate)
    ensures ValidateObject(check, candidate) != Throws
    decreases candidate, 1, 0
  {
    if (check.JsArray? || check.JsObject?) && (candidate.JsArray? || candidate.JsObject?) && |OwnValues(check)| == |OwnValues(candidate)| {
      ScanObjectNeverThrows(check, candidate, 0);
    }
  }

  lemma {:induction false} ScanObjectNeverThrows(check: JsValue, candidate: JsValue, i: nat)
    requires check.JsArray? || check.JsObject?
    requires candidate.JsArray? || candidate.JsObject?
    requires |OwnValues(check)| == |OwnValues(candidate)| && i <= |OwnValues(candidate)|
    requires NullFree(check) && NullFree(candidate)
    ensures ScanObject(check, candidate, i) != Throws
    decreases candidate, 0, |OwnValues(candidate)| - i
  {
    if i < |OwnValues(candidate)| {
      var child := match candidate
        case JsArray(elems) => elems[i]
        case JsObject(fields) => fields[i].value;
      assert NullFree(ValueAt(check, i));
      assert NullFree(child);
      ElementNeverThrows(ValueAt(check, i), child);
      ScanObjectNeverThrows(check, candidate, i + 1);
    }
  }

  // Byte buffers.

  /** What `toArrayBuffer` produces: `padding` zero bytes, then the input. */
  function Padded(b: seq<byte>, padding: nat): (r: seq<byte>)
    ensures |r| == |b| + padding
    ensures forall i :: 0 <= i < padding ==> r[i] == 0
    ensures forall i :: 0 <= i < |b| ==> r[i + padding] == b[i]
  {
    seq(padding, _ => 0 as byte) + b
  }

  /** A `Uint8Array` read: out of range gives `undefined`, which a byte store turns into 0. */
  function ReadAt(b: seq<byte>, i: int): byte {
    if 0 <= i < |b| then b[i] else 0
  }

  /**
   * What `toNativeBuffer` produces as written: `byteLength - 2` bytes whatever
   * the padding, copied from offset `padding`; a negative length is a
   * RangeError (`None`).
   */
  function Unpadded(b: seq<byte>, padding: nat): (r: Option<seq<byte>>)
    ensures r.None? <==> |b| < 2
    ensures r.Some? ==> |r.value| == |b| - 2 && forall i :: 0 <= i < |r.value| ==> r.value[i] == ReadAt(b, i + padding)
  {
    if |b| < 2 then None else Some(seq(|b| - 2, i => ReadAt(b, i + padding)))
  }

  /** The conversion `toNativeBuffer` evidently means: drop the `padding` header bytes. */
  function Stripped(b: seq<byte>, padding: nat): (r: Option<seq<byte>>)
    ensures r.None? <==> |b| < padding
    ensures r.Some? ==> padding + |r.value| == |b| && forall i :: 0 <= i < |r.value| ==> r.value[i] == b[i + padding]
  {
    if |b| < padding then None else Some(b[padding..])
  }

  /** With a two-byte header, the as-written conversion inverts `toArrayBuffer`. */
  lemma {:induction false} HeaderRoundTrip(b: seq<byte>)
    ensures Unpadded(Padded(b, 2), 2) == Some(b)
  {
    var p := Padded(b, 2);
    var r := Unpadded(p, 2);
    assert |r.value| == |b|;
    forall i | 0 <= i < |b|
      ensures r.value[i] == b[i]
    {
      assert r.value[i] == ReadAt(p, i + 2) == p[i + 2];
    }
    assert r.value == b;
  }

  /** As written, the default padding 0 loses the last two bytes of every buffer. */
  lemma {:induction false} DefaultPaddingLosesTail(b: seq<byte>)
    requires |b| >= 2
    ensures Unpadded(Padded(b, 0), 0) == Some(b[..|b| - 2])
    ensures Unpadded(Padded(b, 0), 0) != Some(b)
  {
    var r := Unpadded(Padded(b, 0), 0);
    assert Padded(b, 0) == b;
    assert r.value == b[..|b| - 2];
  }

  /** The corrected conversion inverts `toArrayBuffer` for every padding. */
  lemma {:induction false} StrippedRoundTrip(b: seq<byte>, padding: nat)
    ensures Stripped(Padded(b, padding), padding) == Some(b)
  {
    var r := Stripped(Padded(b, padding), padding);
    assert r.Some?;
    assert forall i :: 0 <= i < |b| ==> r.value[i] == b[i] by {
      forall i | 0 <= i < |b|
        ensures r.value[i] == b[i]
      {
        assert r.value[i] == Padded(b, padding)[i + padding];
      }
    }
  }

  /** At the two-byte header the corrected and the as-written conversions agree on every buffer. */
  lemma {:induction false} StrippedAgreesAtHeader(b: seq<byte>)
    ensures Stripped(b, 2) == Unpadded(b, 2)
  {
    if |b| >= 2 {
      assert Stripped(b, 2).value == Unpadded(b, 2).value by {
        forall i | 0 <= i < |b| - 2
          ensures Stripped(b, 2).value[i] == Unpadded(b, 2).value[i]
        {
        }
      }
    }
  }

  /** `toArrayBuffer`. */
  method ToArrayBuffer(buffer: array<byte>, padding: nat) returns (result: array<byte>)
    ensures fresh(result)
    ensures result[..] == Padded(buffer[..], padding)
  {
    result := new byte[buffer.Length + padding](_ => 0);
    for i := 0 to buffer.Length
      invariant forall k :: 0 <= k < padding ==> result[k] == 0
      invariant forall k :: 0 <= k < i ==> result[k + padding] == buffer[k]
      invariant forall k :: padding + i <= k < result.Length ==> result[k] == 0
    {
      result[i + padding] := buffer[i];
    }
    assert result[..] == Padded(buffer[..], padding) by {
      forall k | 0 <= k < result.Length
        ensures result[k] == Padded(buffer[..], padding)[k]
      {
        if k >= padding {
          assert result[(k - padding) + padding] == buffer[k - padding];
        }
      }
    }
  }

  /** `toNativeBuffer` as written. */
  method ToNativeBuffer(buffer: array<byte>, padding: nat) returns (result: Option<array<byte>>)
    ensures result.None? <==> buffer.Length < 2
    ensures result.Some? ==> fresh(result.value) && result.value[..] == Unpadded(buffer[..], padding).value
  {
    if buffer.Length < 2 {
      return None;
    }
    var r := new byte[buffer.Length - 2];
    for i := 0 to r.Length
      invariant forall k :: 0 <= k < i ==> r[k] == ReadAt(buffer[..], k + padding)
    {
      r[i] := if i + padding < buffer.Length then buffer[i + padding] else 0;
    }
    result := Some(r);
  }

  /** `toNativeBuffer` corrected to strip exactly `padding` bytes. */
  method StripPadding(buffer: array<byte>, padding: nat) returns (result: Option<array<byte>>)
    ensures result.None? <==> buffer.Length < padding
    ensures result.Some? ==> fresh(result.value) && result.value[..] == Stripped(buffer[..], padding).value
  {
    if buffer.Length < padding {
      return None;
    }
    var r := new byte[buffer.Length - padding];
    for i := 0 to r.Length
      invariant forall k :: 0 <= k < i ==> r[k] == buffer[k + padding]
    {
      r[i] := buffer[i + padding];
    }
    result := Some(r);
  }

  // Decoding.

  /** `!object`: the falsy JavaScript values. */
  predicate Falsy(v: JsValue) {
    v == JsNull || v == JsUndefined || v == JsBool(false) || v == JsNumber(0.0) || v == JsString("")
  }

  /**
   * What `decode` answers: every exception (conversion, deserialisation,
   * validation) and every rejection is `undefined`, here `None`.
   */
  function DecodeResult(binary: seq<byte>, padding: nat, template: JsValue,
                        deserialize: seq<byte> -> Option<JsValue>): Option<JsValue>
  {
    match Stripped(binary, padding)
    case None => None
    case Some(buffer) =>
      match deserialize(buffer)
      case None => None
      case Some(candidate) =>
        if Falsy(candidate) || ValidateObject(template, candidate) != Pass then None else Some(candidate)
  }

  /** `decode` hands out only truthy values that pass the template, and every such deserialised value. */
  lemma DecodeAccepts(binary: seq<byte>, padding: nat, template: JsValue,
                      deserialize: seq<byte> -> Option<JsValue>, v: JsValue)
    ensures DecodeResult(binary, padding, template, deserialize) == Some(v) <==>
      |binary| >= padding && deserialize(binary[padding..]) == Some(v) &&
      !Falsy(v) && ValidateObject(template, v) == Pass
  {
  }

  /** `decode` as written: the same steps over the as-written `toNativeBuffer`. */
  function DecodeAsWritten(binary: seq<byte>, padding: nat, template: JsValue,
                           deserialize: seq<byte> -> Option<JsValue>): Option<JsValue>
  {
    match Unpadded(binary, padding)
    case None => None
    case Some(buffer) =>
      match deserialize(buffer)
      case None => None
      case Some(candidate) =>
        if Falsy(candidate) || ValidateObject(template, candidate) != Pass then None else Some(candidate)
  }

  /** At the two-byte header padding, the as-written `decode` and the corrected one agree on every buffer. */
  lemma {:induction false} DecodeAgreesAtHeader(binary: seq<byte>, template: JsValue,
                                                deserialize: seq<byte> -> Option<JsValue>)
    ensures DecodeAsWritten(binary, 2, template, deserialize) == DecodeResult(binary, 2, template, deserialize)
  {
    StrippedAgreesAtHeader(binary);
  }

  /** At the default padding 0, the as-written `decode` deserialises the buffer without its last two bytes. */
  lemma {:induction false} DecodeAsWrittenDefault(binary: seq<byte>, template: JsValue,
                                                  deserialize: seq<byte> -> Option<JsValue>, v: JsValue)
    requires |binary| >= 2
    ensures DecodeAsWritten(binary, 0, template, deserialize) == Some(v) <==>
      deserialize(binary[..|binary| - 2]) == Some(v) && !Falsy(v) && ValidateObject(template, v) == Pass
  {
    assert Unpadded(binary, 0).value == binary[..|binary| - 2];
  }

  /** A value that passes its template and survives the BSON round trip comes back from `decode(encode(v))`. */
  lemma {:induction false} EncodeDecode(v: JsValue, padding: nat, template: JsValue,
                                        serialize: JsValue -> seq<byte>, deserialize: seq<byte> -> Option<JsValue>)
    requires deserialize(serialize(v)) == Some(v)
    requires !Falsy(v) && ValidateObject(template, v) == Pass
    ensures DecodeResult(Padded(serialize(v), padding), padding, template, deserialize) == Some(v)
  {
    StrippedRoundTrip(serialize(v), padding);
  }

  /** `Serializer<T>`: a codec that checks decoded values against the template given to `gen`. */
  class Codec {
    const template: JsValue

    /** `gen(object)`. */
    constructor(template: JsValue)
      ensures this.template == template
    {
      this.template := template;
    }

    method Encode(candidate: JsValue, padding: nat, serialize: JsValue -> seq<byte>) returns (binary: array<byte>)
      ensures fresh(binary)
      ensures binary[..] == Padded(serialize(candidate), padding)
    {
      var data := serialize(candidate);
      var buffer := new byte[|data|](i requires 0 <= i < |data| => data[i]);
      assert buffer[..] == data;
      binary := ToArrayBuffer(buffer, padding);
    }

    /**
     * `validate`: whether `validateObject` passes. A `Throws` verdict gives
     * `false` here, which is what the try/catch around it in `decode` makes
     * of the exception.
     */
    function Validate(candidate: JsValue): (r: bool)
      ensures r <==> ValidateObject(template, candidate) == Pass
      ensures r ==> candidate.JsArray? || candidate.JsObject?
      ensures NullFree(template) && NullFree(candidate) && !r ==> ValidateObject(template, candidate) == Fail
    {
      if NullFree(template) && NullFree(candidate) then
        ObjectNeverThrows(template, candidate);
        ValidateObject(template, candidate) == Pass
      else
        ValidateObject(template, candidate) == Pass
    }

    /** `decode`: never throws. */
    method Decode(binary: array<byte>, padding: nat, deserialize: seq<byte> -> Option<JsValue>) returns (r: Option<JsValue>)
      ensures r == DecodeResult(binary[..], padding, template, deserialize)
      ensures r.Some? ==> !Falsy(r.value) && ValidateObject(template, r.value) == Pass
    {
      var buffer := StripPadding(binary, padding);
      if buffer.None? {
        return None;
      }
      var candidate := deserialize(buffer.value[..]);
      if candidate.None? || Falsy(candidate.value) {
        return None;
      }
      if !Validate(candidate.value) {
        return None;
      }
      r := candidate;
    }
  }
}
