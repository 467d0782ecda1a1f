/** The camera adapter's request parameters: the filter that drops undefined
    values before they are sent on, and the numeric bounds declared on the
    fields of the parameter models. */
module CameraModels {
  import opened Values

  /** A value the adapter treats as "not set": None, or one of the strings
      "null", "None" and "Undefined" (exact, case-sensitive). */
  predicate Undefined(v: Value) {
    v == PyNone || (v.PyStr? && v.s in {"null", "None", "Undefined"})
  }

  /** `get_not_none_values` on a model dump: the entries, in order, whose value
      is not undefined. */
  function GetNotNoneValues(params: seq<(string, Value)>): (r: seq<(string, Value)>)
    ensures |r| <= |params|
    ensures forall p :: p in r <==> p in params && !Undefined(p.1)
  {
    if params == [] then []
    else if Undefined(params[0].1) then GetNotNoneValues(params[1..])
    else [params[0]] + GetNotNoneValues(params[1..])
  }

  /** The indices, from `i` on, of the entries the filter keeps, ascending. */
  function KeptFrom(params: seq<(string, Value)>, i: nat): (idx: seq<nat>)
    requires i <= |params|
    ensures forall k :: 0 <= k < |idx| ==> i <= idx[k] < |params|
    ensures forall k, l :: 0 <= k < l < |idx| ==> idx[k] < idx[l]
    decreases |params| - i
  {
    if i == |params| then []
    else (if Undefined(params[i].1) then [] else [i]) + KeptFrom(params, i + 1)
  }

  /** The dictionary comprehension keeps its input's order: the result is the
      subsequence of the defined entries, picked at strictly increasing indices,
      and every defined entry is picked. */
  lemma {:induction false} GetNotNoneValuesInOrder(params: seq<(string, Value)>, i: nat)
    requires i <= |params|
    ensures var idx := KeptFrom(params, i);
      var r := GetNotNoneValues(params[i..]);
      && |idx| == |r|
      && (forall k :: 0 <= k < |idx| ==> r[k] == params[idx[k]])
      && (forall k, l :: 0 <= k < l < |idx| ==> idx[k] < idx[l])
      && (forall j :: i <= j < |params| && !Undefined(params[j].1) ==> j in idx)
    decreases |params| - i
  {
    if i < |params| {
      GetNotNoneValuesInOrder(params, i + 1);
      var rest, kept := KeptFrom(params, i + 1), GetNotNoneValues(params[i + 1..]);
      assert params[i..][1..] == params[i + 1..];
      assert params[i..][0] == params[i];
      if Undefined(params[i].1) {
        assert KeptFrom(params, i) == rest && GetNotNoneValues(params[i..]) == kept;
      } else {
        var idx, r := [i] + rest, [params[i]] + kept;
        assert KeptFrom(params, i) == idx && GetNotNoneValues(params[i..]) == r;
        forall j | i <= j < |params| && !Undefined(params[j].1) ensures j in idx {
          if j == i { assert idx[0] == i; } else { assert j in rest; }
        }
        forall k | 0 < k < |idx| ensures r[k] == params[idx[k]] {
          assert r[k] == kept[k - 1] && idx[k] == rest[k - 1];
        }
      }
    }
  }

  /** Filtering twice is filtering once. */
  lemma {:induction false} GetNotNoneValuesIdempotent(params: seq<(string, Value)>)
    ensures GetNotNoneValues(GetNotNoneValues(params)) == GetNotNoneValues(params)
  {
    if params != [] {
      GetNotNoneValuesIdempotent(params[1..]);
      if !Undefined(params[0].1) {
        var r := GetNotNoneValues(params);
        assert r[0] == params[0] && r[1..] == GetNotNoneValues(params[1..]);
      }
    }
  }

  /** Nothing is dropped from a dump without undefined values. */
  lemma {:induction false} GetNotNoneValuesKeepsDefined(params: seq<(string, Value)>)
    requires forall i :: 0 <= i < |params| ==> !Undefined(params[i].1)
    ensures GetNotNoneValues(params) == params
  {
    if params != [] {
      GetNotNoneValuesKeepsDefined(params[1..]);
    }
  }

  /** Falsy values other than None are defined and kept: "", 0, 0.0, False and
      empty containers, as are spellings like "none" or "NULL". */
  lemma FalsyValuesAreKept()
    ensures !Undefined(PyStr("")) && !Undefined(PyInt(0)) && !Undefined(PyFloat(0.0))
    ensures !Undefined(PyBool(false)) && !Undefined(PyList([])) && !Undefined(PyDict([]))
    ensures !Undefined(PyStr("none")) && !Undefined(PyStr("NULL"))
  {
  }

  // ---------------------------------------------------------------------------
  // Declared field bounds (every bounded field is optional: None is accepted)

  /** `destination_port` as declared: `ge=26, le=653535`. */
  predicate PortBoundAsWritten(p: Option<int>) {
    p.None? || 26 <= p.value <= 653535
  }

  /** The bound the field's comment about the dynamic ports 49152-65535 asks
      for: a port number is at most 65535. */
  predicate PortBound(p: Option<int>) {
    p.None? || 26 <= p.value <= 65535
  }

  /** `timeout_ms`: at least 200 milliseconds. */
  predicate TimeoutBound(t: Option<int>) {
    t.None? || t.value >= 200
  }

  /** `quality`: 10 to 100. */
  predicate QualityBound(q: Option<int>) {
    q.None? || 10 <= q.value <= 100
  }

  /** `roi_left`, `roi_top`, `roi_right`, `roi_bottom`: not negative. */
  predicate RoiBound(r: Option<real>) {
    r.None? || r.value >= 0.0
  }

  /** `exposure_time_microseconds`: at least 500 microseconds. */
  predicate ExposureBound(e: Option<int>) {
    e.None? || e.value >= 500
  }

  /** The bounded fields of the camera settings. */
  datatype CameraSettings = CameraSettings(destinationPort: Option<int>, timeoutMs: Option<int>)

  /** The bounded fields of the photo parameters (image parameters included). */
  datatype PhotoParams = PhotoParams(
    quality: Option<int>,
    roiLeft: Option<real>, roiTop: Option<real>, roiRight: Option<real>, roiBottom: Option<real>,
    exposureTimeMicroseconds: Option<int>)

  /** The fields of camera settings that violate their declared bounds, in
      declaration order. */
  function SettingsErrors(s: CameraSettings): (r: seq<string>)
    ensures r == [] <==> PortBoundAsWritten(s.destinationPort) && TimeoutBound(s.timeoutMs)
    ensures "destination_port" in r <==> !PortBoundAsWritten(s.destinationPort)
    ensures "timeout_ms" in r <==> !TimeoutBound(s.timeoutMs)
  {
    (if PortBoundAsWritten(s.destinationPort) then [] else ["destination_port"])
    + (if TimeoutBound(s.timeoutMs) then [] else ["timeout_ms"])
  }

  /** The same validation with the port bounded by 65535. */
  function SettingsErrorsIntended(s: CameraSettings): (r: seq<string>)
    ensures r == [] <==> PortBound(s.destinationPort) && TimeoutBound(s.timeoutMs)
    ensures "destination_port" in r <==> !PortBound(s.destinationPort)
    ensures "timeout_ms" in r <==> !TimeoutBound(s.timeoutMs)
  {
    (if PortBound(s.destinationPort) then [] else ["destination_port"])
    + (if TimeoutBound(s.timeoutMs) then [] else ["timeout_ms"])
  }

  /** The fields of photo parameters that violate their bounds, in declaration order. */
  function PhotoErrors(p: PhotoParams): (r: seq<string>)
    ensures r == [] <==>
      && QualityBound(p.quality)
      && RoiBound(p.roiLeft) && RoiBound(p.roiTop) && RoiBound(p.roiRight) && RoiBound(p.roiBottom)
      && ExposureBound(p.exposureTimeMicroseconds)
    ensures "quality" in r <==> !QualityBound(p.quality)
    ensures "exposure_time_microseconds" in r <==> !ExposureBound(p.exposureTimeMicroseconds)
  {
    (if QualityBound(p.quality) then [] else ["quality"])
    + (if RoiBound(p.roiLeft) then [] else ["roi_left"])
    + (if RoiBound(p.roiTop) then [] else ["roi_top"])
    + (if RoiBound(p.roiRight) then [] else ["roi_right"])
    + (if RoiBound(p.roiBottom) then [] else ["roi_bottom"])
    + (if ExposureBound(p.exposureTimeMicroseconds) then [] else ["exposure_time_microseconds"])
  }

  /** The declared port bound lets through numbers that are no port at all: the
      settings validate with port 70000. */
  lemma PortBoundAsWrittenAcceptsNonPorts()
    ensures PortBoundAsWritten(Some(70000)) && !PortBound(Some(70000))
    ensures forall p :: 65535 < p <= 653535 ==> PortBoundAsWritten(Some(p)) && !PortBound(Some(p))
    ensures SettingsErrors(CameraSettings(Some(70000), None)) == []
  {
  }

  /** The intended bound accepts the whole dynamic range and nothing above it; the
      intended validation rejects exactly the ports the declared one lets through
      above 65535, and otherwise agrees with it. */
  lemma PortBoundMeaning(p: int, t: Option<int>)
    ensures 49152 <= p <= 65535 ==> PortBound(Some(p))
    ensures PortBound(Some(p)) ==> PortBoundAsWritten(Some(p)) && p <= 65535
    ensures SettingsErrorsIntended(CameraSettings(Some(p), None)) == [] <==> 26 <= p <= 65535
    ensures p <= 65535 ==> SettingsErrorsIntended(CameraSettings(Some(p), t)) == SettingsErrors(CameraSettings(Some(p), t))
    ensures 65535 < p <= 653535 ==>
              && "destination_port" in SettingsErrorsIntended(CameraSettings(Some(p), t))
              && "destination_port" !in SettingsErrors(CameraSettings(Some(p), t))
  {
  }

  /** Unset fields never violate a bound. */
  lemma UnsetFieldsAreValid()
    ensures SettingsErrors(CameraSettings(None, None)) == []
    ensures SettingsErrorsIntended(CameraSettings(None, None)) == []
    ensures PhotoErrors(PhotoParams(None, None, None, None, None, None)) == []
  {
  }
}
