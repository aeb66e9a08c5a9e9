/**
 * The payload validator of the front-end integration script: it walks the
 * history points, collects an issue for every missing or non-numeric field of
 * a sensor point, and accepts the data when there is none.
 */
module IntegrationCheck {
  import opened Wrappers
  import opened Text
  import opened Js

  /** A history point: an object's fields. */
  type PointFields = map<string, Json>

  /** What the validator reports, by point index. */
  datatype Issue =
    | Missing(index: nat, field: string)
    | NotNumeric(index: nat)
    | TimestampNotNumeric(index: nat)

  function RequiredFields(): seq<string> {
    ["sensor_type", "value", "timestamp"]
  }

  function Field(p: PointFields, f: string): Option<Json> {
    if f in p then Some(p[f]) else None
  }

  /** A point is checked when its `sensor_type` is a non-empty text that does
      not start with "_". */
  predicate Checked(p: PointFields) {
    var st := Field(p, "sensor_type");
    st.Some? && st.value.JStr? && st.value.s != "" && !StartsWith(st.value.s, "_")
  }

  /** A truthy `sensor_type` that is not a text has no `startsWith`, and the
      validator throws. */
  predicate Throws(p: PointFields) {
    var st := Field(p, "sensor_type");
    TruthyOpt(st) && !st.value.JStr?
  }

  /** `undefined` or `null`. */
  predicate Absent(v: Option<Json>) {
    v.None? || v.value.JNull?
  }

  /** The missing-field issues of a point, in the order of `fields`. */
  function MissingIssues(index: nat, p: PointFields, fields: seq<string>): (r: seq<Issue>)
    ensures forall x :: x in r <==> exists f :: f in fields && Absent(Field(p, f)) && x == Missing(index, f)
    ensures (forall f :: f in fields ==> !Absent(Field(p, f))) ==> r == []
  {
    if fields == [] then []
    else
      var rest := MissingIssues(index, p, fields[1..]);
      assert forall f :: f in fields <==> f == fields[0] || f in fields[1..];
      (if Absent(Field(p, fields[0])) then [Missing(index, fields[0])] else []) + rest
  }

  /** `typeof v !== "number" && isNaN(parseFloat(String(v)))`. */
  predicate NotANumber(v: Option<Json>) {
    v.None? || NumericValue(v.value).None?
  }

  /** The issues of one point: none when it is not checked, otherwise each
      missing required field, then a value that is not numeric, then a
      timestamp that is not a number. */
  function PointIssues(index: nat, p: PointFields): (r: seq<Issue>)
    ensures !Checked(p) ==> r == []
    ensures Checked(p) ==>
      (NotNumeric(index) in r <==> NotANumber(Field(p, "value")))
      && (TimestampNotNumeric(index) in r <==> !(Field(p, "timestamp").Some? && Field(p, "timestamp").value.JNum?))
      && (forall f :: Missing(index, f) in r <==> f in RequiredFields() && Absent(Field(p, f)))
    ensures forall x :: x in r ==> x.index == index
  {
    if !Checked(p) then []
    else
      var missing := MissingIssues(index, p, RequiredFields());
      var value := if NotANumber(Field(p, "value")) then [NotNumeric(index)] else [];
      var ts := Field(p, "timestamp");
      var stamp := if !(ts.Some? && ts.value.JNum?) then [TimestampNotNumeric(index)] else [];
      assert forall x :: x in missing + value + stamp <==> x in missing || x in value || x in stamp;
      missing + value + stamp
  }

  /** The issues of the points, in order. */
  function AllIssues(data: seq<PointFields>): seq<Issue> {
    if data == [] then []
    else AllIssues(data[..|data| - 1]) + PointIssues(|data| - 1, data[|data| - 1])
  }

  /** An issue is reported for a point exactly when that point has it. */
  lemma {:induction false} AllIssuesOf(data: seq<PointFields>, x: Issue)
    ensures x in AllIssues(data) <==> x.index < |data| && x in PointIssues(x.index, data[x.index])
  {
    if data != [] {
      var init := data[..|data| - 1];
      var last := PointIssues(|data| - 1, data[|data| - 1]);
      assert AllIssues(data) == AllIssues(init) + last;
      assert x in AllIssues(data) <==> x in AllIssues(init) || x in last;
      AllIssuesOf(init, x);
      assert x in last ==> x.index == |data| - 1;
      if x.index < |data| - 1 {
        assert init[x.index] == data[x.index];
      }
    }
  }

  /** Points that are not checked never cause an issue. */
  lemma SkippedPointsAreSilent(data: seq<PointFields>, i: int)
    requires 0 <= i < |data| && !Checked(data[i])
    ensures forall x :: x in AllIssues(data) ==> x.index != i
  {
    forall x | x in AllIssues(data) ensures x.index != i {
      AllIssuesOf(data, x);
    }
  }

  /** `verifyDataFormat`: `None` when it throws, otherwise whether no issue
      was found. */
  method VerifyDataFormat(data: seq<PointFields>) returns (r: Option<bool>)
    ensures r.None? <==> exists i :: 0 <= i < |data| && Throws(data[i])
    ensures r.Some? ==> (r.value <==> AllIssues(data) == [])
  {
    var issues: seq<Issue> := [];
    var i := 0;
    while i < |data|
      invariant 0 <= i <= |data|
      invariant issues == AllIssues(data[..i])
      invariant forall j :: 0 <= j < i ==> !Throws(data[j])
    {
      if Throws(data[i]) {
        return None;
      }
      assert data[..i + 1][..i] == data[..i];
      issues := issues + PointIssues(i, data[i]);
      i := i + 1;
    }
    assert data[..i] == data;
    return Some(issues == []);
  }

  /** A point of the bundled history sample. */
  function SamplePoint(sensorType: string, value: real, timestamp: int, unit: string): PointFields {
    map["sensor_type" := JStr(sensorType), "value" := JNum(value), "timestamp" := JNum(timestamp as real),
        "unit" := JStr(unit)]
  }

  /** The bundled sample, for a clock reading of `now` seconds. */
  function MockData(now: int): seq<PointFields> {
    [SamplePoint("temperature", 23.5, now - 300, "°C"),
     SamplePoint("humidity", 65.2, now - 240, "%"),
     SamplePoint("temperature", 24.1, now - 180, "°C"),
     SamplePoint("light", 450.0, now - 120, "lux"),
     SamplePoint("air_quality", 420.0, now - 60, "ppm"),
     map["sensor_type" := JStr("_stats"), "value" := JNum(0.0), "timestamp" := JNum(now as real),
         "stats" := JObj(map[])]]
  }

  /** Data whose every point is clean has no issue. */
  lemma {:induction false} CleanData(data: seq<PointFields>)
    requires forall i :: 0 <= i < |data| ==> PointIssues(i, data[i]) == []
    ensures AllIssues(data) == []
  {
    if data != [] {
      var init := data[..|data| - 1];
      assert forall i :: 0 <= i < |init| ==> init[i] == data[i];
      CleanData(init);
    }
  }

  /** A sample point has every required field, with a numeric value and a
      numeric timestamp, so it raises no issue and does not throw. */
  lemma SamplePointClean(i: nat, sensorType: string, value: real, timestamp: int, unit: string)
    ensures PointIssues(i, SamplePoint(sensorType, value, timestamp, unit)) == []
    ensures !Throws(SamplePoint(sensorType, value, timestamp, unit))
  {
    var p := SamplePoint(sensorType, value, timestamp, unit);
    assert forall f :: f in RequiredFields() ==> f in p && !p[f].JNull?;
    assert NumericValue(p["value"]) == Some(value);
  }

  /** The sample validates: every sensor point has numeric fields, and the
      statistics entry is skipped. */
  lemma MockDataValid(now: int)
    ensures forall i :: 0 <= i < |MockData(now)| ==> !Throws(MockData(now)[i])
    ensures AllIssues(MockData(now)) == []
    ensures !Checked(MockData(now)[5])
  {
    var d := MockData(now);
    assert StartsWith("_stats", "_");
    forall i | 0 <= i < |d| ensures PointIssues(i, d[i]) == [] && !Throws(d[i]) {
      if i == 0 {
        SamplePointClean(0, "temperature", 23.5, now - 300, "°C");
      } else if i == 1 {
        SamplePointClean(1, "humidity", 65.2, now - 240, "%");
      } else if i == 2 {
        SamplePointClean(2, "temperature", 24.1, now - 180, "°C");
      } else if i == 3 {
        SamplePointClean(3, "light", 450.0, now - 120, "lux");
      } else if i == 4 {
        SamplePointClean(4, "air_quality", 420.0, now - 60, "ppm");
      } else {
        assert !Checked(d[5]) && !Throws(d[5]);
      }
    }
    CleanData(d);
  }
}
