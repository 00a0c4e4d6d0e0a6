/** JSON values as the handlers see them after `JSON.parse` / `response.json()`,
    with the two JavaScript operations on them the handlers use: object spread
    and the `length` of a `data` member. Numbers are integers here. */
module Json {
  import JsText

  datatype Json =
    | JNull
    | JBool(b: bool)
    | JNum(n: int)
    | JStr(s: string)
    | JArr(items: seq<Json>)
    | JObj(fields: map<string, Json>)

  /** The properties `{...v}` copies out of `v`: an object's own fields, an
      array's elements or a string's characters under their decimal index,
      and nothing at all for `null`, booleans and numbers. */
  function SpreadFields(v: Json): (m: map<string, Json>)
    ensures v.JObj? ==> m == v.fields
    ensures v.JArr? ==> |m| == |v.items| && forall i :: 0 <= i < |v.items| ==> JsText.NatToString(i) in m && m[JsText.NatToString(i)] == v.items[i]
    ensures v.JStr? ==> |m| == |v.s| && forall i :: 0 <= i < |v.s| ==> JsText.NatToString(i) in m && m[JsText.NatToString(i)] == JStr([v.s[i]])
    ensures v.JNull? || v.JBool? || v.JNum? ==> m == map[]
  {
    match v
    case JObj(f) => f
    case JArr(xs) => IndexMap(xs)
    case JStr(s) => IndexMap(seq(|s|, i requires 0 <= i < |s| => JStr([s[i]])))
    case _ => map[]
  }

  /** The map from each decimal index of `xs` to its element. */
  function IndexMap(xs: seq<Json>): (m: map<string, Json>)
    ensures |m| == |xs|
    ensures forall i :: 0 <= i < |xs| ==> JsText.NatToString(i) in m && m[JsText.NatToString(i)] == xs[i]
    ensures forall k :: k in m ==> exists i :: 0 <= i < |xs| && k == JsText.NatToString(i)
  {
    if xs == [] then map[]
    else
      var last := |xs| - 1;
      var m := IndexMap(xs[..last]);
      var k := JsText.NatToString(last);
      assert k !in m by {
        if k in m {
          var i :| 0 <= i < last && k == JsText.NatToString(i);
          JsText.NatToStringInjective(i, last);
        }
      }
      var r := m[k := xs[last]];
      assert forall i :: 0 <= i < |xs| ==> JsText.NatToString(i) in r && r[JsText.NatToString(i)] == xs[i] by {
        forall i | 0 <= i < |xs|
          ensures JsText.NatToString(i) in r && r[JsText.NatToString(i)] == xs[i]
        {
          var key := JsText.NatToString(i);
          if i == last {
            assert key == k;
          } else {
            assert key in m && m[key] == xs[..last][i];
            assert key != k;
          }
        }
      }
      assert forall key :: key in r ==> exists i :: 0 <= i < |xs| && key == JsText.NatToString(i) by {
        forall key | key in r
          ensures exists i :: 0 <= i < |xs| && key == JsText.NatToString(i)
        {
          if key != k {
            var i :| 0 <= i < last && key == JsText.NatToString(i);
          }
        }
      }
      r
  }

  /** `v.data?.length || 0` for a non-null `v`: the length of a `data` member
      that is an array or a string, and 0 when it is absent or has no length. */
  function DataLength(v: Json): (n: nat)
    ensures v.JObj? && "data" in v.fields && v.fields["data"].JArr? ==> n == |v.fields["data"].items|
    ensures v.JObj? && "data" in v.fields && v.fields["data"].JStr? ==> n == |v.fields["data"].s|
    ensures !(v.JObj? && "data" in v.fields && (v.fields["data"].JArr? || v.fields["data"].JStr?)) ==> n == 0
  {
    match v
    case JObj(f) =>
      if "data" in f then
        match f["data"]
        case JArr(xs) => |xs|
        case JStr(s) => |s|
        case _ => 0
      else 0
    case _ => 0
  }
}

/** `Date.prototype.toISOString` on a time value in milliseconds since the epoch
    (section 21.4.4.36 of ECMA-262): the proleptic Gregorian calendar date and
    UTC time as `YYYY-MM-DDTHH:mm:ss.sssZ`, with the six-digit signed year form
    outside 0000-9999, and a `RangeError` ("Invalid time value") for time
    values beyond 8.64e15 ms either way. */
module IsoDate {
  import JsText
  import opened Wrappers

  const MaxTimeValue: int := 8_640_000_000_000_000
  const MsPerDay: int := 86_400_000
  const InvalidTimeValue: string := "Invalid time value"

  /** The (year, month, day) of the day `days` after 1970-01-01. */
  function CivilFromDays(days: int): (int, int, int) {
    var z := days + 719468;
    var era := z / 146097;
    var doe := z % 146097;
    var yoe := (doe - doe / 1460 + doe / 36524 - doe / 146096) / 365;
    var doy := doe - (365 * yoe + yoe / 4 - yoe / 100);
    var mp := (5 * doy + 2) / 153;
    var d := doy - (153 * mp + 2) / 5 + 1;
    var m := if mp < 10 then mp + 3 else mp - 9;
    (yoe + era * 400 + (if m <= 2 then 1 else 0), m, d)
  }

  function Pad(n: int, width: nat): string {
    JsText.PadStart(JsText.IntToString(n), width, '0')
  }

  function YearString(y: int): string {
    if 0 <= y <= 9999 then Pad(y, 4)
    else if y < 0 then "-" + JsText.PadStart(JsText.NatToString(-y), 6, '0')
    else "+" + JsText.PadStart(JsText.NatToString(y), 6, '0')
  }

  /** The epoch, day 0, is 1 January 1970. */
  lemma EpochIsNewYear1970()
    ensures CivilFromDays(0) == (1970, 1, 1)
  {
    assert 719468 / 146097 == 4 && 719468 % 146097 == 135080;
    assert (135080 - 135080 / 1460 + 135080 / 36524 - 135080 / 146096) / 365 == 369;
    assert 135080 - (365 * 369 + 369 / 4 - 369 / 100) == 306;
    assert (5 * 306 + 2) / 153 == 10 && 306 - (153 * 10 + 2) / 5 + 1 == 1;
  }

  /** Day 11016 is 29 February 2000: a leap day of a year divisible by 400,
      reached through the March-based year's last month. */
  lemma LeapDay2000()
    ensures CivilFromDays(11016) == (2000, 2, 29)
  {
    assert 730484 / 146097 == 4 && 730484 % 146097 == 146096;
    assert (146096 - 146096 / 1460 + 146096 / 36524 - 146096 / 146096) / 365 == 399;
    assert 146096 - (365 * 399 + 399 / 4 - 399 / 100) == 365;
    assert (5 * 365 + 2) / 153 == 11 && 365 - (153 * 11 + 2) / 5 + 1 == 29;
  }

  /** The ISO 8601 text of an in-range time value. */
  function FormatIso(ms: int): (s: string)
    ensures s != [] && s[|s| - 1] == 'Z'
  {
    var (y, mo, d) := CivilFromDays(ms / MsPerDay);
    var t := ms % MsPerDay;
    YearString(y) + "-" + Pad(mo, 2) + "-" + Pad(d, 2) + "T"
    + Pad(t / 3_600_000, 2) + ":" + Pad(t / 60_000 % 60, 2) + ":" + Pad(t / 1000 % 60, 2)
    + "." + Pad(t % 1000, 3) + "Z"
  }

  /** `new Date(ms).toISOString()`: the string, or the RangeError's message. */
  function ToIsoString(ms: int): (r: Result<string>)
    ensures r.Err? <==> ms < -MaxTimeValue || ms > MaxTimeValue
    ensures r.Err? ==> r.message == InvalidTimeValue
    ensures r.Ok? ==> r.value == FormatIso(ms)
  {
    if ms < -MaxTimeValue || ms > MaxTimeValue then Err(InvalidTimeValue) else Ok(FormatIso(ms))
  }
}
