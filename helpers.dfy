/** The two helpers the pipeline shares: the affection band lookup and the check
    that required configuration keys are present and non-empty. */
module Helpers {
  import opened Text

  /** One entry of the affection table: a closed score range and its level name, in the
      table's own order. The table itself is a parameter. */
  datatype Band = Band(min: real, max: real, level: string)

  /** What `get_affection_level` is handed: a number, or something that is not one. */
  datatype ScoreArg = Number(x: real) | NotNumber

  const DefaultLevel: string := "一般"

  predicate InBand(b: Band, x: real) {
    b.min <= x <= b.max
  }

  /** `get_affection_level`: the label of the first band holding the score, both ends
      inclusive; `一般` for a non-number or a score no band holds. */
  function AffectionLevel(score: ScoreArg, bands: seq<Band>): (r: string)
    ensures score.NotNumber? ==> r == DefaultLevel
    ensures score.Number? && (forall j :: 0 <= j < |bands| ==> !InBand(bands[j], score.x)) ==> r == DefaultLevel
    ensures score.Number? && (exists j :: 0 <= j < |bands| && InBand(bands[j], score.x)) ==>
      exists i :: (0 <= i < |bands| && InBand(bands[i], score.x) && r == bands[i].level
        && forall j :: 0 <= j < i ==> !InBand(bands[j], score.x))
  {
    match score
    case NotNumber => DefaultLevel
    case Number(x) =>
      if bands == [] then DefaultLevel
      else if InBand(bands[0], x) then bands[0].level
      else
        var r := AffectionLevel(score, bands[1..]);
        assert forall j :: 1 <= j < |bands| ==> bands[j] == bands[1..][j - 1];
        if exists j :: 0 <= j < |bands| && InBand(bands[j], x) then
          var j :| 0 <= j < |bands| && InBand(bands[j], x);
          assert InBand(bands[1..][j - 1], x);
          var i :| 0 <= i < |bands| - 1 && InBand(bands[1..][i], x) && r == bands[1..][i].level
            && forall k :: 0 <= k < i ==> !InBand(bands[1..][k], x);
          assert forall k :: 0 <= k < i + 1 ==> !InBand(bands[k], x) by {
            forall k | 0 <= k < i + 1 ensures !InBand(bands[k], x) {
              if k > 0 {
                assert bands[k] == bands[1..][k - 1];
              }
            }
          }
          r
        else
          r
  }

  /** A table with no gaps between `lo` and `hi`: the first band starts at or below
      `lo`, the last ends at or above `hi`, and each band starts no later than the one
      before it ends. */
  predicate Contiguous(bands: seq<Band>, lo: real, hi: real) {
    && |bands| > 0
    && bands[0].min <= lo
    && bands[|bands| - 1].max >= hi
    && forall i :: 0 <= i < |bands| - 1 ==> bands[i + 1].min <= bands[i].max
  }

  /** Over a gap-free table every score in range falls in some band. */
  lemma {:induction false} SomeBandHolds(bands: seq<Band>, lo: real, hi: real, x: real)
    requires Contiguous(bands, lo, hi) && lo <= x <= hi
    ensures exists i :: 0 <= i < |bands| && InBand(bands[i], x)
  {
    // the first band that ends at or above x also starts at or below it
    var i := 0;
    while bands[i].max < x
      invariant 0 <= i < |bands|
      invariant i > 0 ==> bands[i].min <= bands[i - 1].max < x
      invariant i == 0 ==> bands[0].min <= x
      decreases |bands| - i
    {
      i := i + 1;
    }
    assert InBand(bands[i], x);
  }

  /** A gap-free table covering [0, 100] gives every score in that range a band's label,
      never the fallback. */
  lemma BandCoverage(bands: seq<Band>, x: real)
    requires Contiguous(bands, 0.0, 100.0) && 0.0 <= x <= 100.0
    ensures exists i :: 0 <= i < |bands| && InBand(bands[i], x) && AffectionLevel(Number(x), bands) == bands[i].level
  {
    SomeBandHolds(bands, 0.0, 100.0, x);
  }

  /** Where two bands share a boundary, the boundary belongs to the earlier band. */
  lemma SharedBoundary(bands: seq<Band>, i: nat)
    requires i + 1 < |bands| && bands[i].min <= bands[i].max == bands[i + 1].min
    requires forall j :: 0 <= j < i ==> !InBand(bands[j], bands[i].max)
    ensures AffectionLevel(Number(bands[i].max), bands) == bands[i].level
  {
    var x := bands[i].max;
    assert InBand(bands[i], x);
    var k :| 0 <= k < |bands| && InBand(bands[k], x) && AffectionLevel(Number(x), bands) == bands[k].level
      && forall j :: 0 <= j < k ==> !InBand(bands[j], x);
    assert k == i;
  }

  // ---------------------------------------------------------------------------------
  // Configuration check
  // ---------------------------------------------------------------------------------

  /** A configuration value as Python sees it. */
  datatype PyValue =
    | PNone
    | PBool(b: bool)
    | PInt(i: int)
    | PFloat(f: real)
    | PStr(s: string)
    | PList(items: seq<PyValue>)
    | PDict(entries: map<string, PyValue>)

  /** Python truthiness: `None`, `False`, zero and empty containers are false. */
  predicate Truthy(v: PyValue) {
    match v
    case PNone => false
    case PBool(b) => b
    case PInt(i) => i != 0
    case PFloat(f) => f != 0.0
    case PStr(s) => s != []
    case PList(items) => items != []
    case PDict(entries) => entries != map[]
  }

  predicate Passes(config: map<string, PyValue>, key: string) {
    key in config && Truthy(config[key])
  }

  /** The complaint about a key that does not pass. */
  function Complaint(config: map<string, PyValue>, key: string): string {
    if key !in config then "缺少配置项: " + key else "配置项为空: " + key
  }

  /** `validate_config`: `(True, "")` when every required key is present and truthy,
      otherwise `(False, complaint)` about the first key, in list order, that is not. */
  function ValidateConfig(config: map<string, PyValue>, requiredKeys: seq<string>): (r: (bool, string))
    ensures r.0 <==> forall k :: 0 <= k < |requiredKeys| ==> Passes(config, requiredKeys[k])
    ensures r.0 ==> r.1 == ""
    ensures !r.0 ==> exists i :: (0 <= i < |requiredKeys| && !Passes(config, requiredKeys[i])
      && (forall j :: 0 <= j < i ==> Passes(config, requiredKeys[j]))
      && r.1 == Complaint(config, requiredKeys[i]))
  {
    if requiredKeys == [] then (true, "")
    else
      var key := requiredKeys[0];
      if key !in config then (false, "缺少配置项: " + key)
      else if !Truthy(config[key]) then (false, "配置项为空: " + key)
      else
        var r := ValidateConfig(config, requiredKeys[1..]);
        assert forall k :: 1 <= k < |requiredKeys| ==> requiredKeys[k] == requiredKeys[1..][k - 1];
        if !r.0 then
          var i :| 0 <= i < |requiredKeys| - 1 && !Passes(config, requiredKeys[1..][i])
            && (forall j :: 0 <= j < i ==> Passes(config, requiredKeys[1..][j]))
            && r.1 == Complaint(config, requiredKeys[1..][i]);
          assert requiredKeys[i + 1] == requiredKeys[1..][i];
          assert forall j :: 0 <= j < i + 1 ==> Passes(config, requiredKeys[j]) by {
            forall j | 0 <= j < i + 1 ensures Passes(config, requiredKeys[j]) {
              if j > 0 {
                assert requiredKeys[j] == requiredKeys[1..][j - 1];
              }
            }
          }
          r
        else
          r
  }
}
