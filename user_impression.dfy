/** The stored impression of one user: eight free-text dimensions, the affection
    score and level, a message counter and three timestamps. */
module Profiles {
  import opened Text

  /** The eight dimensions, in the order every listing of them uses. */
  datatype Dimension =
    | Personality | Interests | Communication | Emotional
    | Behavior | Values | Relationship | Growth

  const AllDimensions: seq<Dimension> :=
    [Personality, Interests, Communication, Emotional, Behavior, Values, Relationship, Growth]

  /** The short key `set_dimension` and `get_dimension` accept. */
  function ShortKey(d: Dimension): string {
    match d
    case Personality => "personality"
    case Interests => "interests"
    case Communication => "communication"
    case Emotional => "emotional"
    case Behavior => "behavior"
    case Values => "values"
    case Relationship => "relationship"
    case Growth => "growth"
  }

  /** The column name, which is also the key the language model answers with. */
  function FieldName(d: Dimension): string {
    match d
    case Personality => "personality_traits"
    case Interests => "interests_hobbies"
    case Communication => "communication_style"
    case Emotional => "emotional_tendencies"
    case Behavior => "behavioral_patterns"
    case Values => "values_attitudes"
    case Relationship => "relationship_preferences"
    case Growth => "growth_development"
  }

  /** The label of a dimension in the one-line summary. */
  function SummaryLabel(d: Dimension): string {
    match d
    case Personality => "性格"
    case Interests => "兴趣"
    case Communication => "交流"
    case Emotional => "情感"
    case Behavior => "行为"
    case Values => "价值观"
    case Relationship => "关系"
    case Growth => "成长"
  }

  /** `dimension_map`: the dimension a short key names, if any. */
  function KeyToDimension(key: string): (r: Option<Dimension>)
    ensures r.Some? ==> ShortKey(r.value) == key
    ensures r.None? ==> forall d :: ShortKey(d) != key
  {
    if key == "personality" then Some(Personality)
    else if key == "interests" then Some(Interests)
    else if key == "communication" then Some(Communication)
    else if key == "emotional" then Some(Emotional)
    else if key == "behavior" then Some(Behavior)
    else if key == "values" then Some(Values)
    else if key == "relationship" then Some(Relationship)
    else if key == "growth" then Some(Growth)
    else None
  }

  /** The eight text fields of a profile. */
  datatype Dims = Dims(
    personality: string, interests: string, communication: string, emotional: string,
    behavior: string, values: string, relationship: string, growth: string)
  {
    function Get(d: Dimension): string {
      match d
      case Personality => personality
      case Interests => interests
      case Communication => communication
      case Emotional => emotional
      case Behavior => behavior
      case Values => values
      case Relationship => relationship
      case Growth => growth
    }

    /** The same fields with dimension `d` replaced by `c` and nothing else changed. */
    function With(d: Dimension, c: string): (r: Dims)
      ensures r.Get(d) == c
      ensures forall e :: e != d ==> r.Get(e) == Get(e)
    {
      match d
      case Personality => this.(personality := c)
      case Interests => this.(interests := c)
      case Communication => this.(communication := c)
      case Emotional => this.(emotional := c)
      case Behavior => this.(behavior := c)
      case Values => this.(values := c)
      case Relationship => this.(relationship := c)
      case Growth => this.(growth := c)
    }
  }

  const EmptyDims: Dims := Dims("", "", "", "", "", "", "", "")

  /** One row of the `user_impressions` table. */
  datatype ProfileRow = ProfileRow(
    userId: string, dims: Dims, affectionScore: real, affectionLevel: string,
    messageCount: int, lastInteraction: nat, createdAt: nat, updatedAt: nat)

  const DefaultAffectionScore: real := 50.0
  const DefaultAffectionLevel: string := "一般"

  /** The row a new profile starts as: the column defaults, every timestamp `now`. */
  function NewProfileRow(userId: string, now: nat): ProfileRow {
    ProfileRow(userId, EmptyDims, DefaultAffectionScore, DefaultAffectionLevel, 0, now, now, now)
  }

  /** `get_dimension`'s lookup: the field a known key names, `""` for any other key. */
  function Lookup(dims: Dims, key: string): (r: string)
    ensures KeyToDimension(key).None? ==> r == ""
  {
    match KeyToDimension(key)
    case Some(d) => dims.Get(d)
    case None => ""
  }

  /** Reading a dimension back by its key gives what was last written to it, and
      writing one dimension leaves every other key reading as before. */
  lemma SetThenGet(dims: Dims, d: Dimension, c: string, key: string)
    ensures Lookup(dims.With(d, c), ShortKey(d)) == c
    ensures key != ShortKey(d) ==> Lookup(dims.With(d, c), key) == Lookup(dims, key)
  {
    assert KeyToDimension(ShortKey(d)) == Some(d);
  }

  // ---------------------------------------------------------------------------------
  // The summary line
  // ---------------------------------------------------------------------------------

  function Segment(dims: Dims, d: Dimension): string {
    SummaryLabel(d) + ": " + dims.Get(d)
  }

  /** The labelled segments of the non-blank dimensions among `ds`, in the order of `ds`. */
  function SegmentsOver(dims: Dims, ds: seq<Dimension>): seq<string> {
    if ds == [] then []
    else (if Blank(dims.Get(ds[0])) then [] else [Segment(dims, ds[0])]) + SegmentsOver(dims, ds[1..])
  }

  const NoImpressionData: string := "暂无印象数据"

  /** `get_impression_summary`. */
  function SummaryOf(dims: Dims): string {
    var segs := SegmentsOver(dims, AllDimensions);
    if segs == [] then NoImpressionData else Join(segs, " | ")
  }

  /** A segment names its dimension in its first character. */
  lemma SegmentHead(dims: Dims, d: Dimension, e: Dimension)
    requires Segment(dims, d) == Segment(dims, e)
    ensures d == e
  {
    assert Segment(dims, d)[0] == SummaryLabel(d)[0];
    assert Segment(dims, e)[0] == SummaryLabel(e)[0];
  }

  /** A dimension's segment is listed exactly when the dimension is non-blank. */
  lemma {:induction false} SegmentsOverMembers(dims: Dims, ds: seq<Dimension>, d: Dimension)
    requires d in ds
    ensures Segment(dims, d) in SegmentsOver(dims, ds) <==> !Blank(dims.Get(d))
  {
    var head := if Blank(dims.Get(ds[0])) then [] else [Segment(dims, ds[0])];
    var rest := SegmentsOver(dims, ds[1..]);
    assert SegmentsOver(dims, ds) == head + rest;
    if ds[0] == d {
      if d in ds[1..] {
        SegmentsOverMembers(dims, ds[1..], d);
      } else {
        SegmentsOverOthers(dims, ds[1..], d);
      }
    } else {
      SegmentsOverMembers(dims, ds[1..], d);
      if Segment(dims, d) in head {
        SegmentHead(dims, d, ds[0]);
      }
    }
  }

  /** No segment of another dimension is taken for `d`'s. */
  lemma {:induction false} SegmentsOverOthers(dims: Dims, ds: seq<Dimension>, d: Dimension)
    requires d !in ds
    ensures Segment(dims, d) !in SegmentsOver(dims, ds)
  {
    if ds != [] {
      SegmentsOverOthers(dims, ds[1..], d);
      if !Blank(dims.Get(ds[0])) && Segment(dims, d) == Segment(dims, ds[0]) {
        SegmentHead(dims, d, ds[0]);
      }
    }
  }

  /** No segments at all exactly when every dimension in `ds` is blank. */
  lemma {:induction false} SegmentsOverEmpty(dims: Dims, ds: seq<Dimension>)
    ensures SegmentsOver(dims, ds) == [] <==> forall k :: 0 <= k < |ds| ==> Blank(dims.Get(ds[k]))
  {
    if ds != [] {
      var head := if Blank(dims.Get(ds[0])) then [] else [Segment(dims, ds[0])];
      var rest := SegmentsOver(dims, ds[1..]);
      assert SegmentsOver(dims, ds) == head + rest;
      SegmentsOverEmpty(dims, ds[1..]);
      if forall k :: 0 <= k < |ds| ==> Blank(dims.Get(ds[k])) {
        forall k | 0 <= k < |ds| - 1 ensures Blank(dims.Get(ds[1..][k])) {
          assert ds[1..][k] == ds[k + 1];
        }
        assert head == [] && rest == [];
      } else if head == [] {
        var k :| 0 <= k < |ds| && !Blank(dims.Get(ds[k]));
        assert ds[1..][k - 1] == ds[k];
        assert rest != [];
      }
    }
  }

  lemma AllDimensionsListed(d: Dimension)
    ensures d in AllDimensions
  {
    match d
    case Personality => assert AllDimensions[0] == d;
    case Interests => assert AllDimensions[1] == d;
    case Communication => assert AllDimensions[2] == d;
    case Emotional => assert AllDimensions[3] == d;
    case Behavior => assert AllDimensions[4] == d;
    case Values => assert AllDimensions[5] == d;
    case Relationship => assert AllDimensions[6] == d;
    case Growth => assert AllDimensions[7] == d;
  }

  /** The summary lists the segment of a dimension iff that dimension is non-blank. */
  lemma SummaryLists(dims: Dims, d: Dimension)
    ensures Segment(dims, d) in SegmentsOver(dims, AllDimensions) <==> !Blank(dims.Get(d))
  {
    AllDimensionsListed(d);
    SegmentsOverMembers(dims, AllDimensions, d);
  }

  /** `SummaryLists` for every dimension at once. */
  lemma SummaryListsAll(dims: Dims)
    ensures forall d :: Segment(dims, d) in SegmentsOver(dims, AllDimensions) <==> !Blank(dims.Get(d))
  {
    forall d ensures Segment(dims, d) in SegmentsOver(dims, AllDimensions) <==> !Blank(dims.Get(d)) {
      SummaryLists(dims, d);
    }
  }

  /** The summary is the placeholder exactly when all eight dimensions are blank. */
  lemma SummaryPlaceholder(dims: Dims)
    ensures SummaryOf(dims) == NoImpressionData <==> forall e :: Blank(dims.Get(e))
  {
    if forall e :: Blank(dims.Get(e)) {
      SegmentsOverEmpty(dims, AllDimensions);
    } else {
      var e :| !Blank(dims.Get(e));
      SummaryNotPlaceholder(dims, e);
    }
  }

  lemma SummaryNotPlaceholder(dims: Dims, e: Dimension)
    requires !Blank(dims.Get(e))
    ensures SummaryOf(dims) != NoImpressionData
  {
    var segs := SegmentsOver(dims, AllDimensions);
    SummaryLists(dims, e);
    assert segs != [];
    var f := SegmentOwner(dims, AllDimensions, segs[0]);
    LabelHead(f);
    var tag := SummaryLabel(f);
    assert segs[0] == tag + ": " + dims.Get(f);
    assert segs[0][0] == tag[0];
    JoinHead(segs, " | ");
    assert SummaryOf(dims) == Join(segs, " | ");
  }

  /** No summary label starts like the placeholder. */
  lemma LabelHead(d: Dimension)
    ensures |SummaryLabel(d)| >= 2 && SummaryLabel(d)[0] != NoImpressionData[0]
  {
  }

  /** Every listed segment is the segment of some dimension of `ds`. */
  lemma {:induction false} SegmentOwner(dims: Dims, ds: seq<Dimension>, s: string) returns (d: Dimension)
    requires s in SegmentsOver(dims, ds)
    ensures s == Segment(dims, d)
  {
    if !Blank(dims.Get(ds[0])) && s == Segment(dims, ds[0]) {
      d := ds[0];
    } else {
      d := SegmentOwner(dims, ds[1..], s);
    }
  }

  /** A join starts with the first part. */
  lemma JoinHead(parts: seq<string>, sep: string)
    requires parts != [] && parts[0] != []
    ensures Join(parts, sep) != [] && Join(parts, sep)[0] == parts[0][0]
  {
  }

  // ---------------------------------------------------------------------------------
  // The record object
  // ---------------------------------------------------------------------------------

  /** A loaded `UserImpression`: changes to its fields reach the table only when the
      row is saved. */
  class UserImpression {
    var userId: string
    var dims: Dims
    var affectionScore: real
    var affectionLevel: string
    var messageCount: int
    var lastInteraction: nat
    var createdAt: nat
    var updatedAt: nat

    function Row(): ProfileRow
      reads this
    {
      ProfileRow(userId, dims, affectionScore, affectionLevel, messageCount, lastInteraction, createdAt, updatedAt)
    }

    /** A new profile: every dimension empty, affection 50.0 and `一般`, no messages. */
    constructor (userId: string, now: nat)
      ensures Row() == NewProfileRow(userId, now)
      ensures dims == EmptyDims && affectionScore == 50.0 && affectionLevel == "一般" && messageCount == 0
    {
      this.userId := userId;
      dims := EmptyDims;
      affectionScore := DefaultAffectionScore;
      affectionLevel := DefaultAffectionLevel;
      messageCount := 0;
      lastInteraction := now;
      createdAt := now;
      updatedAt := now;
    }

    /** The object a query returns for a stored row. */
    constructor Load(row: ProfileRow)
      ensures Row() == row
    {
      userId := row.userId;
      dims := row.dims;
      affectionScore := row.affectionScore;
      affectionLevel := row.affectionLevel;
      messageCount := row.messageCount;
      lastInteraction := row.lastInteraction;
      createdAt := row.createdAt;
      updatedAt := row.updatedAt;
    }

    /** `update_timestamps`. */
    method UpdateTimestamps(now: nat)
      modifies this
      ensures Row() == old(Row()).(updatedAt := now)
    {
      updatedAt := now;
    }

    /** `set_dimension`: a known short key replaces that one field and touches
        `updated_at`; any other key raises `ValueError` and changes nothing. */
    method SetDimension(dimension: string, content: string, now: nat) returns (error: Option<string>)
      modifies this
      ensures KeyToDimension(dimension).None? ==> error == Some("未知维度: " + dimension) && Row() == old(Row())
      ensures KeyToDimension(dimension).Some? ==> (error.None?
        && Row() == old(Row()).(dims := old(dims).With(KeyToDimension(dimension).value, content), updatedAt := now))
    {
      var d := KeyToDimension(dimension);
      if d.Some? {
        dims := dims.With(d.value, content);
        UpdateTimestamps(now);
        error := None;
      } else {
        error := Some("未知维度: " + dimension);
      }
    }

    /** `get_dimension`. */
    function GetDimension(dimension: string): (r: string)
      reads this
      ensures r == Lookup(dims, dimension)
      ensures KeyToDimension(dimension).Some? ==> r == dims.Get(KeyToDimension(dimension).value)
      ensures KeyToDimension(dimension).None? ==> r == ""
    {
      Lookup(dims, dimension)
    }

    /** `get_impression_summary`. */
    function Summary(): (r: string)
      reads this
      ensures r == SummaryOf(dims)
      ensures r == NoImpressionData <==> forall e :: Blank(dims.Get(e))
      ensures forall d :: Segment(dims, d) in SegmentsOver(dims, AllDimensions) <==> !Blank(dims.Get(d))
    {
      SummaryPlaceholder(dims);
      SummaryListsAll(dims);
      SummaryOf(dims)
    }
  }
}
