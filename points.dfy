/** The "Points" fields of the advisory embeds: the area's polygon, cut into
    groups of at most 40 points, one field per group, numbered afresh in each. */
module PointFields {
  import opened Text
  import opened Embeds
  import opened Chunk

  /** A polygon vertex, with its coordinates as printed. */
  datatype Point = Point(latitude: string, longitude: string)

  /** The most points one field holds. */
  const PointsPerField: nat := 40

  /** "{n}. {latitude}, {longitude}". */
  function PointLine(n: nat, p: Point): (line: string)
    ensures var num := NatToString(n); |line| >= |num| + 2 && line[..|num| + 2] == num + ". "
    ensures '\n' !in p.latitude && '\n' !in p.longitude ==> '\n' !in line
  {
    NatToString(n) + ". " + p.latitude + ", " + p.longitude
  }

  /** One line per point of the group, numbered from 1. */
  function NumberedLines(group: seq<Point>): (lines: seq<string>)
    ensures |lines| == |group|
    ensures forall k :: 0 <= k < |group| ==> lines[k] == PointLine(k + 1, group[k])
  {
    seq(|group|, k requires 0 <= k < |group| => PointLine(k + 1, group[k]))
  }

  /** The fields `chunks.forEach` adds: one "Points" field per group of 40. */
  function PointsFields(points: seq<Point>): (fs: seq<Field>)
    ensures |fs| == CeilDiv(|points|, PointsPerField)
    ensures |points| == 0 <==> fs == []
    ensures forall j :: 0 <= j < |fs| ==> fs[j].name == "Points"
    ensures forall j :: 0 <= j < |fs| ==>
      fs[j].value == Join(NumberedLines(Bulks(points, PointsPerField)[j]), '\n')
  {
    var groups := Bulks(points, PointsPerField);
    BulkCount(points, PointsPerField);
    seq(|groups|, j requires 0 <= j < |groups| => Field("Points", Join(NumberedLines(groups[j]), '\n')))
  }

  /** Appends the "Points" fields to the embed under construction, as the
      handlers do when the area has any points. */
  method AddPointsFields(embed: EmbedBuilder, points: seq<Point>)
    modifies embed
    ensures embed.fields == old(embed.fields) + PointsFields(points)
    ensures embed.title == old(embed.title)
  {
    if |points| > 0 {
      var chunks := SplitToBulks(points, PointsPerField);
      for j := 0 to |chunks|
        invariant embed.fields == old(embed.fields) + PointsFields(points)[..j]
        invariant embed.title == old(embed.title)
      {
        embed.AddField("Points", Join(NumberedLines(chunks[j]), '\n'));
        assert PointsFields(points)[..j + 1] == PointsFields(points)[..j] + [PointsFields(points)[j]];
      }
      assert PointsFields(points)[..|chunks|] == PointsFields(points);
    }
  }

  /** Each "Points" field has at most 40 lines, each numbered from 1 within
      its field, provided no coordinate contains a line break. */
  lemma PointsFieldLines(points: seq<Point>, j: nat)
    requires forall k :: 0 <= k < |points| ==> '\n' !in points[k].latitude && '\n' !in points[k].longitude
    requires j < |PointsFields(points)|
    ensures var group := Bulks(points, PointsPerField)[j];
      && Split(PointsFields(points)[j].value, '\n') == NumberedLines(group)
      && 1 <= |NumberedLines(group)| <= PointsPerField
  {
    var group := Bulks(points, PointsPerField)[j];
    BulkSizes(points, PointsPerField, j);
    BulkCount(points, PointsPerField);
    var lines := NumberedLines(group);
    forall k | 0 <= k < |lines|
      ensures '\n' !in lines[k]
    {
      var p := group[k];
      assert p == points[j * PointsPerField + k];
      var num := NatToString(k + 1);
      assert '\n' !in num;
      assert lines[k] == NatToString(k + 1) + ". " + p.latitude + ", " + p.longitude;
    }
    SplitJoin(lines, '\n');
  }

  /** The groups behind the "Points" fields, taken in order, hold every point
      exactly once and in the original order. */
  lemma PointsCoverAll(points: seq<Point>)
    ensures Flatten(Bulks(points, PointsPerField)) == points
    ensures |PointsFields(points)| == |Bulks(points, PointsPerField)|
  {
    FlattenBulks(points, PointsPerField);
  }
}
