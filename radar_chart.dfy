/** The geometry of the SCARF radar chart: one axis per domain, evenly spaced and
    starting at the top, five grid circles, the score polygon and the axis labels.
    Cosine, sine and pi are not computed here: they are passed in as `Trig`, so
    every fact below holds whatever they are. */
module RadarChart {

  import ScarfQuestions

  datatype Trig = Trig(pi: real, cos: real -> real, sin: real -> real)

  datatype Point = Point(x: real, y: real)

  /** One command of the SVG path of the score polygon. */
  datatype PathCommand = MoveTo(p: Point) | LineTo(p: Point) | ClosePath

  const DefaultSize: real := 300.0
  const Levels: nat := 5
  const MaxScore: real := 5.0
  const LabelOffset: real := 30.0

  function Center(size: real): (c: real)
    ensures c + c == size
  {
    size / 2.0
  }

  /** The radius of a full score; `size` is not validated, so small charts get a radius
      of zero or below. */
  function MaxRadius(size: real): (r: real)
    ensures r == Center(size) - 40.0
    ensures r > 0.0 <==> size > 80.0
  {
    (size / 2.0) - 40.0
  }

  /** The radii of the background grid circles, innermost first: evenly spaced fifths of
      the maximum radius. */
  function LevelCircles(size: real): (radii: seq<real>)
    ensures |radii| == Levels
    ensures radii == [0.2 * MaxRadius(size), 0.4 * MaxRadius(size), 0.6 * MaxRadius(size),
                      0.8 * MaxRadius(size), MaxRadius(size)]
    ensures MaxRadius(size) > 0.0 ==> forall i, j :: 0 <= i < j < Levels ==> 0.0 < radii[i] < radii[j]
  {
    var r := seq(Levels, i requires 0 <= i < Levels => ((i + 1) as real / Levels as real) * MaxRadius(size));
    assert r[0] == 0.2 * MaxRadius(size) && r[1] == 0.4 * MaxRadius(size) && r[2] == 0.6 * MaxRadius(size);
    assert r[3] == 0.8 * MaxRadius(size) && r[4] == MaxRadius(size);
    r
  }

  /** The angle of axis `index` of `n`: index 0 points up, the others follow at equal steps. */
  function Angle(trig: Trig, n: nat, index: int): (a: real)
    requires n > 0
    ensures index == 0 ==> a == -trig.pi / 2.0
    ensures 4 * index == n ==> a == 0.0
  {
    ((2.0 * trig.pi) / n as real) * index as real - trig.pi / 2.0
  }

  /** Consecutive axes are `2π/n` apart, axis 0 is at `-π/2`, and `n` steps make a full turn. */
  lemma AngleSpacing(trig: Trig, n: nat, index: int)
    requires n > 0
    ensures Angle(trig, n, index + 1) - Angle(trig, n, index) == (2.0 * trig.pi) / n as real
    ensures Angle(trig, n, 0) == -trig.pi / 2.0
    ensures Angle(trig, n, index + n) == Angle(trig, n, index) + 2.0 * trig.pi
  {
    var step := (2.0 * trig.pi) / n as real;
    assert step * (index + 1) as real == step * index as real + step;
    assert step * (index + n) as real == step * index as real + step * n as real;
    assert step * n as real == 2.0 * trig.pi;
  }

  /** The point at distance `radius` from the centre, in direction `angle`. */
  function Polar(trig: Trig, size: real, angle: real, radius: real): (p: Point)
    ensures radius == 0.0 ==> p == Point(Center(size), Center(size))
    ensures p.x - Center(size) == radius * trig.cos(angle) && p.y - Center(size) == radius * trig.sin(angle)
  {
    Point(Center(size) + radius * trig.cos(angle), Center(size) + radius * trig.sin(angle))
  }

  /** The point for `value` on axis `index`. */
  function GetPoint(trig: Trig, size: real, n: nat, index: int, value: real): (p: Point)
    requires n > 0
    ensures value == 0.0 ==> p == Point(Center(size), Center(size))
  {
    Polar(trig, size, Angle(trig, n, index), (value / MaxScore) * MaxRadius(size))
  }

  /** The vertex for any value lies on its axis, at that value's fraction of the way from
      the centre to the axis end: the radius scales linearly with the value. */
  lemma RadiusScaling(trig: Trig, size: real, n: nat, index: nat, value: real)
    requires 0 <= index < n
    ensures GetPoint(trig, size, n, index, value).x - Center(size) ==
      (value / MaxScore) * (AxisLines(trig, size, n)[index].x - Center(size))
    ensures GetPoint(trig, size, n, index, value).y - Center(size) ==
      (value / MaxScore) * (AxisLines(trig, size, n)[index].y - Center(size))
  {
  }

  /** The default 300-pixel chart has a maximum radius of 110 and grid circles every 22. */
  lemma DefaultChartGrid()
    ensures MaxRadius(DefaultSize) == 110.0
    ensures LevelCircles(DefaultSize) == [22.0, 44.0, 66.0, 88.0, 110.0]
  {
  }

  /** The outer end of every axis line. */
  function AxisLines(trig: Trig, size: real, n: nat): (ends: seq<Point>)
    ensures |ends| == n
    ensures forall i :: 0 <= i < n ==> ends[i] == GetPoint(trig, size, n, i, MaxScore)
  {
    seq(n, i requires 0 <= i < n => Polar(trig, size, Angle(trig, n, i), MaxRadius(size)))
  }

  /** The anchor of every domain label: on the axis, `LabelOffset` beyond its end. */
  function LabelPositions(trig: Trig, size: real, n: nat): (anchors: seq<Point>)
    ensures |anchors| == n
    ensures MaxRadius(size) != 0.0 ==> forall i :: 0 <= i < n ==>
      anchors[i] == GetPoint(trig, size, n, i, MaxScore * (MaxRadius(size) + LabelOffset) / MaxRadius(size))
    ensures MaxRadius(size) == 0.0 ==> forall i :: 0 <= i < n ==>
      anchors[i] == Polar(trig, size, Angle(trig, n, i), LabelOffset)
  {
    seq(n, i requires 0 <= i < n => Polar(trig, size, Angle(trig, n, i), MaxRadius(size) + LabelOffset))
  }

  /** `scores[id] || 0`: a domain without a score is plotted as 0. */
  function ScoreOf(scores: map<string, real>, id: string): (v: real)
    ensures id !in scores ==> v == 0.0
    ensures id in scores ==> v == scores[id]
  {
    if id in scores then scores[id] else 0.0
  }

  /** One vertex per domain, in domain order; unscored domains sit at the centre. */
  function ScorePoints(trig: Trig, size: real, domainIds: seq<string>, scores: map<string, real>): (points: seq<Point>)
    ensures |points| == |domainIds|
    ensures forall i :: 0 <= i < |domainIds| ==> points[i] == GetPoint(trig, size, |domainIds|, i, ScoreOf(scores, domainIds[i]))
    ensures forall i :: 0 <= i < |domainIds| && domainIds[i] !in scores ==> points[i] == Point(Center(size), Center(size))
    ensures forall i :: 0 <= i < |domainIds| && ScoreOf(scores, domainIds[i]) == MaxScore ==>
      points[i] == AxisLines(trig, size, |domainIds|)[i]
  {
    var n := |domainIds|;
    seq(n, i requires 0 <= i < n => GetPoint(trig, size, n, i, ScoreOf(scores, domainIds[i])))
  }

  /** The path of the score polygon: move to the first vertex, line to each next one, close. */
  function PolygonPath(points: seq<Point>): (path: seq<PathCommand>)
    ensures |path| == |points| + 1
    ensures path[|points|] == ClosePath
    ensures forall i :: 0 <= i < |points| ==> path[i] == if i == 0 then MoveTo(points[i]) else LineTo(points[i])
  {
    seq(|points|, i requires 0 <= i < |points| => if i == 0 then MoveTo(points[i]) else LineTo(points[i])) + [ClosePath]
  }

  /** The vertices a path visits, in order. */
  function Vertices(path: seq<PathCommand>): seq<Point>
  {
    if path == [] then []
    else match path[0]
      case MoveTo(p) => [p] + Vertices(path[1..])
      case LineTo(p) => [p] + Vertices(path[1..])
      case ClosePath => Vertices(path[1..])
  }

  /** The number of `MoveTo` commands of a path. */
  function Moves(path: seq<PathCommand>): nat
  {
    if path == [] then 0 else (if path[0].MoveTo? then 1 else 0) + Moves(path[1..])
  }

  /** The path visits exactly the given points, in order, and starts a single subpath. */
  lemma PolygonPathVisitsPoints(points: seq<Point>)
    ensures Vertices(PolygonPath(points)) == points
    ensures Moves(PolygonPath(points)) == if points == [] then 0 else 1
  {
    var path := PolygonPath(points);
    CommandsFrom(points, path, 0);
  }

  /** From command `k` on, the path visits `points[k..]`, and only command 0 is a move. */
  lemma {:induction false} CommandsFrom(points: seq<Point>, path: seq<PathCommand>, k: nat)
    requires k <= |points| && path == PolygonPath(points)
    ensures Vertices(path[k..]) == points[k..]
    ensures Moves(path[k..]) == if k == 0 && points != [] then 1 else 0
    decreases |points| - k
  {
    if k == |points| {
      assert path[k..] == [ClosePath];
      assert Vertices(path[k..]) == Vertices(path[k + 1..]);
      assert path[k + 1..] == [];
    } else {
      CommandsFrom(points, path, k + 1);
      assert path[k..][1..] == path[k + 1..];
      assert points[k..] == [points[k]] + points[k + 1..];
    }
  }

  /** The ids of the chart's domains, in declaration order: one axis per domain tag, no
      two axes for the same tag, and an axis for every domain, so for every question. */
  function ScarfDomainIds(): (ids: seq<string>)
    ensures |ids| == 5
    ensures forall i, j :: 0 <= i < j < |ids| ==> ids[i] != ids[j]
    ensures forall d: ScarfQuestions.Domain :: ScarfQuestions.DomainName(d) in ids
  {
    [ScarfQuestions.DomainName(ScarfQuestions.Status), ScarfQuestions.DomainName(ScarfQuestions.Certainty),
     ScarfQuestions.DomainName(ScarfQuestions.Autonomy), ScarfQuestions.DomainName(ScarfQuestions.Relatedness),
     ScarfQuestions.DomainName(ScarfQuestions.Fairness)]
  }

  /** On the SCARF chart there are five vertices, vertex `i` on axis `i` carrying the
      score of the `i`-th domain in declaration order. */
  lemma ScarfChartVertices(trig: Trig, size: real, scores: map<string, real>)
    ensures |ScorePoints(trig, size, ScarfDomainIds(), scores)| == 5
    ensures ScorePoints(trig, size, ScarfDomainIds(), scores)[0] == GetPoint(trig, size, 5, 0, ScoreOf(scores, "status"))
    ensures ScorePoints(trig, size, ScarfDomainIds(), scores)[1] == GetPoint(trig, size, 5, 1, ScoreOf(scores, "certainty"))
    ensures ScorePoints(trig, size, ScarfDomainIds(), scores)[2] == GetPoint(trig, size, 5, 2, ScoreOf(scores, "autonomy"))
    ensures ScorePoints(trig, size, ScarfDomainIds(), scores)[3] == GetPoint(trig, size, 5, 3, ScoreOf(scores, "relatedness"))
    ensures ScorePoints(trig, size, ScarfDomainIds(), scores)[4] == GetPoint(trig, size, 5, 4, ScoreOf(scores, "fairness"))
  {
  }
}
