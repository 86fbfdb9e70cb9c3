/**
 * The vertex layout of plotter.h: a `struct point` is a 2-D position in
 * normalized device coordinates followed by an RGB colour, and every
 * buffer is drawn with GL_LINES, so vertices 2i and 2i+1 form segment i.
 * GLfloat values are modelled as exact reals.
 */
module Geometry {

  datatype Color = Color(r: real, g: real, b: real)

  /** `struct point { GLfloat vertex2d[2]; GLfloat color[3]; }` */
  datatype Point = Point(x: real, y: real, color: Color)

  /** One GL_LINES primitive: the line from `from` to `to`. */
  datatype Segment = Segment(from: Point, to: Point)

  /** sizeof(struct point): five 4-byte GLfloats, no padding. */
  const PointSize: nat := 20

  /** Colour of every fifth grid tick. */
  const Highlight: Color := Color(1.0, 0.0, 0.0)
  /** Colour of the remaining grid ticks. */
  const Minor: Color := Color(0.69, 0.4, 0.35)
  /** Colour of the waveform trace. */
  const Black: Color := Color(0.0, 0.0, 0.0)
  /** A vertex as calloc leaves it: all five floats zero. */
  const Origin: Point := Point(0.0, 0.0, Black)

  /** The vertex list that draws `segs` with GL_LINES, segment by segment. */
  function Flatten(segs: seq<Segment>): (vs: seq<Point>)
    ensures |vs| == 2 * |segs|
  {
    if segs == [] then []
    else
      var last := segs[|segs| - 1];
      Flatten(segs[..|segs| - 1]) + [last.from, last.to]
  }

  /** The segments GL_LINES draws from a vertex list; an odd last vertex is ignored. */
  function Lines(vs: seq<Point>): (segs: seq<Segment>)
    ensures |segs| == |vs| / 2
  {
    seq(|vs| / 2, i requires 0 <= i < |vs| / 2 => Segment(vs[2 * i], vs[2 * i + 1]))
  }

  /** Vertices 2i and 2i+1 of a flattened list are the endpoints of segment i. */
  lemma {:induction false} FlattenAt(segs: seq<Segment>, i: nat)
    requires i < |segs|
    ensures |Flatten(segs)| == 2 * |segs|
    ensures Flatten(segs)[2 * i] == segs[i].from
    ensures Flatten(segs)[2 * i + 1] == segs[i].to
  {
    if i < |segs| - 1 {
      FlattenAt(segs[..|segs| - 1], i);
    }
  }

  /** Drawing a flattened list with GL_LINES gives back exactly the segments. */
  lemma LinesOfFlatten(segs: seq<Segment>)
    ensures Lines(Flatten(segs)) == segs
  {
    var vs := Flatten(segs);
    forall i | 0 <= i < |segs|
      ensures Lines(vs)[i] == segs[i]
    {
      FlattenAt(segs, i);
    }
  }

  /** A vertex list whose pairs are the endpoints of `segs`, in order, is their flattening. */
  lemma FlattenFromPairs(vs: seq<Point>, segs: seq<Segment>)
    requires |vs| == 2 * |segs|
    requires forall k :: 0 <= k < |segs| ==> vs[2 * k] == segs[k].from && vs[2 * k + 1] == segs[k].to
    ensures vs == Flatten(segs)
  {
    forall j | 0 <= j < |vs|
      ensures vs[j] == Flatten(segs)[j]
    {
      FlattenAt(segs, j / 2);
    }
  }
}
