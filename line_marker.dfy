/**
 * LineMarkerImpl: a polyline marker with stroke width, stroke colour and a depth-test flag,
 * loaded from and saved to a configuration node, with an unsaved-changes flag.
 */
module LineMarkers {
  import opened Results
  import opened ConfigTree
  import opened Geometry

  /** The colour a new marker gets: opaque-ish red. */
  const DefaultColor := Color(255, 0, 0, 200)

  // ---------------------------------------------------------------------------------------------
  // Decoding

  /** readLinePos: a point needs all of x, y and z; each is read as a double. */
  function ReadLinePos(n: Node): (r: Result<Vector3d>)
    ensures r.Err? <==>
      IsVirtual(Get(Some(n), "x")) || IsVirtual(Get(Some(n), "y")) || IsVirtual(Get(Some(n), "z"))
    ensures r.Err? ==> r.error == MissingCoordinate
  {
    var nx, ny, nz := Get(Some(n), "x"), Get(Some(n), "y"), Get(Some(n), "z");
    if IsVirtual(nx) || IsVirtual(ny) || IsVirtual(nz) then Err(MissingCoordinate)
    else Ok(Vector3d(GetReal(nx, 0.0), GetReal(ny, 0.0), GetReal(nz, 0.0)))
  }

  /** The points of a list of point nodes, in order, or the failure of the first bad one. */
  function DecodePoints(items: seq<Node>): (r: Result<Line>)
    ensures r.Ok? <==> forall i :: 0 <= i < |items| ==> ReadLinePos(items[i]).Ok?
    ensures r.Ok? ==> |r.value| == |items|
    ensures r.Ok? ==> forall i :: 0 <= i < |items| ==> ReadLinePos(items[i]) == Ok(r.value[i])
    ensures r.Err? ==> r.error == MissingCoordinate
  {
    if items == [] then Ok([])
    else
      var init, last := items[..|items| - 1], items[|items| - 1];
      match DecodePoints(init)
      case Err(e) => Err(e)
      case Ok(points) =>
        match ReadLinePos(last)
        case Err(e) => Err(e)
        case Ok(p) => Ok(points + [p])
  }

  /**
   * readLine on the node getNode("line") returns: fewer than 3 list entries is an error,
   * otherwise one point per entry, in order, unless an entry lacks a coordinate.
   */
  function DecodeLine(lineNode: Option<Node>): (r: Result<Line>)
    ensures |ChildrenList(lineNode)| < 3 ==> r == Err(TooFewPoints)
    ensures r.Ok? <==>
      |ChildrenList(lineNode)| >= 3 &&
      forall i :: 0 <= i < |ChildrenList(lineNode)| ==> ReadLinePos(ChildrenList(lineNode)[i]).Ok?
    ensures r.Ok? ==> |r.value| == |ChildrenList(lineNode)|
    ensures r.Ok? ==> forall i :: 0 <= i < |r.value| ==>
      ReadLinePos(ChildrenList(lineNode)[i]) == Ok(r.value[i])
  {
    var items := ChildrenList(lineNode);
    if |items| < 3 then Err(TooFewPoints) else DecodePoints(items)
  }

  /** readLine: fills an array of points one list entry at a time. */
  method ReadLine(lineNode: Option<Node>) returns (r: Result<Line>)
    ensures r == DecodeLine(lineNode)
  {
    var posNodes := ChildrenList(lineNode);
    if |posNodes| < 3 {
      return Err(TooFewPoints);
    }
    var positions := new Vector3d[|posNodes|];
    var i := 0;
    while i < positions.Length
      invariant 0 <= i <= positions.Length == |posNodes|
      invariant forall k :: 0 <= k < i ==> ReadLinePos(posNodes[k]) == Ok(positions[k])
    {
      var pos := ReadLinePos(posNodes[i]);
      if pos.Err? {
        return Err(pos.error);
      }
      positions[i] := pos.value;
      i := i + 1;
    }
    var decoded := DecodePoints(posNodes);
    assert decoded.Ok?;
    assert decoded.value == positions[..];
    r := Ok(positions[..]);
  }

  /**
   * readColor: r, g and b must be present; alpha defaults to 1 and must lie in [0, 1]; the
   * colour is built from the integer channels and alpha * 255 truncated, and java.awt.Color
   * rejects a channel outside 0..255.
   */
  function ReadColor(c: Option<Node>): (r: Result<Color>)
    ensures IsVirtual(Get(c, "r")) || IsVirtual(Get(c, "g")) || IsVirtual(Get(c, "b")) ==>
      r == Err(MissingColorChannel)
    ensures (&& !IsVirtual(Get(c, "r")) && !IsVirtual(Get(c, "g")) && !IsVirtual(Get(c, "b"))
             && !(0.0 <= GetReal(Get(c, "a"), 1.0) <= 1.0)) ==> r == Err(AlphaOutOfRange)
    ensures r.Ok? <==>
      && !IsVirtual(Get(c, "r")) && !IsVirtual(Get(c, "g")) && !IsVirtual(Get(c, "b"))
      && 0.0 <= GetReal(Get(c, "a"), 1.0) <= 1.0
      && 0 <= GetInt(Get(c, "r"), 0) <= 255
      && 0 <= GetInt(Get(c, "g"), 0) <= 255
      && 0 <= GetInt(Get(c, "b"), 0) <= 255
    ensures (&& !IsVirtual(Get(c, "r")) && !IsVirtual(Get(c, "g")) && !IsVirtual(Get(c, "b"))
             && 0.0 <= GetReal(Get(c, "a"), 1.0) <= 1.0
             && !(&& 0 <= GetInt(Get(c, "r"), 0) <= 255
                  && 0 <= GetInt(Get(c, "g"), 0) <= 255
                  && 0 <= GetInt(Get(c, "b"), 0) <= 255)) ==> r == Err(ChannelOutOfRange)
    ensures r.Err? ==> r.error in {MissingColorChannel, AlphaOutOfRange, ChannelOutOfRange}
    ensures r.Ok? ==>
      && r.value.red == GetInt(Get(c, "r"), 0)
      && r.value.green == GetInt(Get(c, "g"), 0)
      && r.value.blue == GetInt(Get(c, "b"), 0)
      && r.value.alpha == (GetReal(Get(c, "a"), 1.0) * 255.0).Floor
  {
    var nr, ng, nb, na := Get(c, "r"), Get(c, "g"), Get(c, "b"), Get(c, "a");
    if IsVirtual(nr) || IsVirtual(ng) || IsVirtual(nb) then Err(MissingColorChannel)
    else
      var alpha := GetReal(na, 1.0);
      if alpha < 0.0 || alpha > 1.0 then Err(AlphaOutOfRange)
      else
        var red, green, blue, a := GetInt(nr, 0), GetInt(ng, 0), GetInt(nb, 0), (alpha * 255.0).Floor;
        if 0 <= red <= 255 && 0 <= green <= 255 && 0 <= blue <= 255 && 0 <= a <= 255
        then Ok(Color(red, green, blue, a))
        else Err(ChannelOutOfRange)
  }

  // ---------------------------------------------------------------------------------------------
  // Encoding

  /** The list entry writeLine appends for one point: x, y and z rounded to 3 decimals. */
  function PointNode(p: Vector3d): (r: Node)
    ensures ReadLinePos(r) == Ok(RoundPoint(p))
  {
    Fields(map["x" := Leaf(RealValue(Round3(p.x))),
               "y" := Leaf(RealValue(Round3(p.y))),
               "z" := Leaf(RealValue(Round3(p.z)))])
  }

  /** The entries writeLine appends for a line: one per point, each reading back as the rounded point. */
  function PointNodes(line: Line): (r: seq<Node>)
    ensures |r| == |line|
    ensures forall i :: 0 <= i < |line| ==> ReadLinePos(r[i]) == Ok(RoundPoint(line[i]))
  {
    seq(|line|, i requires 0 <= i < |line| => PointNode(line[i]))
  }

  /** The entries written for two lines back to back are those of each line, in turn. */
  lemma PointNodesAppend(a: Line, b: Line)
    ensures PointNodes(a + b) == PointNodes(a) + PointNodes(b)
  {
  }

  /**
   * The line node after writeLine: one entry appended per point, after the entries it already
   * held; with no points nothing is appended and the node is as it was.
   */
  function AppendedPoints(lineNode: Node, line: Line): Node {
    if line == [] then lineNode else Items(ChildrenList(Some(lineNode)) + PointNodes(line))
  }

  /** One step of writeLine: appending the next point's entry extends the written prefix by that point. */
  lemma AppendOnePoint(lineNode: Node, done: Line, p: Vector3d)
    ensures AppendItem(AppendedPoints(lineNode, done), PointNode(p)) == AppendedPoints(lineNode, done + [p])
  {
    PointNodesAppend(done, [p]);
    var before := AppendedPoints(lineNode, done);
    assert ChildrenList(Some(before)) == ChildrenList(Some(lineNode)) + PointNodes(done);
    assert ChildrenList(Some(AppendItem(before, PointNode(p))))
        == ChildrenList(Some(lineNode)) + PointNodes(done + [p]);
  }

  /** writeLine: appends the points to the list node one at a time. */
  method WriteLine(lineNode: Node, line: Line) returns (written: Node)
    ensures written == AppendedPoints(lineNode, line)
    ensures ChildrenList(Some(written)) == ChildrenList(Some(lineNode)) + PointNodes(line)
  {
    written := lineNode;
    var i := 0;
    while i < |line|
      invariant 0 <= i <= |line|
      invariant written == AppendedPoints(lineNode, line[..i])
    {
      assert line[..i + 1] == line[..i] + [line[i]];
      AppendOnePoint(lineNode, line[..i], line[i]);
      written := AppendItem(written, PointNode(line[i]));
      i := i + 1;
    }
    assert line[..i] == line;
  }

  /** writeColor: r, g and b as integers, a as the fraction alpha / 255. */
  function WriteColor(n: Node, color: Color): (r: Node)
    ensures ReadColor(Some(r)) == Ok(color)
  {
    var n1 := SetChild(n, "r", Leaf(IntValue(color.red)));
    var n2 := SetChild(n1, "g", Leaf(IntValue(color.green)));
    var n3 := SetChild(n2, "b", Leaf(IntValue(color.blue)));
    SetChild(n3, "a", Leaf(RealValue(color.alpha as real / 255.0)))
  }

  /** The marker node after save has written this type's fields (the base class's keys aside). */
  function SaveFields(markerNode: Node, line: Line, depthTest: bool, lineWidth: int, lineColor: Color): Node {
    var n1 :=
      if line == [] then markerNode
      else SetChild(markerNode, "line", AppendedPoints(OrEmpty(Get(Some(markerNode), "line")), line));
    var n2 := SetChild(n1, "depthTest", Leaf(BoolValue(depthTest)));
    var n3 := SetChild(n2, "lineWidth", Leaf(IntValue(lineWidth)));
    SetChild(n3, "lineColor", WriteColor(OrEmpty(Get(Some(n3), "lineColor")), lineColor))
  }

  // ---------------------------------------------------------------------------------------------
  // The marker

  class LineMarker {
    var line: Line
    var depthTest: bool
    var lineWidth: int
    var lineColor: Color
    var hasUnsavedChanges: bool

    /** A new marker: width 2, colour (255, 0, 0, 200), depth test off, unsaved. */
    constructor (line: Line)
      ensures this.line == line
      ensures !depthTest && lineWidth == 2 && lineColor == DefaultColor
      ensures hasUnsavedChanges
    {
      this.line := line;
      this.depthTest := false;
      this.lineWidth := 2;
      this.lineColor := DefaultColor;
      this.hasUnsavedChanges := true;
    }

    /** The constructor's null check: a null line yields no marker. */
    static method Create(line: Option<Line>) returns (m: LineMarker?)
      ensures line.None? <==> m == null
      ensures m != null ==> fresh(m) && m.line == line.value && !m.depthTest && m.lineWidth == 2
      ensures m != null ==> m.lineColor == DefaultColor && m.hasUnsavedChanges
    {
      if line.None? {
        return null;
      }
      m := new LineMarker(line.value);
    }

    method SetLine(line: Option<Line>) returns (r: Outcome)
      modifies this`line, this`hasUnsavedChanges
      ensures line.None? ==> r == Fail(NullPointer) && unchanged(this)
      ensures line.Some? ==> r == Pass && this.line == line.value && hasUnsavedChanges
    {
      if line.None? {
        return Fail(NullPointer);
      }
      this.line := line.value;
      hasUnsavedChanges := true;
      r := Pass;
    }

    method SetDepthTestEnabled(enabled: bool)
      modifies this`depthTest, this`hasUnsavedChanges
      ensures depthTest == enabled && hasUnsavedChanges
    {
      depthTest := enabled;
      hasUnsavedChanges := true;
    }

    method SetLineWidth(lineWidth: int)
      modifies this`lineWidth, this`hasUnsavedChanges
      ensures this.lineWidth == lineWidth && hasUnsavedChanges
    {
      this.lineWidth := lineWidth;
      hasUnsavedChanges := true;
    }

    method SetLineColor(color: Option<Color>) returns (r: Outcome)
      modifies this`lineColor, this`hasUnsavedChanges
      ensures color.None? ==> r == Fail(NullPointer) && unchanged(this)
      ensures color.Some? ==> r == Pass && lineColor == color.value && hasUnsavedChanges
    {
      if color.None? {
        return Fail(NullPointer);
      }
      lineColor := color.value;
      hasUnsavedChanges := true;
      r := Pass;
    }

    /**
     * load: baseOk says whether the base class's load succeeded. Unsaved changes are kept unless
     * overwriteChanges; otherwise the flag is cleared first and the fields are read one by one, so
     * a failure part-way leaves the fields read before it in place.
     */
    method Load(baseOk: bool, markerNode: Node, overwriteChanges: bool) returns (r: Outcome)
      modifies this
      ensures !baseOk ==> r == Fail(BaseLoadFailed) && unchanged(this)
      ensures baseOk && !overwriteChanges && old(hasUnsavedChanges) ==> r == Pass && unchanged(this)
      ensures baseOk && (overwriteChanges || !old(hasUnsavedChanges)) ==>
        var decodedLine := DecodeLine(Get(Some(markerNode), "line"));
        var decodedColor := ReadColor(Get(Some(markerNode), "lineColor"));
        && !hasUnsavedChanges
        && (decodedLine.Err? ==>
              && r == Fail(decodedLine.error)
              && line == old(line) && depthTest == old(depthTest)
              && lineWidth == old(lineWidth) && lineColor == old(lineColor))
        && (decodedLine.Ok? ==>
              && line == decodedLine.value
              && depthTest == GetBool(Get(Some(markerNode), "depthTest"), true)
              && lineWidth == GetInt(Get(Some(markerNode), "lineWidth"), 2)
              && (decodedColor.Err? ==> r == Fail(decodedColor.error) && lineColor == old(lineColor))
              && (decodedColor.Ok? ==> r == Pass && lineColor == decodedColor.value))
    {
      if !baseOk {
        return Fail(BaseLoadFailed);
      }
      if !overwriteChanges && hasUnsavedChanges {
        return Pass;
      }
      hasUnsavedChanges := false;

      var decodedLine := ReadLine(Get(Some(markerNode), "line"));
      if decodedLine.Err? {
        return Fail(decodedLine.error);
      }
      line := decodedLine.value;
      depthTest := GetBool(Get(Some(markerNode), "depthTest"), true);
      lineWidth := GetInt(Get(Some(markerNode), "lineWidth"), 2);
      var decodedColor := ReadColor(Get(Some(markerNode), "lineColor"));
      if decodedColor.Err? {
        return Fail(decodedColor.error);
      }
      lineColor := decodedColor.value;
      r := Pass;
    }

    /** save: writes every field into the node and clears the flag. */
    method Save(markerNode: Node) returns (saved: Node)
      modifies this`hasUnsavedChanges
      ensures saved == SaveFields(markerNode, line, depthTest, lineWidth, lineColor)
      ensures !hasUnsavedChanges
    {
      var lineNode := WriteLine(OrEmpty(Get(Some(markerNode), "line")), line);
      // with no points nothing is appended and the line key is left as it was
      saved := if line == [] then markerNode else SetChild(markerNode, "line", lineNode);
      saved := SetChild(saved, "depthTest", Leaf(BoolValue(depthTest)));
      saved := SetChild(saved, "lineWidth", Leaf(IntValue(lineWidth)));
      saved := SetChild(saved, "lineColor", WriteColor(OrEmpty(Get(Some(saved), "lineColor")), lineColor));
      hasUnsavedChanges := false;
    }
  }

  // ---------------------------------------------------------------------------------------------
  // Properties of save followed by load

  /** The point entries save writes decode to the rounded points, one per entry. */
  lemma DecodePointNodes(line: Line)
    ensures DecodePoints(PointNodes(line)) == Ok(Rounded(line))
  {
    var items := PointNodes(line);
    forall i | 0 <= i < |items| ensures ReadLinePos(items[i]) == Ok(Rounded(line)[i]) {
      assert items[i] == PointNode(line[i]);
    }
    var decoded := DecodePoints(items);
    assert decoded.Ok?;
    assert decoded.value == Rounded(line);
  }

  /** A line node whose entries are those written for a line loads as the rounded line, given 3 or more points. */
  lemma DecodeWrittenLine(lineNode: Option<Node>, line: Line)
    requires ChildrenList(lineNode) == PointNodes(line)
    ensures DecodeLine(lineNode) == if |line| < 3 then Err(TooFewPoints) else Ok(Rounded(line))
  {
    DecodePointNodes(line);
  }

  /** Saving appends one entry per point, in order, after whatever entries the line node already held. */
  lemma SaveAppendsPoints(markerNode: Node, line: Line, depthTest: bool, lineWidth: int, lineColor: Color)
    ensures ChildrenList(Get(Some(SaveFields(markerNode, line, depthTest, lineWidth, lineColor)), "line"))
         == ChildrenList(Get(Some(markerNode), "line")) + PointNodes(line)
  {
  }

  /** After save, depthTest and lineWidth hold the fields and lineColor reads back as the colour. */
  lemma SavedScalars(markerNode: Node, line: Line, depthTest: bool, lineWidth: int, lineColor: Color)
    ensures var saved := Some(SaveFields(markerNode, line, depthTest, lineWidth, lineColor));
      && Get(saved, "depthTest") == Some(Leaf(BoolValue(depthTest)))
      && Get(saved, "lineWidth") == Some(Leaf(IntValue(lineWidth)))
      && ReadColor(Get(saved, "lineColor")) == Ok(lineColor)
  {
  }

  /**
   * Round trip: into a node whose line holds no entries yet, save writes what load reads back —
   * the same depth test, width and colour, and the points rounded to 3 decimals; a line of
   * fewer than 3 points is saved but cannot be loaded again.
   */
  lemma SaveThenLoad(markerNode: Node, line: Line, depthTest: bool, lineWidth: int, lineColor: Color)
    requires ChildrenList(Get(Some(markerNode), "line")) == []
    ensures var saved := Some(SaveFields(markerNode, line, depthTest, lineWidth, lineColor));
      && DecodeLine(Get(saved, "line")) == (if |line| < 3 then Err(TooFewPoints) else Ok(Rounded(line)))
      && GetBool(Get(saved, "depthTest"), true) == depthTest
      && GetInt(Get(saved, "lineWidth"), 2) == lineWidth
      && ReadColor(Get(saved, "lineColor")) == Ok(lineColor)
  {
    var saved := Some(SaveFields(markerNode, line, depthTest, lineWidth, lineColor));
    SaveAppendsPoints(markerNode, line, depthTest, lineWidth, lineColor);
    SavedScalars(markerNode, line, depthTest, lineWidth, lineColor);
    assert [] + PointNodes(line) == PointNodes(line);
    DecodeWrittenLine(Get(saved, "line"), line);
  }

  /** The saved coordinates are a fixed point: saving what was loaded and loading it again changes nothing. */
  lemma SecondRoundTripIsExact(markerNode: Node, line: Line, depthTest: bool, lineWidth: int, lineColor: Color)
    requires ChildrenList(Get(Some(markerNode), "line")) == []
    requires |line| >= 3
    ensures DecodeLine(Get(Some(SaveFields(markerNode, Rounded(line), depthTest, lineWidth, lineColor)), "line"))
         == Ok(Rounded(line))
  {
    SaveThenLoad(markerNode, Rounded(line), depthTest, lineWidth, lineColor);
    RoundedIdempotent(line);
  }

  /**
   * Because writeLine appends, saving into a node that already holds this line's saved entries
   * (as a first save into an empty line node leaves it, by SaveAppendsPoints) lists every point
   * twice, and a load then returns the line repeated.
   */
  lemma SaveTwiceDuplicatesPoints(markerNode: Node, line: Line, depthTest: bool, lineWidth: int, lineColor: Color)
    requires ChildrenList(Get(Some(markerNode), "line")) == PointNodes(line)
    requires |line| >= 2
    ensures DecodeLine(Get(Some(SaveFields(markerNode, line, depthTest, lineWidth, lineColor)), "line"))
         == Ok(Rounded(line) + Rounded(line))
  {
    var saved := Some(SaveFields(markerNode, line, depthTest, lineWidth, lineColor));
    SaveAppendsPoints(markerNode, line, depthTest, lineWidth, lineColor);
    PointNodesAppend(line, line);
    DecodeWrittenLine(Get(saved, "line"), line + line);
    assert Rounded(line + line) == Rounded(line) + Rounded(line);
  }

  /**
   * The lifecycle on two markers: saving one into a node without line entries and loading that
   * node into another with overwriteChanges gives the second the first's fields, the points
   * rounded to 3 decimals, and leaves both without unsaved changes.
   */
  method SaveThenReload(source: LineMarker, target: LineMarker, markerNode: Node) returns (saved: Node, outcome: Outcome)
    requires ChildrenList(Get(Some(markerNode), "line")) == []
    requires |source.line| >= 3
    requires source != target
    modifies source, target
    ensures source.line == old(source.line) && source.lineColor == old(source.lineColor)
    ensures source.depthTest == old(source.depthTest) && source.lineWidth == old(source.lineWidth)
    ensures outcome == Pass
    ensures target.line == Rounded(source.line)
    ensures target.depthTest == source.depthTest && target.lineWidth == source.lineWidth
    ensures target.lineColor == source.lineColor
    ensures !source.hasUnsavedChanges && !target.hasUnsavedChanges
  {
    saved := source.Save(markerNode);
    SaveThenLoad(markerNode, source.line, source.depthTest, source.lineWidth, source.lineColor);
    outcome := target.Load(true, saved, true);
  }

  function IntPoint(x: int, y: int, z: int): Node {
    Fields(map["x" := Leaf(IntValue(x)), "y" := Leaf(IntValue(y)), "z" := Leaf(IntValue(z))])
  }

  /**
   * A node with a three-point line and a width but no lineColor: the line, depth test and width
   * decode, and the colour read then fails, so load throws after those fields were assigned.
   */
  lemma LoadWithoutLineColorFails()
    ensures var markerNode := Some(Fields(map[
        "line" := Items([IntPoint(0, 0, 0), IntPoint(1, 0, 0), IntPoint(1, 1, 0)]),
        "lineWidth" := Leaf(IntValue(5))]));
      && DecodeLine(Get(markerNode, "line")) == Ok([Vector3d(0.0, 0.0, 0.0), Vector3d(1.0, 0.0, 0.0), Vector3d(1.0, 1.0, 0.0)])
      && GetBool(Get(markerNode, "depthTest"), true)
      && GetInt(Get(markerNode, "lineWidth"), 2) == 5
      && ReadColor(Get(markerNode, "lineColor")) == Err(MissingColorChannel)
  {
    var markerNode := Some(Fields(map[
        "line" := Items([IntPoint(0, 0, 0), IntPoint(1, 0, 0), IntPoint(1, 1, 0)]),
        "lineWidth" := Leaf(IntValue(5))]));
    var items := ChildrenList(Get(markerNode, "line"));
    assert ReadLinePos(items[0]) == Ok(Vector3d(0.0, 0.0, 0.0));
    assert ReadLinePos(items[1]) == Ok(Vector3d(1.0, 0.0, 0.0));
    assert ReadLinePos(items[2]) == Ok(Vector3d(1.0, 1.0, 0.0));
    var decoded := DecodeLine(Get(markerNode, "line"));
    assert decoded.value == [Vector3d(0.0, 0.0, 0.0), Vector3d(1.0, 0.0, 0.0), Vector3d(1.0, 1.0, 0.0)];
  }
}
