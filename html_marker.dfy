/**
 * HtmlMarkerImpl: a marker showing free-form HTML at a pixel offset (the anchor), loaded from and
 * saved to a configuration node, with an unsaved-changes flag. Both fields accept null.
 */
module HtmlMarkers {
  import opened Results
  import opened ConfigTree
  import opened Geometry

  /** The anchor a new marker gets. */
  const DefaultAnchor := Vector2i(25, 45)

  /** readAnchor: x and y are read independently, each 0 when absent; it never fails. */
  function ReadAnchor(anchorNode: Option<Node>): (r: Vector2i)
    ensures IsVirtual(Get(anchorNode, "x")) ==> r.x == 0
    ensures IsVirtual(Get(anchorNode, "y")) ==> r.y == 0
    ensures forall v :: Holds(Get(anchorNode, "x"), IntValue(v)) ==> r.x == v
    ensures forall v :: Holds(Get(anchorNode, "y"), IntValue(v)) ==> r.y == v
  {
    Vector2i(GetInt(Get(anchorNode, "x"), 0), GetInt(Get(anchorNode, "y"), 0))
  }

  /** writeAnchor: x and y written as integers; other children of the anchor node are kept. */
  function WriteAnchor(anchorNode: Node, anchor: Vector2i): (r: Node)
    ensures ReadAnchor(Some(r)) == anchor
  {
    SetChild(SetChild(anchorNode, "x", Leaf(IntValue(anchor.x))), "y", Leaf(IntValue(anchor.y)))
  }

  /** The html string load reads: the node's string, or "" when absent. */
  function ReadHtml(markerNode: Node): (r: string)
    ensures IsVirtual(Get(Some(markerNode), "html")) ==> r == ""
    ensures forall s :: Holds(Get(Some(markerNode), "html"), StringValue(s)) ==> r == s
  {
    GetString(Get(Some(markerNode), "html"), "")
  }

  /** getNode("html").setValue(html): a string is stored, null detaches the node. */
  function WriteHtml(markerNode: Node, html: Option<string>): (r: Node)
    ensures html.Some? ==> ReadHtml(r) == html.value
    ensures html.None? ==> IsVirtual(Get(Some(r), "html")) && ReadHtml(r) == ""
    ensures forall k :: k != "html" ==> Get(Some(r), k) == Get(Some(markerNode), k)
  {
    if html.Some? then SetChild(markerNode, "html", Leaf(StringValue(html.value)))
    else RemoveChild(markerNode, "html")
  }

  /**
   * The marker node after save: html is written first; with a null anchor writeAnchor throws,
   * so nothing more is written.
   */
  function SaveFields(markerNode: Node, html: Option<string>, anchor: Option<Vector2i>): Node {
    var n1 := WriteHtml(markerNode, html);
    if anchor.None? then n1
    else SetChild(n1, "anchor", WriteAnchor(OrEmpty(Get(Some(n1), "anchor")), anchor.value))
  }

  class HtmlMarker {
    var html: Option<string>
    var anchor: Option<Vector2i>
    var hasUnsavedChanges: bool

    /** A new marker: html as given (null included), anchor (25, 45), unsaved. */
    constructor (html: Option<string>)
      ensures this.html == html && anchor == Some(DefaultAnchor) && hasUnsavedChanges
    {
      this.html := html;
      this.anchor := Some(DefaultAnchor);
      this.hasUnsavedChanges := true;
    }

    method SetAnchor(anchor: Option<Vector2i>)
      modifies this`anchor, this`hasUnsavedChanges
      ensures this.anchor == anchor && hasUnsavedChanges
    {
      this.anchor := anchor;
      hasUnsavedChanges := true;
    }

    method SetHtml(html: Option<string>)
      modifies this`html, this`hasUnsavedChanges
      ensures this.html == html && hasUnsavedChanges
    {
      this.html := html;
      hasUnsavedChanges := true;
    }

    /**
     * load: baseOk says whether the base class's load succeeded. Unsaved changes are kept unless
     * overwriteChanges; otherwise the flag is cleared and html and the anchor are read, which
     * cannot fail.
     */
    method Load(baseOk: bool, markerNode: Node, overwriteChanges: bool) returns (r: Outcome)
      modifies this
      ensures !baseOk ==> r == Fail(BaseLoadFailed) && unchanged(this)
      ensures baseOk && !overwriteChanges && old(hasUnsavedChanges) ==> r == Pass && unchanged(this)
      ensures baseOk && (overwriteChanges || !old(hasUnsavedChanges)) ==>
        && r == Pass && !hasUnsavedChanges
        && html == Some(ReadHtml(markerNode))
        && anchor == Some(ReadAnchor(Get(Some(markerNode), "anchor")))
    {
      if !baseOk {
        return Fail(BaseLoadFailed);
      }
      if !overwriteChanges && hasUnsavedChanges {
        return Pass;
      }
      hasUnsavedChanges := false;
      html := Some(ReadHtml(markerNode));
      anchor := Some(ReadAnchor(Get(Some(markerNode), "anchor")));
      r := Pass;
    }

    /**
     * save: writes html and the anchor and clears the flag; a null anchor throws a
     * NullPointerException after html was written, and the flag stays as it was.
     */
    method Save(markerNode: Node) returns (saved: Node, r: Outcome)
      modifies this`hasUnsavedChanges
      ensures saved == SaveFields(markerNode, html, anchor)
      ensures anchor.None? ==> r == Fail(NullPointer) && hasUnsavedChanges == old(hasUnsavedChanges)
      ensures anchor.Some? ==> r == Pass && !hasUnsavedChanges
    {
      saved := WriteHtml(markerNode, html);
      if anchor.None? {
        return saved, Fail(NullPointer);
      }
      saved := SetChild(saved, "anchor", WriteAnchor(OrEmpty(Get(Some(saved), "anchor")), anchor.value));
      hasUnsavedChanges := false;
      r := Pass;
    }
  }

  // ---------------------------------------------------------------------------------------------
  // Properties of save followed by load

  /**
   * Round trip: after a save that succeeded, load reads the same anchor back, and the same html
   * unless it was null, which comes back as "".
   */
  lemma SaveThenLoad(markerNode: Node, html: Option<string>, anchor: Vector2i)
    ensures var saved := SaveFields(markerNode, html, Some(anchor));
      && ReadHtml(saved) == (if html.Some? then html.value else "")
      && ReadAnchor(Get(Some(saved), "anchor")) == anchor
  {
  }

  /**
   * The lifecycle on two markers: saving one (with a non-null anchor) and loading the node into
   * another with overwriteChanges gives the second the first's fields, null html aside, and
   * leaves both without unsaved changes.
   */
  method SaveThenReload(source: HtmlMarker, target: HtmlMarker, markerNode: Node)
    returns (saved: Node, saveOutcome: Outcome, loadOutcome: Outcome)
    requires source.anchor.Some?
    requires source != target
    modifies source, target
    ensures saveOutcome == Pass && loadOutcome == Pass
    ensures source.html == old(source.html) && source.anchor == old(source.anchor)
    ensures target.html == Some(if source.html.Some? then source.html.value else "")
    ensures target.anchor == source.anchor
    ensures !source.hasUnsavedChanges && !target.hasUnsavedChanges
  {
    saved, saveOutcome := source.Save(markerNode);
    SaveThenLoad(markerNode, source.html, source.anchor.value);
    loadOutcome := target.Load(true, saved, true);
  }

  /** A node without an anchor loads (0, 0), not the (25, 45) a new marker starts with. */
  lemma MissingAnchorLoadsOrigin(markerNode: Node)
    requires IsVirtual(Get(Some(markerNode), "anchor"))
    ensures ReadAnchor(Get(Some(markerNode), "anchor")) == Vector2i(0, 0) != DefaultAnchor
  {
  }
}
