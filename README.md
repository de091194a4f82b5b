# BlueMap line and HTML markers: load, save and the unsaved-changes flag

A model of how BlueMap's `LineMarkerImpl` and `HtmlMarkerImpl` read their fields from a
configuration node, write them back, and track unsaved changes.

Each marker is a class with the Java fields. The setters, `Load` and `Save` change those fields
the way the Java methods do. The readers and writers for points, colours, anchors and html are
pure functions, so the lemmas can state the round trips.

- `results.dfy` (module `Results`): `Option` (a Java reference that may be null, or a node that
  may be virtual), `Result` and `Outcome` (a value or a thrown exception), and `MarkerError`, the
  reasons a load or a call can throw.
- `config_tree.dfy` (module `ConfigTree`): an abstract `ConfigurationNode`. It supports child
  lookup, where `None` is a virtual node, and `getChildrenList`. It has typed reads with a
  default (`getBoolean`, `getInt`, `getDouble`/`getFloat`, `getString`) and writes that
  return the new node (`setValue` of a value or of null, `appendListNode`).
- `geometry.dfy` (module `Geometry`): `Vector3d`, `Vector2i`, `Color` with channels in 0..255,
  `Line` as its point sequence, and the 3-decimal rounding that `writeLine` applies.
- `line_marker.dfy` (module `LineMarkers`): `readLinePos`, `readLine` (a loop filling an
  array), `readColor`, `writeLine` (a loop appending list entries), `writeColor`, the class
  `LineMarker`, and the round-trip lemmas.
- `html_marker.dfy` (module `HtmlMarkers`): `readAnchor`, `writeAnchor`, the html key, the class
  `HtmlMarker`, and the round-trip lemmas.

Modelling choices:

- The base class's `load` can throw a format exception before any of this type's fields are
  touched. It is a boolean parameter `baseOk` of `Load`.
- A call that takes a Java reference takes an `Option` where the code checks for null
  (`setLine`, `setLineColor`) or accepts it (`html` and `anchor` of the HTML marker).
- `Math.round(v * 1000d) / 1000d` is `floor(v * 1000 + 1/2) / 1000` over the reals.
- `(int)(alpha * 255)` is `floor(alpha * 255)`. It is only taken for alpha in [0, 1], where
  truncation and floor agree.

The model follows the code where a reader's expectation differs from it:

- A loaded node without `anchor` gives (0, 0), not the constructor's (25, 45)
  (`HtmlMarkers.MissingAnchorLoadsOrigin`).
- A new line marker has depth test off; only `load` defaults it to on.
- Alpha is truncated, not rounded.
- `Math.round` rounds ties towards positive infinity, not away from zero.
- `load` is not atomic. The flag is cleared first. A failing colour read leaves the line, depth
  test and width already replaced (`LineMarkers.LineMarker.Load`).
- The `lineColor` node is required: without `r`, `g` and `b` the load throws. A node with a
  line and a width but no colour therefore fails after those fields were assigned
  (`LineMarkers.LoadWithoutLineColorFails`). It does not load the default red.
- `writeLine` appends. Saving twice into one node lists every point twice
  (`LineMarkers.SaveTwiceDuplicatesPoints`).
- A line of fewer than 3 points can be set and saved but not loaded again
  (`LineMarkers.SaveThenLoad`).
- A null html saves as a detached node and loads back as `""`.
- A null anchor makes `save` throw after html was written, and the flag stays set.

## Model

| member | source | states |
|---|---|---|
| Geometry.Round3 | BlueMapCommon/src/main/java/de/bluecolored/bluemap/common/api/marker/LineMarkerImpl.java:190-192 | the written coordinate is a whole number of thousandths, more than -0.0005 and at most +0.0005 away from the point's coordinate |
| Geometry.Round3Idempotent | BlueMapCommon/src/main/java/de/bluecolored/bluemap/common/api/marker/LineMarkerImpl.java:190-192 | rounding an already rounded coordinate changes nothing |
| Geometry.Rounded | BlueMapCommon/src/main/java/de/bluecolored/bluemap/common/api/marker/LineMarkerImpl.java:186-194 | one point per input point, each coordinate a whole number of thousandths within 0.0005 of the original |
| Geometry.RoundedIdempotent | BlueMapCommon/src/main/java/de/bluecolored/bluemap/common/api/marker/LineMarkerImpl.java:186-194 | rounding every coordinate of a rounded line changes nothing |
| LineMarkers.ReadLinePos | BlueMapCommon/src/main/java/de/bluecolored/bluemap/common/api/marker/LineMarkerImpl.java:152-165 | a point fails to read exactly when x, y or z is virtual, and the error is a missing coordinate |
| LineMarkers.DecodePoints | BlueMapCommon/src/main/java/de/bluecolored/bluemap/common/api/marker/LineMarkerImpl.java:144-147 | a list of point nodes decodes exactly when every entry does; then there is one point per entry, in order, each the entry's own point |
| LineMarkers.DecodeLine | BlueMapCommon/src/main/java/de/bluecolored/bluemap/common/api/marker/LineMarkerImpl.java:139-150 | fewer than 3 list entries fails with too-few-points; otherwise success exactly when every entry has x, y and z, with one point per entry in order |
| LineMarkers.ReadLine | BlueMapCommon/src/main/java/de/bluecolored/bluemap/common/api/marker/LineMarkerImpl.java:139-150 | the array-filling loop returns exactly what DecodeLine specifies, including the failure of the first bad entry |
| LineMarkers.ReadColor | BlueMapCommon/src/main/java/de/bluecolored/bluemap/common/api/marker/LineMarkerImpl.java:167-184 | missing r, g or b fails first; then alpha (default 1) outside [0, 1] fails; then a channel outside 0..255 fails with channel-out-of-range; success exactly when r, g, b are in 0..255, with alpha channel floor(alpha * 255); no other error is possible |
| LineMarkers.DecodeWrittenLine | BlueMapCommon/src/main/java/de/bluecolored/bluemap/common/api/marker/LineMarkerImpl.java:139-150 | a line node holding exactly the entries written for a line loads as the rounded line, or fails with too-few-points below 3 points |
| LineMarkers.PointNode | BlueMapCommon/src/main/java/de/bluecolored/bluemap/common/api/marker/LineMarkerImpl.java:188-192 | the list entry written for a point reads back as the point with each coordinate rounded |
| LineMarkers.WriteLine | BlueMapCommon/src/main/java/de/bluecolored/bluemap/common/api/marker/LineMarkerImpl.java:186-194 | the loop's node has the old list entries followed by one entry per point, in point order; with no points the node is unchanged |
| LineMarkers.WriteColor | BlueMapCommon/src/main/java/de/bluecolored/bluemap/common/api/marker/LineMarkerImpl.java:196-206 | the colour node written reads back as exactly the same colour, alpha included |
| LineMarkers.LineMarker.constructor | BlueMapCommon/src/main/java/de/bluecolored/bluemap/common/api/marker/LineMarkerImpl.java:48-58 | stores the line, width 2, colour (255, 0, 0, 200), depth test false, unsaved flag set |
| LineMarkers.LineMarker.Create | BlueMapCommon/src/main/java/de/bluecolored/bluemap/common/api/marker/LineMarkerImpl.java:48-51 | a null line gives no marker; otherwise a fresh marker in the constructor's state |
| LineMarkers.LineMarker.SetLine | BlueMapCommon/src/main/java/de/bluecolored/bluemap/common/api/marker/LineMarkerImpl.java:71-76 | null throws and changes nothing; otherwise replaces the line and sets the flag, no other field is in the frame |
| LineMarkers.LineMarker.SetDepthTestEnabled | BlueMapCommon/src/main/java/de/bluecolored/bluemap/common/api/marker/LineMarkerImpl.java:84-87 | assigns depth test and sets the flag; no other field is in the frame |
| LineMarkers.LineMarker.SetLineWidth | BlueMapCommon/src/main/java/de/bluecolored/bluemap/common/api/marker/LineMarkerImpl.java:95-98 | assigns the width and sets the flag; no other field is in the frame |
| LineMarkers.LineMarker.SetLineColor | BlueMapCommon/src/main/java/de/bluecolored/bluemap/common/api/marker/LineMarkerImpl.java:106-111 | null throws and changes nothing; otherwise replaces the colour and sets the flag |
| LineMarkers.LineMarker.Load | BlueMapCommon/src/main/java/de/bluecolored/bluemap/common/api/marker/LineMarkerImpl.java:114-124 | a base failure or (no overwrite and unsaved changes) leaves every field and the flag unchanged; otherwise the flag is cleared, the line is decoded, depth test (default true) and width (default 2) are read, then the colour; a failure keeps the fields assigned before it |
| LineMarkers.LineMarker.Save | BlueMapCommon/src/main/java/de/bluecolored/bluemap/common/api/marker/LineMarkerImpl.java:127-137 | the node gets the line appended, depth test, width and colour written; the flag is cleared and no field changes |
| LineMarkers.SaveAppendsPoints | BlueMapCommon/src/main/java/de/bluecolored/bluemap/common/api/marker/LineMarkerImpl.java:186-194 | save appends exactly one entry per point, in point order, after the entries the line node already had |
| LineMarkers.SavedScalars | BlueMapCommon/src/main/java/de/bluecolored/bluemap/common/api/marker/LineMarkerImpl.java:131-133 | after save depthTest and lineWidth hold the field values and lineColor reads back as exactly the colour |
| LineMarkers.PointNodes | BlueMapCommon/src/main/java/de/bluecolored/bluemap/common/api/marker/LineMarkerImpl.java:186-194 | one entry per point, each entry reading back as the point with its coordinates rounded |
| LineMarkers.DecodePointNodes | BlueMapCommon/src/main/java/de/bluecolored/bluemap/common/api/marker/LineMarkerImpl.java:186-194 | the entries written for a line decode to the line with its coordinates rounded |
| LineMarkers.SaveThenLoad | BlueMapCommon/src/main/java/de/bluecolored/bluemap/common/api/marker/LineMarkerImpl.java:114-137 | into a node with no line entries, reloading gives back depth test, width and colour, and the rounded line, or too-few-points for fewer than 3 points |
| LineMarkers.SecondRoundTripIsExact | BlueMapCommon/src/main/java/de/bluecolored/bluemap/common/api/marker/LineMarkerImpl.java:190-192 | saving a loaded (rounded) line and loading it again gives exactly the same points |
| LineMarkers.SaveTwiceDuplicatesPoints | BlueMapCommon/src/main/java/de/bluecolored/bluemap/common/api/marker/LineMarkerImpl.java:186-194 | saving into a node whose line list already holds the entries of a save of the same line makes a reload return the rounded line twice over |
| LineMarkers.SaveThenReload | BlueMapCommon/src/main/java/de/bluecolored/bluemap/common/api/marker/LineMarkerImpl.java:114-137 | saving one marker and loading the node into another with overwrite passes and gives the second the same depth test, width, colour and rounded line; the source keeps its fields; both flags cleared |
| LineMarkers.LoadWithoutLineColorFails | BlueMapCommon/src/main/java/de/bluecolored/bluemap/common/api/marker/LineMarkerImpl.java:118-123 | a node with three points and a width but no lineColor decodes line, depth test and width, then the colour read fails with a missing channel |
| HtmlMarkers.ReadAnchor | BlueMapCommon/src/main/java/de/bluecolored/bluemap/common/api/marker/HtmlMarkerImpl.java:99-104 | each of x and y is 0 when absent and the stored integer when present, independently; never fails |
| HtmlMarkers.WriteAnchor | BlueMapCommon/src/main/java/de/bluecolored/bluemap/common/api/marker/HtmlMarkerImpl.java:106-109 | the anchor node written reads back as exactly the anchor |
| HtmlMarkers.WriteHtml | BlueMapCommon/src/main/java/de/bluecolored/bluemap/common/api/marker/HtmlMarkerImpl.java:93 | a string is read back as itself; null detaches the node, which reads back as ""; other keys are untouched |
| HtmlMarkers.HtmlMarker.constructor | BlueMapCommon/src/main/java/de/bluecolored/bluemap/common/api/marker/HtmlMarkerImpl.java:42-49 | stores html as given, anchor (25, 45), unsaved flag set |
| HtmlMarkers.HtmlMarker.SetAnchor | BlueMapCommon/src/main/java/de/bluecolored/bluemap/common/api/marker/HtmlMarkerImpl.java:62-65 | assigns the anchor without validation and sets the flag; html is not in the frame |
| HtmlMarkers.HtmlMarker.SetHtml | BlueMapCommon/src/main/java/de/bluecolored/bluemap/common/api/marker/HtmlMarkerImpl.java:73-76 | assigns html without validation and sets the flag; the anchor is not in the frame |
| HtmlMarkers.ReadHtml | BlueMapCommon/src/main/java/de/bluecolored/bluemap/common/api/marker/HtmlMarkerImpl.java:85 | html is the node's string when one is stored, "" when the node is absent |
| HtmlMarkers.HtmlMarker.Load | BlueMapCommon/src/main/java/de/bluecolored/bluemap/common/api/marker/HtmlMarkerImpl.java:79-87 | a base failure or (no overwrite and unsaved changes) leaves html, anchor and the flag unchanged; otherwise the flag is cleared, html is the node's string or "", the anchor is read |
| HtmlMarkers.HtmlMarker.Save | BlueMapCommon/src/main/java/de/bluecolored/bluemap/common/api/marker/HtmlMarkerImpl.java:90-97 | the node gets html and the anchor written and the flag is cleared; a null anchor throws after html was written and keeps the flag |
| HtmlMarkers.SaveThenLoad | BlueMapCommon/src/main/java/de/bluecolored/bluemap/common/api/marker/HtmlMarkerImpl.java:85-109 | after a successful save, reloading gives the same anchor and the same html, null html coming back as "" |
| HtmlMarkers.SaveThenReload | BlueMapCommon/src/main/java/de/bluecolored/bluemap/common/api/marker/HtmlMarkerImpl.java:79-97 | saving one marker and loading the node into another with overwrite passes both steps and gives the second the same anchor and html (null as ""), both flags cleared |
| HtmlMarkers.MissingAnchorLoadsOrigin | BlueMapCommon/src/main/java/de/bluecolored/bluemap/common/api/marker/HtmlMarkerImpl.java:99-104 | a node without anchor loads (0, 0), which differs from the constructor's (25, 45) |

## Left out

- The base classes `MarkerImpl` and `ObjectMarkerImpl` are not part of this model: id, map,
  position, label and the object-marker fields. Their `load` is the `baseOk` parameter. Their
  `save` is omitted, and the model assumes it writes none of this type's keys.
- `synchronized` and concurrent callers: the model is sequential.
- The configuration library is reduced to the abstract node. Its coercions between value kinds
  are not modelled: a string read as a number or a boolean, or a number read as a string, gives
  the default. Only an integer read as a double is widened.
- The library's handling of type-changing writes is this model's choice: a named child written
  into a non-map node makes it a map, and a list entry appended to a non-list node makes it a
  list. Node objects are values, so aliasing between node objects is not modelled.
- Geometry.Round3: IEEE doubles, the `long` range of `Math.round`, and the float arithmetic of
  `alpha / 255f` and `alpha * 255` are not modelled; coordinates and alpha are exact reals. NaN
  alpha, which passes the range check in Java, is not modelled.
- Java `int` is modelled as an unbounded integer: width, anchor and channel values have no 32-bit
  wrap-around.
- The `Line` class is not part of this model; a line is its sequence of points.
- Exception messages, including the "fewer than 2 entries" text of the 3-point check, are not
  modelled; only the error kind is.
- Getters and `getType` only return a field or a constant and have no model of their own.
- The unused `BlueMapAPI` and `BlueMapMap` parameters are not modelled.
