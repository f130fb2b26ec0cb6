/**
 * `ObjectDetector`: turning the YOLO network's raw output rows into labelled
 * boxes. The network itself and non-maximum suppression are opaque: the
 * output rows are an input and NMS is a given index selection.
 */
module Objects {
  import opened Wrappers
  import opened Numeric
  import opened Image

  /** Minimum top class score for a row to become a candidate (strictly greater). */
  const ConfidenceThreshold: real := 0.3

  /** The detector's state after construction. */
  datatype ObjectDetector = ObjectDetector(enabled: bool, hasNet: bool, classes: seq<string>)

  /**
   * `ObjectDetector.__init__`: enabled only when the feature flag is on and
   * the config, weights and names files all exist; then the network is
   * loaded and `classes` holds the lines of the names file.
   */
  function NewObjectDetector(featureEnabled: bool, modelFilesExist: bool, names: seq<string>): (d: ObjectDetector)
    ensures d.enabled <==> featureEnabled && modelFilesExist
    ensures d.hasNet <==> d.enabled
    ensures d.classes == (if d.enabled then names else [])
  {
    if featureEnabled && modelFilesExist then ObjectDetector(true, true, names)
    else ObjectDetector(false, false, [])
  }

  /**
   * One output row: centre x, centre y, width and height as fractions of the
   * frame, the objectness score, then one score per class.
   */
  type Row = seq<real>

  /** Every row of every output layer has at least one class score. */
  predicate WellFormed(outs: seq<seq<Row>>)
  {
    forall i, j :: 0 <= i < |outs| && 0 <= j < |outs[i]| ==> |outs[i][j]| > 5
  }

  predicate RowsWellFormed(rows: seq<Row>)
  {
    forall j :: 0 <= j < |rows| ==> |rows[j]| > 5
  }

  /** The class score the row is judged by: `scores[argmax(scores)]` with `scores = detection[5:]`. */
  function TopScore(d: Row): real
    requires |d| > 5
  {
    d[5..][ArgMax(d[5..])]
  }

  /** A row that passed the threshold, before non-maximum suppression. */
  datatype Candidate = Candidate(box: Rect, confidence: real, classId: nat)

  /** Centre-to-corner conversion `int(centre - size / 2)`, truncating toward zero. */
  function Corner(centre: int, size: int): (c: int)
    ensures TruncatesTo(centre as real - size as real / 2.0, c)
  {
    Trunc(centre as real - size as real / 2.0)
  }

  /** Python's `int()` rounds toward zero on both sides of the origin, so it is not the floor. */
  lemma CornerExamples()
    ensures Corner(10, 5) == 7
    ensures Corner(0, 5) == -2
  {
  }

  /** The candidate one row yields: the first highest-scoring class and the integer box. */
  function Decode(d: Row, width: nat, height: nat): (c: Candidate)
    requires |d| > 5
    ensures c.classId < |d| - 5 && c.confidence == d[5 + c.classId] == TopScore(d)
    ensures forall j :: 5 <= j < |d| ==> d[j] <= c.confidence
    ensures forall j :: 5 <= j < 5 + c.classId ==> d[j] < c.confidence
    ensures c.box == BoxOf(d, width, height)
  {
    var scores := d[5..];
    var classId := ArgMax(scores);
    Candidate(BoxOf(d, width, height), scores[classId], classId)
  }

  /** A fraction of the frame in pixels, `fraction * size`. */
  function Scale(fraction: real, size: nat): real
  {
    fraction * size as real
  }

  /** The integer box of a row: centre and size scaled to the frame, then centre-to-corner. */
  function BoxOf(d: Row, width: nat, height: nat): (b: Rect)
    requires |d| > 5
    // The size is the scaled size, truncated toward zero.
    ensures TruncatesTo(Scale(d[2], width), b.w) && TruncatesTo(Scale(d[3], height), b.h)
    // The corner is the truncated scaled centre minus half the size, truncated toward zero.
    ensures TruncatesTo(Trunc(Scale(d[0], width)) as real - b.w as real / 2.0, b.x)
    ensures TruncatesTo(Trunc(Scale(d[1], height)) as real - b.h as real / 2.0, b.y)
  {
    var centreX := Trunc(Scale(d[0], width));
    var centreY := Trunc(Scale(d[1], height));
    var w := Trunc(Scale(d[2], width));
    var h := Trunc(Scale(d[3], height));
    Rect(Corner(centreX, w), Corner(centreY, h), w, h)
  }

  /** The candidates of one output layer, in row order. */
  function Kept(rows: seq<Row>, width: nat, height: nat): (r: seq<Candidate>)
    requires RowsWellFormed(rows)
    ensures |r| <= |rows|
    ensures forall k :: 0 <= k < |r| ==> r[k].confidence > ConfidenceThreshold
    decreases |rows|
  {
    if rows == [] then []
    else
      var d := rows[|rows| - 1];
      Kept(rows[..|rows| - 1], width, height) +
        (if TopScore(d) > ConfidenceThreshold then [Decode(d, width, height)] else [])
  }

  /** The candidates of all output layers, layer after layer. */
  function CandidatesOf(outs: seq<seq<Row>>, width: nat, height: nat): (r: seq<Candidate>)
    requires WellFormed(outs)
    ensures forall k :: 0 <= k < |r| ==> r[k].confidence > ConfidenceThreshold
    decreases |outs|
  {
    if outs == [] then []
    else CandidatesOf(outs[..|outs| - 1], width, height) + Kept(outs[|outs| - 1], width, height)
  }

  /** All rows of all layers, in order. */
  function Flatten(outs: seq<seq<Row>>): seq<Row>
    decreases |outs|
  {
    if outs == [] then [] else Flatten(outs[..|outs| - 1]) + outs[|outs| - 1]
  }

  lemma RowsWellFormedAppend(a: seq<Row>, b: seq<Row>)
    requires RowsWellFormed(a) && RowsWellFormed(b)
    ensures RowsWellFormed(a + b)
  {
  }

  /** What one more row adds to the candidates of the rows before it. */
  lemma KeptStep(rows: seq<Row>, j: nat, width: nat, height: nat)
    requires RowsWellFormed(rows) && j < |rows|
    ensures RowsWellFormed(rows[..j]) && RowsWellFormed(rows[..j + 1])
    ensures Kept(rows[..j + 1], width, height) ==
              Kept(rows[..j], width, height) +
                (if TopScore(rows[j]) > ConfidenceThreshold then [Decode(rows[j], width, height)] else [])
  {
    assert rows[..j + 1][..j] == rows[..j];
  }

  /** Appending one row adds its candidate, if it passes the threshold, at the end. */
  lemma KeptSnoc(rows: seq<Row>, d: Row, width: nat, height: nat)
    requires RowsWellFormed(rows) && |d| > 5
    ensures RowsWellFormed(rows + [d])
    ensures Kept(rows + [d], width, height) ==
              Kept(rows, width, height) +
                (if TopScore(d) > ConfidenceThreshold then [Decode(d, width, height)] else [])
  {
    assert (rows + [d])[..|rows|] == rows;
  }

  /** Filtering distributes over concatenation: rows are judged one by one. */
  lemma {:induction false} KeptAppend(a: seq<Row>, b: seq<Row>, width: nat, height: nat)
    requires RowsWellFormed(a) && RowsWellFormed(b)
    ensures RowsWellFormed(a + b)
    ensures Kept(a + b, width, height) == Kept(a, width, height) + Kept(b, width, height)
    decreases |b|
  {
    RowsWellFormedAppend(a, b);
    if b == [] {
      assert a + b == a;
    } else {
      var n := |b| - 1;
      var b' := b[..n];
      var d := b[n];
      var tail := if TopScore(d) > ConfidenceThreshold then [Decode(d, width, height)] else [];
      assert b == b' + [d];
      assert a + b == (a + b') + [d];
      KeptAppend(a, b', width, height);
      KeptSnoc(a + b', d, width, height);
      KeptSnoc(b', d, width, height);
    }
  }

  /**
   * Parsing the nested output keeps, in order, exactly the rows of the
   * flattened output that pass the threshold.
   */
  lemma {:induction false} CandidatesAreKeptRows(outs: seq<seq<Row>>, width: nat, height: nat)
    requires WellFormed(outs)
    ensures RowsWellFormed(Flatten(outs))
    ensures CandidatesOf(outs, width, height) == Kept(Flatten(outs), width, height)
    decreases |outs|
  {
    if outs != [] {
      var prefix := outs[..|outs| - 1];
      var last := outs[|outs| - 1];
      assert WellFormed(prefix) by {
        forall i, j | 0 <= i < |prefix| && 0 <= j < |prefix[i]| ensures |prefix[i][j]| > 5 {
          assert prefix[i] == outs[i];
        }
      }
      assert RowsWellFormed(last) by {
        forall j | 0 <= j < |last| ensures |last[j]| > 5 {
          assert last[j] == outs[|outs| - 1][j];
        }
      }
      CandidatesAreKeptRows(prefix, width, height);
      KeptAppend(Flatten(prefix), last, width, height);
    }
  }

  /** When every row passes the threshold, every row becomes a candidate, in order. */
  lemma {:induction false} KeptAll(rows: seq<Row>, width: nat, height: nat)
    requires RowsWellFormed(rows)
    requires forall j :: 0 <= j < |rows| ==> TopScore(rows[j]) > ConfidenceThreshold
    ensures |Kept(rows, width, height)| == |rows|
    ensures forall j :: 0 <= j < |rows| ==> Kept(rows, width, height)[j] == Decode(rows[j], width, height)
    decreases |rows|
  {
    if rows != [] {
      KeptAll(rows[..|rows| - 1], width, height);
    }
  }

  /** When no row passes the threshold, there are no candidates. */
  lemma {:induction false} KeptNone(rows: seq<Row>, width: nat, height: nat)
    requires RowsWellFormed(rows)
    requires forall j :: 0 <= j < |rows| ==> TopScore(rows[j]) <= ConfidenceThreshold
    ensures Kept(rows, width, height) == []
    decreases |rows|
  {
    if rows != [] {
      KeptNone(rows[..|rows| - 1], width, height);
    }
  }

  function BoxesOf(c: seq<Candidate>): seq<Rect>
  {
    seq(|c|, k requires 0 <= k < |c| => c[k].box)
  }

  function ConfidencesOf(c: seq<Candidate>): seq<real>
  {
    seq(|c|, k requires 0 <= k < |c| => c[k].confidence)
  }

  function ClassIdsOf(c: seq<Candidate>): seq<nat>
  {
    seq(|c|, k requires 0 <= k < |c| => c[k].classId)
  }

  /** The three lists `boxes`, `confidences`, `class_ids` are the projections of `found`. */
  predicate Parallel(found: seq<Candidate>, boxes: seq<Rect>, confidences: seq<real>, classIds: seq<nat>)
  {
    boxes == BoxesOf(found) && confidences == ConfidencesOf(found) && classIds == ClassIdsOf(found)
  }

  lemma ParallelAppend(found: seq<Candidate>, boxes: seq<Rect>, confidences: seq<real>, classIds: seq<nat>, c: Candidate)
    requires Parallel(found, boxes, confidences, classIds)
    ensures Parallel(found + [c], boxes + [c.box], confidences + [c.confidence], classIds + [c.classId])
  {
  }

  /** What one more output layer adds to the candidates of the layers before it. */
  lemma CandidatesStep(outs: seq<seq<Row>>, i: nat, width: nat, height: nat)
    requires WellFormed(outs) && i < |outs|
    ensures WellFormed(outs[..i]) && WellFormed(outs[..i + 1]) && RowsWellFormed(outs[i])
    ensures CandidatesOf(outs[..i + 1], width, height) ==
              CandidatesOf(outs[..i], width, height) + Kept(outs[i], width, height)
  {
    assert outs[..i + 1][..i] == outs[..i];
    assert RowsWellFormed(outs[i]) by {
      forall j | 0 <= j < |outs[i]| ensures |outs[i][j]| > 5 { }
    }
  }

  /**
   * The inner parsing loop over the rows of one output layer: appends one
   * entry to each of the parallel lists per row that passes the threshold.
   */
  method ParseLayer(out: seq<Row>, width: nat, height: nat, ghost found0: seq<Candidate>,
                    boxes0: seq<Rect>, confidences0: seq<real>, classIds0: seq<nat>)
    returns (boxes: seq<Rect>, confidences: seq<real>, classIds: seq<nat>)
    requires RowsWellFormed(out)
    requires Parallel(found0, boxes0, confidences0, classIds0)
    ensures Parallel(found0 + Kept(out, width, height), boxes, confidences, classIds)
  {
    boxes, confidences, classIds := boxes0, confidences0, classIds0;
    ghost var found := found0;
    var j := 0;
    while j < |out|
      invariant 0 <= j <= |out|
      invariant RowsWellFormed(out[..j])
      invariant found == found0 + Kept(out[..j], width, height)
      invariant Parallel(found, boxes, confidences, classIds)
    {
      var detection := out[j];
      KeptStep(out, j, width, height);
      var scores := detection[5..];
      var classId := ArgMax(scores);
      var confidence := scores[classId];
      if confidence > ConfidenceThreshold {
        var centreX := Trunc(Scale(detection[0], width));
        var centreY := Trunc(Scale(detection[1], height));
        var w := Trunc(Scale(detection[2], width));
        var h := Trunc(Scale(detection[3], height));
        var x := Corner(centreX, w);
        var y := Corner(centreY, h);
        var c := Candidate(Rect(x, y, w, h), confidence, classId);
        assert c.box == BoxOf(detection, width, height);
        assert c == Decode(detection, width, height);
        ParallelAppend(found, boxes, confidences, classIds, c);
        boxes := boxes + [Rect(x, y, w, h)];
        confidences := confidences + [confidence];
        classIds := classIds + [classId];
        found := found + [c];
      }
      j := j + 1;
    }
    assert out[..|out|] == out;
  }

  /**
   * The parsing loop: builds `boxes`, `confidences` and `class_ids` as
   * parallel lists, one entry per candidate, layer after layer and row
   * after row.
   */
  method ParseOutputs(outs: seq<seq<Row>>, width: nat, height: nat)
    returns (boxes: seq<Rect>, confidences: seq<real>, classIds: seq<nat>)
    requires WellFormed(outs)
    ensures |boxes| == |confidences| == |classIds|
    ensures Parallel(CandidatesOf(outs, width, height), boxes, confidences, classIds)
  {
    boxes, confidences, classIds := [], [], [];
    var i := 0;
    while i < |outs|
      invariant 0 <= i <= |outs|
      invariant WellFormed(outs[..i])
      invariant Parallel(CandidatesOf(outs[..i], width, height), boxes, confidences, classIds)
    {
      CandidatesStep(outs, i, width, height);
      boxes, confidences, classIds :=
        ParseLayer(outs[i], width, height, CandidatesOf(outs[..i], width, height), boxes, confidences, classIds);
      i := i + 1;
    }
    assert outs[..|outs|] == outs;
  }

  /** A detection as the detector returns it: `(class_name, confidence, box)`. */
  datatype Labelled = Labelled(name: string, confidence: real, box: Rect)

  /** Index `i` of the NMS selection can be looked up without an `IndexError`. */
  predicate Resolvable(classes: seq<string>, classIds: seq<nat>, i: nat)
  {
    i < |classIds| && classIds[i] < |classes|
  }

  /** Every selected index is resolvable. */
  predicate AllResolvable(classes: seq<string>, classIds: seq<nat>, indexes: seq<nat>)
  {
    forall k :: 0 <= k < |indexes| ==> Resolvable(classes, classIds, indexes[k])
  }

  /**
   * The results loop over the NMS selection: one labelled detection per
   * selected index, in selection order; `None` where a lookup would raise.
   */
  function Assembled(classes: seq<string>, boxes: seq<Rect>, confidences: seq<real>, classIds: seq<nat>,
                     indexes: seq<nat>): (r: Option<seq<Labelled>>)
    requires |boxes| == |confidences| == |classIds|
    ensures r.Some? <==> AllResolvable(classes, classIds, indexes)
    ensures r.Some? ==> |r.value| == |indexes|
    ensures r.Some? ==> forall k :: 0 <= k < |indexes| ==>
              var i := indexes[k];
              r.value[k] == Labelled(classes[classIds[i]], confidences[i], boxes[i])
    decreases |indexes|
  {
    if indexes == [] then Some([])
    else
      var i := indexes[|indexes| - 1];
      match Assembled(classes, boxes, confidences, classIds, indexes[..|indexes| - 1])
      case None => None
      case Some(rs) =>
        if Resolvable(classes, classIds, i) then Some(rs + [Labelled(classes[classIds[i]], confidences[i], boxes[i])])
        else None
  }

  /** The results loop itself, stopping at the first index that would raise. */
  method AssembleResults(classes: seq<string>, boxes: seq<Rect>, confidences: seq<real>, classIds: seq<nat>,
                         indexes: seq<nat>) returns (r: Option<seq<Labelled>>)
    requires |boxes| == |confidences| == |classIds|
    ensures r == Assembled(classes, boxes, confidences, classIds, indexes)
  {
    var results: seq<Labelled> := [];
    var k := 0;
    while k < |indexes|
      invariant 0 <= k <= |indexes|
      invariant Assembled(classes, boxes, confidences, classIds, indexes[..k]) == Some(results)
    {
      var i := indexes[k];
      assert indexes[..k + 1][..k] == indexes[..k];
      if !(i < |classIds| && classIds[i] < |classes|) {
        r := None;
        assert Assembled(classes, boxes, confidences, classIds, indexes[..k + 1]) == None;
        assert indexes == indexes[..k + 1] + indexes[k + 1..];
        return;
      }
      results := results + [Labelled(classes[classIds[i]], confidences[i], boxes[i])];
      k := k + 1;
    }
    assert indexes[..|indexes|] == indexes;
    r := Some(results);
  }

  /** An assembly over the projections of `c` labels, for each selected index, that candidate. */
  lemma AssembledPicksCandidates(classes: seq<string>, c: seq<Candidate>, indexes: seq<nat>)
    ensures var r := Assembled(classes, BoxesOf(c), ConfidencesOf(c), ClassIdsOf(c), indexes);
            r.Some? ==>
              forall k :: 0 <= k < |indexes| ==>
                indexes[k] < |c| && c[indexes[k]].classId < |classes| &&
                r.value[k] == Labelled(classes[c[indexes[k]].classId], c[indexes[k]].confidence, c[indexes[k]].box)
    ensures var r := Assembled(classes, BoxesOf(c), ConfidencesOf(c), ClassIdsOf(c), indexes);
            r.Some? && (forall i :: 0 <= i < |c| ==> c[i].confidence > ConfidenceThreshold) ==>
              forall k :: 0 <= k < |r.value| ==> r.value[k].confidence > ConfidenceThreshold
  {
    var r := Assembled(classes, BoxesOf(c), ConfidencesOf(c), ClassIdsOf(c), indexes);
    if r.Some? {
      forall k | 0 <= k < |indexes|
        ensures indexes[k] < |c| && c[indexes[k]].classId < |classes|
        ensures r.value[k] == Labelled(classes[c[indexes[k]].classId], c[indexes[k]].confidence, c[indexes[k]].box)
      {
        var i := indexes[k];
        assert Resolvable(classes, ClassIdsOf(c), i);
        assert ClassIdsOf(c)[i] == c[i].classId;
      }
    }
  }

  /** The indices the NMS selection keeps among the candidates' boxes and scores. */
  function Selected(c: seq<Candidate>, nms: (seq<Rect>, seq<real>) -> seq<nat>): seq<nat>
  {
    nms(BoxesOf(c), ConfidencesOf(c))
  }

  /**
   * What `ObjectDetector.detect` returns: nothing when disabled or without a
   * network; otherwise the parsed candidates picked out by the NMS
   * selection. `None` stands for the `IndexError` a bad index raises.
   */
  function ObjectResults(od: ObjectDetector, frame: Frame, outs: seq<seq<Row>>,
                         nms: (seq<Rect>, seq<real>) -> seq<nat>): (r: Option<seq<Labelled>>)
    requires WellFormed(outs)
    ensures !od.enabled || !od.hasNet ==> r == Some([])
    // Enabled: one labelled detection per selected candidate, failing exactly on an unresolvable index.
    ensures od.enabled && od.hasNet ==>
              var c := CandidatesOf(outs, frame.width, frame.height);
              var indexes := Selected(c, nms);
              r.Some? <==> AllResolvable(od.classes, ClassIdsOf(c), indexes)
  {
    if !od.enabled || !od.hasNet then Some([])
    else
      var c := CandidatesOf(outs, frame.width, frame.height);
      Assembled(od.classes, BoxesOf(c), ConfidencesOf(c), ClassIdsOf(c), Selected(c, nms))
  }

  /**
   * With the detector enabled, the k-th result labels the k-th selected
   * candidate with its class name, score and box; so every result scores
   * above the confidence threshold.
   */
  lemma ResultsLabelSelected(od: ObjectDetector, frame: Frame, outs: seq<seq<Row>>,
                             nms: (seq<Rect>, seq<real>) -> seq<nat>)
    requires WellFormed(outs)
    ensures var r := ObjectResults(od, frame, outs, nms);
            var c := CandidatesOf(outs, frame.width, frame.height);
            var indexes := Selected(c, nms);
            od.enabled && od.hasNet && r.Some? ==>
              |r.value| == |indexes| &&
              forall k :: 0 <= k < |indexes| ==>
                indexes[k] < |c| && c[indexes[k]].classId < |od.classes| &&
                r.value[k] == Labelled(od.classes[c[indexes[k]].classId], c[indexes[k]].confidence, c[indexes[k]].box)
    ensures var r := ObjectResults(od, frame, outs, nms);
            r.Some? ==> forall k :: 0 <= k < |r.value| ==> r.value[k].confidence > ConfidenceThreshold
  {
    var c := CandidatesOf(outs, frame.width, frame.height);
    AssembledPicksCandidates(od.classes, c, Selected(c, nms));
  }

  /** `ObjectDetector.detect` with the network's output rows and the NMS selection given. */
  method Detect(od: ObjectDetector, frame: Frame, outs: seq<seq<Row>>, nms: (seq<Rect>, seq<real>) -> seq<nat>)
    returns (r: Option<seq<Labelled>>)
    requires WellFormed(outs)
    ensures !od.enabled || !od.hasNet ==> r == Some([])
    ensures r == ObjectResults(od, frame, outs, nms)
    ensures r.Some? ==> forall k :: 0 <= k < |r.value| ==> r.value[k].confidence > ConfidenceThreshold
  {
    if !od.enabled || !od.hasNet {
      return Some([]);
    }
    var boxes, confidences, classIds := ParseOutputs(outs, frame.width, frame.height);
    var indexes := nms(boxes, confidences);
    r := AssembleResults(od.classes, boxes, confidences, classIds, indexes);
    if r.Some? {
      forall k | 0 <= k < |r.value| ensures r.value[k].confidence > ConfidenceThreshold {
        var i := indexes[k];
        assert Resolvable(od.classes, classIds, i);
        assert r.value[k].confidence == confidences[i];
      }
    }
  }
}
