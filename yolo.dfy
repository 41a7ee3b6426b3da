/**
 * The international-food path (run_yolo_international): the detector's boxes
 * become (class, confidence, area) records, tableware classes are dropped,
 * the rest are tallied per class, and the class covering the largest total
 * area wins, reported with its best confidence.
 */
module Yolo {
  import opened Wrappers
  import opened Tally
  import Names

  /** One box as the detector returns it: class id, confidence and corners. */
  datatype Box = Box(classId: int, confidence: real, x1: real, y1: real, x2: real, y2: real)

  /** One entry of the `detections` list. */
  datatype Detection = Detection(className: string, confidence: real, area: real)

  /** One entry of `class_counter`. */
  datatype ClassStats = ClassStats(count: nat, totalArea: real, maxConf: real)

  /** The inference call: it raised, with the exception's text, or it returned its results (one box list each). */
  datatype Inference = InferenceFailed(message: string) | Inferred(results: seq<seq<Box>>)

  /** What run_yolo_international returns: the food, its confidence, and an error if any. */
  datatype YoloResult = YoloResult(food: string, confidence: real, error: Option<string>)

  /** Classes that are tableware or drinks, never the food. */
  const IgnoreClasses: seq<string> := ["juice", "fork", "plate", "glass", "cup", "knife", "spoon", "bowl"]

  /** A box as a detection: the model's name for the class, lower-cased, "Unknown" for an unnamed id. */
  function ToDetection(names: map<int, string>, b: Box): Detection
  {
    var name := if b.classId in names then names[b.classId] else "Unknown";
    Detection(Names.Lower(name), b.confidence, (b.x2 - b.x1) * (b.y2 - b.y1))
  }

  /** Every box of every result, in order. */
  function Flatten(results: seq<seq<Box>>): (boxes: seq<Box>)
  {
    if |results| == 0 then [] else Flatten(results[..|results| - 1]) + results[|results| - 1]
  }

  /** The boxes as detections, in order. */
  function Detections(names: map<int, string>, boxes: seq<Box>): (ds: seq<Detection>)
    ensures |ds| == |boxes|
  {
    if |boxes| == 0 then []
    else Detections(names, boxes[..|boxes| - 1]) + [ToDetection(names, boxes[|boxes| - 1])]
  }

  /** The list comprehension that drops ignored classes, keeping the order. */
  function Relevant(ds: seq<Detection>): (r: seq<Detection>)
    ensures |r| <= |ds|
  {
    if |ds| == 0 then []
    else
      var init := Relevant(ds[..|ds| - 1]);
      var last := ds[|ds| - 1];
      if last.className in IgnoreClasses then init else init + [last]
  }

  /** The filter keeps exactly the detections whose class is not ignored. */
  lemma {:induction false} RelevantKeeps(ds: seq<Detection>, x: Detection)
    ensures x in Relevant(ds) <==> x in ds && x.className !in IgnoreClasses
  {
    if |ds| > 0 {
      assert ds == ds[..|ds| - 1] + [ds[|ds| - 1]];
      RelevantKeeps(ds[..|ds| - 1], x);
    }
  }

  /** The class names of the detections, in order. */
  function Classes(ds: seq<Detection>): (cs: seq<string>)
    ensures |cs| == |ds|
  {
    if |ds| == 0 then [] else Classes(ds[..|ds| - 1]) + [ds[|ds| - 1].className]
  }

  /** The summed area of the detections of class c. */
  function AreaOf(ds: seq<Detection>, c: string): real
  {
    if |ds| == 0 then 0.0
    else AreaOf(ds[..|ds| - 1], c) + (if ds[|ds| - 1].className == c then ds[|ds| - 1].area else 0.0)
  }

  /** The running maximum, from 0, of the confidences of class c. */
  function MaxConfOf(ds: seq<Detection>, c: string): (m: real)
    ensures m >= 0.0
  {
    if |ds| == 0 then 0.0
    else
      var init := MaxConfOf(ds[..|ds| - 1], c);
      var last := ds[|ds| - 1];
      if last.className == c && last.confidence > init then last.confidence else init
  }

  /** The reported confidence is at least every confidence of its class. */
  lemma {:induction false} MaxConfBounds(ds: seq<Detection>, c: string, i: nat)
    requires i < |ds| && ds[i].className == c
    ensures ds[i].confidence <= MaxConfOf(ds, c)
  {
    if i < |ds| - 1 {
      MaxConfBounds(ds[..|ds| - 1], c, i);
    }
  }

  /** The counters of class c, as the tally loop leaves them. */
  function StatsOf(ds: seq<Detection>, c: string): (s: ClassStats)
    ensures s.count > 0 <==> c in Classes(ds)
    ensures s.count <= |ds| && s.maxConf >= 0.0
  {
    ClassStats(Count(Classes(ds), c), AreaOf(ds, c), MaxConfOf(ds, c))
  }

  /** The reported confidence is attained: when c was seen with a positive confidence, MaxConfOf is one of them. */
  lemma {:induction false} MaxConfAttained(ds: seq<Detection>, c: string)
    requires MaxConfOf(ds, c) > 0.0
    ensures exists i :: 0 <= i < |ds| && ds[i].className == c && ds[i].confidence == MaxConfOf(ds, c)
  {
    var init := ds[..|ds| - 1];
    var last := ds[|ds| - 1];
    if last.className == c && last.confidence > MaxConfOf(init, c) {
      assert ds[|ds| - 1].confidence == MaxConfOf(ds, c);
    } else {
      MaxConfAttained(init, c);
      var i :| 0 <= i < |init| && init[i].className == c && init[i].confidence == MaxConfOf(init, c);
      assert ds[i] == init[i];
    }
  }

  lemma DetectionsAppend(names: map<int, string>, boxes: seq<Box>, b: Box)
    ensures Detections(names, boxes + [b]) == Detections(names, boxes) + [ToDetection(names, b)]
  {
    assert (boxes + [b])[..|boxes|] == boxes;
  }

  lemma FlattenStep(results: seq<seq<Box>>, i: nat)
    requires i < |results|
    ensures Flatten(results[..i + 1]) == Flatten(results[..i]) + results[i]
  {
    assert results[..i + 1][..i] == results[..i];
  }

  /** The detections of one more box of the same list. */
  lemma DetectionsPrefixStep(names: map<int, string>, boxes: seq<Box>, j: nat)
    requires j < |boxes|
    ensures Detections(names, boxes[..j + 1]) == Detections(names, boxes[..j]) + [ToDetection(names, boxes[j])]
  {
    assert boxes[..j + 1] == boxes[..j] + [boxes[j]];
    DetectionsAppend(names, boxes[..j], boxes[j]);
  }

  /** The inner loop: the boxes of one result as detections. */
  method DetectBoxes(names: map<int, string>, boxes: seq<Box>) returns (ds: seq<Detection>)
    ensures ds == Detections(names, boxes)
  {
    ds := [];
    for j := 0 to |boxes|
      invariant ds == Detections(names, boxes[..j])
    {
      DetectionsPrefixStep(names, boxes, j);
      ds := ds + [ToDetection(names, boxes[j])];
    }
    assert boxes[..|boxes|] == boxes;
  }

  /** Converting boxes works piecewise. */
  lemma {:induction false} DetectionsConcat(names: map<int, string>, a: seq<Box>, b: seq<Box>)
    ensures Detections(names, a + b) == Detections(names, a) + Detections(names, b)
  {
    if |b| > 0 {
      var b' := b[..|b| - 1];
      assert a + b == (a + b') + [b[|b| - 1]];
      assert b == b' + [b[|b| - 1]];
      DetectionsConcat(names, a, b');
      DetectionsAppend(names, a + b', b[|b| - 1]);
      DetectionsAppend(names, b', b[|b| - 1]);
    } else {
      assert a + b == a;
    }
  }

  /** The nested loop over results and boxes that fills `detections`. */
  method CollectDetections(names: map<int, string>, results: seq<seq<Box>>) returns (ds: seq<Detection>)
    ensures ds == Detections(names, Flatten(results))
  {
    ds := [];
    for i := 0 to |results|
      invariant ds == Detections(names, Flatten(results[..i]))
    {
      var more := DetectBoxes(names, results[i]);
      FlattenStep(results, i);
      DetectionsConcat(names, Flatten(results[..i]), results[i]);
      ds := ds + more;
    }
    assert results[..|results|] == results;
  }

  /** A class not seen yet has the counters the loop starts it with. */
  lemma {:induction false} UnseenStats(ds: seq<Detection>, c: string)
    requires c !in Classes(ds)
    ensures StatsOf(ds, c) == ClassStats(0, 0.0, 0.0)
  {
    if |ds| > 0 {
      var init := ds[..|ds| - 1];
      assert Classes(ds) == Classes(init) + [ds[|ds| - 1].className];
      UnseenStats(init, c);
    }
  }

  /** One more class name extends the first-seen order exactly when it is new. */
  lemma FirstSeenStep(cs: seq<string>, c: string)
    ensures FirstSeen(cs + [c]) == if c in FirstSeen(cs) then FirstSeen(cs) else FirstSeen(cs) + [c]
  {
    assert (cs + [c])[..|cs|] == cs;
  }

  /** One detection added to a class's counters. */
  function Bump(s: ClassStats, d: Detection): ClassStats
  {
    ClassStats(s.count + 1, s.totalArea + d.area, if s.maxConf >= d.confidence then s.maxConf else d.confidence)
  }

  /** The tally loop's invariant after the first k detections. */
  ghost predicate Tallied(ds: seq<Detection>, order: seq<string>, stats: map<string, ClassStats>)
  {
    && order == FirstSeen(Classes(ds))
    && (forall c :: c in stats <==> c in Classes(ds))
    && (forall c :: c in stats ==> stats[c] == StatsOf(ds, c))
  }

  /** One more detection bumps its own class's counters and no other's. */
  lemma StatsAppend(ds: seq<Detection>, d: Detection, c: string)
    ensures StatsOf(ds + [d], c) == if d.className == c then Bump(StatsOf(ds, c), d) else StatsOf(ds, c)
  {
    var ds' := ds + [d];
    assert ds'[..|ds|] == ds;
    assert Classes(ds') == Classes(ds) + [d.className];
    CountAppend(Classes(ds), d.className, c);
  }

  /** One iteration of the tally loop keeps the invariant. */
  lemma TallyStep(ds: seq<Detection>, d: Detection, order: seq<string>, stats: map<string, ClassStats>)
    requires Tallied(ds, order, stats)
    ensures var s := if d.className in stats then stats[d.className] else ClassStats(0, 0.0, 0.0);
      Tallied(ds + [d],
              if d.className in stats then order else order + [d.className],
              stats[d.className := Bump(s, d)])
  {
    ClassesAppend(ds, d);
    TallyOrderStep(Classes(ds), d.className, order, stats);
    StatsStep(ds, d, stats);
  }

  /** The counters after one more detection: its class bumped (from zero when new), the others kept. */
  lemma StatsStep(ds: seq<Detection>, d: Detection, stats: map<string, ClassStats>)
    requires forall c :: c in stats <==> c in Classes(ds)
    requires forall c :: c in stats ==> stats[c] == StatsOf(ds, c)
    ensures var s := if d.className in stats then stats[d.className] else ClassStats(0, 0.0, 0.0);
      forall c :: c in stats[d.className := Bump(s, d)] ==> stats[d.className := Bump(s, d)][c] == StatsOf(ds + [d], c)
  {
    var s := if d.className in stats then stats[d.className] else ClassStats(0, 0.0, 0.0);
    var stats' := stats[d.className := Bump(s, d)];
    if d.className !in stats {
      UnseenStats(ds, d.className);
    }
    forall c | c in stats' ensures stats'[c] == StatsOf(ds + [d], c) {
      StatsAppend(ds, d, c);
    }
  }

  lemma ClassesAppend(ds: seq<Detection>, d: Detection)
    ensures Classes(ds + [d]) == Classes(ds) + [d.className]
  {
    assert (ds + [d])[..|ds|] == ds;
  }

  /** The key order and the key set after one more class name. */
  lemma TallyOrderStep(cs: seq<string>, c: string, order: seq<string>, stats: map<string, ClassStats>)
    requires order == FirstSeen(cs)
    requires forall k :: k in stats <==> k in cs
    ensures (if c in stats then order else order + [c]) == FirstSeen(cs + [c])
    ensures forall k :: k in stats[c := ClassStats(0, 0.0, 0.0)] <==> k in cs + [c]
  {
    FirstSeenStep(cs, c);
    FirstSeenMembers(cs, c);
  }

  /** The loop that fills `class_counter`; `order` is the dictionary's key order. */
  method TallyClasses(ds: seq<Detection>) returns (order: seq<string>, stats: map<string, ClassStats>)
    ensures order == FirstSeen(Classes(ds))
    ensures forall c :: c in stats <==> c in Classes(ds)
    ensures forall c :: c in stats ==> stats[c] == StatsOf(ds, c)
  {
    order := [];
    stats := map[];
    for i := 0 to |ds|
      invariant Tallied(ds[..i], order, stats)
    {
      var d := ds[i];
      TallyStep(ds[..i], d, order, stats);
      assert ds[..i + 1] == ds[..i] + [d];
      if d.className !in stats {
        order := order + [d.className];
        stats := stats[d.className := ClassStats(0, 0.0, 0.0)];
      }
      stats := stats[d.className := Bump(stats[d.className], d)];
    }
    assert ds[..|ds|] == ds;
  }

  /** `max(class_counter.items(), key=total_area)`: the first class in key order with the largest total area. */
  method TopClass(order: seq<string>, stats: map<string, ClassStats>) returns (top: nat)
    requires |order| > 0
    requires forall i :: 0 <= i < |order| ==> order[i] in stats
    ensures top < |order|
    ensures forall i :: 0 <= i < |order| ==> stats[order[i]].totalArea <= stats[order[top]].totalArea
    ensures forall i :: 0 <= i < top ==> stats[order[i]].totalArea < stats[order[top]].totalArea
  {
    top := 0;
    for i := 1 to |order|
      invariant top < i
      invariant forall k :: 0 <= k < i ==> stats[order[k]].totalArea <= stats[order[top]].totalArea
      invariant forall k :: 0 <= k < top ==> stats[order[k]].totalArea < stats[order[top]].totalArea
    {
      if stats[order[i]].totalArea > stats[order[top]].totalArea {
        top := i;
      }
    }
  }

  /** food covers the largest total area, and every class first seen before it covers strictly less. */
  ghost predicate IsTopClass(kept: seq<Detection>, food: string)
    ensures IsTopClass(kept, food) ==> StatsOf(kept, food).count > 0
  {
    var cs := Classes(kept);
    && food in cs
    && (forall c :: c in cs ==> AreaOf(kept, c) <= AreaOf(kept, food))
    && (forall c :: c in cs && FirstIndex(cs, c) < FirstIndex(cs, food) ==> AreaOf(kept, c) < AreaOf(kept, food))
  }

  /** The rule picks one class only: ties are broken by first appearance. */
  lemma TopClassUnique(kept: seq<Detection>, a: string, b: string)
    requires IsTopClass(kept, a) && IsTopClass(kept, b)
    ensures a == b
  {
    var cs := Classes(kept);
    assert AreaOf(kept, a) == AreaOf(kept, b);
    assert FirstIndex(cs, a) == FirstIndex(cs, b);
  }

  /**
   * run_yolo_international on the detector's output. Without a model it
   * reports the fixed error; with no relevant detection, "Unknown" at
   * confidence 0; otherwise the top class and that class's best confidence.
   */
  method RunYolo(modelLoaded: bool, names: map<int, string>, inference: Inference) returns (r: YoloResult)
    ensures !modelLoaded ==> r == YoloResult("Unknown", 0.0, Some("YOLO model not available"))
    ensures modelLoaded && inference.InferenceFailed? ==> r == YoloResult("Unknown", 0.0, Some(inference.message))
    ensures modelLoaded && inference.Inferred? ==> r.error == None
    ensures modelLoaded && inference.Inferred? && Relevant(Detections(names, Flatten(inference.results))) == [] ==>
      r == YoloResult("Unknown", 0.0, None)
    ensures modelLoaded && inference.Inferred? && Relevant(Detections(names, Flatten(inference.results))) != [] ==>
      var kept := Relevant(Detections(names, Flatten(inference.results)));
      && IsTopClass(kept, r.food)
      && r.food !in IgnoreClasses
      && r.confidence == MaxConfOf(kept, r.food)
  {
    if !modelLoaded {
      return YoloResult("Unknown", 0.0, Some("YOLO model not available"));
    }
    if inference.InferenceFailed? {
      return YoloResult("Unknown", 0.0, Some(inference.message));
    }
    var all := CollectDetections(names, inference.results);
    var kept := Relevant(all);
    if kept == [] {
      return YoloResult("Unknown", 0.0, None);
    }
    var order, stats := TallyClasses(kept);
    FirstSeenMembers(Classes(kept), Classes(kept)[0]);
    var top := TopClass(order, stats);
    var food := order[top];
    r := YoloResult(food, stats[food].maxConf, None);
    TopCoversAll(kept, order, stats, top);
    TopFirstAmongEquals(kept, order, stats, top);
    RelevantClasses(all, food);
  }

  /** TopClass's pick covers at least the area of every class. */
  lemma TopCoversAll(kept: seq<Detection>, order: seq<string>, stats: map<string, ClassStats>, top: nat)
    requires order == FirstSeen(Classes(kept))
    requires forall c :: c in stats <==> c in Classes(kept)
    requires forall c :: c in stats ==> stats[c] == StatsOf(kept, c)
    requires top < |order|
    requires forall i :: 0 <= i < |order| ==> stats[order[i]].totalArea <= stats[order[top]].totalArea
    ensures order[top] in Classes(kept)
    ensures forall c :: c in Classes(kept) ==> AreaOf(kept, c) <= AreaOf(kept, order[top])
  {
    var cs := Classes(kept);
    FirstSeenMembers(cs, order[top]);
    forall c | c in cs ensures AreaOf(kept, c) <= AreaOf(kept, order[top]) {
      FirstSeenMembers(cs, c);
      var j :| 0 <= j < |order| && order[j] == c;
    }
  }

  /** Every class first seen before TopClass's pick covers strictly less. */
  lemma TopFirstAmongEquals(kept: seq<Detection>, order: seq<string>, stats: map<string, ClassStats>, top: nat)
    requires order == FirstSeen(Classes(kept))
    requires forall c :: c in stats <==> c in Classes(kept)
    requires forall c :: c in stats ==> stats[c] == StatsOf(kept, c)
    requires top < |order|
    requires forall i :: 0 <= i < top ==> stats[order[i]].totalArea < stats[order[top]].totalArea
    requires order[top] in Classes(kept)
    ensures forall c :: c in Classes(kept) && FirstIndex(Classes(kept), c) < FirstIndex(Classes(kept), order[top]) ==>
      AreaOf(kept, c) < AreaOf(kept, order[top])
  {
    var cs := Classes(kept);
    forall c | c in cs && FirstIndex(cs, c) < FirstIndex(cs, order[top])
      ensures AreaOf(kept, c) < AreaOf(kept, order[top])
    {
      var i := FirstSeenPosition(cs, c);
      EarlierInOrder(cs, top, i);
    }
  }

  /** A class that first occurs earlier stands earlier in the key order. */
  lemma EarlierInOrder(cs: seq<string>, top: nat, i: nat)
    requires top < |FirstSeen(cs)| && i < |FirstSeen(cs)|
    requires FirstIndex(cs, FirstSeen(cs)[i]) < FirstIndex(cs, FirstSeen(cs)[top])
    ensures i < top
  {
    if i > top {
      FirstSeenOrder(cs, top, i);
    }
  }

  /** The i-th class name is the class of the i-th detection. */
  lemma {:induction false} ClassesAt(ds: seq<Detection>, i: nat)
    requires i < |ds|
    ensures Classes(ds)[i] == ds[i].className
  {
    if i < |ds| - 1 {
      ClassesAt(ds[..|ds| - 1], i);
    }
  }

  /** No class of a filtered list is an ignored one. */
  lemma RelevantClasses(all: seq<Detection>, c: string)
    requires c in Classes(Relevant(all))
    ensures c !in IgnoreClasses
  {
    var kept := Relevant(all);
    var k :| 0 <= k < |Classes(kept)| && Classes(kept)[k] == c;
    ClassesAt(kept, k);
    RelevantKeeps(all, kept[k]);
  }

  /** With only tableware in view, nothing is relevant: the answer is "Unknown" at confidence 0. */
  lemma TablewareOnlyIsUnknown(ds: seq<Detection>)
    requires forall i :: 0 <= i < |ds| ==> ds[i].className in IgnoreClasses
    ensures Relevant(ds) == []
  {
    if Relevant(ds) != [] {
      var x := Relevant(ds)[0];
      RelevantKeeps(ds, x);
    }
  }
}
