/**
 * The Indian-food path (run_indian_workflows): the predictions of the three
 * hosted workflows are pooled, those below the confidence threshold dropped,
 * and a name wins only if its normalised form is the most common one and
 * occurs at least twice.
 */
module IndianVote {
  import opened Wrappers
  import opened Tally
  import Names

  /** Predictions below this confidence are dropped, and the average must reach it. */
  const ConfThreshold: real := 0.6

  /**
   * One entry of a workflow's prediction list. Malformed is an entry whose
   * reading raises: its confidence missing or not a number, or its class
   * missing while the confidence clears the threshold. An unconfident entry
   * without a class is a Prediction whose name is never read.
   */
  datatype RawPrediction = Prediction(className: string, confidence: real) | Malformed

  /** One workflow call: it raised, or it returned its prediction list. */
  datatype RunOutcome = RunFailed | RunOk(predictions: seq<RawPrediction>)

  /** A kept prediction: its original class name and confidence. */
  datatype Vote = Vote(original: string, confidence: real)

  /** How many entries of a list are processed before one raises. */
  function ProcessedLength(ps: seq<RawPrediction>): (n: nat)
    ensures n <= |ps|
    ensures forall i :: 0 <= i < n ==> ps[i].Prediction?
    ensures n < |ps| ==> ps[n].Malformed?
  {
    if |ps| == 0 || ps[0].Malformed? then 0 else 1 + ProcessedLength(ps[1..])
  }

  /** The confident predictions of a list of well-formed entries, in order. */
  function Confident(ps: seq<RawPrediction>): (vs: seq<Vote>)
    requires forall i :: 0 <= i < |ps| ==> ps[i].Prediction?
    ensures |vs| <= |ps|
  {
    if |ps| == 0 then []
    else
      var last := ps[|ps| - 1];
      var init := Confident(ps[..|ps| - 1]);
      if last.confidence >= ConfThreshold then init + [Vote(last.className, last.confidence)] else init
  }

  /** The votes one workflow contributes: the confident entries before the first one that raises. */
  function RunVotes(run: RunOutcome): (vs: seq<Vote>)
    ensures run.RunFailed? ==> vs == []
    ensures run.RunOk? ==> |vs| <= |run.predictions|
    ensures forall i :: 0 <= i < |vs| ==> vs[i].confidence >= ConfThreshold
  {
    match run
    case RunFailed => []
    case RunOk(ps) =>
      ConfidentClears(ps[..ProcessedLength(ps)]);
      Confident(ps[..ProcessedLength(ps)])
  }

  /** All votes, workflow by workflow. */
  function AllVotes(runs: seq<RunOutcome>): (vs: seq<Vote>)
    ensures forall i :: 0 <= i < |vs| ==> vs[i].confidence >= ConfThreshold
  {
    if |runs| == 0 then [] else AllVotes(runs[..|runs| - 1]) + RunVotes(runs[|runs| - 1])
  }

  /** `indian_predictions`: the normalised names of the votes. */
  function Norms(vs: seq<Vote>): (ns: seq<string>)
    ensures |ns| == |vs|
  {
    if |vs| == 0 then [] else Norms(vs[..|vs| - 1]) + [Names.Normalize(vs[|vs| - 1].original)]
  }

  /** `confidences`: the confidences of the votes. */
  function Confs(vs: seq<Vote>): (cs: seq<real>)
    ensures |cs| == |vs|
  {
    if |vs| == 0 then [] else Confs(vs[..|vs| - 1]) + [vs[|vs| - 1].confidence]
  }

  /** `original_mapping`: each normalised name mapped to the first original name that produced it. */
  function FirstNames(vs: seq<Vote>): map<string, string>
  {
    if |vs| == 0 then map[]
    else
      var m := FirstNames(vs[..|vs| - 1]);
      var v := vs[|vs| - 1];
      var k := Names.Normalize(v.original);
      if k in m then m else m[k := v.original]
  }

  function Sum(xs: seq<real>): real
  {
    if |xs| == 0 then 0.0 else Sum(xs[..|xs| - 1]) + xs[|xs| - 1]
  }

  /** Every confident entry is kept: the filter drops exactly the entries below the threshold. */
  lemma {:induction false} ConfidentKeeps(ps: seq<RawPrediction>, i: nat)
    requires forall k :: 0 <= k < |ps| ==> ps[k].Prediction?
    requires i < |ps| && ps[i].confidence >= ConfThreshold
    ensures Vote(ps[i].className, ps[i].confidence) in Confident(ps)
  {
    var init := ps[..|ps| - 1];
    if i < |ps| - 1 {
      assert init[i] == ps[i];
      ConfidentKeeps(init, i);
    }
  }

  /** Every vote clears the threshold. */
  lemma {:induction false} ConfidentClears(ps: seq<RawPrediction>)
    requires forall i :: 0 <= i < |ps| ==> ps[i].Prediction?
    ensures forall i :: 0 <= i < |Confident(ps)| ==> Confident(ps)[i].confidence >= ConfThreshold
  {
    if |ps| > 0 {
      ConfidentClears(ps[..|ps| - 1]);
    }
  }

  lemma {:induction false} AllVotesClear(runs: seq<RunOutcome>)
    ensures forall i :: 0 <= i < |AllVotes(runs)| ==> AllVotes(runs)[i].confidence >= ConfThreshold
  {
    if |runs| > 0 {
      AllVotesClear(runs[..|runs| - 1]);
      match runs[|runs| - 1]
      case RunFailed =>
      case RunOk(ps) => ConfidentClears(ps[..ProcessedLength(ps)]);
    }
  }

  /** A sum of values each at least the threshold is at least the threshold times their number. */
  lemma {:induction false} SumAtLeast(xs: seq<real>)
    requires forall i :: 0 <= i < |xs| ==> xs[i] >= 0.6
    ensures Sum(xs) >= 0.6 * |xs| as real
  {
    if |xs| > 0 {
      SumAtLeast(xs[..|xs| - 1]);
    }
  }

  /** Dividing by a positive count keeps the bound. */
  lemma AverageBound(total: real, n: real)
    requires n > 0.0 && total >= 0.6 * n
    ensures total / n >= 0.6
  {
    assert (total / n) * n == total;
  }

  lemma {:induction false} ConfsAt(vs: seq<Vote>, i: nat)
    requires i < |vs|
    ensures Confs(vs)[i] == vs[i].confidence
  {
    if i < |vs| - 1 {
      ConfsAt(vs[..|vs| - 1], i);
    }
  }

  lemma ConfsClear(runs: seq<RunOutcome>)
    ensures forall i :: 0 <= i < |Confs(AllVotes(runs))| ==> Confs(AllVotes(runs))[i] >= 0.6
  {
    var vs := AllVotes(runs);
    AllVotesClear(runs);
    forall i | 0 <= i < |vs| ensures Confs(vs)[i] >= 0.6 {
      ConfsAt(vs, i);
    }
  }

  /** In exact arithmetic the average of the kept confidences always reaches the threshold, so that check never rejects. */
  lemma AverageReachesThreshold(runs: seq<RunOutcome>)
    requires AllVotes(runs) != []
    ensures Sum(Confs(AllVotes(runs))) / |AllVotes(runs)| as real >= ConfThreshold
  {
    var cs := Confs(AllVotes(runs));
    ConfsClear(runs);
    SumAtLeast(cs);
    AverageBound(Sum(cs), |cs| as real);
  }

  /** The mapping holds exactly the normalised names voted for. */
  lemma {:induction false} FirstNamesKeys(vs: seq<Vote>, k: string)
    ensures k in FirstNames(vs) <==> k in Norms(vs)
  {
    if |vs| > 0 {
      FirstNamesKeys(vs[..|vs| - 1], k);
    }
  }

  /** The name kept for a normalised key is that of the first vote producing it. */
  lemma {:induction false} FirstNamesFirst(vs: seq<Vote>, k: string)
    requires k in Norms(vs)
    ensures k in FirstNames(vs) && FirstNames(vs)[k] == vs[FirstIndex(Norms(vs), k)].original
  {
    var init := vs[..|vs| - 1];
    var ns := Norms(vs);
    assert ns == Norms(init) + [Names.Normalize(vs[|vs| - 1].original)];
    FirstNamesKeys(init, k);
    FirstNamesKeys(vs, k);
    if k in Norms(init) {
      FirstNamesFirst(init, k);
      FirstIndexOfPrefix(Norms(init), Names.Normalize(vs[|vs| - 1].original), k);
    } else {
      assert FirstIndex(ns, k) == |init|;
    }
  }

  /** `Counter(...).most_common(1)[0]`: the most frequent name, the first seen among equals. */
  method MostCommon(ns: seq<string>) returns (best: string, count: nat)
    requires |ns| > 0
    ensures best in ns && count == Count(ns, best)
    ensures forall x :: x in ns ==> Count(ns, x) <= count
    ensures forall i :: 0 <= i < FirstIndex(ns, best) ==> Count(ns, ns[i]) < count
  {
    best, count := ns[0], Count(ns, ns[0]);
    ghost var at := 0;
    for i := 1 to |ns|
      invariant at < i && ns[at] == best && count == Count(ns, best)
      invariant forall k :: 0 <= k < i ==> Count(ns, ns[k]) <= count
      invariant forall k :: 0 <= k < at ==> Count(ns, ns[k]) < count
      invariant FirstIndex(ns, best) == at
    {
      var c := Count(ns, ns[i]);
      if c > count {
        assert forall k :: 0 <= k < i ==> ns[k] != ns[i];
        best, count, at := ns[i], c, i;
      }
    }
  }

  /**
   * What `most_common(1)` picks: a key with the largest count and, among the
   * keys with that count, the one that occurs first.
   */
  ghost predicate IsMostCommon(ns: seq<string>, w: string)
  {
    && w in ns
    && (forall x :: x in ns ==> Count(ns, x) <= Count(ns, w))
    && (forall i :: 0 <= i < FirstIndex(ns, w) ==> Count(ns, ns[i]) < Count(ns, w))
  }

  /** At most one key is the most common one. */
  lemma MostCommonUnique(ns: seq<string>, a: string, b: string)
    requires IsMostCommon(ns, a) && IsMostCommon(ns, b)
    ensures a == b
  {
    var i, j := FirstIndex(ns, a), FirstIndex(ns, b);
    assert ns[i] == a && ns[j] == b;
    assert Count(ns, a) == Count(ns, b);
  }

  /** Among ns[..n], the first index holding a largest count. */
  lemma {:induction false} LeaderIndex(ns: seq<string>, n: nat) returns (j: nat)
    requires 0 < n <= |ns|
    ensures j < n
    ensures forall k :: 0 <= k < n ==> Count(ns, ns[k]) <= Count(ns, ns[j])
    ensures forall k :: 0 <= k < j ==> Count(ns, ns[k]) < Count(ns, ns[j])
  {
    if n == 1 {
      j := 0;
    } else {
      j := LeaderIndex(ns, n - 1);
      if Count(ns, ns[n - 1]) > Count(ns, ns[j]) {
        j := n - 1;
      }
    }
  }

  /** A non-empty list has a most common key. */
  lemma MostCommonExists(ns: seq<string>)
    requires |ns| > 0
    ensures exists w :: IsMostCommon(ns, w)
  {
    var j := LeaderIndex(ns, |ns|);
    var w := ns[j];
    var f := FirstIndex(ns, w);
    assert f <= j && ns[f] == w;
    forall x | x in ns
      ensures Count(ns, x) <= Count(ns, w)
    {
      var k :| 0 <= k < |ns| && ns[k] == x;
    }
    assert IsMostCommon(ns, w);
  }

  /**
   * The vote's outcome as a value: the first original spelling of the most
   * common normalised name, provided that name has at least two votes.
   */
  ghost function Winner(vs: seq<Vote>): (r: Option<string>)
    ensures r.Some? ==> VotedTwice(vs, r.value)
  {
    var ns := Norms(vs);
    if ns == [] then None
    else
      var w := MostCommonKey(ns);
      if Count(ns, w) >= 2 then Some(vs[FirstIndex(ns, w)].original) else None
  }

  /** The most common key of a non-empty list. */
  ghost function MostCommonKey(ns: seq<string>): (w: string)
    requires |ns| > 0
    ensures IsMostCommon(ns, w)
  {
    MostCommonExists(ns);
    var w :| IsMostCommon(ns, w); w
  }

  /** Winner is decided by the most common key: the tie-break of most_common(1) is part of it. */
  lemma WinnerOf(vs: seq<Vote>, w: string)
    requires IsMostCommon(Norms(vs), w)
    ensures Winner(vs) == if Count(Norms(vs), w) >= 2 then Some(vs[FirstIndex(Norms(vs), w)].original) else None
  {
    MostCommonUnique(Norms(vs), MostCommonKey(Norms(vs)), w);
  }

  /** Some vote carries this original name, and its normalised name has at least two votes. */
  ghost predicate VotedTwice(vs: seq<Vote>, name: string)
  {
    exists i :: 0 <= i < |vs| && vs[i].original == name && Count(Norms(vs), Norms(vs)[i]) >= 2
  }

  /** There is a winner exactly when some normalised name has two votes or more, and it is a name someone voted for. */
  lemma WinnerWasVoted(vs: seq<Vote>)
    ensures Winner(vs).Some? <==> exists x :: x in Norms(vs) && Count(Norms(vs), x) >= 2
    ensures Winner(vs).Some? ==> VotedTwice(vs, Winner(vs).value)
  {
    var ns := Norms(vs);
    if ns != [] {
      var w := MostCommonKey(ns);
      WinnerOf(vs, w);
      var i := FirstIndex(ns, w);
      assert ns[i] == w;
    }
  }

  /**
   * run_indian_workflows. Without a configured client, or with no confident
   * prediction, nothing. Otherwise the winner of the vote, under its first
   * original spelling, with the average confidence, provided it was voted for
   * at least twice.
   */
  method RunIndianWorkflows(configured: bool, runs: seq<RunOutcome>) returns (r: Option<(string, real)>)
    ensures !configured || AllVotes(runs) == [] ==> r == None
    ensures configured ==> (r.Some? <==> Winner(AllVotes(runs)).Some?)
    ensures configured && AllVotes(runs) != [] ==>
      var vs := AllVotes(runs);
      var ns := Norms(vs);
      && (r.Some? <==> exists x :: x in ns && Count(ns, x) >= 2)
      && (r.Some? ==>
            && r.value.0 == Winner(vs).value
            && r.value.1 == Sum(Confs(vs)) / |vs| as real
            && r.value.1 >= ConfThreshold
            && exists w :: IsMostCommon(ns, w) && Count(ns, w) >= 2 && r.value.0 == vs[FirstIndex(ns, w)].original)
  {
    if !configured {
      return None;
    }
    var predictions, confidences, mapping := CollectVotes(runs);
    if |predictions| == 0 {
      return None;
    }
    var best, count := MostCommon(predictions);
    var avg := Sum(confidences) / |confidences| as real;
    AverageReachesThreshold(runs);
    FirstNamesKeys(AllVotes(runs), best);
    assert IsMostCommon(predictions, best);
    WinnerOf(AllVotes(runs), best);
    if count >= 2 && avg >= ConfThreshold {
      r := Some((mapping[best], avg));
      FirstNamesFirst(AllVotes(runs), best);
    } else {
      r := None;
    }
  }

  /** The three accumulators hold the votes vs. */
  ghost predicate Collected(vs: seq<Vote>, predictions: seq<string>, confidences: seq<real>, mapping: map<string, string>)
  {
    predictions == Norms(vs) && confidences == Confs(vs) && mapping == FirstNames(vs)
  }

  /** Recording one more vote. */
  lemma AppendVote(vs: seq<Vote>, v: Vote)
    ensures Norms(vs + [v]) == Norms(vs) + [Names.Normalize(v.original)]
    ensures Confs(vs + [v]) == Confs(vs) + [v.confidence]
    ensures var k := Names.Normalize(v.original);
      FirstNames(vs + [v]) == if k in FirstNames(vs) then FirstNames(vs) else FirstNames(vs)[k := v.original]
  {
    assert (vs + [v])[..|vs|] == vs;
  }

  lemma AllVotesStep(runs: seq<RunOutcome>, w: nat)
    requires w < |runs|
    ensures AllVotes(runs[..w + 1]) == AllVotes(runs[..w]) + RunVotes(runs[w])
  {
    assert runs[..w + 1][..w] == runs[..w];
  }

  /** One more well-formed entry: kept when confident. */
  lemma ConfidentStep(ps: seq<RawPrediction>, j: nat)
    requires j < |ps|
    requires forall k :: 0 <= k <= j ==> ps[k].Prediction?
    ensures Confident(ps[..j + 1]) ==
      if ps[j].confidence >= ConfThreshold then Confident(ps[..j]) + [Vote(ps[j].className, ps[j].confidence)]
      else Confident(ps[..j])
  {
    assert ps[..j + 1][..j] == ps[..j];
  }

  /** Recording one more vote in the three accumulators. */
  lemma CollectOne(vs: seq<Vote>, v: Vote, predictions: seq<string>, confidences: seq<real>, mapping: map<string, string>)
    requires Collected(vs, predictions, confidences, mapping)
    ensures var k := Names.Normalize(v.original);
      Collected(vs + [v], predictions + [k], confidences + [v.confidence],
                if k in mapping then mapping else mapping[k := v.original])
  {
    AppendVote(vs, v);
  }

  /** The inner loop over one workflow's entries, stopping at the first that raises. */
  method AddRun(ghost vs: seq<Vote>, ps: seq<RawPrediction>,
                predictions: seq<string>, confidences: seq<real>, mapping: map<string, string>)
    returns (predictions': seq<string>, confidences': seq<real>, mapping': map<string, string>)
    requires Collected(vs, predictions, confidences, mapping)
    ensures Collected(vs + RunVotes(RunOk(ps)), predictions', confidences', mapping')
  {
    predictions', confidences', mapping' := predictions, confidences, mapping;
    var j := 0;
    assert ps[..0] == [] && vs + [] == vs;
    while j < |ps| && ps[j].Prediction?
      invariant j <= |ps|
      invariant forall k :: 0 <= k < j ==> ps[k].Prediction?
      invariant Collected(vs + Confident(ps[..j]), predictions', confidences', mapping')
      decreases |ps| - j
    {
      var p := ps[j];
      ghost var done := vs + Confident(ps[..j]);
      ConfidentStep(ps, j);
      if p.confidence >= ConfThreshold {
        var norm := Names.Normalize(p.className);
        var v := Vote(p.className, p.confidence);
        CollectOne(done, v, predictions', confidences', mapping');
        assert vs + Confident(ps[..j + 1]) == done + [v];
        predictions' := predictions' + [norm];
        confidences' := confidences' + [p.confidence];
        if norm !in mapping' {
          mapping' := mapping'[norm := p.className];
        }
      }
      j := j + 1;
    }
    ProcessedPrefix(ps, j);
  }

  /** The workflow loop: for each run, its entries up to the first that raises, keeping the confident ones. */
  method CollectVotes(runs: seq<RunOutcome>) returns (predictions: seq<string>, confidences: seq<real>, mapping: map<string, string>)
    ensures predictions == Norms(AllVotes(runs))
    ensures confidences == Confs(AllVotes(runs))
    ensures mapping == FirstNames(AllVotes(runs))
  {
    predictions, confidences, mapping := [], [], map[];
    for w := 0 to |runs|
      invariant Collected(AllVotes(runs[..w]), predictions, confidences, mapping)
    {
      AllVotesStep(runs, w);
      match runs[w] {
        case RunFailed =>
          assert AllVotes(runs[..w]) + [] == AllVotes(runs[..w]);
        case RunOk(ps) =>
          predictions, confidences, mapping := AddRun(AllVotes(runs[..w]), ps, predictions, confidences, mapping);
      }
    }
    assert runs[..|runs|] == runs;
  }

  /** The loop stops where ProcessedLength says: at the first entry that raises, or the end. */
  lemma {:induction false} ProcessedPrefix(ps: seq<RawPrediction>, j: nat)
    requires j <= |ps|
    requires forall k :: 0 <= k < j ==> ps[k].Prediction?
    requires j == |ps| || ps[j].Malformed?
    ensures ProcessedLength(ps) == j
  {
    if j > 0 {
      ProcessedPrefix(ps[1..], j - 1);
    }
  }
}
