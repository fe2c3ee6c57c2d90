/** The backend's fault decision (backend/predictor.py): the three
    classifiers' numeric outputs are mapped to labels, each casts one vote,
    and a label backed by at least two of them wins with high confidence;
    otherwise the reading is "suspicious" with low confidence. The
    classifiers themselves are not modelled: their outputs are inputs. */
module Predictor {
  import opened Wrappers

  /** The four fault labels a classifier can output. */
  datatype Label = Normal | Misalignment | Unbalance | BearingFault

  /** The label as the result dictionary spells it. */
  function Name(l: Label): string {
    match l
    case Normal => "normal"
    case Misalignment => "misalignment"
    case Unbalance => "unbalance"
    case BearingFault => "bearing_fault"
  }

  /** `LABELS`: numeric classifier output to fault label. */
  const Labels: map<int, Label> := map[0 := Normal, 1 := Misalignment, 2 := Unbalance, 3 := BearingFault]

  /** The keys of the `votes` dictionary in insertion order, which is the
      order `max(votes, key=votes.get)` scans them in. */
  const VoteKeys: seq<Label> := [Normal, Unbalance, Misalignment, BearingFault]

  /** `predict_fault`'s result dictionary. */
  datatype Prediction = Prediction(fault: string, confidence: string, svm: string, knn: string, gnb: string)

  /** The `KeyError` raised for a numeric output outside `LABELS`. */
  datatype PredictError = UnknownLabel(output: int)

  /** `LABELS[n]` */
  function LabelOf(n: int): (r: Result<Label, PredictError>)
    ensures r.Success? <==> 0 <= n <= 3
    ensures r.Success? ==> r.value in VoteKeys && Labels[n] == r.value
    ensures r.Failure? ==> r.error == UnknownLabel(n)
  {
    if n in Labels then Success(Labels[n]) else Failure(UnknownLabel(n))
  }

  /** Different numeric outputs map to different labels, and every vote key
      is some output's label. */
  lemma LabelsBijective()
    ensures forall m, n :: m in Labels && n in Labels && m != n ==> Labels[m] != Labels[n]
    ensures forall k: Label :: k in VoteKeys
    ensures forall k: Label :: k in VoteKeys ==> exists n :: n in Labels && Labels[n] == k
    ensures forall k: Label, l: Label :: k != l ==> Name(k) != Name(l)
  {
    forall k: Label
      ensures k in VoteKeys
    {
      match k
      case Normal => assert VoteKeys[0] == k;
      case Unbalance => assert VoteKeys[1] == k;
      case Misalignment => assert VoteKeys[2] == k;
      case BearingFault => assert VoteKeys[3] == k;
    }
    forall k: Label | k in VoteKeys
      ensures exists n :: n in Labels && Labels[n] == k
    {
      match k
      case Normal => assert Labels[0] == k;
      case Misalignment => assert Labels[1] == k;
      case Unbalance => assert Labels[2] == k;
      case BearingFault => assert Labels[3] == k;
    }
    forall k: Label, l: Label | k != l
      ensures Name(k) != Name(l)
    {
      if k.Normal? || l.Normal? {
        assert Name(k)[0] != Name(l)[0];
      } else {
        assert Name(k)[1] != Name(l)[1];
      }
    }
  }

  /** Where `l` sits in the scan order. */
  function KeyPosition(l: Label): (i: nat)
    ensures i < |VoteKeys| && VoteKeys[i] == l
  {
    match l
    case Normal => 0
    case Unbalance => 1
    case Misalignment => 2
    case BearingFault => 3
  }

  /** The agreement rule, stated on the three labels directly: a label
      shared by two classifiers wins with high confidence, three different
      labels give "suspicious" with low confidence. */
  function Decision(svm: Label, knn: Label, gnb: Label): (r: (string, string))
    ensures r.1 == "high" <==> svm == knn || svm == gnb || knn == gnb
    ensures r.1 != "high" ==> r == ("suspicious", "low")
    ensures r.1 == "high" ==>
      (r.0 == Name(svm) && (svm == knn || svm == gnb)) || (r.0 == Name(knn) && knn == gnb)
  {
    if svm == knn || svm == gnb then (Name(svm), "high")
    else if knn == gnb then (Name(knn), "high")
    else ("suspicious", "low")
  }

  /** `predict_fault` on the three numeric outputs: the first output (svm,
      knn, gnb) without a label raises; otherwise the agreement rule
      decides, and the three labels are echoed. */
  function Predict(svm: int, knn: int, gnb: int): (r: Result<Prediction, PredictError>)
    ensures r.Success? <==> svm in Labels && knn in Labels && gnb in Labels
    ensures r.Success? ==>
      && (r.value.svm, r.value.knn, r.value.gnb) == (Name(Labels[svm]), Name(Labels[knn]), Name(Labels[gnb]))
      && (r.value.fault, r.value.confidence) == Decision(Labels[svm], Labels[knn], Labels[gnb])
  {
    if svm !in Labels then Failure(UnknownLabel(svm))
    else if knn !in Labels then Failure(UnknownLabel(knn))
    else if gnb !in Labels then Failure(UnknownLabel(gnb))
    else
      var d := Decision(Labels[svm], Labels[knn], Labels[gnb]);
      Success(Prediction(d.0, d.1, Name(Labels[svm]), Name(Labels[knn]), Name(Labels[gnb])))
  }

  /** The number of the three models that voted for `key`. */
  function VotesFor(svm: Label, knn: Label, gnb: Label, key: Label): int {
    (if svm == key then 1 else 0) + (if knn == key then 1 else 0) + (if gnb == key then 1 else 0)
  }

  /** `votes` holds, for every label, the number of models that voted for
      it. */
  ghost predicate Counts(votes: map<Label, int>, svm: Label, knn: Label, gnb: Label) {
    forall key: Label :: key in votes && votes[key] == VotesFor(svm, knn, gnb, key)
  }

  /** A label is one of the four constructors. */
  lemma LabelCases(l: Label)
    ensures l == Normal || l == Unbalance || l == Misalignment || l == BearingFault
  {
  }

  /** The sum of all vote counts. */
  function Total(votes: map<Label, int>): int
    requires forall k :: k in VoteKeys ==> k in votes
  {
    votes[VoteKeys[0]] + votes[VoteKeys[1]] + votes[VoteKeys[2]] + votes[VoteKeys[3]]
  }

  /** `max(votes.values())` over the given keys. */
  function MaxVotes(votes: map<Label, int>, keys: seq<Label>): (r: int)
    requires |keys| > 0 && forall i :: 0 <= i < |keys| ==> keys[i] in votes
    ensures forall i :: 0 <= i < |keys| ==> votes[keys[i]] <= r
    ensures exists i :: 0 <= i < |keys| && votes[keys[i]] == r
  {
    if |keys| == 1 then votes[keys[0]]
    else
      var rest := MaxVotes(votes, keys[1..]);
      assert forall i :: 1 <= i < |keys| ==> keys[i] == keys[1..][i - 1];
      if votes[keys[0]] >= rest then votes[keys[0]] else rest
  }

  /** `max(votes, key=votes.get)`: the first key, in scan order, whose
      count is `m`. */
  function FirstWith(votes: map<Label, int>, keys: seq<Label>, m: int): (r: Label)
    requires forall i :: 0 <= i < |keys| ==> keys[i] in votes
    requires exists i :: 0 <= i < |keys| && votes[keys[i]] == m
    ensures exists i :: (0 <= i < |keys| && keys[i] == r && votes[r] == m &&
                         forall j :: 0 <= j < i ==> votes[keys[j]] != m)
  {
    if votes[keys[0]] == m then keys[0]
    else
      assert exists i :: 1 <= i < |keys| && votes[keys[i]] == m;
      assert forall i :: 1 <= i < |keys| ==> keys[1..][i - 1] == keys[i];
      var r := FirstWith(votes, keys[1..], m);
      assert exists i :: (1 <= i < |keys| && keys[i] == r && votes[r] == m &&
                          forall j :: 0 <= j < i ==> votes[keys[j]] != m);
      r
  }

  function Max(x: int, y: int): int {
    if x >= y then x else y
  }

  /** The scan over the four vote keys written out. */
  lemma ScanVoteKeys(votes: map<Label, int>, m: int)
    requires forall k :: k in VoteKeys ==> k in votes
    ensures var n, u, a, b := votes[Normal], votes[Unbalance], votes[Misalignment], votes[BearingFault];
      && MaxVotes(votes, VoteKeys) == Max(n, Max(u, Max(a, b)))
      && (m == Max(n, Max(u, Max(a, b))) ==>
            FirstWith(votes, VoteKeys, m) ==
              (if n == m then Normal else if u == m then Unbalance else if a == m then Misalignment else BearingFault))
  {
    var k1, k2, k3 := VoteKeys[1..], VoteKeys[1..][1..], VoteKeys[1..][1..][1..];
    assert k1 == [Unbalance, Misalignment, BearingFault];
    assert k2 == [Misalignment, BearingFault];
    assert k3 == [BearingFault];
    var n, u, a, b := votes[Normal], votes[Unbalance], votes[Misalignment], votes[BearingFault];
    assert MaxVotes(votes, k3) == b;
    assert MaxVotes(votes, k2) == Max(a, b);
    assert MaxVotes(votes, k1) == Max(u, Max(a, b));
    if m == Max(n, Max(u, Max(a, b))) {
      if n != m {
        if u != m {
          if a != m {
            assert FirstWith(votes, k2, m) == FirstWith(votes, k3, m) == BearingFault;
          }
        }
      }
    }
  }

  /** The label two or more models agree on, when some two do: svm's label
      if another model shares it, knn's otherwise. */
  function Agreed(svm: Label, knn: Label, gnb: Label): Label {
    if svm == knn || svm == gnb then svm else knn
  }

  /** A label has two or more of the three votes exactly when two models
      agree and it is their label. */
  lemma TwoVotesIsAgreed(svm: Label, knn: Label, gnb: Label, key: Label)
    ensures VotesFor(svm, knn, gnb, key) >= 2 <==>
      (svm == knn || svm == gnb || knn == gnb) && key == Agreed(svm, knn, gnb)
  {
  }

  /** Each model's label takes exactly one of the four counts. */
  lemma OneCountEach(l: Label)
    ensures (if l == Normal then 1 else 0) + (if l == Unbalance then 1 else 0)
          + (if l == Misalignment then 1 else 0) + (if l == BearingFault then 1 else 0) == 1
  {
    LabelCases(l);
  }

  /** Three votes: at least two models agree exactly when the highest count
      reaches 2; then the label with that count is unique, so the first one
      scanned is the agreed label whatever the scan order. */
  lemma MajorityVote(votes: map<Label, int>, svm: Label, knn: Label, gnb: Label)
    requires Counts(votes, svm, knn, gnb)
    ensures forall i :: 0 <= i < |VoteKeys| ==> VoteKeys[i] in votes
    ensures MaxVotes(votes, VoteKeys) >= 2 <==> svm == knn || svm == gnb || knn == gnb
    ensures MaxVotes(votes, VoteKeys) >= 2 ==>
      Name(FirstWith(votes, VoteKeys, MaxVotes(votes, VoteKeys))) == Decision(svm, knn, gnb).0
  {
    assert forall i :: 0 <= i < |VoteKeys| ==> VoteKeys[i] in votes;
    var top := MaxVotes(votes, VoteKeys);
    var winner := Agreed(svm, knn, gnb);
    if svm == knn || svm == gnb || knn == gnb {
      TwoVotesIsAgreed(svm, knn, gnb, winner);
      assert top >= votes[VoteKeys[KeyPosition(winner)]] >= 2;
    }
    if top >= 2 {
      var w := FirstWith(votes, VoteKeys, top);
      assert VotesFor(svm, knn, gnb, w) == votes[w] == top;
      TwoVotesIsAgreed(svm, knn, gnb, w);
    }
  }

  /** Each model casts one vote for its own label: the counts always sum to
      3, so a label with two or more votes is the only one. */
  lemma VotesSumToThree(votes: map<Label, int>, svm: Label, knn: Label, gnb: Label)
    requires Counts(votes, svm, knn, gnb)
    ensures forall k :: k in VoteKeys ==> k in votes
    ensures Total(votes) == 3
    ensures forall a: Label, b: Label :: a != b && votes[a] >= 2 ==> votes[b] < 2
  {
    OneCountEach(svm);
    OneCountEach(knn);
    OneCountEach(gnb);
    assert Total(votes) == VotesFor(svm, knn, gnb, Normal) + VotesFor(svm, knn, gnb, Unbalance)
                        + VotesFor(svm, knn, gnb, Misalignment) + VotesFor(svm, knn, gnb, BearingFault);
    forall a: Label, b: Label | a != b && votes[a] >= 2
      ensures votes[b] < 2
    {
      TwoVotesIsAgreed(svm, knn, gnb, a);
      TwoVotesIsAgreed(svm, knn, gnb, b);
    }
  }

  /** The `votes` dictionary before any vote. */
  const ZeroVotes: map<Label, int> := map[Normal := 0, Unbalance := 0, Misalignment := 0, BearingFault := 0]

  /** Incrementing the zeroed dictionary once per model, at that model's
      label, gives every label its number of votes. */
  lemma IncrementsTally(s: Label, k: Label, g: Label)
    ensures var v1 := ZeroVotes[s := ZeroVotes[s] + 1];
      var v2 := v1[k := v1[k] + 1];
      Counts(v2[g := v2[g] + 1], s, k, g)
  {
    var v1 := ZeroVotes[s := ZeroVotes[s] + 1];
    var v2 := v1[k := v1[k] + 1];
    var v3 := v2[g := v2[g] + 1];
    forall key: Label
      ensures key in v3 && v3[key] == VotesFor(s, k, g, key)
    {
      NoVotesYet(key);
      IncrementedCount(ZeroVotes, s, key);
      IncrementedCount(v1, k, key);
      IncrementedCount(v2, g, key);
    }
    assert Counts(v3, s, k, g);
  }

  /** Every label starts at zero votes. */
  lemma NoVotesYet(key: Label)
    ensures key in ZeroVotes && ZeroVotes[key] == 0
  {
    match key
    case Normal =>
    case Unbalance =>
    case Misalignment =>
    case BearingFault =>
  }

  /** One increment raises its own label's count by one and leaves every
      other count as it was. */
  lemma IncrementedCount(v: map<Label, int>, l: Label, key: Label)
    requires l in v && key in v
    ensures key in v[l := v[l] + 1]
    ensures v[l := v[l] + 1][key] == v[key] + if key == l then 1 else 0
  {
  }

  /** `predict_fault`: looks the three labels up, increments a fresh
      `votes` dictionary once per label, then applies the decision rule. */
  method PredictFault(predSvm: int, predKnn: int, predGnb: int) returns (r: Result<Prediction, PredictError>)
    ensures r == Predict(predSvm, predKnn, predGnb)
  {
    var svmLabel := LabelOf(predSvm);
    if svmLabel.Failure? {
      return Failure(svmLabel.error);
    }
    var knnLabel := LabelOf(predKnn);
    if knnLabel.Failure? {
      return Failure(knnLabel.error);
    }
    var gnbLabel := LabelOf(predGnb);
    if gnbLabel.Failure? {
      return Failure(gnbLabel.error);
    }
    var s, k, g := svmLabel.value, knnLabel.value, gnbLabel.value;
    var votes := ZeroVotes;
    votes := votes[s := votes[s] + 1];
    votes := votes[k := votes[k] + 1];
    votes := votes[g := votes[g] + 1];
    IncrementsTally(s, k, g);
    MajorityVote(votes, s, k, g);
    var maxVotes := MaxVotes(votes, VoteKeys);
    var fault, confidence;
    if maxVotes >= 2 {
      fault := Name(FirstWith(votes, VoteKeys, maxVotes));
      confidence := "high";
    } else {
      fault := "suspicious";
      confidence := "low";
    }
    return Success(Prediction(fault, confidence, Name(s), Name(k), Name(g)));
  }

  /** An output without a label raises, reporting the first such output in
      the order svm, knn, gnb. */
  lemma PredictErrors(svm: int, knn: int, gnb: int)
    ensures Predict(svm, knn, gnb).Failure? <==> !(0 <= svm <= 3 && 0 <= knn <= 3 && 0 <= gnb <= 3)
    ensures !(0 <= svm <= 3) ==> Predict(svm, knn, gnb) == Failure(UnknownLabel(svm))
    ensures 0 <= svm <= 3 && !(0 <= knn <= 3) ==> Predict(svm, knn, gnb) == Failure(UnknownLabel(knn))
    ensures 0 <= svm <= 3 && 0 <= knn <= 3 && !(0 <= gnb <= 3) ==> Predict(svm, knn, gnb) == Failure(UnknownLabel(gnb))
  {
  }

  /** Two models agreeing decide the fault with high confidence; the models'
      labels are echoed unchanged. */
  lemma TwoAgreeGiveHigh(svm: int, knn: int, gnb: int)
    requires 0 <= svm <= 3 && 0 <= knn <= 3 && 0 <= gnb <= 3
    ensures var p := Predict(svm, knn, gnb);
      && p.Success?
      && p.value.svm == Name(Labels[svm]) && p.value.knn == Name(Labels[knn]) && p.value.gnb == Name(Labels[gnb])
      && (svm == knn ==> p.value.fault == Name(Labels[svm]) && p.value.confidence == "high")
      && (svm == gnb ==> p.value.fault == Name(Labels[svm]) && p.value.confidence == "high")
      && (knn == gnb ==> p.value.fault == Name(Labels[knn]) && p.value.confidence == "high")
  {
  }

  /** Three different outputs give "suspicious" with low confidence, and a
      high-confidence verdict is always one of the models' own labels. */
  lemma AllDifferGiveSuspicious(svm: int, knn: int, gnb: int)
    requires 0 <= svm <= 3 && 0 <= knn <= 3 && 0 <= gnb <= 3
    ensures var p := Predict(svm, knn, gnb).value;
      && (svm != knn && svm != gnb && knn != gnb <==> p.fault == "suspicious")
      && (p.fault == "suspicious" <==> p.confidence == "low")
      && (p.confidence == "high" ==> p.fault in {p.svm, p.knn, p.gnb})
  {
    SameOutputSameLabel(svm, knn);
    SameOutputSameLabel(svm, gnb);
    SameOutputSameLabel(knn, gnb);
    NotSuspicious(Labels[svm]);
    NotSuspicious(Labels[knn]);
  }

  /** Two outputs map to the same label only when they are equal. */
  lemma SameOutputSameLabel(m: int, n: int)
    requires 0 <= m <= 3 && 0 <= n <= 3
    ensures Labels[m] == Labels[n] <==> m == n
  {
  }

  /** No label is spelled "suspicious". */
  lemma NotSuspicious(l: Label)
    ensures Name(l) != "suspicious"
  {
    assert Name(l)[0] != 's';
  }
}
