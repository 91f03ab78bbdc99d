/**
  Matching of parton jets to reconstructed (particle-flow) jets and to
  generator-level jets, event by event, and the rows written for the matches.

  For every parton jet with pt above 20, the pf jet and, separately, the gen
  jet nearest in delta R among those with pt above 30 are found by a linear
  scan that starts from a sentinel (10.0, index 0) and replaces it only on a
  strictly smaller delta R. A row (the parton jet, then the pf jet) is written
  when both minima are below 0.35.
 */
module JetMatching {

  /** One pf or gen jet of an event: the four branch values at one index. */
  datatype Jet = Jet(pt: real, eta: real, phi: real, e: real)

  /** A clustered parton jet: pt, rapidity, phi in (-pi, pi] and energy. */
  datatype PartonJet = PartonJet(pt: real, rap: real, phiStd: real, e: real)

  /** One written line: the parton jet's four columns, then the pf jet's four. */
  datatype Row = Row(parton: PartonJet, reco: Jet)

  /** One event: the clustered parton jets and the event's pf and gen jets. */
  datatype Event = Event(partonJets: seq<PartonJet>, pfJets: seq<Jet>, genJets: seq<Jet>)

  /** deltaR(eta, phi, rap, phi) of the helpers, not part of this model. */
  type DeltaR = (real, real, real, real) -> real

  const PartonPtMin: real := 20.0
  const CandidatePtMin: real := 30.0
  const SentinelDR: real := 10.0
  const MatchDR: real := 0.35

  function DR(deltaR: DeltaR, j: Jet, p: PartonJet): (dr: real)
  {
    deltaR(j.eta, j.phi, p.rap, p.phiStd)
  }

  /** Only jets with pt above 30 take part in the search. */
  predicate Candidate(j: Jet)
  {
    j.pt > CandidatePtMin
  }

  /** The scan's state: the smallest delta R so far and where it was found. */
  datatype Nearest = Nearest(minDR: real, index: nat)

  const Sentinel: Nearest := Nearest(SentinelDR, 0)

  /** The scan over the first k jets, as the loop performs it. */
  function ScanAfter(deltaR: DeltaR, jets: seq<Jet>, p: PartonJet, k: nat): (r: Nearest)
    requires k <= |jets|
  {
    if k == 0 then Sentinel
    else
      var acc := ScanAfter(deltaR, jets, p, k - 1);
      var dR := DR(deltaR, jets[k - 1], p);
      if Candidate(jets[k - 1]) && dR < acc.minDR then Nearest(dR, k - 1) else acc
  }

  /**
    Index i is a candidate among the first k jets whose delta R is the
    smallest of all candidates there, and no earlier candidate reaches it.
   */
  ghost predicate FirstClosestAt(deltaR: DeltaR, jets: seq<Jet>, p: PartonJet, k: nat, i: nat)
    requires k <= |jets|
  {
    && i < k
    && Candidate(jets[i])
    && (forall j :: 0 <= j < k && Candidate(jets[j]) ==> DR(deltaR, jets[i], p) <= DR(deltaR, jets[j], p))
    && (forall j :: 0 <= j < i && Candidate(jets[j]) ==> DR(deltaR, jets[i], p) < DR(deltaR, jets[j], p))
  }

  /** Some candidate among the first k jets lies within delta R bound of the parton jet. */
  ghost predicate HasCandidateWithin(deltaR: DeltaR, jets: seq<Jet>, p: PartonJet, k: nat, bound: real)
    requires k <= |jets|
  {
    exists i :: 0 <= i < k && Candidate(jets[i]) && DR(deltaR, jets[i], p) < bound
  }

  /**
    The declarative meaning of the scan: if some candidate beats the
    sentinel, the lowest-index candidate of minimal delta R and its delta R;
    otherwise the sentinel itself.
   */
  ghost predicate IsFirstNearest(deltaR: DeltaR, jets: seq<Jet>, p: PartonJet, k: nat, r: Nearest)
    requires k <= |jets|
  {
    if HasCandidateWithin(deltaR, jets, p, k, SentinelDR) then
      FirstClosestAt(deltaR, jets, p, k, r.index) && r.minDR == DR(deltaR, jets[r.index], p)
    else
      r == Sentinel
  }

  lemma {:induction false} ScanAfterIsFirstNearest(deltaR: DeltaR, jets: seq<Jet>, p: PartonJet, k: nat)
    requires k <= |jets|
    ensures var r := ScanAfter(deltaR, jets, p, k);
      && IsFirstNearest(deltaR, jets, p, k, r)
      && r.minDR <= SentinelDR
      && (forall j :: 0 <= j < k && Candidate(jets[j]) ==> r.minDR <= DR(deltaR, jets[j], p))
  {
    if k > 0 {
      ScanAfterIsFirstNearest(deltaR, jets, p, k - 1);
      var acc := ScanAfter(deltaR, jets, p, k - 1);
      var dR := DR(deltaR, jets[k - 1], p);
      if Candidate(jets[k - 1]) && dR < acc.minDR {
        assert HasCandidateWithin(deltaR, jets, p, k, SentinelDR) by {
          assert 0 <= k - 1 < k && Candidate(jets[k - 1]) && DR(deltaR, jets[k - 1], p) < SentinelDR;
        }
        assert FirstClosestAt(deltaR, jets, p, k, k - 1);
      } else if HasCandidateWithin(deltaR, jets, p, k - 1, SentinelDR) {
        assert HasCandidateWithin(deltaR, jets, p, k, SentinelDR);
        assert FirstClosestAt(deltaR, jets, p, k, acc.index);
      } else {
        forall i | 0 <= i < k
          ensures !(Candidate(jets[i]) && DR(deltaR, jets[i], p) < SentinelDR)
        {
        }
      }
    }
  }

  /** The declarative meaning fixes the result: at most one value satisfies it. */
  lemma FirstNearestUnique(deltaR: DeltaR, jets: seq<Jet>, p: PartonJet, k: nat, r1: Nearest, r2: Nearest)
    requires k <= |jets|
    requires IsFirstNearest(deltaR, jets, p, k, r1) && IsFirstNearest(deltaR, jets, p, k, r2)
    ensures r1 == r2
  {
  }

  /**
    The search loop over one jet collection (the pf-jet loop and the gen-jet
    loop are the same loop over different branches).
   */
  method NearestJet(deltaR: DeltaR, jets: seq<Jet>, p: PartonJet) returns (minDR: real, index: nat)
    ensures Nearest(minDR, index) == ScanAfter(deltaR, jets, p, |jets|)
    ensures IsFirstNearest(deltaR, jets, p, |jets|, Nearest(minDR, index))
    ensures minDR <= SentinelDR
    ensures forall j :: 0 <= j < |jets| && Candidate(jets[j]) ==> minDR <= DR(deltaR, jets[j], p)
    ensures !HasCandidateWithin(deltaR, jets, p, |jets|, SentinelDR) ==> minDR == SentinelDR && index == 0
    ensures minDR < SentinelDR ==> index < |jets| && Candidate(jets[index]) && DR(deltaR, jets[index], p) == minDR
  {
    minDR := SentinelDR;
    index := 0;
    var k := 0;
    while k < |jets|
      invariant 0 <= k <= |jets|
      invariant Nearest(minDR, index) == ScanAfter(deltaR, jets, p, k)
    {
      if jets[k].pt > CandidatePtMin {
        var dR := deltaR(jets[k].eta, jets[k].phi, p.rap, p.phiStd);
        if dR < minDR {
          minDR := dR;
          index := k;
        }
      }
      k := k + 1;
    }
    ScanAfterIsFirstNearest(deltaR, jets, p, |jets|);
    ScanIndexFound(deltaR, jets, p, |jets|);
  }

  /** A strict minimum below 0.35 is reached exactly when some candidate lies within 0.35. */
  lemma ScanBelowMatchIff(deltaR: DeltaR, jets: seq<Jet>, p: PartonJet)
    ensures var r := ScanAfter(deltaR, jets, p, |jets|);
      r.minDR < MatchDR <==> HasCandidateWithin(deltaR, jets, p, |jets|, MatchDR)
  {
    ScanAfterIsFirstNearest(deltaR, jets, p, |jets|);
    var r := ScanAfter(deltaR, jets, p, |jets|);
    if r.minDR < MatchDR {
      assert HasCandidateWithin(deltaR, jets, p, |jets|, SentinelDR);
      assert 0 <= r.index < |jets| && Candidate(jets[r.index]) && DR(deltaR, jets[r.index], p) < MatchDR;
    }
    if HasCandidateWithin(deltaR, jets, p, |jets|, MatchDR) {
      var i :| 0 <= i < |jets| && Candidate(jets[i]) && DR(deltaR, jets[i], p) < MatchDR;
      assert r.minDR <= DR(deltaR, jets[i], p);
    }
  }

  /** The parton jet passes the pt cut and both searches find a jet within 0.35. */
  ghost predicate Matchable(deltaR: DeltaR, pfJets: seq<Jet>, genJets: seq<Jet>, p: PartonJet)
  {
    && p.pt > PartonPtMin
    && HasCandidateWithin(deltaR, pfJets, p, |pfJets|, MatchDR)
    && HasCandidateWithin(deltaR, genJets, p, |genJets|, MatchDR)
  }

  /** Once the sentinel has been beaten, the index is a candidate whose delta R is the minimum. */
  lemma {:induction false} ScanIndexFound(deltaR: DeltaR, jets: seq<Jet>, p: PartonJet, k: nat)
    requires k <= |jets|
    ensures var r := ScanAfter(deltaR, jets, p, k);
      r.minDR < SentinelDR ==> r.index < k && Candidate(jets[r.index]) && DR(deltaR, jets[r.index], p) == r.minDR
  {
    if k > 0 {
      ScanIndexFound(deltaR, jets, p, k - 1);
    }
  }

  /** What the loop body writes for one parton jet: nothing, or the parton jet and the pf jet found. */
  function RowFor(deltaR: DeltaR, pfJets: seq<Jet>, genJets: seq<Jet>, p: PartonJet): (rows: seq<Row>)
    ensures |rows| <= 1
    ensures |rows| == 1 ==>
      rows[0].parton == p && rows[0].reco in pfJets && Candidate(rows[0].reco) && DR(deltaR, rows[0].reco, p) < MatchDR
  {
    var pfMatch := ScanAfter(deltaR, pfJets, p, |pfJets|);
    var genMatch := ScanAfter(deltaR, genJets, p, |genJets|);
    if p.pt > PartonPtMin && pfMatch.minDR < MatchDR && genMatch.minDR < MatchDR then
      ScanIndexFound(deltaR, pfJets, p, |pfJets|);
      [Row(p, pfJets[pfMatch.index])]
    else
      []
  }

  /**
    One row is written for a parton jet exactly when it is matchable, and
    that row holds the parton jet and the lowest-index pf jet of minimal delta
    R among the candidates, which is a candidate within 0.35.
   */
  lemma RowForMeaning(deltaR: DeltaR, pfJets: seq<Jet>, genJets: seq<Jet>, p: PartonJet)
    ensures var rows := RowFor(deltaR, pfJets, genJets, p);
      && |rows| <= 1
      && (|rows| == 1 <==> Matchable(deltaR, pfJets, genJets, p))
      && (|rows| == 1 ==>
            && rows[0].parton == p
            && (exists i: nat :: FirstClosestAt(deltaR, pfJets, p, |pfJets|, i) && rows[0].reco == pfJets[i])
            && Candidate(rows[0].reco)
            && DR(deltaR, rows[0].reco, p) < MatchDR)
  {
    ScanBelowMatchIff(deltaR, pfJets, p);
    ScanBelowMatchIff(deltaR, genJets, p);
    ScanAfterIsFirstNearest(deltaR, pfJets, p, |pfJets|);
    var pfMatch := ScanAfter(deltaR, pfJets, p, |pfJets|);
    if |RowFor(deltaR, pfJets, genJets, p)| == 1 {
      assert HasCandidateWithin(deltaR, pfJets, p, |pfJets|, SentinelDR);
      assert FirstClosestAt(deltaR, pfJets, p, |pfJets|, pfMatch.index);
    }
  }

  /** The rows written for the first n parton jets of an event, in order. */
  function EventRows(deltaR: DeltaR, partonJets: seq<PartonJet>, pfJets: seq<Jet>, genJets: seq<Jet>, n: nat): (rows: seq<Row>)
    requires n <= |partonJets|
  {
    if n == 0 then []
    else EventRows(deltaR, partonJets, pfJets, genJets, n - 1) + RowFor(deltaR, pfJets, genJets, partonJets[n - 1])
  }

  /**
    A row is a genuine match: its parton jet is matchable, and its pf jet is
    an event pf jet above 30 in pt within 0.35 of the parton jet.
   */
  ghost predicate GenuineMatch(deltaR: DeltaR, pfJets: seq<Jet>, genJets: seq<Jet>, r: Row)
  {
    && r.reco in pfJets
    && Matchable(deltaR, pfJets, genJets, r.parton)
    && Candidate(r.reco)
    && DR(deltaR, r.reco, r.parton) < MatchDR
  }

  lemma RowForSound(deltaR: DeltaR, pfJets: seq<Jet>, genJets: seq<Jet>, p: PartonJet)
    ensures forall r :: r in RowFor(deltaR, pfJets, genJets, p) ==> r.parton == p && GenuineMatch(deltaR, pfJets, genJets, r)
  {
    RowForMeaning(deltaR, pfJets, genJets, p);
    var last := RowFor(deltaR, pfJets, genJets, p);
    if |last| == 1 {
      var i: nat :| FirstClosestAt(deltaR, pfJets, p, |pfJets|, i) && last[0].reco == pfJets[i];
      assert last[0].reco in pfJets;
    }
  }

  /** The parton jets of a sequence of rows, in row order. */
  function Partons(rows: seq<Row>): (ps: seq<PartonJet>)
    ensures |ps| == |rows|
  {
    seq(|rows|, i requires 0 <= i < |rows| => rows[i].parton)
  }

  /** The matchable ones among the first n parton jets, in event order. */
  ghost function MatchedPartons(deltaR: DeltaR, partonJets: seq<PartonJet>, pfJets: seq<Jet>, genJets: seq<Jet>, n: nat): (ps: seq<PartonJet>)
    requires n <= |partonJets|
  {
    if n == 0 then []
    else MatchedPartons(deltaR, partonJets, pfJets, genJets, n - 1)
         + (if Matchable(deltaR, pfJets, genJets, partonJets[n - 1]) then [partonJets[n - 1]] else [])
  }

  /** How many of the first n parton jets are matchable. */
  ghost function CountMatchable(deltaR: DeltaR, partonJets: seq<PartonJet>, pfJets: seq<Jet>, genJets: seq<Jet>, n: nat): (count: nat)
    requires n <= |partonJets|
  {
    if n == 0 then 0
    else CountMatchable(deltaR, partonJets, pfJets, genJets, n - 1)
         + (if Matchable(deltaR, pfJets, genJets, partonJets[n - 1]) then 1 else 0)
  }

  /**
    Every written row is a genuine match of one of the event's parton jets,
    and the rows' parton jets are exactly the matchable parton jets, each
    once and in event order; so there is one row per matchable parton jet.
   */
  lemma {:induction false} EventRowsSound(deltaR: DeltaR, partonJets: seq<PartonJet>, pfJets: seq<Jet>, genJets: seq<Jet>, n: nat)
    requires n <= |partonJets|
    ensures var rows := EventRows(deltaR, partonJets, pfJets, genJets, n);
      && Partons(rows) == MatchedPartons(deltaR, partonJets, pfJets, genJets, n)
      && |rows| == CountMatchable(deltaR, partonJets, pfJets, genJets, n) <= n
      && forall r :: r in rows ==> r.parton in partonJets && GenuineMatch(deltaR, pfJets, genJets, r)
  {
    if n > 0 {
      EventRowsSound(deltaR, partonJets, pfJets, genJets, n - 1);
      RowForSound(deltaR, pfJets, genJets, partonJets[n - 1]);
      RowForMeaning(deltaR, pfJets, genJets, partonJets[n - 1]);
      var prev := EventRows(deltaR, partonJets, pfJets, genJets, n - 1);
      var last := RowFor(deltaR, pfJets, genJets, partonJets[n - 1]);
      PartonsAppend(prev, last);
    }
  }

  lemma PartonsAppend(a: seq<Row>, b: seq<Row>)
    ensures Partons(a + b) == Partons(a) + Partons(b)
  {
    assert forall i :: 0 <= i < |a + b| ==> Partons(a + b)[i] == (Partons(a) + Partons(b))[i];
  }

  /** Every matchable parton jet of the event gets a row, with the parton jet in front. */
  lemma {:induction false} EventRowsComplete(deltaR: DeltaR, partonJets: seq<PartonJet>, pfJets: seq<Jet>, genJets: seq<Jet>, n: nat)
    requires n <= |partonJets|
    ensures forall j :: 0 <= j < n && Matchable(deltaR, pfJets, genJets, partonJets[j]) ==>
              exists r: Row :: r in EventRows(deltaR, partonJets, pfJets, genJets, n) && r.parton == partonJets[j]
  {
    if n > 0 {
      EventRowsComplete(deltaR, partonJets, pfJets, genJets, n - 1);
      var prev := EventRows(deltaR, partonJets, pfJets, genJets, n - 1);
      var last := RowFor(deltaR, pfJets, genJets, partonJets[n - 1]);
      RowForMeaning(deltaR, pfJets, genJets, partonJets[n - 1]);
      forall j | 0 <= j < n && Matchable(deltaR, pfJets, genJets, partonJets[j])
        ensures exists r: Row :: r in prev + last && r.parton == partonJets[j]
      {
        if j == n - 1 {
          assert last[0] in prev + last;
        } else {
          var r :| r in prev && r.parton == partonJets[j];
          assert r in prev + last;
        }
      }
    }
  }

  /**
    The index found among gen jets never reaches a row: gen jets decide only
    whether a parton jet is written, through the presence of a candidate
    within 0.35.
   */
  lemma {:induction false} GenJetsOnlyGate(deltaR: DeltaR, partonJets: seq<PartonJet>, pfJets: seq<Jet>, genA: seq<Jet>, genB: seq<Jet>, n: nat)
    requires n <= |partonJets|
    requires forall j :: 0 <= j < n ==>
               (HasCandidateWithin(deltaR, genA, partonJets[j], |genA|, MatchDR) <==> HasCandidateWithin(deltaR, genB, partonJets[j], |genB|, MatchDR))
    ensures EventRows(deltaR, partonJets, pfJets, genA, n) == EventRows(deltaR, partonJets, pfJets, genB, n)
  {
    if n > 0 {
      GenJetsOnlyGate(deltaR, partonJets, pfJets, genA, genB, n - 1);
      var p := partonJets[n - 1];
      ScanBelowMatchIff(deltaR, genA, p);
      ScanBelowMatchIff(deltaR, genB, p);
    }
  }

  /** The loop over the parton jets of one event, appending a row per match. */
  method MatchEvent(deltaR: DeltaR, partonJets: seq<PartonJet>, pfJets: seq<Jet>, genJets: seq<Jet>) returns (rows: seq<Row>)
    ensures rows == EventRows(deltaR, partonJets, pfJets, genJets, |partonJets|)
  {
    rows := [];
    var j := 0;
    while j < |partonJets|
      invariant 0 <= j <= |partonJets|
      invariant rows == EventRows(deltaR, partonJets, pfJets, genJets, j)
    {
      var p := partonJets[j];
      assert EventRows(deltaR, partonJets, pfJets, genJets, j + 1) == rows + RowFor(deltaR, pfJets, genJets, p);
      if p.pt > PartonPtMin {
        var minDRPfJet, pfJetIndex := NearestJet(deltaR, pfJets, p);
        var minDRGenJet, genJetIndex := NearestJet(deltaR, genJets, p);
        if minDRPfJet < MatchDR && minDRGenJet < MatchDR {
          rows := rows + [Row(p, pfJets[pfJetIndex])];
        }
      }
      j := j + 1;
    }
  }

  /** All rows of a run of events, event after event. */
  function AllRows(deltaR: DeltaR, events: seq<Event>, n: nat): (rows: seq<Row>)
    requires n <= |events|
  {
    if n == 0 then []
    else AllRows(deltaR, events, n - 1) + EventRows(deltaR, events[n - 1].partonJets, events[n - 1].pfJets, events[n - 1].genJets, |events[n - 1].partonJets|)
  }

  /** The event loop: the rows of each event, appended in event order. */
  method WriteJetMomenta(deltaR: DeltaR, events: seq<Event>) returns (rows: seq<Row>)
    ensures rows == AllRows(deltaR, events, |events|)
  {
    rows := [];
    var i := 0;
    while i < |events|
      invariant 0 <= i <= |events|
      invariant rows == AllRows(deltaR, events, i)
    {
      var event := events[i];
      var eventRows: seq<Row> := [];
      if |event.partonJets| > 0 {
        eventRows := MatchEvent(deltaR, event.partonJets, event.pfJets, event.genJets);
      }
      rows := rows + eventRows;
      i := i + 1;
    }
  }

  /** The row is a genuine match of a parton jet of one of the first n events, within that event. */
  ghost predicate MatchInSomeEvent(deltaR: DeltaR, events: seq<Event>, n: nat, r: Row)
    requires n <= |events|
  {
    exists i :: 0 <= i < n && r.parton in events[i].partonJets && GenuineMatch(deltaR, events[i].pfJets, events[i].genJets, r)
  }

  /** Every row written for the first n events is a genuine match of a parton jet of one of them. */
  lemma {:induction false} AllRowsSound(deltaR: DeltaR, events: seq<Event>, n: nat)
    requires n <= |events|
    ensures forall r :: r in AllRows(deltaR, events, n) ==> MatchInSomeEvent(deltaR, events, n, r)
  {
    if n > 0 {
      AllRowsSound(deltaR, events, n - 1);
      var e := events[n - 1];
      EventRowsSound(deltaR, e.partonJets, e.pfJets, e.genJets, |e.partonJets|);
      forall r | r in AllRows(deltaR, events, n)
        ensures MatchInSomeEvent(deltaR, events, n, r)
      {
        if r in AllRows(deltaR, events, n - 1) {
          var i :| 0 <= i < n - 1 && r.parton in events[i].partonJets && GenuineMatch(deltaR, events[i].pfJets, events[i].genJets, r);
          assert 0 <= i < n;
        } else {
          assert r in EventRows(deltaR, e.partonJets, e.pfJets, e.genJets, |e.partonJets|);
          assert 0 <= n - 1 < n;
        }
      }
    }
  }

  /** Every matchable parton jet of each of the first n events gets a row. */
  lemma {:induction false} AllRowsComplete(deltaR: DeltaR, events: seq<Event>, n: nat)
    requires n <= |events|
    ensures forall i, j :: 0 <= i < n && 0 <= j < |events[i].partonJets| && Matchable(deltaR, events[i].pfJets, events[i].genJets, events[i].partonJets[j]) ==>
              exists r: Row :: r in AllRows(deltaR, events, n) && r.parton == events[i].partonJets[j]
  {
    if n > 0 {
      AllRowsComplete(deltaR, events, n - 1);
      var e := events[n - 1];
      EventRowsComplete(deltaR, e.partonJets, e.pfJets, e.genJets, |e.partonJets|);
      var prev := AllRows(deltaR, events, n - 1);
      var last := EventRows(deltaR, e.partonJets, e.pfJets, e.genJets, |e.partonJets|);
      forall i, j | 0 <= i < n && 0 <= j < |events[i].partonJets| && Matchable(deltaR, events[i].pfJets, events[i].genJets, events[i].partonJets[j])
        ensures exists r: Row :: r in prev + last && r.parton == events[i].partonJets[j]
      {
        if i == n - 1 {
          var r: Row :| r in last && r.parton == e.partonJets[j];
          assert r in prev + last;
        } else {
          var r: Row :| r in prev && r.parton == events[i].partonJets[j];
          assert r in prev + last;
        }
      }
    }
  }
}
