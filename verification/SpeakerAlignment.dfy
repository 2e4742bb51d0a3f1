/** Giving every transcribed sentence a speaker: a bisection and two short scans over the
    diarization turns stand in for comparing against all of them. */
module SpeakerAlignment {
  import opened Numeric

  datatype Turn = Turn(start: real, end: real, speakerId: string)

  datatype Sentence = Sentence(start: real, end: real, text: string)

  datatype Labelled = Labelled(speakerId: string, start: real, end: real, text: string)

  const UNKNOWN := "UNKNOWN"

  function Overlap(w: Sentence, d: Turn): (seconds: real)
    ensures seconds >= 0.0
    ensures seconds > 0.0 <==> Max(w.start, d.start) < Min(w.end, d.end)
  {
    Max(0.0, Min(w.end, d.end) - Max(w.start, d.start))
  }

  // ----- Sorting by start, stably -----

  predicate SortedByStart(turns: seq<Turn>) {
    forall i, j :: 0 <= i < j < |turns| ==> turns[i].start <= turns[j].start
  }

  function InsertByStart(turns: seq<Turn>, turn: Turn): seq<Turn> {
    if turns == [] || turns[|turns| - 1].start <= turn.start then turns + [turn]
    else InsertByStart(turns[..|turns| - 1], turn) + [turns[|turns| - 1]]
  }

  function SortByStart(turns: seq<Turn>): seq<Turn> {
    if turns == [] then [] else InsertByStart(SortByStart(turns[..|turns| - 1]), turns[|turns| - 1])
  }

  lemma {:induction false} InsertKeepsTurns(turns: seq<Turn>, turn: Turn)
    ensures multiset(InsertByStart(turns, turn)) == multiset(turns) + multiset{turn}
    ensures |InsertByStart(turns, turn)| == |turns| + 1
  {
    if turns != [] && turns[|turns| - 1].start > turn.start {
      assert turns == turns[..|turns| - 1] + [turns[|turns| - 1]];
      InsertKeepsTurns(turns[..|turns| - 1], turn);
    }
  }

  lemma {:induction false} InsertKeepsOrder(turns: seq<Turn>, turn: Turn, bound: real)
    requires SortedByStart(turns) && turn.start <= bound && forall k :: 0 <= k < |turns| ==> turns[k].start <= bound
    ensures SortedByStart(InsertByStart(turns, turn))
    ensures forall k :: 0 <= k < |InsertByStart(turns, turn)| ==> InsertByStart(turns, turn)[k].start <= bound
  {
    if turns != [] && turns[|turns| - 1].start > turn.start {
      InsertKeepsOrder(turns[..|turns| - 1], turn, turns[|turns| - 1].start);
    }
  }

  /** Sorting keeps every turn and puts them in order. */
  lemma {:induction false} SortSorts(turns: seq<Turn>)
    ensures SortedByStart(SortByStart(turns)) && multiset(SortByStart(turns)) == multiset(turns)
  {
    if turns != [] {
      var init, last := SortByStart(turns[..|turns| - 1]), turns[|turns| - 1];
      SortSorts(turns[..|turns| - 1]);
      assert turns == turns[..|turns| - 1] + [last];
      InsertKeepsTurns(init, last);
      InsertKeepsOrder(init, last, if init == [] then last.start else Max(last.start, init[|init| - 1].start));
    }
  }

  /** The turns with one start, in their order. */
  function StartingAt(turns: seq<Turn>, start: real): seq<Turn> {
    if turns == [] then []
    else StartingAt(turns[..|turns| - 1], start) + if turns[|turns| - 1].start == start then [turns[|turns| - 1]] else []
  }

  lemma {:induction false} InsertIsStable(turns: seq<Turn>, turn: Turn, start: real)
    requires SortedByStart(turns)
    ensures StartingAt(InsertByStart(turns, turn), start) == StartingAt(turns, start) + if turn.start == start then [turn] else []
  {
    if turns == [] || turns[|turns| - 1].start <= turn.start {
      assert (turns + [turn])[..|turns|] == turns;
    } else {
      var init := turns[..|turns| - 1];
      InsertIsStable(init, turn, start);
      assert InsertByStart(turns, turn)[..|InsertByStart(init, turn)|] == InsertByStart(init, turn);
    }
  }

  /** Turns with equal starts stay in the order they came in. */
  lemma {:induction false} SortIsStable(turns: seq<Turn>, start: real)
    ensures StartingAt(SortByStart(turns), start) == StartingAt(turns, start)
  {
    hide InsertByStart, SortedByStart;
    if turns != [] {
      SortIsStable(turns[..|turns| - 1], start);
      SortSorts(turns[..|turns| - 1]);
      InsertIsStable(SortByStart(turns[..|turns| - 1]), turns[|turns| - 1], start);
    }
  }

  // ----- The scans -----

  /** The best match so far: how much it overlaps, and whose turn it is. */
  datatype Best = Best(overlap: real, speakerId: string)

  function Consider(best: Best, w: Sentence, d: Turn): Best {
    if Overlap(w, d) > best.overlap then Best(Overlap(w, d), d.speakerId) else best
  }

  /** Walks left from `i` until a turn ends at or before the sentence starts. */
  function LeftScan(turns: seq<Turn>, w: Sentence, i: int, best: Best): Best
    requires -1 <= i < |turns|
    decreases i + 1
  {
    if i < 0 || turns[i].end <= w.start then best
    else LeftScan(turns, w, i - 1, Consider(best, w, turns[i]))
  }

  /** Walks right from `i` until a turn starts at or after the end of the sentence. */
  function RightScan(turns: seq<Turn>, w: Sentence, i: int, best: Best): Best
    requires 0 <= i <= |turns|
    decreases |turns| - i
  {
    if i == |turns| || turns[i].start >= w.end then best
    else RightScan(turns, w, i + 1, Consider(best, w, turns[i]))
  }

  /** The first turn starting at or after `x`. */
  predicate IsBisection(turns: seq<Turn>, x: real, i: int) {
    && 0 <= i <= |turns|
    && (forall k :: 0 <= k < i ==> turns[k].start < x)
    && (forall k :: i <= k < |turns| ==> turns[k].start >= x)
  }

  function Bisect(turns: seq<Turn>, x: real): (i: int)
    requires SortedByStart(turns)
    ensures IsBisection(turns, x, i)
  {
    if turns == [] || turns[|turns| - 1].start < x then |turns|
    else
      var shorter := turns[..|turns| - 1];
      assert forall k :: 0 <= k < |shorter| ==> shorter[k] == turns[k];
      Bisect(shorter, x)
  }

  function Scan(turns: seq<Turn>, w: Sentence): Best
    requires SortedByStart(turns)
  {
    var i := Bisect(turns, w.start);
    RightScan(turns, w, i, LeftScan(turns, w, i - 1, Best(0.0, UNKNOWN)))
  }

  method BisectLeft(starts: seq<real>, x: real) returns (i: int)
    requires forall j, k :: 0 <= j < k < |starts| ==> starts[j] <= starts[k]
    ensures 0 <= i <= |starts|
    ensures forall k :: 0 <= k < i ==> starts[k] < x
    ensures forall k :: i <= k < |starts| ==> starts[k] >= x
  {
    var low, high := 0, |starts|;
    while low < high
      invariant 0 <= low <= high <= |starts|
      invariant forall k :: 0 <= k < low ==> starts[k] < x
      invariant forall k :: high <= k < |starts| ==> starts[k] >= x
    {
      var middle := (low + high) / 2;
      if starts[middle] < x {
        low := middle + 1;
      } else {
        high := middle;
      }
    }
    i := low;
  }

  function Label(sorted: seq<Turn>, w: Sentence): Labelled
    requires SortedByStart(sorted)
  {
    Labelled(Scan(sorted, w).speakerId, w.start, w.end, w.text)
  }

  /** What the label of a sentence must be, by comparison with every turn: nobody when no turn
      overlaps it, else the speaker of a turn that overlaps it most; among several of those the
      last one in view that starts before the sentence, or if none does the first of the others. */
  ghost predicate IsBestSpeaker(turns: seq<Turn>, w: Sentence, speakerId: string) {
    if forall k :: 0 <= k < |turns| ==> Overlap(w, turns[k]) == 0.0 then speakerId == UNKNOWN
    else exists k :: 0 <= k < |turns| && speakerId == turns[k].speakerId && IsFirstChoice(turns, w, k)
  }

  ghost predicate IsFirstChoice(turns: seq<Turn>, w: Sentence, k: int)
    requires 0 <= k < |turns|
  {
    && Overlap(w, turns[k]) > 0.0
    && forall m :: 0 <= m < |turns| && m != k ==>
         && Overlap(w, turns[m]) <= Overlap(w, turns[k])
         && (Overlap(w, turns[m]) == Overlap(w, turns[k]) ==>
               if turns[k].start < w.start then m < k || turns[m].start >= w.start else m > k || IsOutOfView(turns, w, m))
  }

  /** A later turn that still starts before the sentence is over when it begins. */
  ghost predicate IsOutOfView(turns: seq<Turn>, w: Sentence, m: int)
    requires 0 <= m < |turns|
  {
    exists n :: m < n < |turns| && turns[n].start < w.start && turns[n].end <= w.start
  }

  /** Whatever the turns, a label is that of some turn that overlaps the sentence, or nobody's. */
  ghost predicate IsSomeSpeaker(turns: seq<Turn>, w: Sentence, speakerId: string) {
    speakerId == UNKNOWN || exists k :: 0 <= k < |turns| && turns[k].speakerId == speakerId && Overlap(w, turns[k]) > 0.0
  }

  /** `examined` is how many turns the two scans looked at for each sentence. */
  method AlignWhisperToDiarization(sentences: seq<Sentence>, turns: seq<Turn>)
      returns (aligned: seq<Labelled>, ghost examined: seq<nat>)
    ensures SortedByStart(SortByStart(turns))
    ensures |aligned| == |sentences|
    ensures forall i :: 0 <= i < |sentences| ==>
              aligned[i].start == sentences[i].start && aligned[i].end == sentences[i].end && aligned[i].text == sentences[i].text
    ensures forall i :: 0 <= i < |sentences| ==> IsSomeSpeaker(SortByStart(turns), sentences[i], aligned[i].speakerId)
    ensures NoTurnIsHidden(SortByStart(turns)) ==>
              forall i :: 0 <= i < |sentences| && sentences[i].start < sentences[i].end ==>
                IsBestSpeaker(SortByStart(turns), sentences[i], aligned[i].speakerId)
    ensures forall i :: 0 <= i < |sentences| ==> aligned[i] == Label(SortByStart(turns), sentences[i])
    ensures |examined| == |sentences|
    ensures forall i :: 0 <= i < |sentences| ==> examined[i] == Examined(SortByStart(turns), sentences[i])
  {
    hide Label, Examined, SortByStart, SortedByStart, NoTurnIsHidden, IsBestSpeaker, IsSomeSpeaker;
    aligned, examined := [], [];
    SortSorts(turns);
    if turns == [] {
      for n := 0 to |sentences|
        invariant |aligned| == |examined| == n
        invariant forall i :: 0 <= i < n ==>
          aligned[i] == Label(SortByStart(turns), sentences[i]) && examined[i] == Examined(SortByStart(turns), sentences[i])
      {
        NobodySpeaks(sentences[n]);
        aligned := aligned + [Labelled(UNKNOWN, sentences[n].start, sentences[n].end, sentences[n].text)];
        examined := examined + [0];
      }
      AllAreLabelled(SortByStart(turns), sentences);
      return;
    }
    var sorted := SortByStart(turns);
    var starts := seq(|sorted|, i requires 0 <= i < |sorted| => sorted[i].start);
    for n := 0 to |sentences|
      invariant |aligned| == |examined| == n
      invariant forall i :: 0 <= i < n ==>
        aligned[i] == Label(sorted, sentences[i]) && examined[i] == Examined(sorted, sentences[i])
    {
      var labelled, cost := LabelSentence(sorted, starts, sentences[n]);
      aligned, examined := aligned + [labelled], examined + [cost];
    }
    AllAreLabelled(sorted, sentences);
  }

  method LabelSentence(sorted: seq<Turn>, starts: seq<real>, w: Sentence) returns (labelled: Labelled, ghost cost: nat)
    requires SortedByStart(sorted)
    requires |starts| == |sorted| && forall k :: 0 <= k < |sorted| ==> sorted[k].start == starts[k]
    ensures labelled == Label(sorted, w) && cost == Examined(sorted, w)
  {
    hide LeftScan, RightScan, LeftStop, RightStop, Bisect;
    var index := BisectLeft(starts, w.start);
    BisectionIsUnique(sorted, w.start, index, Bisect(sorted, w.start));
    ghost var leftCost, rightCost;
    var best := Best(0.0, UNKNOWN);
    best, leftCost := ScanLeft(sorted, w, index, best);
    best, rightCost := ScanRight(sorted, w, index, best);
    labelled, cost := Labelled(best.speakerId, w.start, w.end, w.text), leftCost + rightCost;
  }

  method ScanLeft(sorted: seq<Turn>, w: Sentence, index: nat, first: Best) returns (best: Best, ghost cost: nat)
    requires index <= |sorted|
    ensures best == LeftScan(sorted, w, index - 1, first)
    ensures var stop := LeftStop(sorted, w, index - 1); cost == index - 1 - stop + if stop >= 0 then 1 else 0
  {
    best := first;
    var i := index - 1;
    while i >= 0
      invariant -1 <= i < index
      invariant LeftScan(sorted, w, i, best) == LeftScan(sorted, w, index - 1, first)
      invariant LeftStop(sorted, w, i) == LeftStop(sorted, w, index - 1)
    {
      var d := sorted[i];
      if d.end <= w.start {
        cost := index - i;
        return;
      }
      var overlap := Overlap(w, d);
      if overlap > best.overlap {
        best := Best(overlap, d.speakerId);
      }
      i := i - 1;
    }
    cost := index;
  }

  method ScanRight(sorted: seq<Turn>, w: Sentence, index: nat, first: Best) returns (best: Best, ghost cost: nat)
    requires index <= |sorted|
    ensures best == RightScan(sorted, w, index, first)
    ensures var stop := RightStop(sorted, w, index); cost == stop - index + if stop < |sorted| then 1 else 0
  {
    best := first;
    var i := index;
    while i < |sorted|
      invariant index <= i <= |sorted|
      invariant RightScan(sorted, w, i, best) == RightScan(sorted, w, index, first)
      invariant RightStop(sorted, w, i) == RightStop(sorted, w, index)
    {
      var d := sorted[i];
      if d.start >= w.end {
        cost := i - index + 1;
        return;
      }
      var overlap := Overlap(w, d);
      if overlap > best.overlap {
        best := Best(overlap, d.speakerId);
      }
      i := i + 1;
    }
    cost := |sorted| - index;
  }

  lemma NobodySpeaks(w: Sentence)
    ensures SortByStart([]) == []
    ensures Label([], w) == Labelled(UNKNOWN, w.start, w.end, w.text) && Examined([], w) == 0
  {
  }

  lemma BisectionIsUnique(turns: seq<Turn>, x: real, i: int, j: int)
    requires IsBisection(turns, x, i) && IsBisection(turns, x, j)
    ensures i == j
  {
    assert i < |turns| ==> turns[i].start >= x;
    assert j < |turns| ==> turns[j].start >= x;
  }

  // ----- Where the scans stop, and what they see -----

  function LeftStop(turns: seq<Turn>, w: Sentence, i: int): (stop: int)
    requires -1 <= i < |turns|
    ensures -1 <= stop <= i
    ensures stop >= 0 ==> turns[stop].end <= w.start
    ensures forall k :: stop < k <= i ==> turns[k].end > w.start
    decreases i + 1
  {
    if i < 0 || turns[i].end <= w.start then i else LeftStop(turns, w, i - 1)
  }

  function RightStop(turns: seq<Turn>, w: Sentence, i: int): (stop: int)
    requires 0 <= i <= |turns|
    ensures i <= stop <= |turns|
    ensures stop < |turns| ==> turns[stop].start >= w.end
    ensures forall k :: i <= k < stop ==> turns[k].start < w.end
    decreases |turns| - i
  {
    if i == |turns| || turns[i].start >= w.end then i else RightStop(turns, w, i + 1)
  }

  /** The turns looked at, counting the one each scan stops on. */
  function Examined(turns: seq<Turn>, w: Sentence): nat
    requires SortedByStart(turns)
  {
    var i := Bisect(turns, w.start);
    var left, right := LeftStop(turns, w, i - 1), RightStop(turns, w, i);
    (right - left - 1) + (if left >= 0 then 1 else 0) + (if right < |turns| then 1 else 0)
  }

  /** The match is nobody's, or the overlap with one of the turns from `low` up to `high`. */
  ghost predicate ComesFrom(turns: seq<Turn>, w: Sentence, low: int, high: int, best: Best)
    requires 0 <= low && high <= |turns|
  {
    || best == Best(0.0, UNKNOWN)
    || exists k :: low <= k < high && best == Best(Overlap(w, turns[k]), turns[k].speakerId) && best.overlap > 0.0
  }

  lemma {:induction false} LeftScanSeesAll(turns: seq<Turn>, w: Sentence, i: int, top: int, best: Best)
    requires -1 <= i < top <= |turns| && best.overlap >= 0.0
    requires ComesFrom(turns, w, i + 1, top, best)
    ensures var found, stop := LeftScan(turns, w, i, best), LeftStop(turns, w, i);
            && found.overlap >= best.overlap
            && (forall k :: stop < k <= i ==> found.overlap >= Overlap(w, turns[k]))
            && ComesFrom(turns, w, stop + 1, top, found)
    decreases i + 1
  {
    if i >= 0 && turns[i].end > w.start {
      var next := Consider(best, w, turns[i]);
      assert ComesFrom(turns, w, i, top, next);
      LeftScanSeesAll(turns, w, i - 1, top, next);
    }
  }

  lemma {:induction false} RightScanSeesAll(turns: seq<Turn>, w: Sentence, low: int, i: int, best: Best)
    requires 0 <= low <= i <= |turns| && best.overlap >= 0.0
    requires ComesFrom(turns, w, low, i, best)
    ensures var found, stop := RightScan(turns, w, i, best), RightStop(turns, w, i);
            && found.overlap >= best.overlap
            && (forall k :: i <= k < stop ==> found.overlap >= Overlap(w, turns[k]))
            && ComesFrom(turns, w, low, stop, found)
    decreases |turns| - i
  {
    if i < |turns| && turns[i].start < w.end {
      var next := Consider(best, w, turns[i]);
      assert ComesFrom(turns, w, low, i + 1, next);
      RightScanSeesAll(turns, w, low, i + 1, next);
    }
  }

  /** The scans find the largest overlap among the turns between their two stops, and nothing
      outside them. */
  lemma ScanFindsBestBetweenStops(turns: seq<Turn>, w: Sentence)
    requires SortedByStart(turns)
    ensures var i := Bisect(turns, w.start);
            var left, right := LeftStop(turns, w, i - 1), RightStop(turns, w, i);
            && (forall k :: left < k < right ==> Scan(turns, w).overlap >= Overlap(w, turns[k]))
            && ComesFrom(turns, w, left + 1, right, Scan(turns, w))
  {
    hide Overlap, Consider, LeftStop, RightStop, LeftScan, RightScan, Bisect, SortedByStart;
    var i := Bisect(turns, w.start);
    LeftScanSeesAll(turns, w, i - 1, i, Best(0.0, UNKNOWN));
    RightScanSeesAll(turns, w, LeftStop(turns, w, i - 1) + 1, i, LeftScan(turns, w, i - 1, Best(0.0, UNKNOWN)));
  }

  // ----- Comparison with brute force -----

  /** The match is the one comparing against every turn would accept. */
  ghost predicate BestOfAll(turns: seq<Turn>, w: Sentence, best: Best) {
    && (forall k :: 0 <= k < |turns| ==> Overlap(w, turns[k]) <= best.overlap)
    && (best.overlap == 0.0 ==> best.speakerId == UNKNOWN)
    && (best.overlap > 0.0 ==> exists k :: 0 <= k < |turns| && best == Best(Overlap(w, turns[k]), turns[k].speakerId))
  }

  predicate PositiveTurns(turns: seq<Turn>) {
    forall k :: 0 <= k < |turns| ==> turns[k].start < turns[k].end
  }

  /** A turn outlasting a later-starting one must be covered, from the moment that one ends until
      its own end, by a still later turn. */
  ghost predicate NoTurnIsHidden(turns: seq<Turn>) {
    forall j, i :: 0 <= j < i < |turns| && turns[i].end < turns[j].end ==> Covered(turns, j, i)
  }

  ghost predicate Covered(turns: seq<Turn>, j: int, i: int)
    requires 0 <= j < i < |turns|
  {
    exists k :: i < k < |turns| && turns[k].start <= turns[i].end && turns[j].end <= turns[k].end
  }

  /** A turn ending past the start of the sentence, but left of where the left scan stopped, is
      covered by a later turn that the scans do look at. */
  lemma CoverIsScanned(turns: seq<Turn>, w: Sentence, left: int, right: int, k: nat) returns (m: nat)
    requires SortedByStart(turns) && NoTurnIsHidden(turns) && w.start < w.end
    requires k <= left < right <= |turns| && turns[left].end <= w.start < turns[k].end
    requires right < |turns| ==> turns[right].start >= w.end
    ensures left < m < right && turns[m].start <= w.start && turns[k].end <= turns[m].end
  {
    assert forall n :: right <= n < |turns| ==> turns[n].start >= w.end;
    assert Covered(turns, k, left);
    m :| left < m < |turns| && turns[m].start <= turns[left].end && turns[k].end <= turns[m].end;
  }

  lemma CoveringTurnOverlapsMore(w: Sentence, d: Turn, e: Turn)
    requires e.start <= w.start && d.end <= e.end
    ensures Overlap(w, d) <= Overlap(w, e)
  {
  }

  lemma ScanMatchesBruteForce(turns: seq<Turn>, w: Sentence)
    requires SortedByStart(turns) && NoTurnIsHidden(turns) && w.start < w.end
    ensures BestOfAll(turns, w, Scan(turns, w))
  {
    hide Scan, NoTurnIsHidden, LeftStop, RightStop, Bisect, Overlap;
    var i := Bisect(turns, w.start);
    var left, right := LeftStop(turns, w, i - 1), RightStop(turns, w, i);
    ScanFindsBestBetweenStops(turns, w);
    forall k | 0 <= k < |turns| ensures Overlap(w, turns[k]) <= Scan(turns, w).overlap {
      if k <= left && turns[k].end > w.start {
        var m := CoverIsScanned(turns, w, left, right, k);
        CoveringTurnOverlapsMore(w, turns[k], turns[m]);
      } else if k >= right {
        assert turns[k].start >= turns[right].start;
      }
    }
  }

  // ----- Which of several equal overlaps -----

  /** The left scan leaves the best so far, or takes the nearest turn that overlaps most. */
  lemma {:induction false} LeftScanTakesNearest(turns: seq<Turn>, w: Sentence, i: int, best: Best) returns (k: int)
    requires -1 <= i < |turns|
    ensures var found, stop := LeftScan(turns, w, i, best), LeftStop(turns, w, i);
            && (forall m :: stop < m <= i ==> Overlap(w, turns[m]) <= found.overlap)
            && (k == -1 ==> found == best)
            && (k != -1 ==> stop < k <= i && found == Best(Overlap(w, turns[k]), turns[k].speakerId) && found.overlap > best.overlap
                            && forall m :: k < m <= i ==> Overlap(w, turns[m]) < found.overlap)
    decreases i + 1
  {
    k := -1;
    if i >= 0 && turns[i].end > w.start {
      k := LeftScanTakesNearest(turns, w, i - 1, Consider(best, w, turns[i]));
      if k == -1 && Overlap(w, turns[i]) > best.overlap {
        k := i;
      }
    }
  }

  lemma {:induction false} RightScanTakesNearest(turns: seq<Turn>, w: Sentence, i: int, best: Best) returns (k: int)
    requires 0 <= i <= |turns|
    ensures var found, stop := RightScan(turns, w, i, best), RightStop(turns, w, i);
            && (forall m :: i <= m < stop ==> Overlap(w, turns[m]) <= found.overlap)
            && (k == -1 ==> found == best)
            && (k != -1 ==> i <= k < stop && found == Best(Overlap(w, turns[k]), turns[k].speakerId) && found.overlap > best.overlap
                            && forall m :: i <= m < k ==> Overlap(w, turns[m]) < found.overlap)
    decreases |turns| - i
  {
    k := -1;
    if i < |turns| && turns[i].start < w.end {
      k := RightScanTakesNearest(turns, w, i + 1, Consider(best, w, turns[i]));
      if k == -1 && Overlap(w, turns[i]) > best.overlap {
        k := i;
      }
    }
  }

  lemma NothingFurther(turns: seq<Turn>, w: Sentence)
    requires SortedByStart(turns) && w.start < w.end
    ensures var i := Bisect(turns, w.start);
            && (forall m :: 0 <= m < |turns| ==> (m < i <==> turns[m].start < w.start))
            && (forall m :: RightStop(turns, w, i) <= m < |turns| ==> Overlap(w, turns[m]) == 0.0)
  {
    hide Bisect, RightStop;
    var right := RightStop(turns, w, Bisect(turns, w.start));
    forall m | right <= m < |turns| ensures Overlap(w, turns[m]) == 0.0 {
      assert turns[right].start <= turns[m].start;
    }
  }

  lemma BeforeTheStop(turns: seq<Turn>, w: Sentence, left: int, m: int)
    requires 0 <= m <= left < |turns| && turns[left].end <= w.start && turns[left].start < w.start
    requires Overlap(w, turns[m]) > 0.0
    ensures IsOutOfView(turns, w, m)
  {
  }

  lemma ScanPicksFirstChoice(turns: seq<Turn>, w: Sentence)
    requires SortedByStart(turns) && NoTurnIsHidden(turns) && w.start < w.end
    ensures IsBestSpeaker(turns, w, Scan(turns, w).speakerId)
  {
    hide LeftScan, RightScan, LeftStop, RightStop, Bisect, Overlap, NoTurnIsHidden, SortedByStart;
    ScanMatchesBruteForce(turns, w);
    NothingFurther(turns, w);
    var i := Bisect(turns, w.start);
    var none := Best(0.0, UNKNOWN);
    var j := LeftScanTakesNearest(turns, w, i - 1, none);
    var k := RightScanTakesNearest(turns, w, i, LeftScan(turns, w, i - 1, none));
    var best := Scan(turns, w);
    if j == -1 && k == -1 {
      assert best == none;
    } else if k != -1 {
      var left := LeftStop(turns, w, i - 1);
      forall m | 0 <= m < |turns| && m < k && Overlap(w, turns[m]) == Overlap(w, turns[k]) ensures IsOutOfView(turns, w, m) {
        assert m <= left;
        BeforeTheStop(turns, w, left, m);
      }
      assert IsFirstChoice(turns, w, k);
    } else {
      assert IsFirstChoice(turns, w, j);
    }
  }

  lemma ScanPicksSomeSpeaker(turns: seq<Turn>, w: Sentence)
    requires SortedByStart(turns)
    ensures IsSomeSpeaker(turns, w, Scan(turns, w).speakerId)
  {
    hide LeftStop, RightStop, Bisect, Scan;
    ScanFindsBestBetweenStops(turns, w);
  }

  lemma AllAreLabelled(turns: seq<Turn>, sentences: seq<Sentence>)
    requires SortedByStart(turns)
    ensures forall i :: 0 <= i < |sentences| ==>
              var found, w := Label(turns, sentences[i]), sentences[i];
              && found.start == w.start && found.end == w.end && found.text == w.text && IsSomeSpeaker(turns, w, found.speakerId)
              && (NoTurnIsHidden(turns) && w.start < w.end ==> IsBestSpeaker(turns, w, found.speakerId))
  {
    hide Scan, SortedByStart, NoTurnIsHidden, IsBestSpeaker, IsSomeSpeaker;
    forall i | 0 <= i < |sentences|
      ensures IsSomeSpeaker(turns, sentences[i], Label(turns, sentences[i]).speakerId)
      ensures NoTurnIsHidden(turns) && sentences[i].start < sentences[i].end ==>
                IsBestSpeaker(turns, sentences[i], Label(turns, sentences[i]).speakerId)
    {
      ScanPicksSomeSpeaker(turns, sentences[i]);
      if NoTurnIsHidden(turns) && sentences[i].start < sentences[i].end {
        ScanPicksFirstChoice(turns, sentences[i]);
      }
    }
  }

  /** A hidden turn is missed: the sentence lasting from the end of the shorter turn to the end
      of the hidden one overlaps the hidden turn more than anything the scans look at. */
  lemma HiddenTurnIsMissed(turns: seq<Turn>, j: int, i: int)
    requires SortedByStart(turns) && PositiveTurns(turns)
    requires 0 <= j < i < |turns| && turns[i].end < turns[j].end && !Covered(turns, j, i)
    ensures var w := Sentence(turns[i].end, turns[j].end, "");
            w.start < w.end && !BestOfAll(turns, w, Scan(turns, w))
  {
    hide Scan, LeftStop, RightStop, Bisect;
    var w := Sentence(turns[i].end, turns[j].end, "");
    var b := Bisect(turns, w.start);
    var left, right := LeftStop(turns, w, b - 1), RightStop(turns, w, b);
    ScanFindsBestBetweenStops(turns, w);
    assert i < b && i <= left;
    assert Overlap(w, turns[j]) == w.end - w.start;
    forall k | left < k < right ensures Overlap(w, turns[k]) < Overlap(w, turns[j]) {
      assert !(turns[k].start <= turns[i].end && turns[j].end <= turns[k].end);
    }
  }

  /** Over turns of positive length, the scans agree with brute force on every sentence of
      positive length if and only if no turn is hidden. */
  lemma FastAlignmentIsExact(turns: seq<Turn>)
    requires SortedByStart(turns) && PositiveTurns(turns)
    ensures (forall w: Sentence :: w.start < w.end ==> BestOfAll(turns, w, Scan(turns, w))) <==> NoTurnIsHidden(turns)
  {
    if NoTurnIsHidden(turns) {
      forall w: Sentence | w.start < w.end ensures BestOfAll(turns, w, Scan(turns, w)) {
        ScanMatchesBruteForce(turns, w);
      }
    } else {
      var j, i :| 0 <= j < i < |turns| && turns[i].end < turns[j].end && !Covered(turns, j, i);
      HiddenTurnIsMissed(turns, j, i);
    }
  }

  /** In particular when the ends are in order too; then a sentence is labelled UNKNOWN exactly
      when it overlaps no turn. */
  lemma OrderedEndsSuffice(turns: seq<Turn>, w: Sentence)
    requires SortedByStart(turns) && w.start < w.end
    requires forall i, j :: 0 <= i < j < |turns| ==> turns[i].end <= turns[j].end
    requires forall k :: 0 <= k < |turns| ==> turns[k].speakerId != UNKNOWN
    ensures BestOfAll(turns, w, Scan(turns, w))
    ensures Scan(turns, w).speakerId == UNKNOWN <==> forall k :: 0 <= k < |turns| ==> Overlap(w, turns[k]) == 0.0
  {
    ScanMatchesBruteForce(turns, w);
    if Scan(turns, w).speakerId == UNKNOWN {
      assert Scan(turns, w).overlap <= 0.0;
    }
  }

  /** How many of the first `n` turns overlap the sentence. */
  function Overlapping(turns: seq<Turn>, w: Sentence, n: nat): (count: nat)
    requires n <= |turns|
  {
    if n == 0 then 0 else Overlapping(turns, w, n - 1) + if Overlap(w, turns[n - 1]) > 0.0 then 1 else 0
  }

  lemma {:induction false} OverlappingStretch(turns: seq<Turn>, w: Sentence, low: nat, high: nat, n: nat)
    requires low <= high <= n <= |turns|
    requires forall k :: low <= k < high ==> Overlap(w, turns[k]) > 0.0
    ensures Overlapping(turns, w, n) >= Overlapping(turns, w, low) + high - low
    decreases n
  {
    if low < n {
      OverlappingStretch(turns, w, low, if high == n then n - 1 else high, n - 1);
    }
  }

  /** The scans look at the overlapping turns and at most two more. */
  lemma ScansAreShort(turns: seq<Turn>, w: Sentence)
    requires SortedByStart(turns) && PositiveTurns(turns) && w.start < w.end
    ensures Examined(turns, w) <= Overlapping(turns, w, |turns|) + 2
  {
    var i := Bisect(turns, w.start);
    var left, right := LeftStop(turns, w, i - 1), RightStop(turns, w, i);
    OverlappingStretch(turns, w, left + 1, right, |turns|);
  }
}
