/** Merging neighbouring translated segments of one speaker into units for speech synthesis. */
module SynthUnits {
  import opened Numeric
  import opened PipelineTypes

  datatype MergeSettings = MergeSettings(enabled: bool, maxSeconds: real, maxGapSeconds: real)

  datatype SynthUnit = SynthUnit(
    segmentId: int,
    segmentIds: seq<int>,
    speakerId: string,
    text: string,
    start: real,
    end: real
  )

  function MaxSeconds(settings: MergeSettings): real {
    Max(1.0, settings.maxSeconds)
  }

  function MaxGap(settings: MergeSettings): real {
    Max(0.0, settings.maxGapSeconds)
  }

  /** What the loop reads of a segment: its stripped translation, empty when there is nothing to
      say, its speaker and its times. */
  datatype Line = Line(speakerId: string, text: string, start: real, end: real)

  predicate Stripped(text: string) {
    text != [] ==> !IsSpace(text[0]) && !IsSpace(text[|text| - 1])
  }

  function LineOf(segment: Segment): Line {
    Line(Or(segment.speakerId, "UNKNOWN"), Strip(segment.translation), segment.start, segment.end)
  }

  function LinesOf(segments: seq<Segment>): (lines: seq<Line>)
    ensures |lines| == |segments|
  {
    seq(|segments|, i requires 0 <= i < |segments| => LineOf(segments[i]))
  }

  /** The lines among the first `n` that have something to say. */
  function SpokenIds(lines: seq<Line>, n: nat): (ids: seq<int>)
    requires n <= |lines|
    ensures forall i :: 0 <= i < |ids| ==> 0 <= ids[i] < n && lines[ids[i]].text != []
    ensures forall i, j :: 0 <= i < j < |ids| ==> ids[i] < ids[j]
  {
    if n == 0 then []
    else if lines[n - 1].text != [] then SpokenIds(lines, n - 1) + [n - 1]
    else SpokenIds(lines, n - 1)
  }

  predicate CanJoin(unit: SynthUnit, line: Line, settings: MergeSettings) {
    && settings.enabled
    && unit.speakerId == line.speakerId
    && line.start - unit.end <= MaxGap(settings)
    && line.end - unit.start <= MaxSeconds(settings)
  }

  function Joined(unit: SynthUnit, line: Line, index: int): SynthUnit {
    SynthUnit(unit.segmentId, unit.segmentIds + [index], line.speakerId,
              unit.text + " " + line.text, unit.start, line.end)
  }

  function Alone(line: Line, index: int): SynthUnit {
    SynthUnit(index, [index], line.speakerId, line.text, line.start, line.end)
  }

  /** One turn of the loop: a spoken line extends the last unit or starts a new one. */
  function Step(units: seq<SynthUnit>, line: Line, index: nat, settings: MergeSettings): (next: seq<SynthUnit>)
    ensures line.text != [] ==> next != []
  {
    if line.text == [] then units
    else if units != [] && CanJoin(units[|units| - 1], line, settings) then
      units[..|units| - 1] + [Joined(units[|units| - 1], line, index)]
    else units + [Alone(line, index)]
  }

  /** The units after the loop has passed the first `n` segments. */
  function Units(lines: seq<Line>, settings: MergeSettings, n: nat): seq<SynthUnit>
    requires n <= |lines|
  {
    if n == 0 then [] else Step(Units(lines, settings, n - 1), lines[n - 1], n - 1, settings)
  }

  lemma StrippedTextIsKept(s: string)
    requires Stripped(s)
    ensures Strip(s) == s
  {
  }

  method JoinTexts(first: string, second: string) returns (text: string)
    requires first != [] && second != [] && Stripped(first) && Stripped(second)
    ensures text == first + " " + second
  {
    StrippedTextIsKept(first + " " + second);
    text := Strip(first + " " + second);
  }

  lemma NoUnitsYet(lines: seq<Line>, settings: MergeSettings)
    ensures Units(lines, settings, 0) == []
  {
  }

  lemma UnitsAfterLine(segments: seq<Segment>, settings: MergeSettings, index: nat)
    requires index < |segments| == |LinesOf(segments)|
    ensures var lines := LinesOf(segments);
            Units(lines, settings, index + 1) == Step(Units(lines, settings, index), LineOf(segments[index]), index, settings)
  {
  }

  // ----- What the units say of the segments -----

  /** The translations of these segments, without surrounding white space, with one space between. */
  function Spoken(segments: seq<Segment>, ids: seq<int>): string
    requires forall k :: 0 <= k < |ids| ==> 0 <= ids[k] < |segments|
  {
    if ids == [] then ""
    else if |ids| == 1 then Strip(segments[ids[0]].translation)
    else Spoken(segments, ids[..|ids| - 1]) + " " + Strip(segments[ids[|ids| - 1]].translation)
  }

  /** The unit speaks its segments' translations for their common speaker, from the start of the first
      to the end of the last; several only if merging is on, no gap between them is too long and
      neither is the whole. */
  ghost predicate Speaks(segments: seq<Segment>, settings: MergeSettings, unit: SynthUnit) {
    var ids := unit.segmentIds;
    && ids != [] && (forall k :: 0 <= k < |ids| ==> 0 <= ids[k] < |segments|)
    && unit.segmentId == ids[0]
    && (forall k :: 0 <= k < |ids| ==>
          unit.speakerId == if segments[ids[k]].speakerId != "" then segments[ids[k]].speakerId else "UNKNOWN")
    && unit.start == segments[ids[0]].start && unit.end == segments[ids[|ids| - 1]].end
    && unit.text == Spoken(segments, ids)
    && (forall k :: 0 < k < |ids| ==> Continues(settings, segments[ids[0]], segments[ids[k - 1]], segments[ids[k]]))
  }

  ghost predicate Continues(settings: MergeSettings, first: Segment, previous: Segment, next: Segment) {
    && settings.enabled
    && next.start - previous.end <= Max(0.0, settings.maxGapSeconds)
    && next.end - first.start <= Max(1.0, settings.maxSeconds)
  }

  /** The units take the segments that have a translation, each once and in order. */
  ghost predicate SpeakAll(segments: seq<Segment>, settings: MergeSettings, units: seq<SynthUnit>) {
    var ids := Flatten(RunsOf(units));
    && (forall unit <- units :: Speaks(segments, settings, unit))
    && (forall j, k :: 0 <= j < k < |ids| ==> ids[j] < ids[k])
    && (forall i :: i in ids <==> 0 <= i < |segments| && !Blank(segments[i].translation))
  }

  lemma {:induction false} SpokenIsJoined(segments: seq<Segment>, run: seq<int>)
    requires run != [] && forall i :: 0 <= i < |run| ==> 0 <= run[i] < |segments|
    ensures JoinedText(LinesOf(segments), run) == Spoken(segments, run)
  {
    if |run| > 1 {
      SpokenIsJoined(segments, run[..|run| - 1]);
    }
  }

  lemma DescribedSpeaks(segments: seq<Segment>, settings: MergeSettings, unit: SynthUnit)
    requires Describes(LinesOf(segments), settings, unit)
    ensures Speaks(segments, settings, unit)
  {
    hide Strip, Spoken, JoinedText;
    SpokenIsJoined(segments, unit.segmentIds);
    var lines := LinesOf(segments);
    var ids := unit.segmentIds;
    forall k | 0 < k < |ids| ensures Continues(settings, segments[ids[0]], segments[ids[k - 1]], segments[ids[k]]) {
      assert MayFollow(settings, lines[ids[0]], lines[ids[k - 1]], lines[ids[k]]);
    }
    forall k | 0 <= k < |ids|
      ensures unit.speakerId == if segments[ids[k]].speakerId != "" then segments[ids[k]].speakerId else "UNKNOWN"
    {
      assert lines[ids[k]].speakerId == unit.speakerId;
    }
  }

  lemma {:induction false} SpokenIdsAreAll(lines: seq<Line>, n: nat)
    requires n <= |lines|
    ensures forall i :: i in SpokenIds(lines, n) <==> 0 <= i < n && lines[i].text != []
  {
    if n > 0 {
      SpokenIdsAreAll(lines, n - 1);
    }
  }

  lemma UnitsSpeakAll(segments: seq<Segment>, settings: MergeSettings)
    ensures SpeakAll(segments, settings, Units(LinesOf(segments), settings, |segments|))
  {
    hide Speaks, Describes, Units, Flatten, RunsOf, SpokenIds, Strip;
    var lines := LinesOf(segments);
    var units := Units(lines, settings, |segments|);
    UnitsAreValid(lines, settings, |segments|);
    SpokenIdsAreAll(lines, |segments|);
    forall unit | unit in units ensures Speaks(segments, settings, unit) {
      DescribedSpeaks(segments, settings, unit);
    }
    forall i | 0 <= i < |segments| ensures lines[i].text != [] <==> !Blank(segments[i].translation) {
    }
  }

  method BuildSynthUnits(segments: seq<Segment>, settings: MergeSettings) returns (units: seq<SynthUnit>)
    ensures units == Units(LinesOf(segments), settings, |segments|)
    ensures SpeakAll(segments, settings, units)
  {
    hide Strip, LinesOf, Units, SpeakAll;
    UnitsSpeakAll(segments, settings);
    ghost var lines := LinesOf(segments);
    NoUnitsYet(lines, settings);
    units := [];
    var maxSeconds := Max(1.0, settings.maxSeconds);
    var maxGap := Max(0.0, settings.maxGapSeconds);
    var current: Option<SynthUnit> := None;
    for index := 0 to |segments|
      invariant units == Units(lines, settings, index)
      invariant current == if units == [] then None else Some(units[|units| - 1])
      invariant current.Some? ==> current.value.text != [] && Stripped(current.value.text)
    {
      var segment := segments[index];
      var text := Strip(segment.translation);
      var speakerId := Or(segment.speakerId, "UNKNOWN");
      ghost var line: Line := Line(speakerId, text, segment.start, segment.end);
      UnitsAfterLine(segments, settings, index);
      if text != "" {
        if && settings.enabled
           && current.Some?
           && current.value.speakerId == speakerId
           && segment.start - current.value.end <= maxGap
           && segment.end - current.value.start <= maxSeconds {
          var joinedText := JoinTexts(current.value.text, text);
          var merged := SynthUnit(
            current.value.segmentId, current.value.segmentIds + [index], speakerId,
            joinedText, current.value.start, segment.end);
          units := units[|units| - 1 := merged];
          current := Some(merged);
        } else {
          var alone := SynthUnit(index, [index], speakerId, text, segment.start, segment.end);
          units := units + [alone];
          current := Some(alone);
        }
      }
    }
  }

  // ----- Validity -----

  /** Whether line `next`, spoken right after `previous`, may share a unit begun by `first`. */
  predicate MayFollow(settings: MergeSettings, first: Line, previous: Line, next: Line) {
    && settings.enabled
    && first.speakerId == next.speakerId
    && next.start - previous.end <= MaxGap(settings)
    && next.end - first.start <= MaxSeconds(settings)
  }

  predicate ValidRun(lines: seq<Line>, settings: MergeSettings, run: seq<int>) {
    && run != []
    && (forall i :: 0 <= i < |run| ==> 0 <= run[i] < |lines|)
    && (forall i :: 0 < i < |run| ==> MayFollow(settings, lines[run[0]], lines[run[i - 1]], lines[run[i]]))
  }

  function JoinedText(lines: seq<Line>, run: seq<int>): string
    requires run != [] && forall i :: 0 <= i < |run| ==> 0 <= run[i] < |lines|
  {
    var last := lines[run[|run| - 1]].text;
    if |run| == 1 then last else JoinedText(lines, run[..|run| - 1]) + " " + last
  }

  /** A unit describes a valid run: its speaker, its outer times and its texts in order. */
  predicate Describes(lines: seq<Line>, settings: MergeSettings, unit: SynthUnit) {
    var run := unit.segmentIds;
    && ValidRun(lines, settings, run)
    && unit.segmentId == run[0]
    && (forall i :: 0 <= i < |run| ==> lines[run[i]].speakerId == unit.speakerId)
    && unit.start == lines[run[0]].start
    && unit.end == lines[run[|run| - 1]].end
    && unit.text == JoinedText(lines, run)
  }

  lemma JoinedDescribes(lines: seq<Line>, settings: MergeSettings, unit: SynthUnit, index: int)
    requires Describes(lines, settings, unit) && 0 <= index < |lines| && CanJoin(unit, lines[index], settings)
    ensures Describes(lines, settings, Joined(unit, lines[index], index))
  {
    var run := unit.segmentIds + [index];
    assert run[..|run| - 1] == unit.segmentIds;
  }

  function Flatten(runs: seq<seq<int>>): seq<int> {
    if runs == [] then [] else Flatten(runs[..|runs| - 1]) + runs[|runs| - 1]
  }

  function RunsOf(units: seq<SynthUnit>): seq<seq<int>> {
    seq(|units|, i requires 0 <= i < |units| => units[i].segmentIds)
  }

  lemma RunsOfAppended(units: seq<SynthUnit>, unit: SynthUnit)
    ensures Flatten(RunsOf(units + [unit])) == Flatten(RunsOf(units)) + unit.segmentIds
  {
    assert RunsOf(units + [unit])[..|units|] == RunsOf(units);
  }

  ghost predicate AllDescribe(lines: seq<Line>, settings: MergeSettings, units: seq<SynthUnit>) {
    forall i :: 0 <= i < |units| ==> Describes(lines, settings, units[i])
  }

  lemma StepIsValid(lines: seq<Line>, settings: MergeSettings, before: seq<SynthUnit>, index: int)
    requires 0 <= index < |lines| && lines[index].text != [] && AllDescribe(lines, settings, before)
    ensures Flatten(RunsOf(Step(before, lines[index], index, settings))) == Flatten(RunsOf(before)) + [index]
    ensures AllDescribe(lines, settings, Step(before, lines[index], index, settings))
  {
    hide Describes, CanJoin, Flatten, RunsOf;
    var line := lines[index];
    if before != [] && CanJoin(before[|before| - 1], line, settings) {
      var init, last := before[..|before| - 1], before[|before| - 1];
      assert before == init + [last];
      JoinedDescribes(lines, settings, last, index);
      RunsOfAppended(init, last);
      RunsOfAppended(init, Joined(last, line, index));
      assert Flatten(RunsOf(init)) + (last.segmentIds + [index]) == (Flatten(RunsOf(init)) + last.segmentIds) + [index];
    } else {
      RunsOfAppended(before, Alone(line, index));
      AloneDescribes(lines, settings, index);
    }
  }

  lemma AloneDescribes(lines: seq<Line>, settings: MergeSettings, index: int)
    requires 0 <= index < |lines|
    ensures Describes(lines, settings, Alone(lines[index], index))
  {
  }

  /** Every unit is a valid run, and together the units take the spoken segments in order. */
  lemma {:induction false} UnitsAreValid(lines: seq<Line>, settings: MergeSettings, n: nat)
    requires n <= |lines|
    ensures Flatten(RunsOf(Units(lines, settings, n))) == SpokenIds(lines, n)
    ensures AllDescribe(lines, settings, Units(lines, settings, n))
  {
    if n > 0 {
      UnitsAreValid(lines, settings, n - 1);
      if lines[n - 1].text != [] {
        StepIsValid(lines, settings, Units(lines, settings, n - 1), n - 1);
      }
    }
  }

  // ----- Optimality -----

  /** A division of the spoken segments into consecutive valid runs. */
  ghost predicate IsDivision(lines: seq<Line>, settings: MergeSettings, n: nat, runs: seq<seq<int>>)
    requires n <= |lines|
  {
    && Flatten(runs) == SpokenIds(lines, n)
    && forall run <- runs :: ValidRun(lines, settings, run)
  }

  predicate OrderedStarts(lines: seq<Line>) {
    forall i, j :: 0 <= i < j < |lines| && lines[i].text != [] && lines[j].text != [] ==>
      lines[i].start <= lines[j].start
  }

  /** Taking the last spoken segment away from a division. */
  function Shorten(runs: seq<seq<int>>): seq<seq<int>>
    requires runs != [] && runs[|runs| - 1] != []
  {
    var last := runs[|runs| - 1];
    if |last| == 1 then runs[..|runs| - 1] else runs[..|runs| - 1] + [last[..|last| - 1]]
  }

  lemma ShortenedDivision(lines: seq<Line>, settings: MergeSettings, n: nat, runs: seq<seq<int>>)
    requires 0 < n <= |lines| && lines[n - 1].text != [] && IsDivision(lines, settings, n, runs)
    ensures runs != [] && runs[|runs| - 1] != [] && runs[|runs| - 1][|runs[|runs| - 1]| - 1] == n - 1
    ensures IsDivision(lines, settings, n - 1, Shorten(runs))
  {
    var last := runs[|runs| - 1];
    assert last in runs;
    assert (Flatten(runs[..|runs| - 1]) + last)[|SpokenIds(lines, n)| - 1] == last[|last| - 1];
    var shorter := Shorten(runs);
    assert Flatten(shorter) == SpokenIds(lines, n - 1) by {
      if |last| > 1 {
        assert shorter[..|shorter| - 1] == runs[..|runs| - 1];
      }
      assert Flatten(runs) == SpokenIds(lines, n - 1) + [n - 1];
      assert Flatten(runs)[..|Flatten(runs)| - 1] == SpokenIds(lines, n - 1);
      assert Flatten(shorter) == (Flatten(runs[..|runs| - 1]) + last)[..|Flatten(runs)| - 1];
    }
    forall run <- shorter ensures ValidRun(lines, settings, run) {
      if run !in runs {
        assert run == last[..|last| - 1];
      }
    }
  }

  /** The greedy unit ending a tie is a suffix of the division's last run. */
  lemma LastRunsAreSuffixes(runs: seq<seq<int>>, others: seq<seq<int>>)
    requires runs != [] && others != [] && Flatten(runs) == Flatten(others)
    requires |runs[|runs| - 1]| <= |others[|others| - 1]|
    ensures var run, other := runs[|runs| - 1], others[|others| - 1];
            run == other[|other| - |run|..]
  {
    var all, run, other := Flatten(runs), runs[|runs| - 1], others[|others| - 1];
    assert run == all[|all| - |run|..];
    assert other == all[|all| - |other|..];
  }

  /** At every point the greedy units are at most as many as the runs of any other division, and
      on a tie the unit being filled begins no earlier. */
  lemma {:induction false} GreedyStaysAhead(
      lines: seq<Line>, settings: MergeSettings, n: nat, runs: seq<seq<int>>)
    requires n <= |lines| && OrderedStarts(lines) && IsDivision(lines, settings, n, runs)
    ensures var units := Units(lines, settings, n);
            && |units| <= |runs|
            && (|units| == |runs| > 0 ==> |units[|units| - 1].segmentIds| <= |runs[|runs| - 1]|)
    decreases n
  {
    hide Describes, ValidRun, CanJoin, Flatten, SpokenIds, RunsOf, OrderedStarts, IsDivision;
    if n > 0 {
      if lines[n - 1].text == [] {
        SilentLineIsPassed(lines, settings, n, runs);
        GreedyStaysAhead(lines, settings, n - 1, runs);
      } else {
        ShortenedDivision(lines, settings, n, runs);
        var shorter := Shorten(runs);
        GreedyStaysAhead(lines, settings, n - 1, shorter);
        var before := Units(lines, settings, n - 1);
        UnitsAreValid(lines, settings, n - 1);
        if before != [] && |before| == |shorter| == |runs| {
          TiedUnitCanJoin(lines, settings, n, runs, before);
        }
      }
    }
  }

  lemma SilentLineIsPassed(lines: seq<Line>, settings: MergeSettings, n: nat, runs: seq<seq<int>>)
    requires 0 < n <= |lines| && lines[n - 1].text == [] && IsDivision(lines, settings, n, runs)
    ensures IsDivision(lines, settings, n - 1, runs)
  {
    hide ValidRun, Flatten;
  }

  lemma TiedUnitCanJoin(
      lines: seq<Line>, settings: MergeSettings, n: nat, runs: seq<seq<int>>, before: seq<SynthUnit>)
    requires 0 < n <= |lines| && OrderedStarts(lines) && IsDivision(lines, settings, n, runs)
    requires lines[n - 1].text != [] && runs != [] && |runs[|runs| - 1]| > 1
    requires runs[|runs| - 1][|runs[|runs| - 1]| - 1] == n - 1
    requires before != [] && Describes(lines, settings, before[|before| - 1])
    requires Flatten(RunsOf(before)) == SpokenIds(lines, n - 1)
    requires IsDivision(lines, settings, n - 1, Shorten(runs))
    requires |before[|before| - 1].segmentIds| <= |runs[|runs| - 1]| - 1
    ensures CanJoin(before[|before| - 1], lines[n - 1], settings)
  {
    hide SpokenIds, CanJoin, MayFollow, OrderedStarts, Flatten;
    var unit, last := before[|before| - 1], runs[|runs| - 1];
    var shorter, k := Shorten(runs), |last| - 1 - |unit.segmentIds|;
    assert shorter[|shorter| - 1] == last[..|last| - 1];
    assert RunsOf(before)[|before| - 1] == unit.segmentIds;
    LastRunsAreSuffixes(RunsOf(before), shorter);
    assert last in runs;
    FirstOfRunStartsEarliest(lines, settings, n, runs, k);
    SuffixOfRunCanJoin(lines, settings, last, k, unit);
  }

  /** A unit made of a run but for its first and last few lines may take the run's last line. */
  lemma SuffixOfRunCanJoin(lines: seq<Line>, settings: MergeSettings, run: seq<int>, k: nat, unit: SynthUnit)
    requires ValidRun(lines, settings, run) && k < |run| - 1
    requires Describes(lines, settings, unit) && unit.segmentIds == run[..|run| - 1][k..]
    requires lines[run[0]].start <= lines[run[k]].start
    ensures CanJoin(unit, lines[run[|run| - 1]], settings)
  {
    var m := |run| - 1;
    assert unit.segmentIds[0] == run[k] && unit.segmentIds[|unit.segmentIds| - 1] == run[m - 1];
    assert MayFollow(settings, lines[run[0]], lines[run[m - 1]], lines[run[m]]);
    assert k > 0 ==> MayFollow(settings, lines[run[0]], lines[run[k - 1]], lines[run[k]]);
  }

  lemma FirstOfRunStartsEarliest(
      lines: seq<Line>, settings: MergeSettings, n: nat, runs: seq<seq<int>>, i: nat)
    requires n <= |lines| && OrderedStarts(lines) && IsDivision(lines, settings, n, runs)
    requires runs != [] && i < |runs[|runs| - 1]|
    ensures var last := runs[|runs| - 1];
            0 <= last[0] < |lines| && 0 <= last[i] < |lines|
            && lines[last[0]].start <= lines[last[i]].start
  {
    var last, all := runs[|runs| - 1], SpokenIds(lines, n);
    var offset := |all| - |last|;
    assert last in runs;
    assert last == all[offset..];
    assert last[0] == all[offset] && last[i] == all[offset + i];
  }

  /** With starts in order, no division of the spoken segments into consecutive valid runs has
      fewer runs than the stage has units. */
  lemma FewestUnits(lines: seq<Line>, settings: MergeSettings, runs: seq<seq<int>>)
    requires OrderedStarts(lines) && IsDivision(lines, settings, |lines|, runs)
    ensures IsDivision(lines, settings, |lines|, RunsOf(Units(lines, settings, |lines|)))
    ensures |Units(lines, settings, |lines|)| <= |runs|
  {
    UnitsAreValid(lines, settings, |lines|);
    GreedyStaysAhead(lines, settings, |lines|, runs);
  }

  /** Without that order the greedy choice can cost a unit: four lines that two runs would hold. */
  lemma UnorderedStartsCanCostAUnit() returns (lines: seq<Line>, settings: MergeSettings, runs: seq<seq<int>>)
    ensures IsDivision(lines, settings, |lines|, runs) && !OrderedStarts(lines)
    ensures |Units(lines, settings, |lines|)| > |runs|
  {
    hide Flatten, ValidRun, SpokenIds;
    settings := MergeSettings(true, 15.0, 0.8);
    lines := [Line("A", "p", 0.0, 1.0), Line("A", "q", 1.5, 14.9), Line("A", "r", 1.0, 15.5), Line("A", "s", 15.6, 16.3)];
    runs := [[0], [1, 2, 3]];
    assert lines[1].start > lines[2].start;
    assert Units(lines, settings, 1) == [Alone(lines[0], 0)];
    assert Units(lines, settings, 2) == [Joined(Alone(lines[0], 0), lines[1], 1)];
    assert Units(lines, settings, 3) == Units(lines, settings, 2) + [Alone(lines[2], 2)];
    assert Units(lines, settings, 4) == Units(lines, settings, 3) + [Alone(lines[3], 3)];
    FourSpokenLines(lines, runs);
    TwoRunsHoldThem(lines, settings);
  }

  lemma FourSpokenLines(lines: seq<Line>, runs: seq<seq<int>>)
    requires |lines| == 4 && (forall i :: 0 <= i < 4 ==> lines[i].text != []) && runs == [[0], [1, 2, 3]]
    ensures Flatten(runs) == SpokenIds(lines, 4)
  {
    SpokenIdsOfAll(lines, 4);
    FlattenTwo(runs[0], runs[1]);
  }

  lemma {:induction false} SpokenIdsOfAll(lines: seq<Line>, n: nat)
    requires n <= |lines| && forall i :: 0 <= i < n ==> lines[i].text != []
    ensures SpokenIds(lines, n) == seq(n, i => i)
  {
    if n > 0 {
      SpokenIdsOfAll(lines, n - 1);
    }
  }

  lemma FlattenTwo(first: seq<int>, second: seq<int>)
    ensures Flatten([first, second]) == first + second
  {
    assert [first, second][..1] == [first];
    assert Flatten([first]) == first;
  }

  lemma TwoRunsHoldThem(lines: seq<Line>, settings: MergeSettings)
    requires settings == MergeSettings(true, 15.0, 0.8)
    requires lines == [Line("A", "p", 0.0, 1.0), Line("A", "q", 1.5, 14.9), Line("A", "r", 1.0, 15.5), Line("A", "s", 15.6, 16.3)]
    ensures ValidRun(lines, settings, [0]) && ValidRun(lines, settings, [1, 2, 3])
  {
    assert MayFollow(settings, lines[1], lines[1], lines[2]) && MayFollow(settings, lines[1], lines[2], lines[3]);
  }
}
