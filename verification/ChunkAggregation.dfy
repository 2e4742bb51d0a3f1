/** Stitching per-chunk diarizations and transcripts into one transcript of the recording. */
module ChunkAggregation {
  import opened PipelineTypes
  import opened ChunkGeometry
  import opened SpeakerIdentity

  datatype Diarization = Diarization(speakers: seq<LocalSpeaker>, segments: seq<Segment>)

  /** An undetected language is the empty string. */
  datatype Transcription = Transcription(language: string, segments: seq<Segment>)

  /** What aggregation depends on besides the payloads. */
  datatype Setup = Setup(root: Root, speakerCount: Option<int>, chunks: seq<AudioChunk>)

  // ----- Sorting by start and end, stably -----

  predicate NotAfter(a: Segment, b: Segment) {
    a.start < b.start || (a.start == b.start && a.end <= b.end)
  }

  predicate InOrder(segments: seq<Segment>) {
    forall i, j :: 0 <= i < j < |segments| ==> NotAfter(segments[i], segments[j])
  }

  function Insert(segments: seq<Segment>, segment: Segment): seq<Segment> {
    if segments == [] || NotAfter(segments[|segments| - 1], segment) then segments + [segment]
    else Insert(segments[..|segments| - 1], segment) + [segments[|segments| - 1]]
  }

  function Sorted(segments: seq<Segment>): seq<Segment> {
    if segments == [] then []
    else Insert(Sorted(segments[..|segments| - 1]), segments[|segments| - 1])
  }

  /** The segments with one pair of times, in their order. */
  function At(segments: seq<Segment>, start: real, end: real): seq<Segment> {
    if segments == [] then []
    else
      var last := segments[|segments| - 1];
      At(segments[..|segments| - 1], start, end) + if last.start == start && last.end == end then [last] else []
  }

  lemma {:induction false} InsertKeepsOrder(segments: seq<Segment>, segment: Segment)
    requires InOrder(segments)
    ensures InOrder(Insert(segments, segment))
    ensures forall s <- Insert(segments, segment) :: s == segment || s in segments
  {
    if segments != [] && !NotAfter(segments[|segments| - 1], segment) {
      InsertKeepsOrder(segments[..|segments| - 1], segment);
      var shorter, last := Insert(segments[..|segments| - 1], segment), segments[|segments| - 1];
      forall i | 0 <= i < |shorter| ensures NotAfter(shorter[i], last) {
        assert shorter[i] in shorter;
      }
    }
  }

  lemma {:induction false} InsertIsStable(segments: seq<Segment>, segment: Segment, start: real, end: real)
    requires InOrder(segments)
    ensures At(Insert(segments, segment), start, end)
         == At(segments, start, end) + if segment.start == start && segment.end == end then [segment] else []
  {
    if segments == [] || NotAfter(segments[|segments| - 1], segment) {
      assert (segments + [segment])[..|segments|] == segments;
    } else {
      var init, last := segments[..|segments| - 1], segments[|segments| - 1];
      InsertIsStable(init, segment, start, end);
      assert (Insert(init, segment) + [last])[..|Insert(init, segment)|] == Insert(init, segment);
      if segment.start == start && segment.end == end {
        assert !(last.start == start && last.end == end);
      }
    }
  }

  lemma {:induction false} InsertAddsOne(segments: seq<Segment>, segment: Segment)
    ensures multiset(Insert(segments, segment)) == multiset(segments) + multiset{segment}
  {
    hide NotAfter;
    if segments != [] && !NotAfter(segments[|segments| - 1], segment) {
      InsertAddsOne(segments[..|segments| - 1], segment);
      assert segments == segments[..|segments| - 1] + [segments[|segments| - 1]];
    }
  }

  /** Sorting puts the segments in order of time, */
  lemma {:induction false} SortingSorts(segments: seq<Segment>)
    ensures InOrder(Sorted(segments))
  {
    if segments != [] {
      SortingSorts(segments[..|segments| - 1]);
      InsertKeepsOrder(Sorted(segments[..|segments| - 1]), segments[|segments| - 1]);
    }
  }

  /** loses and invents none, and keeps those with equal times in the order they came in. */
  lemma {:induction false} SortingIsStable(segments: seq<Segment>, start: real, end: real)
    ensures multiset(Sorted(segments)) == multiset(segments)
    ensures At(Sorted(segments), start, end) == At(segments, start, end)
  {
    hide Insert, InOrder;
    if segments != [] {
      var init, last := segments[..|segments| - 1], segments[|segments| - 1];
      SortingIsStable(init, start, end);
      SortingSorts(init);
      InsertIsStable(Sorted(init), last, start, end);
      InsertAddsOne(Sorted(init), last);
      assert segments == init + [last];
    }
  }

  // ----- The language most chunks were spoken in -----

  function Count(languages: seq<string>, language: string): nat {
    if languages == [] then 0
    else Count(languages[..|languages| - 1], language) + if languages[|languages| - 1] == language then 1 else 0
  }

  /** The first language heard among those heard most often. */
  ghost predicate IsMostCommon(languages: seq<string>, n: nat, i: int) {
    && 0 <= i < n <= |languages|
    && (forall j :: 0 <= j < n ==> Count(languages, languages[j]) <= Count(languages, languages[i]))
    && (forall j :: 0 <= j < i ==> Count(languages, languages[j]) < Count(languages, languages[i]))
  }

  ghost function MostCommon(languages: seq<string>): string {
    if i :| IsMostCommon(languages, |languages|, i) then languages[i] else ""
  }

  method MostCommonLanguage(languages: seq<string>) returns (language: string)
    ensures language == MostCommon(languages)
    ensures languages != [] ==> language in languages
  {
    if languages == [] {
      return "";
    }
    hide Count;
    ghost var best := 0;
    language := languages[0];
    for i := 1 to |languages|
      invariant IsMostCommon(languages, i, best) && language == languages[best]
    {
      if Count(languages, languages[i]) > Count(languages, language) {
        best, language := i, languages[i];
      }
    }
  }

  // ----- One chunk -----

  /** The segments of one chunk on the global timeline; those outside its core are another
      chunk's, and a transcript drops those without words. */
  function Globalize(segments: seq<Segment>, chunk: AudioChunk, localMap: map<string, string>, spokenOnly: bool, n: nat): seq<Segment>
    requires n <= |segments|
  {
    if n == 0 then []
    else
      Globalize(segments, chunk, localMap, spokenOnly, n - 1)
      + match SegmentToGlobal(segments[n - 1], chunk, localMap)
        case None => []
        case Some(segment) => if spokenOnly && Blank(segment.text) then [] else [segment]
  }

  method GlobalizeChunk(segments: seq<Segment>, chunk: AudioChunk, localMap: map<string, string>, spokenOnly: bool)
    returns (result: seq<Segment>)
    ensures result == Globalize(segments, chunk, localMap, spokenOnly, |segments|)
  {
    hide SegmentToGlobal, Blank;
    result := [];
    for i := 0 to |segments|
      invariant result == Globalize(segments, chunk, localMap, spokenOnly, i)
    {
      var segment := SegmentToGlobal(segments[i], chunk, localMap);
      if segment.Some? && !(spokenOnly && Blank(segment.value.text)) {
        result := result + [segment.value];
      }
    }
  }

  // ----- All chunks -----

  ghost function Casting(ds: seq<Diarization>): (casting: seq<seq<LocalSpeaker>>)
    ensures |casting| == |ds|
  {
    seq(|ds|, i requires 0 <= i < |ds| => ds[i].speakers)
  }

  /** The global speakers after the first n chunks. */
  ghost function CastAfter(setup: Setup, ds: seq<Diarization>, n: nat): seq<GlobalSpeaker>
    requires n <= |ds|
  {
    MapChunks(setup.root, GlobalSpeakerCap(setup.speakerCount), Casting(ds), n)
  }

  ghost function LocalMapOf(setup: Setup, ds: seq<Diarization>, i: nat): map<string, string>
    requires i < |ds|
  {
    MapChunk(setup.root, GlobalSpeakerCap(setup.speakerCount), ds[i].speakers, CastAfter(setup, ds, i)).localMap
  }

  ghost function Stitched(setup: Setup, ds: seq<Diarization>, segments: seq<seq<Segment>>, spokenOnly: bool, n: nat): seq<Segment>
    requires n <= |ds| == |segments| == |setup.chunks|
  {
    if n == 0 then []
    else Stitched(setup, ds, segments, spokenOnly, n - 1)
         + Globalize(segments[n - 1], setup.chunks[n - 1], LocalMapOf(setup, ds, n - 1), spokenOnly, |segments[n - 1]|)
  }

  ghost function Turns(ds: seq<Diarization>): (segments: seq<seq<Segment>>)
    ensures |segments| == |ds|
  {
    seq(|ds|, i requires 0 <= i < |ds| => ds[i].segments)
  }

  ghost function Words(ts: seq<Transcription>): (segments: seq<seq<Segment>>)
    ensures |segments| == |ts|
  {
    seq(|ts|, i requires 0 <= i < |ts| => ts[i].segments)
  }

  function Languages(ts: seq<Transcription>, n: nat): seq<string>
    requires n <= |ts|
  {
    if n == 0 then []
    else Languages(ts, n - 1) + if ts[n - 1].language != "" then [ts[n - 1].language] else []
  }

  /** The transcript of turns, and the transcript of words, of the whole recording. */
  ghost function TurnTranscript(setup: Setup, ds: seq<Diarization>): seq<Segment>
    requires |ds| == |setup.chunks|
  {
    Sorted(Stitched(setup, ds, Turns(ds), false, |ds|))
  }

  ghost function WordTranscript(setup: Setup, ds: seq<Diarization>, ts: seq<Transcription>): seq<Segment>
    requires |ds| == |ts| == |setup.chunks|
  {
    Sorted(Stitched(setup, ds, Words(ts), true, |ds|))
  }

  // ----- Which language the transcript is in -----

  /** The chunks among the first n in which a language was detected. */
  ghost function Hearing(ts: seq<Transcription>, n: nat, language: string): set<int>
    requires n <= |ts|
  {
    set i | 0 <= i < n && ts[i].language == language
  }

  lemma SetGains(earlier: set<int>, later: set<int>, n: int)
    requires n !in earlier && forall i :: i in later <==> i in earlier || i == n
    ensures later != {} && |later| == |earlier| + 1
  {
    var both := earlier + {n};
    assert n in later;
    assert forall i :: i in later <==> i in both;
    assert later == both;
  }

  lemma HearingGrows(ts: seq<Transcription>, n: nat, language: string)
    requires n < |ts|
    ensures |Hearing(ts, n + 1, language)| == |Hearing(ts, n, language)| + if ts[n].language == language then 1 else 0
  {
    var earlier, later := Hearing(ts, n, language), Hearing(ts, n + 1, language);
    var heard := ts[n].language == language;
    assert forall i :: i in later <==> i in earlier || (i == n && heard);
    HearingIsBelow(ts, n, language);
    hide Hearing;
    if heard {
      SetGains(earlier, later, n);
    } else {
      assert later == earlier;
    }
  }

  lemma HearingIsBelow(ts: seq<Transcription>, n: nat, language: string)
    requires n <= |ts|
    ensures forall i :: i in Hearing(ts, n, language) ==> 0 <= i < n && ts[i].language == language
  {
  }

  lemma CountGrows(languages: seq<string>, last: string, language: string)
    ensures Count(languages + [last], language) == Count(languages, language) + if last == language then 1 else 0
  {
    assert (languages + [last])[..|languages|] == languages;
  }

  lemma {:induction false} CountMeansIn(languages: seq<string>, language: string)
    ensures Count(languages, language) > 0 <==> language in languages
  {
    if languages != [] {
      var init, last := languages[..|languages| - 1], languages[|languages| - 1];
      CountMeansIn(init, language);
      assert languages == init + [last];
    }
  }

  lemma {:induction false} OnlyDetected(ts: seq<Transcription>, n: nat)
    requires n <= |ts|
    ensures forall k :: 0 <= k < |Languages(ts, n)| ==> Languages(ts, n)[k] != ""
  {
    if n > 0 {
      OnlyDetected(ts, n - 1);
    }
  }

  lemma {:induction false} LanguagesAreCounted(ts: seq<Transcription>, n: nat, language: string)
    requires n <= |ts| && language != ""
    ensures Count(Languages(ts, n), language) == |Hearing(ts, n, language)|
  {
    if n == 0 {
      assert Hearing(ts, 0, language) == {};
    } else {
      hide Count, Hearing;
      LanguagesAreCounted(ts, n - 1, language);
      HearingGrows(ts, n - 1, language);
      CountGrows(Languages(ts, n - 1), ts[n - 1].language, language);
      assert Languages(ts, n - 1) + [] == Languages(ts, n - 1);
    }
  }

  lemma LanguagesAreHeard(ts: seq<Transcription>, n: nat, language: string)
    requires n <= |ts| && language != ""
    ensures Count(Languages(ts, n), language) == |Hearing(ts, n, language)|
    ensures "" !in Languages(ts, n)
    ensures language in Languages(ts, n) <==> Hearing(ts, n, language) != {}
  {
    hide Count, Hearing, Languages;
    LanguagesAreCounted(ts, n, language);
    CountMeansIn(Languages(ts, n), language);
    OnlyDetected(ts, n);
  }

  lemma {:induction false} LanguagesInOrder(ts: seq<Transcription>, c: nat, n: nat)
    requires c < n <= |ts| && ts[c].language != ""
    ensures Languages(ts, c) + [ts[c].language] <= Languages(ts, n)
    decreases n
  {
    if c < n - 1 {
      LanguagesInOrder(ts, c, n - 1);
    }
  }

  lemma {:induction false} SomeMostCommon(languages: seq<string>, n: nat) returns (best: int)
    requires 0 < n <= |languages|
    ensures IsMostCommon(languages, n, best)
  {
    hide Count;
    if n == 1 {
      best := 0;
    } else {
      best := SomeMostCommon(languages, n - 1);
      if Count(languages, languages[n - 1]) > Count(languages, languages[best]) {
        best := n - 1;
      }
    }
  }

  lemma TheMostCommon(languages: seq<string>) returns (i: int)
    requires languages != []
    ensures 0 <= i < |languages| && MostCommon(languages) == languages[i]
    ensures forall j :: 0 <= j < |languages| ==> Count(languages, languages[j]) <= Count(languages, languages[i])
    ensures forall j :: 0 <= j < i ==> Count(languages, languages[j]) < Count(languages, languages[i])
  {
    hide Count;
    var best := SomeMostCommon(languages, |languages|);
    i :| IsMostCommon(languages, |languages|, i) && MostCommon(languages) == languages[i];
    assert IsMostCommon(languages, |languages|, i);
  }

  /** None when no chunk detected one; otherwise no language was detected in more chunks, and one
      detected in as many was heard later. */
  lemma LanguageIsHeardMost(ts: seq<Transcription>, other: string)
    requires other != ""
    ensures var language := MostCommon(Languages(ts, |ts|));
            && (language == "" <==> forall i :: 0 <= i < |ts| ==> ts[i].language == "")
            && (language == "" ==> Hearing(ts, |ts|, other) == {})
            && (language != "" ==> |Hearing(ts, |ts|, other)| <= |Hearing(ts, |ts|, language)|)
            && (language != "" && other != language && |Hearing(ts, |ts|, other)| == |Hearing(ts, |ts|, language)| ==>
                  forall c :: 0 <= c < |ts| && ts[c].language == other ==> exists b :: 0 <= b < c && ts[b].language == language)
  {
    hide Count, Languages;
    var languages := Languages(ts, |ts|);
    LanguagesAreHeard(ts, |ts|, other);
    forall i | 0 <= i < |ts| && ts[i].language != "" ensures languages != [] {
      LanguagesInOrder(ts, i, |ts|);
    }
    if languages != [] {
      var i := TheMostCommon(languages);
      var language := languages[i];
      assert language in languages && language != "";
      LanguagesAreHeard(ts, |ts|, language);
      if other in languages {
        var j :| 0 <= j < |languages| && languages[j] == other;
      }
      forall c | 0 <= c < |ts| && ts[c].language == other && other != language
                 && |Hearing(ts, |ts|, other)| == |Hearing(ts, |ts|, language)|
        ensures exists b :: 0 <= b < c && ts[b].language == language
      {
        LanguagesInOrder(ts, c, |ts|);
        var k := |Languages(ts, c)|;
        assert languages[k] == other && other in languages;
        assert Languages(ts, c)[i] == language;
        LanguagesAreHeard(ts, c, language);
        var b :| b in Hearing(ts, c, language);
      }
      assert Hearing(ts, |ts|, language) != {};
      var b :| b in Hearing(ts, |ts|, language);
      assert ts[b].language != "";
    }
  }

  // ----- What a transcript holds -----

  /** Where a segment of the transcript comes from: a chunk, and a place in that chunk's list. */
  datatype Origin = Origin(chunk: nat, index: nat)

  predicate Earlier(a: Origin, b: Origin) {
    a.chunk < b.chunk || (a.chunk == b.chunk && a.index < b.index)
  }

  /** Chunk and place exist, and what the chunk makes of the segment there is `out`, which a
      transcript of words takes only if it has any. */
  ghost predicate Yields(setup: Setup, ds: seq<Diarization>, all: seq<seq<Segment>>, spokenOnly: bool, origin: Origin, out: Segment)
    requires |ds| == |all| == |setup.chunks|
  {
    && origin.chunk < |all| && origin.index < |all[origin.chunk]|
    && Emits(all[origin.chunk][origin.index], setup.chunks[origin.chunk], LocalMapOf(setup, ds, origin.chunk), out)
    && (spokenOnly ==> !Blank(out.text))
  }

  /** The list holds what the first n chunks yield, each segment once, and nothing else. */
  ghost predicate HoldsYields(setup: Setup, ds: seq<Diarization>, all: seq<seq<Segment>>, spokenOnly: bool, n: nat,
                              list: seq<Segment>, origins: seq<Origin>)
    requires n <= |ds| == |all| == |setup.chunks|
  {
    && |origins| == |list|
    && (forall k :: 0 <= k < |list| ==> origins[k].chunk < n && Yields(setup, ds, all, spokenOnly, origins[k], list[k]))
    && (forall j, k :: 0 <= j < k < |list| ==> origins[j] != origins[k])
    && (forall origin: Origin, out :: origin.chunk < n && Yields(setup, ds, all, spokenOnly, origin, out) ==> origin in origins)
  }

  /** In order of start and end; segments with the same times stand in the order of their origins. */
  ghost predicate IsChronological(list: seq<Segment>, origins: seq<Origin>)
    requires |origins| == |list|
  {
    forall j, k :: 0 <= j < k < |list| ==>
      && list[j].start <= list[k].start
      && (list[j].start == list[k].start ==> list[j].end <= list[k].end)
      && (list[j].start == list[k].start && list[j].end == list[k].end ==> Earlier(origins[j], origins[k]))
  }

  ghost predicate InSequence(origins: seq<Origin>) {
    forall j, k :: 0 <= j < k < |origins| ==> Earlier(origins[j], origins[k])
  }

  lemma {:induction false} ChunkYields(setup: Setup, ds: seq<Diarization>, all: seq<seq<Segment>>, spokenOnly: bool, c: nat, n: nat)
    returns (origins: seq<Origin>)
    requires c < |ds| == |all| == |setup.chunks| && n <= |all[c]|
    ensures var list := Globalize(all[c], setup.chunks[c], LocalMapOf(setup, ds, c), spokenOnly, n);
            && |origins| == |list| && InSequence(origins)
            && (forall k :: 0 <= k < |list| ==>
                  origins[k].chunk == c && origins[k].index < n && Yields(setup, ds, all, spokenOnly, origins[k], list[k]))
            && (forall i: nat, out :: i < n && Yields(setup, ds, all, spokenOnly, Origin(c, i), out) ==> Origin(c, i) in origins)
  {
    hide SegmentToGlobal, Emits, Blank, LocalMapOf;
    if n == 0 {
      origins := [];
    } else {
      var earlier := ChunkYields(setup, ds, all, spokenOnly, c, n - 1);
      var localMap := LocalMapOf(setup, ds, c);
      var made := SegmentToGlobal(all[c][n - 1], setup.chunks[c], localMap);
      forall out ensures made == Some(out) <==> Emits(all[c][n - 1], setup.chunks[c], localMap, out) {
        SegmentToGlobalEmits(all[c][n - 1], setup.chunks[c], localMap, out);
      }
      origins := earlier + if made.Some? && !(spokenOnly && Blank(made.value.text)) then [Origin(c, n - 1)] else [];
      assert made.Some? && !(spokenOnly && Blank(made.value.text)) ==> origins[|earlier|] == Origin(c, n - 1);
      forall i: nat, out | i < n && Yields(setup, ds, all, spokenOnly, Origin(c, i), out) ensures Origin(c, i) in origins {
        if i < n - 1 {
          assert Origin(c, i) in earlier;
        } else {
          assert Emits(all[c][n - 1], setup.chunks[c], localMap, out);
          assert made == Some(out) && origins[|earlier|] == Origin(c, n - 1);
        }
      }
    }
  }

  lemma {:induction false} StitchedYields(setup: Setup, ds: seq<Diarization>, all: seq<seq<Segment>>, spokenOnly: bool, n: nat)
    returns (origins: seq<Origin>)
    requires n <= |ds| == |all| == |setup.chunks|
    ensures InSequence(origins)
    ensures HoldsYields(setup, ds, all, spokenOnly, n, Stitched(setup, ds, all, spokenOnly, n), origins)
  {
    hide HoldsYields, Yields, Globalize, LocalMapOf;
    if n == 0 {
      origins := [];
      NothingYielded(setup, ds, all, spokenOnly);
    } else {
      var earlier := StitchedYields(setup, ds, all, spokenOnly, n - 1);
      var later := ChunkYields(setup, ds, all, spokenOnly, n - 1, |all[n - 1]|);
      origins := earlier + later;
      ChunkIsAdded(setup, ds, all, spokenOnly, n - 1, Stitched(setup, ds, all, spokenOnly, n - 1), earlier,
                   Globalize(all[n - 1], setup.chunks[n - 1], LocalMapOf(setup, ds, n - 1), spokenOnly, |all[n - 1]|), later);
    }
  }

  lemma NothingYielded(setup: Setup, ds: seq<Diarization>, all: seq<seq<Segment>>, spokenOnly: bool)
    requires |ds| == |all| == |setup.chunks|
    ensures HoldsYields(setup, ds, all, spokenOnly, 0, [], [])
  {
  }

  lemma ChunkIsAdded(setup: Setup, ds: seq<Diarization>, all: seq<seq<Segment>>, spokenOnly: bool, c: nat,
                     list: seq<Segment>, earlier: seq<Origin>, more: seq<Segment>, later: seq<Origin>)
    requires c < |ds| == |all| == |setup.chunks|
    requires HoldsYields(setup, ds, all, spokenOnly, c, list, earlier) && InSequence(earlier)
    requires |later| == |more| && InSequence(later)
    requires forall k :: 0 <= k < |more| ==> later[k].chunk == c && Yields(setup, ds, all, spokenOnly, later[k], more[k])
    requires forall i: nat, out :: i < |all[c]| && Yields(setup, ds, all, spokenOnly, Origin(c, i), out) ==> Origin(c, i) in later
    ensures HoldsYields(setup, ds, all, spokenOnly, c + 1, list + more, earlier + later) && InSequence(earlier + later)
  {
    hide Yields;
    var both, origins := list + more, earlier + later;
    forall k | 0 <= k < |both| ensures origins[k].chunk < c + 1 && Yields(setup, ds, all, spokenOnly, origins[k], both[k]) {
      if k < |list| {
        assert both[k] == list[k] && origins[k] == earlier[k];
      } else {
        assert both[k] == more[k - |list|] && origins[k] == later[k - |list|];
      }
    }
    SequencesJoin(earlier, later, c);
    forall origin: Origin, out | origin.chunk < c + 1 && Yields(setup, ds, all, spokenOnly, origin, out) ensures origin in origins {
      YieldsAPlace(setup, ds, all, spokenOnly, origin, out);
      if origin.chunk < c {
        assert origin in earlier;
      } else {
        assert origin == Origin(c, origin.index) && origin in later;
      }
    }
  }

  lemma SequencesJoin(earlier: seq<Origin>, later: seq<Origin>, c: nat)
    requires InSequence(earlier) && InSequence(later)
    requires (forall k :: 0 <= k < |earlier| ==> earlier[k].chunk < c) && (forall k :: 0 <= k < |later| ==> later[k].chunk == c)
    ensures InSequence(earlier + later)
    ensures forall j, k :: 0 <= j < k < |earlier + later| ==> (earlier + later)[j] != (earlier + later)[k]
  {
  }

  lemma YieldsAPlace(setup: Setup, ds: seq<Diarization>, all: seq<seq<Segment>>, spokenOnly: bool, origin: Origin, out: Segment)
    requires |ds| == |all| == |setup.chunks| && Yields(setup, ds, all, spokenOnly, origin, out)
    ensures origin.chunk < |all| && origin.index < |all[origin.chunk]|
  {
  }

  lemma {:induction false} InsertionPoint(segments: seq<Segment>, segment: Segment) returns (j: nat)
    requires InOrder(segments)
    ensures j <= |segments| && Insert(segments, segment) == segments[..j] + [segment] + segments[j..]
    ensures forall k :: 0 <= k < j ==> NotAfter(segments[k], segment)
    ensures forall k :: j <= k < |segments| ==> !NotAfter(segments[k], segment)
  {
    if segments == [] || NotAfter(segments[|segments| - 1], segment) {
      j := |segments|;
    } else {
      j := InsertionPoint(segments[..|segments| - 1], segment);
      assert segments == segments[..|segments| - 1] + [segments[|segments| - 1]];
    }
  }

  /** Each segment has moved with its origin, and none is lost. */
  ghost predicate MovedTogether(list: seq<Segment>, origins: seq<Origin>, sorted: seq<Segment>, moved: seq<Origin>) {
    && |origins| == |list| && |moved| == |sorted|
    && (forall k :: 0 <= k < |sorted| ==> exists m :: 0 <= m < |list| && moved[k] == origins[m] && sorted[k] == list[m])
    && (forall origin <- origins :: origin in moved)
    && (forall j, k :: 0 <= j < k < |moved| ==> moved[j] != moved[k])
  }

  lemma {:induction false} SortingMovesOrigins(list: seq<Segment>, origins: seq<Origin>) returns (moved: seq<Origin>)
    requires |origins| == |list| && InSequence(origins)
    ensures MovedTogether(list, origins, Sorted(list), moved) && IsChronological(Sorted(list), moved)
  {
    hide Insert, InOrder, MovedTogether, IsChronological, NotAfter;
    if list == [] {
      moved := [];
      NothingMoved();
    } else {
      var last := |list| - 1;
      var init := SortingMovesOrigins(list[..last], origins[..last]);
      SortingSorts(list[..last]);
      var sorted := Sorted(list[..last]);
      var j := InsertionPoint(sorted, list[last]);
      SizesAgree(list[..last], origins[..last], sorted, init);
      moved := init[..j] + [origins[last]] + init[j..];
      EarlierThanLast(list, origins, sorted, init);
      InsertedTogether(list, origins, sorted, init, j);
      MovedIsChronological(sorted, init, list[last], origins[last], j);
    }
  }

  lemma NothingMoved()
    ensures MovedTogether([], [], [], []) && IsChronological([], [])
  {
  }

  lemma SizesAgree(list: seq<Segment>, origins: seq<Origin>, sorted: seq<Segment>, moved: seq<Origin>)
    requires MovedTogether(list, origins, sorted, moved)
    ensures |moved| == |sorted|
  {
  }

  lemma EarlierThanLast(list: seq<Segment>, origins: seq<Origin>, sorted: seq<Segment>, init: seq<Origin>)
    requires origins != [] && |origins| == |list| && InSequence(origins)
    requires MovedTogether(list[..|list| - 1], origins[..|list| - 1], sorted, init)
    ensures forall k :: 0 <= k < |init| ==> Earlier(init[k], origins[|origins| - 1])
  {
  }

  lemma InsertedTogether(list: seq<Segment>, origins: seq<Origin>, sorted: seq<Segment>, init: seq<Origin>, j: nat)
    requires origins != [] && |origins| == |list| && j <= |sorted| == |init|
    requires MovedTogether(list[..|list| - 1], origins[..|list| - 1], sorted, init)
    requires forall k :: 0 <= k < |init| ==> Earlier(init[k], origins[|origins| - 1])
    ensures MovedTogether(list, origins, sorted[..j] + [list[|list| - 1]] + sorted[j..],
                          init[..j] + [origins[|list| - 1]] + init[j..])
  {
    var last := |list| - 1;
    var after, moved := sorted[..j] + [list[last]] + sorted[j..], init[..j] + [origins[last]] + init[j..];
    assert moved[j] == origins[last] && after[j] == list[last];
    forall k | 0 <= k < |after| && k != j
      ensures after[k] == sorted[if k < j then k else k - 1] && moved[k] == init[if k < j then k else k - 1]
    {
    }
    forall k | 0 <= k < |after| ensures exists m :: 0 <= m < |list| && moved[k] == origins[m] && after[k] == list[m] {
      if k != j {
        var i := if k < j then k else k - 1;
        var m :| 0 <= m < last && init[i] == origins[..last][m] && sorted[i] == list[..last][m];
        assert origins[m] == moved[k] && list[m] == after[k];
      }
    }
    forall origin | origin in origins ensures origin in moved {
      if origin != origins[last] {
        var m :| 0 <= m < |origins| && origins[m] == origin;
        assert origins[..last][m] == origin && origin in origins[..last];
        var i :| 0 <= i < |init| && init[i] == origin;
        assert moved[if i < j then i else i + 1] == origin;
      }
    }
  }

  lemma MovedIsChronological(sorted: seq<Segment>, init: seq<Origin>, segment: Segment, origin: Origin, j: nat)
    requires |init| == |sorted| && j <= |sorted| && IsChronological(sorted, init)
    requires forall k :: 0 <= k < |init| ==> Earlier(init[k], origin)
    requires forall k :: 0 <= k < j ==> NotAfter(sorted[k], segment)
    requires forall k :: j <= k < |sorted| ==> !NotAfter(sorted[k], segment)
    ensures IsChronological(sorted[..j] + [segment] + sorted[j..], init[..j] + [origin] + init[j..])
  {
    var list, moved := sorted[..j] + [segment] + sorted[j..], init[..j] + [origin] + init[j..];
    forall i | 0 <= i < |list| && i != j
      ensures list[i] == sorted[if i < j then i else i - 1] && moved[i] == init[if i < j then i else i - 1]
    {
    }
  }

  /** What a stitched and sorted transcript holds: everything its chunks yield, each segment once and
      nothing else, in order of time and, where times are equal, of chunk and place. */
  lemma SortedYields(setup: Setup, ds: seq<Diarization>, all: seq<seq<Segment>>, spokenOnly: bool) returns (origins: seq<Origin>)
    requires |ds| == |all| == |setup.chunks|
    ensures var transcript := Sorted(Stitched(setup, ds, all, spokenOnly, |ds|));
            HoldsYields(setup, ds, all, spokenOnly, |ds|, transcript, origins) && IsChronological(transcript, origins)
  {
    hide Yields, Stitched, Sorted, IsChronological;
    var stitched := Stitched(setup, ds, all, spokenOnly, |ds|);
    var places := StitchedYields(setup, ds, all, spokenOnly, |ds|);
    origins := SortingMovesOrigins(stitched, places);
  }

  /** The transcript of the turns, and the transcript of the words. */
  lemma TurnTranscriptHolds(setup: Setup, ds: seq<Diarization>) returns (origins: seq<Origin>)
    requires |ds| == |setup.chunks|
    ensures var turns := TurnTranscript(setup, ds);
            HoldsYields(setup, ds, Turns(ds), false, |ds|, turns, origins) && IsChronological(turns, origins)
  {
    origins := SortedYields(setup, ds, Turns(ds), false);
  }

  lemma WordTranscriptHolds(setup: Setup, ds: seq<Diarization>, ts: seq<Transcription>) returns (origins: seq<Origin>)
    requires |ds| == |ts| == |setup.chunks|
    ensures var words := WordTranscript(setup, ds, ts);
            HoldsYields(setup, ds, Words(ts), true, |ds|, words, origins) && IsChronological(words, origins)
  {
    origins := SortedYields(setup, ds, Words(ts), true);
  }

  /** A segment whose speaker its chunk announced names a speaker of the final cast, and still the
      same one however many chunks followed. */
  lemma SegmentsNameKnownSpeakers(setup: Setup, ds: seq<Diarization>, i: nat, segment: Segment)
    requires i < |ds| == |setup.chunks|
    requires Or(segment.speakerId, "UNKNOWN") in LocalIds(ds[i].speakers)
    requires SegmentToGlobal(segment, setup.chunks[i], LocalMapOf(setup, ds, i)).Some?
    ensures IsSpeaker(CastAfter(setup, ds, |ds|),
                      SegmentToGlobal(segment, setup.chunks[i], LocalMapOf(setup, ds, i)).value.speakerId)
    ensures Extends(CastAfter(setup, ds, i + 1), CastAfter(setup, ds, |ds|))
  {
    hide MapChunk, WellNumbered, Extends, IsSpeaker, BelongsToCore;
    var cap := GlobalSpeakerCap(setup.speakerCount);
    CastStaysNumbered(setup.root, cap, Casting(ds), 0, i);
    MappingIsSound(setup.root, cap, ds[i].speakers, CastAfter(setup, ds, i));
    CastStaysNumbered(setup.root, cap, Casting(ds), i + 1, |ds|);
    ExtendedKeepsIds(CastAfter(setup, ds, i + 1), CastAfter(setup, ds, |ds|));
  }

  /** The segments and languages so far, and the registry the speakers are named from. */
  class Stitcher {
    const setup: Setup
    const registry: SpeakerRegistry
    var segments: seq<Segment>
    var languages: seq<string>

    constructor (setup: Setup, ghost ds: seq<Diarization>, ghost ts: seq<Transcription>)
      requires |ds| == |ts| == |setup.chunks|
      ensures this.setup == setup && fresh(registry)
      ensures HoldsTurns(ds, 0) && HoldsWords(ds, ts, 0)
    {
      this.setup, segments, languages := setup, [], [];
      registry := new SpeakerRegistry(setup.root, setup.speakerCount);
    }

    ghost predicate Holds(ds: seq<Diarization>, chunkSegments: seq<seq<Segment>>, spokenOnly: bool, n: nat)
      requires n <= |ds| == |chunkSegments| == |setup.chunks|
      reads this, registry
    {
      && registry.root == setup.root && registry.cap == GlobalSpeakerCap(setup.speakerCount)
      && registry.speakers == CastAfter(setup, ds, n)
      && segments == Stitched(setup, ds, chunkSegments, spokenOnly, n)
    }

    /** After the turns of n chunks. */
    ghost predicate HoldsTurns(ds: seq<Diarization>, n: nat)
      requires n <= |ds| == |setup.chunks|
      reads this, registry
    {
      Holds(ds, Turns(ds), false, n)
    }

    /** After the words of n chunks. */
    ghost predicate HoldsWords(ds: seq<Diarization>, ts: seq<Transcription>, n: nat)
      requires n <= |ds| == |ts| == |setup.chunks|
      reads this, registry
    {
      Holds(ds, Words(ts), true, n) && languages == Languages(ts, n)
    }

    method Add(speakers: seq<LocalSpeaker>, chunkSegments: seq<Segment>, chunk: AudioChunk, spokenOnly: bool,
               ghost ds: seq<Diarization>, ghost all: seq<seq<Segment>>, ghost n: nat)
      requires n < |ds| == |all| == |setup.chunks|
      requires Holds(ds, all, spokenOnly, n)
      requires speakers == ds[n].speakers && chunkSegments == all[n] && chunk == setup.chunks[n]
      modifies this`segments, registry`speakers
      ensures Holds(ds, all, spokenOnly, n + 1)
    {
      hide MapChunk, Globalize;
      var localMap := registry.MapChunkSpeakers(speakers);
      var globals := GlobalizeChunk(chunkSegments, chunk, localMap, spokenOnly);
      segments := segments + globals;
    }

    method AddTurns(diarization: Diarization, chunk: AudioChunk, ghost ds: seq<Diarization>, ghost n: nat)
      requires n < |ds| == |setup.chunks| && HoldsTurns(ds, n)
      requires diarization == ds[n] && chunk == setup.chunks[n]
      modifies this`segments, registry`speakers
      ensures HoldsTurns(ds, n + 1)
    {
      Add(diarization.speakers, diarization.segments, chunk, false, ds, Turns(ds), n);
    }

    method AddWords(diarization: Diarization, transcription: Transcription, chunk: AudioChunk,
                    ghost ds: seq<Diarization>, ghost ts: seq<Transcription>, ghost n: nat)
      requires n < |ds| == |ts| == |setup.chunks| && HoldsWords(ds, ts, n)
      requires diarization == ds[n] && transcription == ts[n] && chunk == setup.chunks[n]
      modifies this`segments, this`languages, registry`speakers
      ensures HoldsWords(ds, ts, n + 1)
    {
      if transcription.language != "" {
        languages := languages + [transcription.language];
      }
      Add(diarization.speakers, transcription.segments, chunk, true, ds, Words(ts), n);
    }

    method FinishTurns(ghost ds: seq<Diarization>) returns (turns: seq<Segment>, speakers: seq<GlobalSpeaker>)
      requires |ds| == |setup.chunks| && HoldsTurns(ds, |ds|)
      ensures turns == TurnTranscript(setup, ds) && speakers == CastAfter(setup, ds, |ds|)
    {
      turns, speakers := Sorted(segments), registry.speakers;
    }

    method FinishWords(ghost ds: seq<Diarization>, ghost ts: seq<Transcription>) returns (transcript: Transcript)
      requires |ds| == |ts| == |setup.chunks| && HoldsWords(ds, ts, |ds|)
      ensures transcript == Transcript(WordTranscript(setup, ds, ts), CastAfter(setup, ds, |ds|), MostCommon(Languages(ts, |ts|)))
    {
      var language := MostCommonLanguage(languages);
      transcript := Transcript(Sorted(segments), registry.speakers, language);
    }
  }

  /** What a successful front half leaves in the context. */
  datatype Transcript = Transcript(segments: seq<Segment>, speakers: seq<GlobalSpeaker>, language: string)
}
