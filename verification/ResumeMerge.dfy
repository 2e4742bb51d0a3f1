/** On resume the freshly aggregated transcript takes back the translations and audio links that
    were persisted for the same segments. */
module ResumeMerge {
  import opened Numeric
  import opened PipelineTypes

  const MATCH_TOLERANCE := 0.05

  /** Start and end in tenths of a second, rounded, and the speaker. */
  datatype MatchKey = MatchKey(start: int, end: int, speakerId: string)

  function KeyOf(segment: Segment): MatchKey {
    MatchKey(Round(segment.start * 10.0), Round(segment.end * 10.0), segment.speakerId)
  }

  predicate SegmentsMatch(current: Segment, persisted: Segment) {
    && Abs(current.start - persisted.start) <= MATCH_TOLERANCE
    && Abs(current.end - persisted.end) <= MATCH_TOLERANCE
    && current.speakerId == persisted.speakerId
  }

  predicate SameTranscript(current: seq<Segment>, persisted: seq<Segment>) {
    |current| == |persisted| && forall i :: 0 <= i < |current| ==> SegmentsMatch(current[i], persisted[i])
  }

  /** `_copy_resume_fields`: fills only what is missing. */
  function CopyResumeFields(current: Segment, persisted: Segment): Segment {
    var translation := Or(persisted.translation, persisted.translatedText);
    current.(
      translation := Or(current.translation, translation),
      synthAudioUrl := Or(current.synthAudioUrl, persisted.synthAudioUrl),
      originalAudioUrl := Or(current.originalAudioUrl, persisted.originalAudioUrl))
  }

  /** The first persisted segment with the key. */
  function FirstWithKey(persisted: seq<Segment>, key: MatchKey): (found: Option<Segment>)
    ensures found.Some? ==> found.value in persisted && KeyOf(found.value) == key
    ensures found == None <==> forall p <- persisted :: KeyOf(p) != key
  {
    if persisted == [] then None
    else
      var earlier := FirstWithKey(persisted[..|persisted| - 1], key);
      var last := persisted[|persisted| - 1];
      assert persisted == persisted[..|persisted| - 1] + [last];
      if earlier.Some? then earlier else if KeyOf(last) == key then Some(last) else None
  }

  /** The persisted segment that feeds segment `i`, if any. */
  function SourceOf(current: seq<Segment>, persisted: seq<Segment>, i: nat): Option<Segment>
    requires i < |current|
  {
    if SameTranscript(current, persisted) then Some(persisted[i])
    else FirstWithKey(persisted, KeyOf(current[i]))
  }

  function Merged(current: seq<Segment>, persisted: seq<Segment>): (merged: seq<Segment>)
    ensures |merged| == |current|
  {
    seq(|current|, i requires 0 <= i < |current| =>
      match SourceOf(current, persisted, i)
      case None => current[i]
      case Some(source) => CopyResumeFields(current[i], source))
  }

  method MergePersistedSegmentFields(current: seq<Segment>, persisted: seq<Segment>) returns (merged: seq<Segment>)
    ensures merged == Merged(current, persisted)
  {
    if current == [] || persisted == [] {
      return current;
    }
    if |current| == |persisted| {
      var i := 0;
      while i < |current| && SegmentsMatch(current[i], persisted[i])
        invariant 0 <= i <= |current|
        invariant forall j :: 0 <= j < i ==> SegmentsMatch(current[j], persisted[j])
      {
        i := i + 1;
      }
      if i == |current| {
        merged := [];
        for k := 0 to |current|
          invariant merged == Merged(current, persisted)[..k]
        {
          merged := merged + [CopyResumeFields(current[k], persisted[k])];
        }
        return;
      }
    }
    merged := MergeByKey(current, persisted);
  }

  /** The fall-back when the transcripts do not line up one to one. */
  method MergeByKey(current: seq<Segment>, persisted: seq<Segment>) returns (merged: seq<Segment>)
    requires !SameTranscript(current, persisted)
    ensures merged == Merged(current, persisted)
  {
    hide KeyOf, CopyResumeFields, SameTranscript, FirstWithKey;
    var byKey := IndexByKey(persisted);
    merged := [];
    for k := 0 to |current|
      invariant merged == Merged(current, persisted)[..k]
    {
      var key := KeyOf(current[k]);
      merged := merged + [if key in byKey then CopyResumeFields(current[k], byKey[key]) else current[k]];
    }
  }

  /** The first segment with a key is kept. */
  method IndexByKey(persisted: seq<Segment>) returns (byKey: map<MatchKey, Segment>)
    ensures forall key :: key in byKey <==> FirstWithKey(persisted, key).Some?
    ensures forall key :: key in byKey ==> Some(byKey[key]) == FirstWithKey(persisted, key)
  {
    hide KeyOf;
    byKey := map[];
    for k := 0 to |persisted|
      invariant forall key :: key in byKey <==> FirstWithKey(persisted[..k], key).Some?
      invariant forall key :: key in byKey ==> Some(byKey[key]) == FirstWithKey(persisted[..k], key)
    {
      assert persisted[..k + 1][..k] == persisted[..k];
      var key := KeyOf(persisted[k]);
      if key !in byKey {
        byKey := byKey[key := persisted[k]];
      }
    }
    assert persisted[..|persisted|] == persisted;
  }

  // ----- What merging brings back -----

  /** Two segments of one speaker whose times differ by no more than this. */
  predicate IsNear(a: Segment, b: Segment, seconds: real) {
    a.speakerId == b.speakerId && Abs(a.start - b.start) <= seconds && Abs(a.end - b.end) <= seconds
  }

  /** Every field that was missing is the persisted one; a translation may be stored under the older
      key. */
  ghost predicate TakesFrom(before: Segment, persisted: Segment, after: Segment) {
    && after == before.(translation := after.translation, synthAudioUrl := after.synthAudioUrl, originalAudioUrl := after.originalAudioUrl)
    && (before.translation != "" ==> after.translation == before.translation)
    && (before.translation == "" && persisted.translation != "" ==> after.translation == persisted.translation)
    && (before.translation == "" && persisted.translation == "" ==> after.translation == persisted.translatedText)
    && after.synthAudioUrl == (if before.synthAudioUrl != "" then before.synthAudioUrl else persisted.synthAudioUrl)
    && after.originalAudioUrl == (if before.originalAudioUrl != "" then before.originalAudioUrl else persisted.originalAudioUrl)
  }

  lemma CopyTakes(current: Segment, persisted: Segment)
    ensures TakesFrom(current, persisted, CopyResumeFields(current, persisted))
  {
  }

  /** Lists that line up one to one, to a twentieth of a second, are merged place by place. */
  lemma LinedUpTakesByPlace(current: seq<Segment>, persisted: seq<Segment>, i: nat)
    requires i < |current| == |persisted|
    requires forall k :: 0 <= k < |current| ==> IsNear(current[k], persisted[k], 0.05)
    ensures TakesFrom(current[i], persisted[i], Merged(current, persisted)[i])
  {
    assert SameTranscript(current, persisted);
    CopyTakes(current[i], persisted[i]);
  }

  /** Keys agree for equal times and only for near ones. */
  lemma KeysAreNear(a: Segment, b: Segment)
    ensures KeyOf(a) == KeyOf(b) ==> IsNear(a, b, 0.1)
    ensures IsNear(a, b, 0.0) ==> KeyOf(a) == KeyOf(b)
  {
  }

  lemma {:induction false} FirstWithKeyIs(persisted: seq<Segment>, key: MatchKey, j: nat)
    requires j < |persisted| && KeyOf(persisted[j]) == key && forall k :: 0 <= k < j ==> KeyOf(persisted[k]) != key
    ensures FirstWithKey(persisted, key) == Some(persisted[j])
  {
    hide KeyOf;
    if j < |persisted| - 1 {
      FirstWithKeyIs(persisted[..|persisted| - 1], key, j);
    } else {
      assert FirstWithKey(persisted[..j], key) == None;
    }
  }

  /** Where lists do not line up, a segment takes what it lacks from a persisted twin with its times and
      speaker, provided no earlier persisted segment of that speaker is within a tenth of a second. */
  lemma TwinGivesFieldsBack(current: seq<Segment>, persisted: seq<Segment>, i: nat, j: nat)
    requires i < |current| && j < |persisted|
    requires |current| != |persisted| || exists k :: 0 <= k < |current| && !IsNear(current[k], persisted[k], 0.05)
    requires IsNear(current[i], persisted[j], 0.0) && forall k :: 0 <= k < j ==> !IsNear(persisted[k], persisted[j], 0.1)
    ensures TakesFrom(current[i], persisted[j], Merged(current, persisted)[i])
  {
    hide KeyOf, Abs;
    KeysAreNear(current[i], persisted[j]);
    forall k | 0 <= k < j ensures KeyOf(persisted[k]) != KeyOf(persisted[j]) {
      KeysAreNear(persisted[k], persisted[j]);
    }
    FirstWithKeyIs(persisted, KeyOf(current[i]), j);
    CopyTakes(current[i], persisted[j]);
  }

  /** A segment without a persisted one nearby stays as it is, and whatever is filled in comes from one. */
  lemma FieldsComeFromNearby(current: seq<Segment>, persisted: seq<Segment>, i: nat)
    requires i < |current|
    ensures Merged(current, persisted)[i] == current[i]
         || exists p <- persisted :: IsNear(current[i], p, 0.1) && TakesFrom(current[i], p, Merged(current, persisted)[i])
  {
    hide KeyOf, Abs, FirstWithKey, CopyResumeFields;
    var source := SourceOf(current, persisted, i);
    if source.Some? {
      CopyTakes(current[i], source.value);
      KeysAreNear(current[i], source.value);
      if SameTranscript(current, persisted) {
        assert SegmentsMatch(current[i], persisted[i]);
      }
    }
  }

  // ----- What merging keeps -----

  /** Merging touches only missing translations and links: times, speaker and text stay, and
      nothing present is replaced. */
  lemma MergeOnlyFillsGaps(current: seq<Segment>, persisted: seq<Segment>, i: nat)
    requires i < |current|
    ensures var before, after := current[i], Merged(current, persisted)[i];
            && after == before.(translation := after.translation, synthAudioUrl := after.synthAudioUrl,
                                originalAudioUrl := after.originalAudioUrl)
            && (before.translation != "" ==> after.translation == before.translation)
            && (before.synthAudioUrl != "" ==> after.synthAudioUrl == before.synthAudioUrl)
            && (before.originalAudioUrl != "" ==> after.originalAudioUrl == before.originalAudioUrl)
    ensures var before, after := current[i], Merged(current, persisted)[i];
            after.translation != before.translation ==>
              exists p <- persisted :: SegmentsMatch(before, p) || KeyOf(before) == KeyOf(p)
  {
    if SameTranscript(current, persisted) {
      assert SegmentsMatch(current[i], persisted[i]);
    }
  }

  lemma SameTimesSameKey(a: Segment, b: Segment)
    requires a.start == b.start && a.end == b.end && a.speakerId == b.speakerId
    ensures KeyOf(a) == KeyOf(b)
  {
  }

  /** Merging the same persisted list again changes nothing. */
  lemma MergeIsIdempotent(current: seq<Segment>, persisted: seq<Segment>)
    ensures Merged(Merged(current, persisted), persisted) == Merged(current, persisted)
  {
    hide KeyOf, FirstWithKey, Abs;
    var merged := Merged(current, persisted);
    assert SameTranscript(merged, persisted) <==> SameTranscript(current, persisted) by {
      if |current| == |persisted| {
        forall i | 0 <= i < |current| ensures SegmentsMatch(merged[i], persisted[i]) <==> SegmentsMatch(current[i], persisted[i]) {
          MergeOnlyFillsGaps(current, persisted, i);
        }
      }
    }
    forall i | 0 <= i < |current| ensures Merged(merged, persisted)[i] == merged[i] {
      MergeOnlyFillsGaps(current, persisted, i);
      SameTimesSameKey(merged[i], current[i]);
      assert SourceOf(merged, persisted, i) == SourceOf(current, persisted, i);
    }
  }

  function Stripped(segment: Segment): Segment {
    segment.(translation := "", synthAudioUrl := "", originalAudioUrl := "")
  }

  /** A transcript whose resume fields were lost gets all of them back from its own persisted
      copy; a translation stored under the older key comes back under the current one. */
  lemma MergeRestoresLostFields(persisted: seq<Segment>)
    ensures var lost := seq(|persisted|, i requires 0 <= i < |persisted| => Stripped(persisted[i]));
            forall i :: 0 <= i < |persisted| ==>
              Merged(lost, persisted)[i] == persisted[i].(translation := Or(persisted[i].translation, persisted[i].translatedText))
  {
    var lost := seq(|persisted|, i requires 0 <= i < |persisted| => Stripped(persisted[i]));
    assert SameTranscript(lost, persisted);
  }
}
