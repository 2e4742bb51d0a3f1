/** The translation stage: batches are retried, then halved, against a provider that may answer
    anything, refuse, or break. */
module Translation {
  import opened Numeric
  import opened PipelineTypes

  const MAX_ATTEMPTS := 3

  /** How the service classifies an exception: a permanent provider problem, a transient one, or
      none of the provider's doing. */
  datatype ErrorKind = Permanent | Transient | Other

  /** `Unusable` is an answer that could not be parsed. */
  datatype Response = Answer(texts: seq<string>) | Unusable | Raised(kind: ErrorKind)

  /** The answer may depend on how many calls were made before. */
  type Provider = (nat, seq<string>) -> Response

  datatype Outcome = Translated(texts: seq<string>) | PausedForProvider | Failed

  /** The languages, and the character statistics that make a translation look like its source. */
  datatype Judge = Judge(sourceLanguage: string, targetLanguage: string, suspicious: (string, string) -> bool)

  predicate LooksUntranslated(judge: Judge, original: string, translation: string) {
    && judge.sourceLanguage != judge.targetLanguage
    && !Blank(original) && !Blank(translation)
    && judge.suspicious(original, translation)
  }

  predicate NeedsTranslation(judge: Judge, segment: Segment) {
    || (!Blank(segment.text) && Blank(segment.translation))
    || LooksUntranslated(judge, segment.text, segment.translation)
  }

  predicate Acceptable(judge: Judge, original: string, translation: string) {
    (Blank(original) || !Blank(translation)) && !LooksUntranslated(judge, original, translation)
  }

  /** `_validate_translations` */
  predicate AllAcceptable(judge: Judge, originals: seq<string>, translations: seq<string>) {
    |translations| == |originals|
    && forall i :: 0 <= i < |originals| ==> Acceptable(judge, originals[i], translations[i])
  }

  // ----- Retrying and splitting -----

  datatype Tried = Good(texts: seq<string>) | Stopped | Exhausted(last: ErrorKind)

  datatype Attempts = Attempts(tried: Tried, calls: nat)

  /** Up to `left` more attempts at one batch. */
  function Retry(provider: Provider, judge: Judge, texts: seq<string>, calls: nat, left: nat, last: ErrorKind): Attempts
    decreases left
  {
    if left == 0 then Attempts(Exhausted(last), calls)
    else
      match provider(calls, texts)
      case Answer(answer) =>
        if AllAcceptable(judge, texts, answer) then Attempts(Good(answer), calls + 1)
        else Retry(provider, judge, texts, calls + 1, left - 1, Other)
      case Unusable => Retry(provider, judge, texts, calls + 1, left - 1, Other)
      case Raised(kind) =>
        if kind == Permanent then Attempts(Stopped, calls + 1)
        else Retry(provider, judge, texts, calls + 1, left - 1, kind)
  }

  datatype Run = Run(outcome: Outcome, calls: nat)

  function TranslationRun(provider: Provider, judge: Judge, texts: seq<string>, calls: nat): Run
    decreases |texts|
  {
    if texts == [] then Run(Translated([]), calls)
    else
      var attempts := Retry(provider, judge, texts, calls, MAX_ATTEMPTS, Other);
      match attempts.tried
      case Good(answer) => Run(Translated(answer), attempts.calls)
      case Stopped => Run(PausedForProvider, attempts.calls)
      case Exhausted(last) =>
        if |texts| == 1 then Run(if last == Other then Failed else PausedForProvider, attempts.calls)
        else
          var midpoint := |texts| / 2;
          var left := TranslationRun(provider, judge, texts[..midpoint], attempts.calls);
          if !left.outcome.Translated? then left
          else
            var right := TranslationRun(provider, judge, texts[midpoint..], left.calls);
            if !right.outcome.Translated? then right
            else Run(Translated(left.outcome.texts + right.outcome.texts), right.calls)
  }

  class TranslationClient {
    const provider: Provider
    var calls: nat

    constructor (provider: Provider)
      ensures this.provider == provider && calls == 0
    {
      this.provider := provider;
      calls := 0;
    }

    method TranslateNonEmptyTexts(judge: Judge, texts: seq<string>) returns (outcome: Outcome)
      modifies this`calls
      ensures Run(outcome, calls) == TranslationRun(provider, judge, texts, old(calls))
      decreases |texts|
    {
      if texts == [] {
        return Translated([]);
      }
      var last := Other;
      var attempt := 1;
      while attempt <= MAX_ATTEMPTS
        invariant 1 <= attempt <= MAX_ATTEMPTS + 1
        invariant Retry(provider, judge, texts, calls, MAX_ATTEMPTS + 1 - attempt, last)
               == Retry(provider, judge, texts, old(calls), MAX_ATTEMPTS, Other)
      {
        var response := provider(calls, texts);
        calls := calls + 1;
        match response {
          case Answer(answer) =>
            if AllAcceptable(judge, texts, answer) {
              return Translated(answer);
            }
            last := Other;
          case Unusable =>
            last := Other;
          case Raised(kind) =>
            if kind == Permanent {
              return PausedForProvider;
            }
            last := kind;
        }
        attempt := attempt + 1;
      }
      if |texts| == 1 {
        return if last == Other then Failed else PausedForProvider;
      }
      var midpoint := |texts| / 2;
      var left := TranslateNonEmptyTexts(judge, texts[..midpoint]);
      if !left.Translated? {
        return left;
      }
      var right := TranslateNonEmptyTexts(judge, texts[midpoint..]);
      if !right.Translated? {
        return right;
      }
      outcome := Translated(left.texts + right.texts);
    }

    /** Blank texts are not sent to the provider and keep an empty translation. */
    method TranslateBatch(judge: Judge, originals: seq<string>) returns (outcome: Outcome)
      modifies this`calls
      ensures old(calls) <= calls
      ensures originals != [] ==> calls <= old(calls) + 3 * (2 * |originals| - 1)
      ensures outcome.Translated? ==> AllAcceptable(judge, originals, outcome.texts)
      ensures outcome.Translated? ==> forall i :: 0 <= i < |originals| && Blank(originals[i]) ==> outcome.texts[i] == ""
      ensures !outcome.Translated? ==> EndedBy(provider, calls - 1, originals, outcome)
    {
      hide EndedBy, TranslationRun, Acceptable, ArePlaces, Blank;
      var positions, texts := NonBlank(originals);
      outcome := TranslateNonEmptyTexts(judge, texts);
      BatchIsBounded(provider, judge, originals, positions, texts, old(calls));
      if outcome.Translated? {
        ghost var answers := outcome.texts;
        var translations := Placed(|originals|, positions, outcome.texts);
        PlacesAreAcceptable(judge, originals, positions, texts, answers, translations);
        outcome := Translated(translations);
      }
    }
  }

  /** The places and the texts of the non-blank originals, in order. */
  ghost predicate ArePlaces(originals: seq<string>, positions: seq<int>, texts: seq<string>) {
    && |positions| == |texts| <= |originals|
    && (forall k :: 0 <= k < |positions| ==>
          0 <= positions[k] < |originals| && texts[k] == originals[positions[k]] && !Blank(originals[positions[k]]))
    && (forall j, k :: 0 <= j < k < |positions| ==> positions[j] < positions[k])
    && (forall j :: 0 <= j < |originals| && !Blank(originals[j]) ==> j in positions)
  }

  method NonBlank(originals: seq<string>) returns (positions: seq<int>, texts: seq<string>)
    ensures ArePlaces(originals, positions, texts)
    ensures |positions| == |texts| <= |originals|
    ensures forall k :: 0 <= k < |positions| ==> 0 <= positions[k] < |originals|
    ensures forall j, k :: 0 <= j < k < |positions| ==> positions[j] < positions[k]
  {
    hide Blank;
    positions, texts := [], [];
    for i := 0 to |originals|
      invariant |positions| == |texts| <= i
      invariant forall k :: 0 <= k < |positions| ==>
        0 <= positions[k] < i && texts[k] == originals[positions[k]] && !Blank(originals[positions[k]])
      invariant forall j, k :: 0 <= j < k < |positions| ==> positions[j] < positions[k]
      invariant forall j :: 0 <= j < i && !Blank(originals[j]) ==> j in positions
    {
      if !Blank(originals[i]) {
        positions, texts := positions + [i], texts + [originals[i]];
      }
    }
  }

  /** The texts at their places, and nothing anywhere else. */
  method Placed(count: nat, positions: seq<int>, texts: seq<string>) returns (translations: seq<string>)
    requires |positions| <= |texts| && forall k :: 0 <= k < |positions| ==> 0 <= positions[k] < count
    requires forall j, k :: 0 <= j < k < |positions| ==> positions[j] < positions[k]
    ensures |translations| == count
    ensures forall k :: 0 <= k < |positions| ==> translations[positions[k]] == texts[k]
    ensures forall j :: 0 <= j < count && j !in positions ==> translations[j] == ""
  {
    translations := seq(count, _ => "");
    for k := 0 to |positions|
      invariant |translations| == count
      invariant forall m :: 0 <= m < k ==> translations[positions[m]] == texts[m]
      invariant forall j :: 0 <= j < count && j !in positions[..k] ==> translations[j] == ""
    {
      translations := translations[positions[k] := texts[k]];
      assert positions[..k + 1] == positions[..k] + [positions[k]];
    }
    assert positions[..|positions|] == positions;
  }

  lemma PlacesAreAcceptable(judge: Judge, originals: seq<string>, positions: seq<int>, texts: seq<string>,
                            answers: seq<string>, translations: seq<string>)
    requires ArePlaces(originals, positions, texts) && AllAcceptable(judge, texts, answers) && |translations| == |originals|
    requires forall k :: 0 <= k < |positions| ==> translations[positions[k]] == answers[k]
    requires forall j :: 0 <= j < |originals| && j !in positions ==> translations[j] == ""
    ensures AllAcceptable(judge, originals, translations)
    ensures forall j :: 0 <= j < |originals| && Blank(originals[j]) ==> translations[j] == ""
  {
    hide LooksUntranslated, Acceptable, Blank;
    forall j | 0 <= j < |originals|
      ensures Acceptable(judge, originals[j], translations[j]) && (Blank(originals[j]) ==> translations[j] == "")
    {
      if j in positions {
        var m :| 0 <= m < |positions| && positions[m] == j;
        assert Acceptable(judge, texts[m], answers[m]);
      } else {
        NothingIsAcceptable(judge, originals[j]);
      }
    }
  }

  lemma NothingIsAcceptable(judge: Judge, original: string)
    ensures Blank(original) ==> Acceptable(judge, original, "")
  {
  }

  lemma BatchIsBounded(provider: Provider, judge: Judge, originals: seq<string>, positions: seq<int>, texts: seq<string>, calls: nat)
    requires ArePlaces(originals, positions, texts)
    ensures var run := TranslationRun(provider, judge, texts, calls);
            && calls <= run.calls && (originals != [] ==> run.calls <= calls + 3 * (2 * |originals| - 1))
            && (run.outcome.Translated? ==> AllAcceptable(judge, texts, run.outcome.texts))
            && (!run.outcome.Translated? ==> EndedBy(provider, run.calls - 1, originals, run.outcome))
  {
    hide TranslationRun, EndedBy, Blank;
    CallsAreBounded(provider, judge, texts, calls);
    NothingCostsNothing(provider, judge, calls);
    SuccessIsAcceptable(provider, judge, texts, calls);
    LastCallDecides(provider, judge, texts, calls);
    if !TranslationRun(provider, judge, texts, calls).outcome.Translated? {
      WiderEndedBy(provider, TranslationRun(provider, judge, texts, calls).calls - 1, texts, originals,
                   TranslationRun(provider, judge, texts, calls).outcome);
    }
  }

  lemma NothingCostsNothing(provider: Provider, judge: Judge, calls: nat)
    ensures TranslationRun(provider, judge, [], calls) == Run(Translated([]), calls)
  {
  }

  // ----- What any provider can and cannot do -----

  lemma {:induction false} RetryBounds(provider: Provider, judge: Judge, texts: seq<string>, calls: nat, left: nat, last: ErrorKind)
    ensures var r := Retry(provider, judge, texts, calls, left, last);
            && calls <= r.calls <= calls + left
            && (r.tried.Good? ==> AllAcceptable(judge, texts, r.tried.texts))
            && (r.tried.Exhausted? ==> r.calls == calls + left && (last != Permanent ==> r.tried.last != Permanent))
    decreases left
  {
    if left > 0 {
      match provider(calls, texts) {
        case Answer(answer) => RetryBounds(provider, judge, texts, calls + 1, left - 1, Other);
        case Unusable => RetryBounds(provider, judge, texts, calls + 1, left - 1, Other);
        case Raised(kind) => RetryBounds(provider, judge, texts, calls + 1, left - 1, kind);
      }
    }
  }

  /** Whatever the provider does, n texts cost at most 3(2n - 1) calls. */
  lemma {:induction false} CallsAreBounded(provider: Provider, judge: Judge, texts: seq<string>, calls: nat)
    ensures calls <= TranslationRun(provider, judge, texts, calls).calls
    ensures texts != [] ==> TranslationRun(provider, judge, texts, calls).calls <= calls + 3 * (2 * |texts| - 1)
    decreases |texts|
  {
    if texts != [] {
      var attempts := Retry(provider, judge, texts, calls, MAX_ATTEMPTS, Other);
      RetryBounds(provider, judge, texts, calls, MAX_ATTEMPTS, Other);
      if attempts.tried.Exhausted? && |texts| > 1 {
        var midpoint := |texts| / 2;
        var left := TranslationRun(provider, judge, texts[..midpoint], attempts.calls);
        CallsAreBounded(provider, judge, texts[..midpoint], attempts.calls);
        CallsAreBounded(provider, judge, texts[midpoint..], left.calls);
      }
    }
  }

  /** On success there is one acceptable translation per text, in order, however the batch was
      split along the way. */
  lemma {:induction false} SuccessIsAcceptable(provider: Provider, judge: Judge, texts: seq<string>, calls: nat)
    ensures var outcome := TranslationRun(provider, judge, texts, calls).outcome;
            outcome.Translated? ==> AllAcceptable(judge, texts, outcome.texts)
    decreases |texts|
  {
    if texts != [] {
      var attempts := Retry(provider, judge, texts, calls, MAX_ATTEMPTS, Other);
      RetryBounds(provider, judge, texts, calls, MAX_ATTEMPTS, Other);
      if attempts.tried.Exhausted? && |texts| > 1 {
        var midpoint := |texts| / 2;
        var left := TranslationRun(provider, judge, texts[..midpoint], attempts.calls);
        SuccessIsAcceptable(provider, judge, texts[..midpoint], attempts.calls);
        SuccessIsAcceptable(provider, judge, texts[midpoint..], left.calls);
      }
    }
  }

  // ----- What decides between pausing and failing -----

  /** The attempts end at once on a permanent error; otherwise the last one says what went wrong. */
  lemma {:induction false} LastAttemptDecides(provider: Provider, judge: Judge, texts: seq<string>, calls: nat, left: nat, last: ErrorKind)
    requires left > 0
    ensures var r := Retry(provider, judge, texts, calls, left, last);
            && r.calls > calls
            && (r.tried.Stopped? ==> provider(r.calls - 1, texts) == Raised(Permanent))
            && (r.tried.Exhausted? ==>
                  && r.calls == calls + left && provider(r.calls - 1, texts) != Raised(Permanent)
                  && (r.tried.last == Transient <==> provider(r.calls - 1, texts) == Raised(Transient))
                  && r.tried.last != Permanent)
    decreases left
  {
    if left > 1 {
      match provider(calls, texts) {
        case Answer(answer) => LastAttemptDecides(provider, judge, texts, calls + 1, left - 1, Other);
        case Unusable => LastAttemptDecides(provider, judge, texts, calls + 1, left - 1, Other);
        case Raised(kind) => LastAttemptDecides(provider, judge, texts, calls + 1, left - 1, kind);
      }
    }
  }

  /** A run that does not succeed made its last call, number `last`, for texts of its own. It pauses
      when that call met a permanent error, or a transient one on a single text, and fails when
      it met neither on a single text. */
  ghost predicate EndedBy(provider: Provider, last: int, texts: seq<string>, outcome: Outcome) {
    last >= 0 && exists batch: seq<string> ::
      && batch != [] && (forall text <- batch :: text in texts)
      && match outcome
         case Translated(_) => false
         case Failed => |batch| == 1 && provider(last, batch) !in {Raised(Permanent), Raised(Transient)}
         case PausedForProvider =>
           provider(last, batch) == Raised(Permanent) || (|batch| == 1 && provider(last, batch) == Raised(Transient))
  }

  lemma WiderEndedBy(provider: Provider, last: int, texts: seq<string>, all: seq<string>, outcome: Outcome)
    requires EndedBy(provider, last, texts, outcome) && forall text <- texts :: text in all
    ensures EndedBy(provider, last, all, outcome)
  {
  }

  lemma {:induction false} LastCallDecides(provider: Provider, judge: Judge, texts: seq<string>, calls: nat)
    ensures var run := TranslationRun(provider, judge, texts, calls);
            !run.outcome.Translated? ==> run.calls > calls && EndedBy(provider, run.calls - 1, texts, run.outcome)
    decreases |texts|
  {
    hide EndedBy, TranslationRun, Retry;
    if texts == [] {
      NothingCostsNothing(provider, judge, calls);
    } else {
      var attempts := Retry(provider, judge, texts, calls, MAX_ATTEMPTS, Other);
      LastAttemptDecides(provider, judge, texts, calls, MAX_ATTEMPTS, Other);
      if attempts.tried.Exhausted? && |texts| > 1 {
        var midpoint := |texts| / 2;
        SplitRun(provider, judge, texts, calls);
        var left := TranslationRun(provider, judge, texts[..midpoint], attempts.calls);
        CallsAreBounded(provider, judge, texts[..midpoint], attempts.calls);
        LastCallDecides(provider, judge, texts[..midpoint], attempts.calls);
        if left.outcome.Translated? {
          var right := TranslationRun(provider, judge, texts[midpoint..], left.calls);
          LastCallDecides(provider, judge, texts[midpoint..], left.calls);
          if !right.outcome.Translated? {
            WiderEndedBy(provider, right.calls - 1, texts[midpoint..], texts, right.outcome);
          }
        } else {
          WiderEndedBy(provider, left.calls - 1, texts[..midpoint], texts, left.outcome);
        }
      } else {
        EndedHere(provider, judge, texts, calls);
      }
    }
  }

  lemma SplitRun(provider: Provider, judge: Judge, texts: seq<string>, calls: nat)
    requires |texts| > 1 && Retry(provider, judge, texts, calls, MAX_ATTEMPTS, Other).tried.Exhausted?
    ensures var tried := Retry(provider, judge, texts, calls, MAX_ATTEMPTS, Other);
            var left := TranslationRun(provider, judge, texts[..|texts| / 2], tried.calls);
            var right := TranslationRun(provider, judge, texts[|texts| / 2..], left.calls);
            TranslationRun(provider, judge, texts, calls)
            == if !left.outcome.Translated? then left
               else if !right.outcome.Translated? then right
               else Run(Translated(left.outcome.texts + right.outcome.texts), right.calls)
  {
    hide Retry;
  }

  lemma EndedHere(provider: Provider, judge: Judge, texts: seq<string>, calls: nat)
    requires texts != [] && (|texts| == 1 || !Retry(provider, judge, texts, calls, MAX_ATTEMPTS, Other).tried.Exhausted?)
    ensures var run := TranslationRun(provider, judge, texts, calls);
            !run.outcome.Translated? ==> run.calls > calls && EndedBy(provider, run.calls - 1, texts, run.outcome)
  {
    hide Retry;
    LastAttemptDecides(provider, judge, texts, calls, MAX_ATTEMPTS, Other);
    assert texts != [] && forall text <- texts :: text in texts;
  }

  /** A permanent error of the provider stops the run after that one call. */
  lemma PermanentErrorStopsTheRun(provider: Provider, judge: Judge, texts: seq<string>, calls: nat)
    requires texts != [] && provider(calls, texts) == Raised(Permanent)
    ensures TranslationRun(provider, judge, texts, calls) == Run(PausedForProvider, calls + 1)
  {
  }

  /** The first acceptable answer is the translation, and no further call is made. */
  lemma GoodAnswerIsTaken(provider: Provider, judge: Judge, texts: seq<string>, calls: nat, answer: seq<string>)
    requires texts != [] && provider(calls, texts) == Answer(answer) && AllAcceptable(judge, texts, answer)
    ensures TranslationRun(provider, judge, texts, calls) == Run(Translated(answer), calls + 1)
  {
  }

  /** The provider accepts single texts: among any three consecutive calls for one text, one is
      answered acceptably; and it never fails permanently. */
  ghost predicate HandlesSingles(provider: Provider, judge: Judge) {
    && (forall calls, texts :: provider(calls, texts) != Raised(Permanent))
    && (forall calls: nat, text ::
          AnswersOne(provider, judge, calls, text) || AnswersOne(provider, judge, calls + 1, text)
          || AnswersOne(provider, judge, calls + 2, text))
  }

  ghost predicate AnswersOne(provider: Provider, judge: Judge, calls: nat, text: string) {
    provider(calls, [text]).Answer? && AllAcceptable(judge, [text], provider(calls, [text]).texts)
  }

  /** Splitting makes that enough: every batch succeeds in the end, even when the provider
      spoils every batch of two or more. */
  lemma {:induction false} SinglesSuffice(provider: Provider, judge: Judge, texts: seq<string>, calls: nat)
    requires HandlesSingles(provider, judge)
    ensures TranslationRun(provider, judge, texts, calls).outcome.Translated?
    decreases |texts|
  {
    if texts != [] {
      var attempts := Retry(provider, judge, texts, calls, MAX_ATTEMPTS, Other);
      RetryNeverStops(provider, judge, texts, calls, MAX_ATTEMPTS, Other);
      if |texts| == 1 {
        SingleIsAnswered(provider, judge, texts[0], calls);
        assert texts == [texts[0]];
      } else if attempts.tried.Exhausted? {
        var midpoint := |texts| / 2;
        var left := TranslationRun(provider, judge, texts[..midpoint], attempts.calls);
        SinglesSuffice(provider, judge, texts[..midpoint], attempts.calls);
        SinglesSuffice(provider, judge, texts[midpoint..], left.calls);
      }
    }
  }

  lemma {:induction false} RetryNeverStops(provider: Provider, judge: Judge, texts: seq<string>, calls: nat, left: nat, last: ErrorKind)
    requires forall calls, texts :: provider(calls, texts) != Raised(Permanent)
    ensures !Retry(provider, judge, texts, calls, left, last).tried.Stopped?
    decreases left
  {
    if left > 0 {
      match provider(calls, texts) {
        case Answer(answer) => RetryNeverStops(provider, judge, texts, calls + 1, left - 1, Other);
        case Unusable => RetryNeverStops(provider, judge, texts, calls + 1, left - 1, Other);
        case Raised(kind) => RetryNeverStops(provider, judge, texts, calls + 1, left - 1, kind);
      }
    }
  }

  lemma SingleIsAnswered(provider: Provider, judge: Judge, text: string, calls: nat)
    requires HandlesSingles(provider, judge)
    ensures Retry(provider, judge, [text], calls, MAX_ATTEMPTS, Other).tried.Good?
  {
    assert AnswersOne(provider, judge, calls, text) || AnswersOne(provider, judge, calls + 1, text)
        || AnswersOne(provider, judge, calls + 2, text);
  }

  // ----- Translating a transcript in place -----

  /** What the stage does to one segment: one that needs translation gets an acceptable one and
      loses its now outdated audio, any other is left exactly as it was. */
  ghost predicate Settled(judge: Judge, before: Segment, after: Segment) {
    if NeedsTranslation(judge, before) then
      && after == before.(translation := after.translation, synthAudioUrl := "")
      && Acceptable(judge, after.text, after.translation)
    else after == before
  }

  lemma SettledNeedsNothing(judge: Judge, before: Segment, after: Segment)
    requires Settled(judge, before, after)
    ensures !NeedsTranslation(judge, after)
  {
  }

  function PendingCount(judge: Judge, segments: seq<Segment>, n: nat): (count: nat)
    requires n <= |segments|
  {
    if n == 0 then 0
    else PendingCount(judge, segments, n - 1) + if NeedsTranslation(judge, segments[n - 1]) then 1 else 0
  }

  lemma {:induction false} NoPendingMeansZero(judge: Judge, segments: seq<Segment>, n: nat)
    requires n <= |segments|
    ensures PendingCount(judge, segments, n) == 0 <==> forall i :: 0 <= i < n ==> !NeedsTranslation(judge, segments[i])
  {
    if n > 0 {
      NoPendingMeansZero(judge, segments, n - 1);
    }
  }

  /** After a successful run nothing is pending, so by `TranslateSegmentList` a second run makes no
      call and reports no change. */
  lemma {:induction false} SecondRunIsFree(judge: Judge, before: seq<Segment>, after: seq<Segment>)
    requires |before| == |after|
    requires forall i :: 0 <= i < |after| ==> Settled(judge, before[i], after[i])
    ensures PendingCount(judge, after, |after|) == 0
  {
    forall i | 0 <= i < |after| ensures !NeedsTranslation(judge, after[i]) {
      SettledNeedsNothing(judge, before[i], after[i]);
    }
    NoPendingMeansZero(judge, after, |after|);
  }

  datatype ListResult = Done(changed: bool) | ListPaused | ListFailed

  function OutcomeOf(result: ListResult): Outcome {
    match result
    case Done(_) => Translated([])
    case ListPaused => PausedForProvider
    case ListFailed => Failed
  }

  // ----- What a finished run of the stage leaves -----

  lemma PendingTextsAreTexts(segments: seq<Segment>, pending: seq<int>, originals: seq<string>)
    requires |originals| == |pending|
    requires forall k :: 0 <= k < |pending| ==> 0 <= pending[k] < |segments| && originals[k] == segments[pending[k]].text
    ensures forall text <- originals :: text in Texts(segments)
  {
    forall text | text in originals ensures text in Texts(segments) {
      var k :| 0 <= k < |originals| && originals[k] == text;
      assert Texts(segments)[pending[k]] == text;
    }
  }

  /** Settling changes no text. */
  lemma SettledTexts(judge: Judge, before: seq<Segment>, after: seq<Segment>, index: nat)
    requires index <= |before| == |after| && after[index..] == before[index..]
    requires forall i :: 0 <= i < index ==> Settled(judge, before[i], after[i])
    ensures Texts(after) == Texts(before)
  {
    forall i | 0 <= i < |after| ensures after[i].text == before[i].text {
      assert i >= index ==> after[index..][i - index] == before[index..][i - index];
    }
  }

  lemma SliceIsTheSame(before: seq<Segment>, middle: seq<Segment>, after: seq<Segment>, index: nat, end: nat)
    requires index <= end <= |before| == |middle| == |after|
    requires middle[index..] == before[index..] && after[..index] == middle[..index] && after[end..] == middle[end..]
    ensures after[end..] == before[end..]
    ensures forall i :: 0 <= i < index ==> after[i] == middle[i]
    ensures forall i :: index <= i < end ==> middle[i] == before[i]
  {
    assert before[end..] == before[index..][end - index..];
    assert middle[end..] == middle[index..][end - index..];
    forall i | 0 <= i < index ensures after[i] == middle[i] {
      assert after[..index][i] == middle[..index][i];
    }
    forall i | index <= i < end ensures middle[i] == before[i] {
      assert middle[index..][i - index] == before[index..][i - index];
    }
  }

  /** The part of a pipeline context the stage works on. */
  datatype Work = Work(segments: seq<Segment>, synthSegments: Option<seq<Synth>>, outputAudioUrl: string, invalidated: set<TaskStage>)

  const LATER_STAGES: set<TaskStage> := {Synthesizing, Aligning, Mixing}

  /** `_translations_are_complete` */
  predicate IsComplete(judge: Judge, segments: seq<Segment>) {
    segments != [] && forall i :: 0 <= i < |segments| ==> !NeedsTranslation(judge, segments[i])
  }

  /** Between different languages every segment is settled, and if any had to be, the clips and the
      output are gone and the later stages marked. Between equal languages the text becomes the
      translation and nothing is marked. */
  ghost predicate ProcessedTo(judge: Judge, before: Work, after: Work) {
    && |after.segments| == |before.segments|
    && if judge.sourceLanguage == judge.targetLanguage then
         && after == before.(segments := after.segments)
         && forall i :: 0 <= i < |after.segments| ==>
              after.segments[i] == before.segments[i].(translation := before.segments[i].text)
       else
         && (forall i :: 0 <= i < |after.segments| ==> Settled(judge, before.segments[i], after.segments[i]))
         && if exists i :: 0 <= i < |before.segments| && NeedsTranslation(judge, before.segments[i])
            then after == Work(after.segments, None, "", before.invalidated + LATER_STAGES)
            else after == before
  }

  /** The segment may stay as it is: text has a translation, and between different languages none that
      the judge suspects to be the original over again. */
  predicate IsFine(judge: Judge, segment: Segment) {
    && (Blank(segment.text) || !Blank(segment.translation))
    && (judge.sourceLanguage == judge.targetLanguage || Blank(segment.text) || Blank(segment.translation)
        || !judge.suspicious(segment.text, segment.translation))
  }

  /** After the stage all are fine; those that were before are untouched, and of the others only the
      translation is new and the audio gone. */
  ghost predicate MakesFine(judge: Judge, before: seq<Segment>, after: seq<Segment>) {
    && |after| == |before|
    && forall i :: 0 <= i < |after| ==>
         && IsFine(judge, after[i])
         && (judge.sourceLanguage != judge.targetLanguage && IsFine(judge, before[i]) ==> after[i] == before[i])
         && (judge.sourceLanguage != judge.targetLanguage && !IsFine(judge, before[i]) ==>
               after[i] == before[i].(translation := after[i].translation, synthAudioUrl := ""))
         && (judge.sourceLanguage == judge.targetLanguage ==> after[i] == before[i].(translation := before[i].text))
  }

  lemma FineNeedsNothing(judge: Judge, segment: Segment)
    ensures NeedsTranslation(judge, segment) <==> !IsFine(judge, segment)
  {
  }

  lemma ProcessedIsFine(judge: Judge, before: Work, after: Work)
    requires ProcessedTo(judge, before, after)
    ensures MakesFine(judge, before.segments, after.segments)
  {
    hide NeedsTranslation;
    forall i | 0 <= i < |after.segments|
      ensures NeedsTranslation(judge, before.segments[i]) <==> !IsFine(judge, before.segments[i])
      ensures IsFine(judge, after.segments[i])
    {
      FineNeedsNothing(judge, before.segments[i]);
      FineNeedsNothing(judge, after.segments[i]);
      if judge.sourceLanguage != judge.targetLanguage {
        SettledNeedsNothing(judge, before.segments[i], after.segments[i]);
      }
    }
  }

  function Translations(segments: seq<Segment>): seq<string> {
    seq(|segments|, i requires 0 <= i < |segments| => segments[i].translation)
  }

  function Texts(segments: seq<Segment>): seq<string> {
    seq(|segments|, i requires 0 <= i < |segments| => segments[i].text)
  }

  /** Between different languages a translation changes exactly when one was pending. */
  lemma PendingMeansChanged(judge: Judge, before: Work, after: Work)
    requires judge.sourceLanguage != judge.targetLanguage && ProcessedTo(judge, before, after)
    ensures Translations(after.segments) != Translations(before.segments)
       <==> exists i :: 0 <= i < |before.segments| && NeedsTranslation(judge, before.segments[i])
  {
    forall i | 0 <= i < |before.segments| && NeedsTranslation(judge, before.segments[i])
      ensures Translations(after.segments)[i] != Translations(before.segments)[i]
    {
      SettledNeedsNothing(judge, before.segments[i], after.segments[i]);
    }
  }

  /** Where the later stages are not marked already: new text marks them exactly when the languages
      differ; between equal languages it only stays harmless when every translation is its text. */
  lemma NewTextIsMarkedExactlyWhen(judge: Judge, before: Work, after: Work)
    requires ProcessedTo(judge, before, after) && !(LATER_STAGES <= before.invalidated)
    ensures (Translations(after.segments) != Translations(before.segments) ==> LATER_STAGES <= after.invalidated)
       <==> judge.sourceLanguage != judge.targetLanguage || Translations(before.segments) == Texts(before.segments)
  {
    if judge.sourceLanguage != judge.targetLanguage {
      PendingMeansChanged(judge, before, after);
    } else {
      assert Translations(after.segments) == Texts(before.segments);
    }
  }

  lemma NothingToProcess(judge: Judge, work: Work)
    requires work.segments == []
    ensures ProcessedTo(judge, work, work)
  {
  }

  /** Between equal languages: the text has become the translation. */
  lemma TextIsTaken(judge: Judge, before: Work, after: Work)
    requires judge.sourceLanguage == judge.targetLanguage && |after.segments| == |before.segments|
    requires after == before.(segments := after.segments)
    requires forall i :: 0 <= i < |after.segments| ==>
               after.segments[i] == before.segments[i].(translation := before.segments[i].text)
    ensures ProcessedTo(judge, before, after) && (after.segments != [] ==> IsComplete(judge, after.segments))
  {
  }

  /** Between different ones: the list has been settled. */
  lemma ListIsProcessed(judge: Judge, before: Work, after: Work)
    requires judge.sourceLanguage != judge.targetLanguage && |after.segments| == |before.segments|
    requires forall i :: 0 <= i < |after.segments| ==> Settled(judge, before.segments[i], after.segments[i])
    requires if exists i :: 0 <= i < |before.segments| && NeedsTranslation(judge, before.segments[i])
             then after == Work(after.segments, None, "", before.invalidated + LATER_STAGES)
             else after == before.(segments := after.segments)
    ensures ProcessedTo(judge, before, after) && (after.segments != [] ==> IsComplete(judge, after.segments))
  {
    hide NeedsTranslation;
    forall i | 0 <= i < |after.segments| ensures !NeedsTranslation(judge, after.segments[i]) {
      SettledNeedsNothing(judge, before.segments[i], after.segments[i]);
    }
    if !exists i :: 0 <= i < |before.segments| && NeedsTranslation(judge, before.segments[i]) {
      assert after.segments == before.segments;
    }
  }

  class TranslationStage {
    const client: TranslationClient
    const batchSize: int
    var segments: seq<Segment>
    var synthSegments: Option<seq<Synth>>
    var outputAudioUrl: string
    var invalidated: set<TaskStage>

    constructor (client: TranslationClient, batchSize: int, segments: seq<Segment>,
                 synthSegments: Option<seq<Synth>>, outputAudioUrl: string, invalidated: set<TaskStage>)
      ensures this.client == client && this.batchSize == batchSize && this.segments == segments
      ensures this.synthSegments == synthSegments && this.outputAudioUrl == outputAudioUrl && this.invalidated == invalidated
    {
      this.client, this.batchSize, this.segments := client, batchSize, segments;
      this.synthSegments, this.outputAudioUrl, this.invalidated := synthSegments, outputAudioUrl, invalidated;
    }

    /** Writes one translated batch back: exactly the pending segments change. */
    method WriteTranslations(pending: seq<int>, texts: seq<string>)
      requires |texts| == |pending|
      requires forall k :: 0 <= k < |pending| ==> 0 <= pending[k] < |segments|
      requires forall j, k :: 0 <= j < k < |pending| ==> pending[j] < pending[k]
      modifies this`segments
      ensures |segments| == |old(segments)|
      ensures forall i :: 0 <= i < |segments| && i !in pending ==> segments[i] == old(segments)[i]
      ensures forall k :: 0 <= k < |pending| ==>
                segments[pending[k]] == old(segments)[pending[k]].(translation := texts[k], synthAudioUrl := "")
    {
      ghost var before := segments;
      for k := 0 to |pending|
        invariant |segments| == |before|
        invariant forall i :: 0 <= i < |segments| && i !in pending[..k] ==> segments[i] == before[i]
        invariant forall m :: 0 <= m < k ==>
          segments[pending[m]] == before[pending[m]].(translation := texts[m], synthAudioUrl := "")
      {
        var position := pending[k];
        assert position !in pending[..k];
        segments := segments[position := segments[position].(translation := texts[k], synthAudioUrl := "")];
        assert pending[..k + 1] == pending[..k] + [position];
      }
      assert pending[..|pending|] == pending;
    }

    /** One batch: the pending segments among those from `index` up to `end`. */
    method TranslateSlice(judge: Judge, index: nat, end: nat) returns (result: ListResult)
      requires index <= end <= |segments|
      modifies this`segments, client`calls
      ensures |segments| == |old(segments)| && segments[..index] == old(segments)[..index] && segments[end..] == old(segments)[end..]
      ensures result.Done? ==> forall i :: index <= i < end ==> Settled(judge, old(segments)[i], segments[i])
      ensures !result.Done? ==> segments == old(segments)
      ensures var pending := PendingCount(judge, old(segments), end) - PendingCount(judge, old(segments), index);
              && (result.Done? ==> (result.changed <==> pending > 0))
              && old(client.calls) <= client.calls <= old(client.calls) + 6 * pending
              && (pending == 0 ==> result == Done(false))
      ensures !result.Done? ==> EndedBy(client.provider, client.calls - 1, Texts(old(segments)), OutcomeOf(result))
    {
      hide EndedBy, LooksUntranslated, PendingCount;
      ghost var before := segments;
      var pending, originals := PendingIn(judge, segments, index, end);
      // A pending segment has text, so "no pending text" and "nothing pending" are the same test.
      if |pending| == 0 {
        return Done(false);
      }
      var outcome := client.TranslateBatch(judge, originals);
      if !outcome.Translated? {
        PendingTextsAreTexts(before, pending, originals);
        WiderEndedBy(client.provider, client.calls - 1, originals, Texts(before), outcome);
        return if outcome.Failed? then ListFailed else ListPaused;
      }
      WriteTranslations(pending, outcome.texts);
      forall i | index <= i < end ensures Settled(judge, before[i], segments[i]) {
        if i in pending {
          var m :| 0 <= m < |pending| && pending[m] == i;
          assert Acceptable(judge, originals[m], outcome.texts[m]);
        }
      }
      result := Done(true);
    }

    /** On success every segment is settled; when the provider stops the run, each segment is
        either settled or untouched, so nothing already bought is lost. A transcript in which
        nothing needs translation costs no call and is not changed. */
    method TranslateSegmentList(judge: Judge) returns (result: ListResult)
      modifies this`segments, client`calls
      ensures |segments| == |old(segments)|
      ensures result.Done? ==> forall i :: 0 <= i < |segments| ==> Settled(judge, old(segments)[i], segments[i])
      ensures !result.Done? ==> forall i :: 0 <= i < |segments| ==>
                segments[i] == old(segments)[i] || Settled(judge, old(segments)[i], segments[i])
      ensures result.Done? ==> (result.changed <==> PendingCount(judge, old(segments), |segments|) > 0)
      ensures old(client.calls) <= client.calls <= old(client.calls) + 6 * PendingCount(judge, old(segments), |segments|)
      ensures PendingCount(judge, old(segments), |segments|) == 0 ==> result == Done(false)
      ensures !result.Done? ==> EndedBy(client.provider, client.calls - 1, Texts(old(segments)), OutcomeOf(result))
    {
      hide EndedBy, Settled;
      ghost var before := segments;
      var size := MaxInt(1, batchSize);
      var changed := false;
      var index := 0;
      SettledTexts(judge, before, segments, 0);
      while index < |segments|
        invariant 0 <= index <= |segments| == |before|
        invariant forall i :: 0 <= i < index ==> Settled(judge, before[i], segments[i])
        invariant segments[index..] == before[index..]
        invariant changed <==> PendingCount(judge, before, index) > 0
        invariant old(client.calls) <= client.calls <= old(client.calls) + 6 * PendingCount(judge, before, index)
      {
        var end := MinInt(index + size, |segments|);
        ghost var middle := segments;
        PendingCountGrows(judge, before, index, end);
        PendingCountSame(judge, before, segments, index, end);
        PendingCountGrows(judge, before, end, |before|);
        SettledTexts(judge, before, segments, index);
        var slice := TranslateSlice(judge, index, end);
        if !slice.Done? {
          return slice;
        }
        SliceIsTheSame(before, middle, segments, index, end);
        changed := changed || slice.changed;
        index := end;
      }
      result := Done(changed);
    }

    ghost function Now(): Work
      reads this
    {
      Work(segments, synthSegments, outputAudioUrl, invalidated)
    }

    /** A finished run leaves what `ProcessedTo` says; one that is stopped has settled segments or
        left them alone, and touches nothing else. Equal languages cost no call. */
    method Process(judge: Judge) returns (result: ListResult)
      modifies this, client`calls
      ensures result.Done? ==> ProcessedTo(judge, old(Now()), Now()) && MakesFine(judge, old(segments), segments)
      ensures result.Done? ==>
                (result.changed <==> judge.sourceLanguage != judge.targetLanguage
                                     && exists i :: 0 <= i < |old(segments)| && NeedsTranslation(judge, old(segments)[i]))
      ensures judge.sourceLanguage == judge.targetLanguage ==> result.Done? && client.calls == old(client.calls)
      ensures result.Done? && segments != [] ==> IsComplete(judge, segments)
      ensures !result.Done? ==> EndedBy(client.provider, client.calls - 1, Texts(old(segments)), OutcomeOf(result))
      ensures !result.Done? ==>
                && Now() == old(Now()).(segments := segments) && |segments| == |old(segments)|
                && forall i :: 0 <= i < |segments| ==>
                     segments[i] == old(segments)[i] || Settled(judge, old(segments)[i], segments[i])
    {
      hide EndedBy, IsComplete, ProcessedTo, MakesFine, Settled, NeedsTranslation, PendingCount;
      ghost var start := Now();
      if segments == [] {
        NothingToProcess(judge, Now());
        ProcessedIsFine(judge, start, Now());
        return Done(false);
      }
      if judge.sourceLanguage == judge.targetLanguage {
        ghost var before := segments;
        for i := 0 to |segments|
          modifies this`segments
          invariant |segments| == |before|
          invariant forall j :: 0 <= j < i ==> segments[j] == before[j].(translation := before[j].text)
          invariant segments[i..] == before[i..]
        {
          segments := segments[i := segments[i].(translation := segments[i].text)];
        }
        TextIsTaken(judge, start, Now());
        ProcessedIsFine(judge, start, Now());
        return Done(false);
      }
      NoPendingMeansZero(judge, segments, |segments|);
      result := TranslateSegmentList(judge);
      if result == Done(true) {
        synthSegments := None;
        outputAudioUrl := "";
        invalidated := invalidated + {Synthesizing, Aligning, Mixing};
      }
      if result.Done? {
        ListIsProcessed(judge, start, Now());
        ProcessedIsFine(judge, start, Now());
      }
    }

    /** The overlap path: only missing translations are filled between equal languages, and
        nothing outside the segments changes. */
    method TranslateSegments(judge: Judge) returns (result: ListResult)
      modifies this`segments, client`calls
      ensures |segments| == |old(segments)|
      ensures judge.sourceLanguage != judge.targetLanguage && result.Done? ==>
                forall i :: 0 <= i < |segments| ==> Settled(judge, old(segments)[i], segments[i])
      ensures judge.sourceLanguage == judge.targetLanguage ==>
                && result == Done(exists i :: 0 <= i < |segments| && Blank(old(segments)[i].translation))
                && client.calls == old(client.calls)
                && forall i :: 0 <= i < |segments| ==>
                     segments[i] == if Blank(old(segments)[i].translation)
                                    then old(segments)[i].(translation := old(segments)[i].text) else old(segments)[i]
      ensures result.Done? && segments != [] ==> IsComplete(judge, segments)
      ensures !result.Done? ==> EndedBy(client.provider, client.calls - 1, Texts(old(segments)), OutcomeOf(result))
    {
      hide EndedBy, PendingCount;
      if segments == [] {
        return Done(false);
      }
      if judge.sourceLanguage == judge.targetLanguage {
        ghost var before := segments;
        var changed := false;
        for i := 0 to |segments|
          modifies this`segments
          invariant |segments| == |before|
          invariant forall j :: 0 <= j < i ==>
            segments[j] == if Blank(before[j].translation) then before[j].(translation := before[j].text) else before[j]
          invariant segments[i..] == before[i..]
          invariant changed <==> exists j :: 0 <= j < i && Blank(before[j].translation)
        {
          if Blank(segments[i].translation) {
            assert Blank(before[i].translation);
            segments := segments[i := segments[i].(translation := segments[i].text)];
            changed := true;
          }
        }
        return Done(changed);
      }
      result := TranslateSegmentList(judge);
    }
  }

  method PendingIn(judge: Judge, segments: seq<Segment>, start: nat, end: nat) returns (pending: seq<int>, originals: seq<string>)
    requires start <= end <= |segments|
    ensures |originals| == |pending| == PendingCount(judge, segments, end) - PendingCount(judge, segments, start)
    ensures forall k :: 0 <= k < |pending| ==>
              start <= pending[k] < end && NeedsTranslation(judge, segments[pending[k]]) && originals[k] == segments[pending[k]].text
    ensures forall j, k :: 0 <= j < k < |pending| ==> pending[j] < pending[k]
    ensures forall i :: start <= i < end && NeedsTranslation(judge, segments[i]) ==> i in pending
  {
    pending, originals := [], [];
    for i := start to end
      invariant |originals| == |pending| == PendingCount(judge, segments, i) - PendingCount(judge, segments, start)
      invariant forall k :: 0 <= k < |pending| ==>
        start <= pending[k] < i && NeedsTranslation(judge, segments[pending[k]]) && originals[k] == segments[pending[k]].text
      invariant forall j, k :: 0 <= j < k < |pending| ==> pending[j] < pending[k]
      invariant forall j :: start <= j < i && NeedsTranslation(judge, segments[j]) ==> j in pending
    {
      if NeedsTranslation(judge, segments[i]) {
        pending, originals := pending + [i], originals + [segments[i].text];
      }
    }
  }

  lemma {:induction false} PendingCountGrows(judge: Judge, segments: seq<Segment>, m: nat, n: nat)
    requires m <= n <= |segments|
    ensures PendingCount(judge, segments, m) <= PendingCount(judge, segments, n)
    decreases n
  {
    if m < n {
      PendingCountGrows(judge, segments, m, n - 1);
    }
  }

  lemma {:induction false} PendingCountSame(judge: Judge, before: seq<Segment>, after: seq<Segment>, m: nat, n: nat)
    requires m <= n <= |before| == |after| && before[m..] == after[m..]
    ensures PendingCount(judge, before, n) - PendingCount(judge, before, m)
         == PendingCount(judge, after, n) - PendingCount(judge, after, m)
    decreases n
  {
    if m < n {
      PendingCountSame(judge, before, after, m, n - 1);
      assert before[m..][n - 1 - m] == after[m..][n - 1 - m];
    }
  }
}
