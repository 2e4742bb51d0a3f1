/** Reconciling the speakers of separately diarized chunks into one cast of global speakers. */
module SpeakerIdentity {
  import opened Numeric
  import opened PipelineTypes

  const MAX_INTERNAL_SPEAKERS := 4
  const EMBEDDING_THRESHOLD := 0.75
  const PITCH_TOLERANCE := 35.0

  /** An absent gender or URL is the empty string, an absent embedding the empty sequence. */
  datatype LocalSpeaker = LocalSpeaker(
    id: string, alias: string, gender: string, pitch: Option<real>, embedding: seq<real>, refAudioUrl: string)

  datatype GlobalSpeaker = GlobalSpeaker(
    id: string, alias: string, gender: string, pitch: Option<real>, embedding: seq<real>, embeddingCount: int,
    refAudioUrl: string)

  // ----- The speaker cap -----

  /** `None` in: the setting is not a number. `None` out: the setting is rejected. */
  function SpeakerCountBounds(count: Option<int>, relaxMin: bool): Option<(int, int)> {
    if count == None then None
    else if count.value <= 0 then Some((1, MAX_INTERNAL_SPEAKERS))
    else if count.value > MAX_INTERNAL_SPEAKERS then None
    else Some((if relaxMin then 1 else count.value, count.value))
  }

  function GlobalSpeakerCap(count: Option<int>): (cap: int)
    ensures 1 <= cap <= MAX_INTERNAL_SPEAKERS
    ensures count.Some? && cap != count.value ==> cap == MAX_INTERNAL_SPEAKERS
    ensures count.Some? && 1 <= count.value <= MAX_INTERNAL_SPEAKERS ==> cap == count.value
  {
    match SpeakerCountBounds(count, false)
    case None => MAX_INTERNAL_SPEAKERS
    case Some(bounds) => MaxInt(1, bounds.1)
  }

  // ----- Speaker ids -----

  function SpeakerId(k: nat): (id: string)
    ensures |id| >= 10 && id[..8] == "SPEAKER_" && (k < 100 ==> |id| == 10)
  {
    "SPEAKER_" + (if k < 10 then "0" else "") + Decimal(k)
  }

  lemma SpeakerIdIsInjective(a: nat, b: nat)
    requires SpeakerId(a) == SpeakerId(b)
    ensures a == b
  {
    assert SpeakerId(a)[8..] == (if a < 10 then "0" else "") + Decimal(a);
    assert SpeakerId(b)[8..] == (if b < 10 then "0" else "") + Decimal(b);
    if a < 10 && b < 10 {
      assert SpeakerId(a)[9..] == Decimal(a);
      assert SpeakerId(b)[9..] == Decimal(b);
      DecimalIsInjective(a, b);
    } else if a >= 10 && b >= 10 {
      DecimalIsInjective(a, b);
    }
  }

  // ----- Voice prints -----

  /** The square root, left open except for its sign. */
  type Root = f: real -> real | forall x :: x > 0.0 ==> f(x) > 0.0 ghost witness x => 1.0

  function Product(x: real, y: real): real {
    x * y
  }

  function Ratio(x: real, y: real): real
    requires y != 0.0
  {
    x / y
  }

  function Dot(left: seq<real>, right: seq<real>, n: nat): real
    requires n <= |left| && n <= |right|
  {
    if n == 0 then 0.0 else Dot(left, right, n - 1) + Product(left[n - 1], right[n - 1])
  }

  function Similarity(root: Root, left: seq<real>, right: seq<real>): Option<real> {
    if left == [] || right == [] || |left| != |right| then None
    else
      var leftNorm, rightNorm := Dot(left, left, |left|), Dot(right, right, |right|);
      if leftNorm <= 0.0 || rightNorm <= 0.0 then None
      else Some(Cosine(root, Dot(left, right, |left|), leftNorm, rightNorm))
  }

  function Cosine(root: Root, dot: real, leftNorm: real, rightNorm: real): real
    requires leftNorm > 0.0 && rightNorm > 0.0
  {
    Ratio(dot, root(Product(leftNorm, rightNorm)))
  }

  /** The similarity times the lengths of both prints is their inner product. */
  lemma SimilarityIsCosine(root: Root, left: seq<real>, right: seq<real>)
    ensures Similarity(root, left, right).Some? ==>
              Product(Similarity(root, left, right).value, root(Product(Dot(left, left, |left|), Dot(right, right, |right|))))
              == Dot(left, right, |left|)
  {
    hide Product, Ratio, Dot;
    if Similarity(root, left, right).Some? {
      var lengths := root(Product(Dot(left, left, |left|), Dot(right, right, |right|)));
      PositiveProduct(Dot(left, left, |left|), Dot(right, right, |right|));
      RatioTimes(Dot(left, right, |left|), lengths);
    }
  }

  /** The inner product with a print that is one in a single place is the other print there. */
  lemma {:induction false} DotPicksOut(left: seq<real>, right: seq<real>, i: nat, n: nat)
    requires n <= |left| == |right| && i < |left|
    requires forall k :: 0 <= k < |right| ==> right[k] == if k == i then 1.0 else 0.0
    ensures Dot(left, right, n) == if i < n then left[i] else 0.0
  {
    if n > 0 {
      DotPicksOut(left, right, i, n - 1);
    }
  }

  /** It is additive: prints can be taken apart. */
  lemma {:induction false} DotAdds(left: seq<real>, right: seq<real>, more: seq<real>, sum: seq<real>, n: nat)
    requires n <= |left| == |right| == |more| == |sum| && forall k :: 0 <= k < |sum| ==> sum[k] == right[k] + more[k]
    ensures Dot(left, sum, n) == Dot(left, right, n) + Dot(left, more, n)
  {
    if n > 0 {
      DotAdds(left, right, more, sum, n - 1);
      assert Product(left[n - 1], right[n - 1] + more[n - 1]) == Product(left[n - 1], right[n - 1]) + Product(left[n - 1], more[n - 1]);
    }
  }

  method EmbeddingSimilarity(root: Root, left: seq<real>, right: seq<real>) returns (similarity: Option<real>)
    ensures similarity == Similarity(root, left, right)
    ensures similarity.Some? <==>
              left != [] && |left| == |right| && Dot(left, left, |left|) > 0.0 && Dot(right, right, |right|) > 0.0
    ensures similarity.Some? ==>
              Product(similarity.value, root(Product(Dot(left, left, |left|), Dot(right, right, |right|)))) == Dot(left, right, |left|)
  {
    hide Product, Cosine;
    SimilarityIsCosine(root, left, right);
    if left == [] || right == [] || |left| != |right| {
      return None;
    }
    var dot, leftNorm, rightNorm := 0.0, 0.0, 0.0;
    for i := 0 to |left|
      invariant dot == Dot(left, right, i) && leftNorm == Dot(left, left, i) && rightNorm == Dot(right, right, i)
    {
      dot, leftNorm, rightNorm := 
        dot + Product(left[i], right[i]), leftNorm + Product(left[i], left[i]), rightNorm + Product(right[i], right[i]);
    }
    if leftNorm <= 0.0 || rightNorm <= 0.0 {
      return None;
    }
    similarity := Some(Cosine(root, dot, leftNorm, rightNorm));
  }

  /** The mean of `count` voice prints averaging `old` and one more. */
  function WeightedMean(average: seq<real>, count: int, next: seq<real>): (mean: seq<real>)
    requires |average| == |next| && count > 0
    ensures |mean| == |next|
  {
    seq(|next|, i requires 0 <= i < |next| => Ratio(Product(average[i], count as real) + next[i], (count + 1) as real))
  }

  function Scaled(xs: seq<real>, norm: real): (scaled: seq<real>)
    requires norm != 0.0
    ensures |scaled| == |xs|
  {
    seq(|xs|, i requires 0 <= i < |xs| => Ratio(xs[i], norm))
  }

  /** The running centroid of the voice prints seen for one speaker. */
  function Accumulate(root: Root, speaker: GlobalSpeaker, embedding: seq<real>): GlobalSpeaker {
    var count := speaker.embeddingCount;
    if speaker.embedding == [] || count <= 0 || |speaker.embedding| != |embedding| then
      speaker.(embedding := embedding, embeddingCount := 1)
    else
      var mean := WeightedMean(speaker.embedding, count, embedding);
      var length := root(Dot(mean, mean, |mean|));
      speaker.(embedding := Scaled(mean, if length == 0.0 then 1.0 else length), embeddingCount := count + 1)
  }

  lemma RatioTimes(x: real, y: real)
    requires y != 0.0
    ensures Product(Ratio(x, y), y) == x
  {
  }

  lemma ScaledSquare(x: real, y: real, factor: real)
    requires Product(y, factor) == x
    ensures Product(Product(y, y), Product(factor, factor)) == Product(x, x)
  {
    assert y * y * (factor * factor) == (y * factor) * (y * factor);
  }

  lemma ProductDistributes(x: real, y: real, factor: real)
    ensures Product(x + y, factor) == Product(x, factor) + Product(y, factor)
  {
  }

  lemma {:induction false} DotScales(xs: seq<real>, ys: seq<real>, factor: real, n: nat)
    requires n <= |xs| == |ys| && forall i :: 0 <= i < n ==> Product(ys[i], factor) == xs[i]
    ensures Product(Dot(ys, ys, n), Product(factor, factor)) == Dot(xs, xs, n)
  {
    if n == 0 {
      ZeroTimes(Product(factor, factor));
    } else {
      hide Product;
      DotScales(xs, ys, factor, n - 1);
      ScaledSquare(xs[n - 1], ys[n - 1], factor);
      ProductDistributes(Dot(ys, ys, n - 1), Product(ys[n - 1], ys[n - 1]), Product(factor, factor));
    }
  }

  lemma ZeroTimes(factor: real)
    ensures Product(0.0, factor) == 0.0
  {
  }

  lemma OneTimes(x: real, y: real)
    requires Product(x, y) == y && y != 0.0
    ensures x == 1.0
  {
    assert (x - 1.0) * y == 0.0;
  }

  /** The mean gives the earlier prints the weight of all they stand for, */
  lemma MeanIsWeighted(average: seq<real>, count: int, next: seq<real>, i: nat)
    requires |average| == |next| && count > 0 && i < |next|
    ensures Product(WeightedMean(average, count, next)[i], (count + 1) as real) == Product(average[i], count as real) + next[i]
  {
    hide Product, Ratio;
    RatioTimes(Product(average[i], count as real) + next[i], (count + 1) as real);
  }

  /** and is scaled to length one: prints stay comparable however many were averaged. */
  lemma ScaledToLengthOne(xs: seq<real>, norm: real)
    requires norm != 0.0 && Product(norm, norm) == Dot(xs, xs, |xs|)
    ensures Dot(Scaled(xs, norm), Scaled(xs, norm), |xs|) == 1.0
  {
    hide Product, Ratio, Dot;
    var ys := Scaled(xs, norm);
    forall i | 0 <= i < |xs| ensures Product(ys[i], norm) == xs[i] {
      RatioTimes(xs[i], norm);
    }
    DotScales(xs, ys, norm, |xs|);
    SquareIsPositive(norm);
    OneTimes(Dot(ys, ys, |xs|), Product(norm, norm));
  }

  lemma PositiveProduct(x: real, y: real)
    requires x > 0.0 && y > 0.0
    ensures Product(x, y) > 0.0
  {
  }

  lemma SignDropsOut(x: real)
    ensures Product(-x, -x) == Product(x, x)
  {
  }

  lemma SquareIsPositive(x: real)
    requires x != 0.0
    ensures Product(x, x) > 0.0
  {
    hide Product;
    if x > 0.0 {
      PositiveProduct(x, x);
    } else {
      PositiveProduct(-x, -x);
      SignDropsOut(x);
    }
  }

  lemma SimilarToItself(root: Root, voice: seq<real>)
    requires voice != []
    requires var squares := Dot(voice, voice, |voice|); squares > 0.0 && root(Product(squares, squares)) == squares
    ensures Similarity(root, voice, voice) == Some(1.0)
  {
    hide Dot, Cosine, Product;
    CosineOfItself(root, Dot(voice, voice, |voice|));
  }

  lemma CosineOfItself(root: Root, squares: real)
    requires squares > 0.0 && root(Product(squares, squares)) == squares
    ensures Cosine(root, squares, squares, squares) == 1.0
  {
    hide Product, Ratio;
    PositiveProduct(squares, squares);
    RatioOfItself(squares);
  }

  lemma RatioOfItself(x: real)
    requires x != 0.0
    ensures Ratio(x, x) == 1.0
  {
  }

  function Merge(root: Root, speaker: GlobalSpeaker, local: LocalSpeaker): GlobalSpeaker {
    var named := speaker.(refAudioUrl := Or(speaker.refAudioUrl, local.refAudioUrl));
    if local.embedding != [] then Accumulate(root, named, local.embedding) else named
  }

  // ----- Finding a match -----

  /** How well a speaker fits a voice print; `None` rules the speaker out. */
  function VoiceScore(root: Root, speaker: GlobalSpeaker, local: LocalSpeaker, excluded: set<string>): Option<real> {
    if speaker.id in excluded then None
    else
      match Similarity(root, local.embedding, speaker.embedding)
      case None => None
      case Some(similarity) => if similarity >= EMBEDDING_THRESHOLD then Some(similarity) else None
  }

  predicate Compatible(speaker: GlobalSpeaker, local: LocalSpeaker, excluded: set<string>) {
    && speaker.id !in excluded
    && (local.gender == "" || speaker.gender == "" || local.gender == speaker.gender)
  }

  predicate PitchUnknown(speaker: GlobalSpeaker, local: LocalSpeaker) {
    local.pitch == None || speaker.pitch == None
  }

  /** Nearer pitch is a better score; `None` rules the speaker out as a pitch match. */
  function PitchScore(speaker: GlobalSpeaker, local: LocalSpeaker, excluded: set<string>): Option<real> {
    if !Compatible(speaker, local, excluded) || PitchUnknown(speaker, local) then None
    else
      var distance := Abs(speaker.pitch.value - local.pitch.value);
      if distance <= PITCH_TOLERANCE then Some(-distance) else None
  }

  /** `best` is the first of the highest of the first n scores. */
  ghost predicate IsFirstBest(scores: seq<Option<real>>, n: int, best: int) {
    && 0 <= best < n <= |scores| && scores[best].Some?
    && (forall i :: 0 <= i < n && scores[i].Some? ==> scores[i].value <= scores[best].value)
    && (forall i :: 0 <= i < best && scores[i].Some? ==> scores[i].value < scores[best].value)
  }

  ghost function VoiceScores(root: Root, speakers: seq<GlobalSpeaker>, local: LocalSpeaker, excluded: set<string>): (scores: seq<Option<real>>)
    ensures |scores| == |speakers|
    ensures forall i :: 0 <= i < |speakers| ==> scores[i] == VoiceScore(root, speakers[i], local, excluded)
  {
    seq(|speakers|, i requires 0 <= i < |speakers| => VoiceScore(root, speakers[i], local, excluded))
  }

  ghost function PitchScores(speakers: seq<GlobalSpeaker>, local: LocalSpeaker, excluded: set<string>): (scores: seq<Option<real>>)
    ensures |scores| == |speakers|
    ensures forall i :: 0 <= i < |speakers| ==> scores[i] == PitchScore(speakers[i], local, excluded)
  {
    seq(|speakers|, i requires 0 <= i < |speakers| => PitchScore(speakers[i], local, excluded))
  }

  ghost predicate IsFirstUnknown(speakers: seq<GlobalSpeaker>, local: LocalSpeaker, excluded: set<string>, first: int) {
    && 0 <= first < |speakers| && Compatible(speakers[first], local, excluded) && PitchUnknown(speakers[first], local)
    && forall i :: 0 <= i < first && Compatible(speakers[i], local, excluded) ==> !PitchUnknown(speakers[i], local)
  }

  /** A voice print is matched by voice alone. Without one, the nearest pitch of a compatible
      gender is taken, or else the first compatible speaker whose pitch cannot be compared. */
  ghost predicate IsMatch(root: Root, speakers: seq<GlobalSpeaker>, local: LocalSpeaker, excluded: set<string>, found: int) {
    if local.embedding != [] then IsFirstBest(VoiceScores(root, speakers, local, excluded), |speakers|, found)
    else
      var scores := PitchScores(speakers, local, excluded);
      if exists i :: 0 <= i < |scores| && scores[i].Some? then IsFirstBest(scores, |scores|, found)
      else IsFirstUnknown(speakers, local, excluded, found)
  }

  /** The match as a value: determined by `IsMatch`, as `MatchIsUnique` shows. */
  ghost function FindMatch(root: Root, speakers: seq<GlobalSpeaker>, local: LocalSpeaker, excluded: set<string>): (found: Option<int>)
    ensures found.Some? ==> IsMatch(root, speakers, local, excluded, found.value) && 0 <= found.value < |speakers|
    ensures found.Some? ==> speakers[found.value].id !in excluded
    ensures found == None ==> forall i :: !IsMatch(root, speakers, local, excluded, i)
  {
    if i :| IsMatch(root, speakers, local, excluded, i) then Some(i) else None
  }

  lemma MatchIsUnique(root: Root, speakers: seq<GlobalSpeaker>, local: LocalSpeaker, excluded: set<string>, i: int, j: int)
    requires IsMatch(root, speakers, local, excluded, i) && IsMatch(root, speakers, local, excluded, j)
    ensures i == j
  {
  }

  /** What a left-to-right search for the first best score knows after n of them. */
  ghost predicate BestSoFar(scores: seq<Option<real>>, n: nat, best: Option<int>)
    requires n <= |scores|
  {
    match best
    case None => forall i :: 0 <= i < n ==> scores[i] == None
    case Some(b) => IsFirstBest(scores, n, b)
  }

  function BetterOf(scores: seq<Option<real>>, best: Option<int>, i: int): Option<int>
    requires 0 <= i < |scores| && (best.Some? ==> 0 <= best.value < |scores| && scores[best.value].Some?)
  {
    if scores[i].Some? && (best == None || scores[i].value > scores[best.value].value) then Some(i) else best
  }

  lemma SearchAdvances(scores: seq<Option<real>>, n: nat, best: Option<int>)
    requires n < |scores| && BestSoFar(scores, n, best)
    ensures BestSoFar(scores, n + 1, BetterOf(scores, best, n))
  {
  }

  method ScoreVoice(root: Root, speaker: GlobalSpeaker, local: LocalSpeaker, excluded: set<string>) returns (score: Option<real>)
    ensures score == VoiceScore(root, speaker, local, excluded)
  {
    if speaker.id in excluded {
      return None;
    }
    score := EmbeddingSimilarity(root, local.embedding, speaker.embedding);
    if score.Some? && score.value < EMBEDDING_THRESHOLD {
      return None;
    }
  }

  method FindMatchingByVoice(root: Root, speakers: seq<GlobalSpeaker>, local: LocalSpeaker, excluded: set<string>)
    returns (found: Option<int>)
    requires local.embedding != []
    ensures found == FindMatch(root, speakers, local, excluded)
  {
    hide VoiceScore, VoiceScores, BestSoFar, IsMatch, FindMatch;
    ghost var scores := VoiceScores(root, speakers, local, excluded);
    found := None;
    var bestSimilarity := 0.0;
    NothingFoundYet(scores);
    for i := 0 to |speakers|
      invariant found.Some? ==> 0 <= found.value < i && scores[found.value] == Some(bestSimilarity)
      invariant BestSoFar(scores, i, found)
    {
      SearchAdvances(scores, i, found);
      var similarity := ScoreVoice(root, speakers[i], local, excluded);
      if similarity.Some? && (found == None || similarity.value > bestSimilarity) {
        found, bestSimilarity := Some(i), similarity.value;
      }
    }
    VoiceSearchIsDone(root, speakers, local, excluded, found);
  }

  lemma NothingFoundYet(scores: seq<Option<real>>)
    ensures BestSoFar(scores, 0, None)
  {
  }

  lemma VoiceSearchIsDone(root: Root, speakers: seq<GlobalSpeaker>, local: LocalSpeaker, excluded: set<string>, found: Option<int>)
    requires local.embedding != [] && BestSoFar(VoiceScores(root, speakers, local, excluded), |speakers|, found)
    ensures found == FindMatch(root, speakers, local, excluded)
  {
    hide VoiceScores;
    if found.Some? {
      MatchIsFound(root, speakers, local, excluded, found.value);
    }
  }

  /** What the pitch search knows after n speakers: the nearest pitch so far, or failing that the
      first speaker whose pitch cannot be compared. */
  ghost predicate PitchSoFar(speakers: seq<GlobalSpeaker>, local: LocalSpeaker, excluded: set<string>, n: nat,
                             found: Option<int>, bestDistance: Option<real>)
    requires n <= |speakers|
  {
    var scores := PitchScores(speakers, local, excluded);
    match bestDistance
    case Some(distance) =>
      found.Some? && IsFirstBest(scores, n, found.value) && scores[found.value] == Some(-distance)
    case None =>
      && (forall j :: 0 <= j < n ==> scores[j] == None)
      && match found
         case Some(first) => first < n && IsFirstUnknown(speakers, local, excluded, first)
         case None => forall j :: 0 <= j < n && Compatible(speakers[j], local, excluded) ==> !PitchUnknown(speakers[j], local)
  }

  method FindMatchingByPitch(root: Root, speakers: seq<GlobalSpeaker>, local: LocalSpeaker, excluded: set<string>)
    returns (found: Option<int>)
    requires local.embedding == []
    ensures found == FindMatch(root, speakers, local, excluded)
  {
    hide IsMatch, FindMatch, Compatible, PitchUnknown, PitchScore, PitchSoFar;
    found := None;
    var bestDistance: Option<real> := None;
    PitchSearchStarts(speakers, local, excluded);
    for i := 0 to |speakers|
      invariant PitchSoFar(speakers, local, excluded, i, found, bestDistance)
    {
      PitchSearchAdvances(speakers, local, excluded, i, found, bestDistance);
      var speaker := speakers[i];
      match PitchScore(speaker, local, excluded) {
        case Some(score) =>
          if bestDistance == None || -score < bestDistance.value {
            found, bestDistance := Some(i), Some(-score);
          }
        case None =>
          if found == None && Compatible(speaker, local, excluded) && PitchUnknown(speaker, local) {
            found := Some(i);
          }
      }
    }
    PitchSearchIsDone(root, speakers, local, excluded, found, bestDistance);
  }

  lemma PitchSearchStarts(speakers: seq<GlobalSpeaker>, local: LocalSpeaker, excluded: set<string>)
    ensures PitchSoFar(speakers, local, excluded, 0, None, None)
  {
  }

  lemma PitchSearchAdvances(speakers: seq<GlobalSpeaker>, local: LocalSpeaker, excluded: set<string>, n: nat,
                            found: Option<int>, bestDistance: Option<real>)
    requires n < |speakers| && PitchSoFar(speakers, local, excluded, n, found, bestDistance)
    ensures match PitchScore(speakers[n], local, excluded)
            case Some(score) =>
              if bestDistance == None || -score < bestDistance.value
              then PitchSoFar(speakers, local, excluded, n + 1, Some(n), Some(-score))
              else PitchSoFar(speakers, local, excluded, n + 1, found, bestDistance)
            case None =>
              if found == None && Compatible(speakers[n], local, excluded) && PitchUnknown(speakers[n], local)
              then PitchSoFar(speakers, local, excluded, n + 1, Some(n), bestDistance)
              else PitchSoFar(speakers, local, excluded, n + 1, found, bestDistance)
  {
    hide Compatible, PitchUnknown, PitchScores;
  }

  lemma PitchSearchIsDone(root: Root, speakers: seq<GlobalSpeaker>, local: LocalSpeaker, excluded: set<string>,
                          found: Option<int>, bestDistance: Option<real>)
    requires local.embedding == [] && PitchSoFar(speakers, local, excluded, |speakers|, found, bestDistance)
    ensures found == FindMatch(root, speakers, local, excluded)
  {
    hide PitchScores, Compatible, PitchUnknown;
    if bestDistance.Some? {
      assert PitchScores(speakers, local, excluded)[found.value].Some?;
    }
    if found.Some? {
      MatchIsFound(root, speakers, local, excluded, found.value);
    }
  }

  lemma MatchIsFound(root: Root, speakers: seq<GlobalSpeaker>, local: LocalSpeaker, excluded: set<string>, i: int)
    requires IsMatch(root, speakers, local, excluded, i)
    ensures FindMatch(root, speakers, local, excluded) == Some(i)
  {
    MatchIsUnique(root, speakers, local, excluded, i, FindMatch(root, speakers, local, excluded).value);
  }

  /** A voice is always recognised by its own print: while some unused speaker carries it, the
      match exists. */
  lemma OwnPrintMatches(root: Root, speakers: seq<GlobalSpeaker>, local: LocalSpeaker, excluded: set<string>, i: nat)
    requires i < |speakers| && speakers[i].id !in excluded
    requires local.embedding != [] && speakers[i].embedding == local.embedding
    requires var squares := Dot(local.embedding, local.embedding, |local.embedding|);
             squares > 0.0 && root(Product(squares, squares)) == squares
    ensures FindMatch(root, speakers, local, excluded).Some?
  {
    hide IsMatch, FindMatch, Dot, Similarity, Product;
    SimilarToItself(root, local.embedding);
    var scores := VoiceScores(root, speakers, local, excluded);
    assert scores[i] == Some(1.0);
    var best := BestExists(scores, |scores|, i);
    assert IsMatch(root, speakers, local, excluded, best) by {
      VoiceMatchIs(root, speakers, local, excluded, best);
    }
    MatchIsFound(root, speakers, local, excluded, best);
  }

  lemma VoiceMatchIs(root: Root, speakers: seq<GlobalSpeaker>, local: LocalSpeaker, excluded: set<string>, best: int)
    requires local.embedding != [] && IsFirstBest(VoiceScores(root, speakers, local, excluded), |speakers|, best)
    ensures IsMatch(root, speakers, local, excluded, best)
  {
  }

  lemma {:induction false} BestExists(scores: seq<Option<real>>, n: nat, i: nat) returns (best: int)
    requires i < n <= |scores| && scores[i].Some?
    ensures IsFirstBest(scores, n, best)
  {
    if exists j :: 0 <= j < n - 1 && scores[j].Some? {
      var j :| 0 <= j < n - 1 && scores[j].Some?;
      best := BestExists(scores, n - 1, j);
      if scores[n - 1].Some? && scores[n - 1].value > scores[best].value {
        best := n - 1;
      }
    } else {
      best := n - 1;
    }
  }

  // ----- Mapping one chunk -----

  function LocalId(local: LocalSpeaker): (id: string)
    ensures local.id != "" ==> id == local.id
    ensures local.id == "" && local.alias != "" ==> id == local.alias
    ensures local.id == "" && local.alias == "" ==> id == "UNKNOWN"
  {
    Or(Or(local.id, local.alias), "UNKNOWN")
  }

  function NewSpeaker(k: nat, local: LocalSpeaker): GlobalSpeaker {
    GlobalSpeaker(SpeakerId(k), SpeakerId(k), local.gender, local.pitch, local.embedding,
                  if local.embedding != [] then 1 else 0, local.refAudioUrl)
  }

  /** `speakers` in the order they were first heard; `localMap` and `used` belong to one chunk. */
  datatype Cast = Cast(speakers: seq<GlobalSpeaker>, localMap: map<string, string>, used: set<string>)

  /** The speaker an extra voice is folded into: the first this chunk has not used, or else the
      first of all. */
  function ForcedFrom(speakers: seq<GlobalSpeaker>, used: set<string>, k: nat): (forced: nat)
    requires k <= |speakers| && speakers != []
    ensures forced < |speakers|
    ensures forall i :: k <= i < |speakers| && speakers[i].id !in used ==>
              k <= forced <= i && speakers[forced].id !in used
    decreases |speakers| - k
  {
    if k == |speakers| then 0
    else if speakers[k].id !in used then k
    else ForcedFrom(speakers, used, k + 1)
  }

  /** One local speaker: matched, admitted as new while there is room, or forced. */
  ghost function Assign(root: Root, cap: int, local: LocalSpeaker, cast: Cast): Cast
    requires cap >= 1
  {
    match FindMatch(root, cast.speakers, local, cast.used)
    case Some(i) =>
      TakeId(cast.(speakers := cast.speakers[i := Merge(root, cast.speakers[i], local)]), local, cast.speakers[i].id)
    case None =>
      if |cast.speakers| < cap then
        TakeId(cast.(speakers := cast.speakers + [NewSpeaker(|cast.speakers|, local)]), local, SpeakerId(|cast.speakers|))
      else TakeId(cast, local, cast.speakers[ForcedFrom(cast.speakers, cast.used, 0)].id)
  }

  function TakeId(cast: Cast, local: LocalSpeaker, id: string): Cast {
    cast.(localMap := cast.localMap[LocalId(local) := id], used := cast.used + {id})
  }

  ghost function AssignAll(root: Root, cap: int, locals: seq<LocalSpeaker>, cast: Cast): Cast
    requires cap >= 1
  {
    if locals == [] then cast
    else Assign(root, cap, locals[|locals| - 1], AssignAll(root, cap, locals[..|locals| - 1], cast))
  }

  ghost function MapChunk(root: Root, cap: int, locals: seq<LocalSpeaker>, speakers: seq<GlobalSpeaker>): Cast
    requires cap >= 1
  {
    AssignAll(root, cap, locals, Cast(speakers, map[], {}))
  }

  /** The global speakers, updated in place chunk after chunk. */
  class SpeakerRegistry {
    const root: Root
    const cap: int
    var speakers: seq<GlobalSpeaker>

    constructor (root: Root, count: Option<int>)
      ensures this.root == root && cap == GlobalSpeakerCap(count) && speakers == []
    {
      this.root, cap, speakers := root, GlobalSpeakerCap(count), [];
    }

    method FindMatching(local: LocalSpeaker, excluded: set<string>) returns (found: Option<int>)
      ensures found == FindMatch(root, speakers, local, excluded)
    {
      if local.embedding != [] {
        found := FindMatchingByVoice(root, speakers, local, excluded);
      } else {
        found := FindMatchingByPitch(root, speakers, local, excluded);
      }
    }

    method MapChunkSpeakers(locals: seq<LocalSpeaker>) returns (localMap: map<string, string>)
      requires cap >= 1
      modifies this`speakers
      ensures var mapped := MapChunk(root, cap, locals, old(speakers));
              speakers == mapped.speakers && localMap == mapped.localMap
    {
      hide FindMatch, Merge, ForcedFrom;
      localMap := map[];
      var used: set<string> := {};
      for n := 0 to |locals|
        invariant Cast(speakers, localMap, used) == AssignAll(root, cap, locals[..n], Cast(old(speakers), map[], {}))
      {
        var local := locals[n];
        assert locals[..n + 1][..n] == locals[..n];
        var found := FindMatching(local, used);
        var id;
        if found == None && |speakers| < cap {
          id := SpeakerId(|speakers|);
          speakers := speakers + [NewSpeaker(|speakers|, local)];
        } else if found == None {
          id := speakers[ForcedFrom(speakers, used, 0)].id;
        } else {
          id := speakers[found.value].id;
          speakers := speakers[found.value := Merge(root, speakers[found.value], local)];
        }
        localMap, used := localMap[LocalId(local) := id], used + {id};
      }
      assert locals[..|locals|] == locals;
    }
  }

  // ----- What one assignment does -----

  /** The speaker's print is like the voice's by this much, which is enough for a match. */
  ghost predicate IsAlike(root: Root, speaker: GlobalSpeaker, local: LocalSpeaker, similarity: real) {
    Similarity(root, local.embedding, speaker.embedding) == Some(similarity) && similarity >= 0.75
  }

  predicate GendersDiffer(speaker: GlobalSpeaker, local: LocalSpeaker) {
    speaker.gender != "" && local.gender != "" && speaker.gender != local.gender
  }

  predicate PitchesKnown(speaker: GlobalSpeaker, local: LocalSpeaker) {
    speaker.pitch.Some? && local.pitch.Some?
  }

  function PitchDistance(speaker: GlobalSpeaker, local: LocalSpeaker): real
    requires PitchesKnown(speaker, local)
  {
    Abs(speaker.pitch.value - local.pitch.value)
  }

  /** No unused speaker is more alike than this, and none as much alike comes before `found`. */
  ghost predicate IsUnsurpassed(root: Root, speakers: seq<GlobalSpeaker>, local: LocalSpeaker, excluded: set<string>,
                                found: int, best: real)
  {
    forall j, similarity | 0 <= j < |speakers| && speakers[j].id !in excluded && IsAlike(root, speakers[j], local, similarity) ::
      similarity <= best && (similarity == best ==> found <= j)
  }

  /** A speaker found by voice print: unused, alike, and no unused speaker more alike. */
  lemma VoiceMatchIsBest(root: Root, speakers: seq<GlobalSpeaker>, local: LocalSpeaker, excluded: set<string>)
    requires local.embedding != []
    ensures var found := FindMatch(root, speakers, local, excluded);
            && (found == None ==>
                  forall j, similarity :: 0 <= j < |speakers| && speakers[j].id !in excluded ==>
                    !IsAlike(root, speakers[j], local, similarity))
            && (found.Some? ==>
                  && speakers[found.value].id !in excluded
                  && exists best ::
                       && IsAlike(root, speakers[found.value], local, best)
                       && IsUnsurpassed(root, speakers, local, excluded, found.value, best))
  {
    hide IsMatch, FindMatch, Similarity;
    var found := FindMatch(root, speakers, local, excluded);
    var scores := VoiceScores(root, speakers, local, excluded);
    if found.Some? {
      VoiceMatchHas(root, speakers, local, excluded, found.value);
      assert IsAlike(root, speakers[found.value], local, scores[found.value].value);
      forall j, similarity | 0 <= j < |speakers| && speakers[j].id !in excluded && IsAlike(root, speakers[j], local, similarity)
        ensures scores[j] == Some(similarity)
      {
      }
    } else {
      forall j, similarity | 0 <= j < |speakers| && speakers[j].id !in excluded
        ensures !IsAlike(root, speakers[j], local, similarity)
      {
        if IsAlike(root, speakers[j], local, similarity) {
          assert scores[j] == Some(similarity);
          var best := BestExists(scores, |scores|, j);
          VoiceMatchIs(root, speakers, local, excluded, best);
        }
      }
    }
  }

  lemma VoiceMatchHas(root: Root, speakers: seq<GlobalSpeaker>, local: LocalSpeaker, excluded: set<string>, found: int)
    requires local.embedding != [] && IsMatch(root, speakers, local, excluded, found)
    ensures IsFirstBest(VoiceScores(root, speakers, local, excluded), |speakers|, found)
  {
  }

  /** A speaker found without a print: unused and not known to be of the other gender; within 35 Hz and
      nearer than any other such speaker, or, where none is within 35 Hz, the first whose pitch cannot
      be compared. */
  lemma PitchMatchIsNearest(root: Root, speakers: seq<GlobalSpeaker>, local: LocalSpeaker, excluded: set<string>)
    requires local.embedding == [] && FindMatch(root, speakers, local, excluded).Some?
    ensures var i := FindMatch(root, speakers, local, excluded).value;
            && speakers[i].id !in excluded && !GendersDiffer(speakers[i], local)
            && forall j :: 0 <= j < |speakers| && speakers[j].id !in excluded && !GendersDiffer(speakers[j], local) ==>
                 if PitchesKnown(speakers[i], local) then
                   && PitchDistance(speakers[i], local) <= 35.0
                   && (PitchesKnown(speakers[j], local) ==> PitchDistance(speakers[i], local) <= PitchDistance(speakers[j], local))
                 else
                   && (PitchesKnown(speakers[j], local) ==> PitchDistance(speakers[j], local) > 35.0)
                   && (!PitchesKnown(speakers[j], local) ==> i <= j)
  {
    hide FindMatch, PitchScore, Compatible, PitchUnknown, GendersDiffer, PitchesKnown, PitchDistance;
    var i := FindMatch(root, speakers, local, excluded).value;
    var scores := PitchScores(speakers, local, excluded);
    assert IsMatch(root, speakers, local, excluded, i);
    forall j | 0 <= j < |speakers|
      ensures Compatible(speakers[j], local, excluded) <==> speakers[j].id !in excluded && !GendersDiffer(speakers[j], local)
      ensures PitchUnknown(speakers[j], local) <==> !PitchesKnown(speakers[j], local)
      ensures scores[j].Some? <==>
                && Compatible(speakers[j], local, excluded) && PitchesKnown(speakers[j], local)
                && PitchDistance(speakers[j], local) <= 35.0
      ensures scores[j].Some? ==> scores[j].value == -PitchDistance(speakers[j], local)
    {
      PitchScoreIs(speakers[j], local, excluded);
    }
  }

  lemma PitchScoreIs(speaker: GlobalSpeaker, local: LocalSpeaker, excluded: set<string>)
    ensures Compatible(speaker, local, excluded) <==> speaker.id !in excluded && !GendersDiffer(speaker, local)
    ensures PitchUnknown(speaker, local) <==> !PitchesKnown(speaker, local)
    ensures PitchScore(speaker, local, excluded).Some? <==>
              Compatible(speaker, local, excluded) && PitchesKnown(speaker, local) && PitchDistance(speaker, local) <= 35.0
    ensures PitchScore(speaker, local, excluded).Some? ==>
              PitchScore(speaker, local, excluded).value == -PitchDistance(speaker, local)
  {
  }

  /** No speaker is found without a print exactly when none unused could be the voice. */
  lemma NoPitchMatch(root: Root, speakers: seq<GlobalSpeaker>, local: LocalSpeaker, excluded: set<string>)
    requires local.embedding == []
    ensures FindMatch(root, speakers, local, excluded) == None <==>
              forall j :: 0 <= j < |speakers| && speakers[j].id !in excluded && !GendersDiffer(speakers[j], local) ==>
                PitchesKnown(speakers[j], local) && PitchDistance(speakers[j], local) > 35.0
  {
    hide FindMatch;
    var found := FindMatch(root, speakers, local, excluded);
    if found.Some? {
      PitchMatchIsNearest(root, speakers, local, excluded);
    } else {
      forall j | 0 <= j < |speakers| && speakers[j].id !in excluded && !GendersDiffer(speakers[j], local)
        ensures PitchesKnown(speakers[j], local) && PitchDistance(speakers[j], local) > 35.0
      {
        if !(PitchesKnown(speakers[j], local) && PitchDistance(speakers[j], local) > 35.0) {
          var i := PitchMatchExists(root, speakers, local, excluded, j);
        }
      }
    }
  }

  lemma PitchMatchExists(root: Root, speakers: seq<GlobalSpeaker>, local: LocalSpeaker, excluded: set<string>, j: nat) returns (i: int)
    requires local.embedding == [] && j < |speakers| && Compatible(speakers[j], local, excluded)
    requires PitchUnknown(speakers[j], local) || PitchScore(speakers[j], local, excluded).Some?
    ensures IsMatch(root, speakers, local, excluded, i)
  {
    hide Compatible, PitchUnknown;
    var scores := PitchScores(speakers, local, excluded);
    if k :| 0 <= k < |scores| && scores[k].Some? {
      i := BestExists(scores, |scores|, k);
    } else {
      assert scores[j] == None;
      i := FirstUnknown(speakers, local, excluded, j);
    }
  }

  lemma {:induction false} FirstUnknown(speakers: seq<GlobalSpeaker>, local: LocalSpeaker, excluded: set<string>, j: nat) returns (i: int)
    requires j < |speakers| && Compatible(speakers[j], local, excluded) && PitchUnknown(speakers[j], local)
    ensures IsFirstUnknown(speakers, local, excluded, i)
  {
    hide Compatible, PitchUnknown;
    if k :| 0 <= k < j && Compatible(speakers[k], local, excluded) && PitchUnknown(speakers[k], local) {
      i := FirstUnknown(speakers, local, excluded, k);
    } else {
      i := j;
    }
  }

  /** A voice nobody matches becomes a speaker with the next number, its own gender, pitch, clip and
      print, while there is room; then the first speaker the chunk has not used stands in for it, or
      the first of all, and nobody changes. */
  lemma UnmatchedVoice(root: Root, cap: int, local: LocalSpeaker, cast: Cast)
    requires cap >= 1 && FindMatch(root, cast.speakers, local, cast.used) == None
    ensures var after := Assign(root, cap, local, cast); var id := after.localMap[LocalId(local)];
            if |cast.speakers| < cap then
              && |after.speakers| == |cast.speakers| + 1 && after.speakers[..|cast.speakers|] == cast.speakers
              && var joined := after.speakers[|cast.speakers|];
              && joined.id == joined.alias == id && joined.gender == local.gender && joined.pitch == local.pitch
              && joined.refAudioUrl == local.refAudioUrl && joined.embedding == local.embedding
              && (local.embedding != [] <==> joined.embeddingCount == 1) && (local.embedding == [] <==> joined.embeddingCount == 0)
            else
              && after.speakers == cast.speakers
              && (exists k :: 0 <= k < |cast.speakers| && cast.speakers[k].id == id
                    && (id in cast.used ==> k == 0)
                    && forall j :: 0 <= j < |cast.speakers| && cast.speakers[j].id !in cast.used ==> id !in cast.used && k <= j)
  {
    hide FindMatch, SpeakerId, LocalId;
    if |cast.speakers| >= cap {
      var k := ForcedFrom(cast.speakers, cast.used, 0);
      FallsBackToFirst(cast.speakers, cast.used, 0);
    }
  }

  lemma {:induction false} FallsBackToFirst(speakers: seq<GlobalSpeaker>, used: set<string>, k: nat)
    requires k <= |speakers| && speakers != []
    ensures speakers[ForcedFrom(speakers, used, k)].id in used ==> ForcedFrom(speakers, used, k) == 0
    decreases |speakers| - k
  {
    if k < |speakers| {
      FallsBackToFirst(speakers, used, k + 1);
    }
  }

  /** A matched voice: only that speaker changes. It gets a clip if it had none; and its print becomes
      the mean of all prints it stands for, up to length, or the new print where there is nothing to
      average with. */
  lemma MatchedVoice(root: Root, cap: int, local: LocalSpeaker, cast: Cast)
    requires cap >= 1 && FindMatch(root, cast.speakers, local, cast.used).Some?
    ensures var i := FindMatch(root, cast.speakers, local, cast.used).value;
            var after := Assign(root, cap, local, cast);
            && |after.speakers| == |cast.speakers| && after.speakers == cast.speakers[i := after.speakers[i]]
            && after.localMap[LocalId(local)] == cast.speakers[i].id
            && TakesIn(cast.speakers[i], local, after.speakers[i])
  {
    hide FindMatch, Merge, LocalId;
    var i := FindMatch(root, cast.speakers, local, cast.used).value;
    MergeTakesIn(root, cast.speakers[i], local);
  }

  ghost predicate TakesIn(before: GlobalSpeaker, local: LocalSpeaker, after: GlobalSpeaker) {
    && after == before.(refAudioUrl := after.refAudioUrl, embedding := after.embedding, embeddingCount := after.embeddingCount)
    && after.refAudioUrl == (if before.refAudioUrl == "" then local.refAudioUrl else before.refAudioUrl)
    && (local.embedding == [] ==> after.embedding == before.embedding && after.embeddingCount == before.embeddingCount)
    && (local.embedding != [] ==>
          if |before.embedding| == |local.embedding| && before.embeddingCount > 0 then
            after.embeddingCount == before.embeddingCount + 1 && IsMeanUpToLength(before, local.embedding, after.embedding)
          else after.embedding == local.embedding && after.embeddingCount == 1)
  }

  /** Some multiple of the new print is the sum of all prints so far. */
  ghost predicate IsMeanUpToLength(before: GlobalSpeaker, next: seq<real>, mean: seq<real>) {
    && |mean| == |next| == |before.embedding|
    && exists factor :: factor > 0.0 && IsMultiple(before, next, mean, factor)
  }

  ghost predicate IsMultiple(before: GlobalSpeaker, next: seq<real>, mean: seq<real>, factor: real)
    requires |mean| == |next| == |before.embedding|
  {
    forall i :: 0 <= i < |next| ==>
      Product(mean[i], factor) == Product(before.embedding[i], before.embeddingCount as real) + next[i]
  }

  lemma ProductsAssociate(x: real, y: real, z: real)
    ensures Product(Product(x, y), z) == Product(x, Product(y, z))
  {
  }

  lemma SquareIsNotNegative(x: real)
    ensures Product(x, x) >= 0.0 && (Product(x, x) == 0.0 ==> x == 0.0)
  {
    if x != 0.0 {
      SquareIsPositive(x);
    }
  }

  lemma {:induction false} NoLengthNoPrint(xs: seq<real>, n: nat)
    requires n <= |xs|
    ensures Dot(xs, xs, n) >= 0.0
    ensures Dot(xs, xs, n) == 0.0 ==> forall i :: 0 <= i < n ==> xs[i] == 0.0
  {
    if n > 0 {
      hide Product;
      NoLengthNoPrint(xs, n - 1);
      SquareIsNotNegative(xs[n - 1]);
    }
  }

  lemma NothingScaled(xs: seq<real>, norm: real, i: nat)
    requires norm != 0.0 && i < |xs| && xs[i] == 0.0
    ensures Scaled(xs, norm)[i] == 0.0
  {
  }

  lemma MergeTakesIn(root: Root, speaker: GlobalSpeaker, local: LocalSpeaker)
    ensures TakesIn(speaker, local, Merge(root, speaker, local))
  {
    hide Product, Ratio, Dot, WeightedMean, Scaled;
    var average, count, next := speaker.embedding, speaker.embeddingCount, local.embedding;
    if next != [] && |average| == |next| && count > 0 {
      var mean := WeightedMean(average, count, next);
      var length := root(Dot(mean, mean, |mean|));
      NoLengthNoPrint(mean, |mean|);
      if Dot(mean, mean, |mean|) > 0.0 {
        ScaledIsMultiple(speaker, next, mean, length);
      } else {
        ZeroIsMultiple(speaker, next, mean, if length == 0.0 then 1.0 else length);
      }
    }
  }

  lemma ScaledIsMultiple(speaker: GlobalSpeaker, next: seq<real>, mean: seq<real>, norm: real)
    requires |next| == |speaker.embedding| && speaker.embeddingCount > 0 && norm > 0.0
    requires mean == WeightedMean(speaker.embedding, speaker.embeddingCount, next)
    ensures IsMeanUpToLength(speaker, next, Scaled(mean, norm))
  {
    hide Product, Ratio, WeightedMean, Scaled;
    var average, count := speaker.embedding, speaker.embeddingCount;
    var factor := Product(norm, (count + 1) as real);
    PositiveProduct(norm, (count + 1) as real);
    forall i | 0 <= i < |next| ensures Product(Scaled(mean, norm)[i], factor) == Product(average[i], count as real) + next[i] {
      ScaledAt(mean, norm, i);
      ProductsAssociate(Scaled(mean, norm)[i], norm, (count + 1) as real);
      MeanIsWeighted(average, count, next, i);
    }
    assert IsMultiple(speaker, next, Scaled(mean, norm), factor);
  }

  lemma ZeroIsMultiple(speaker: GlobalSpeaker, next: seq<real>, mean: seq<real>, norm: real)
    requires |next| == |speaker.embedding| && speaker.embeddingCount > 0 && norm != 0.0
    requires mean == WeightedMean(speaker.embedding, speaker.embeddingCount, next)
    requires forall i :: 0 <= i < |mean| ==> mean[i] == 0.0
    ensures IsMeanUpToLength(speaker, next, Scaled(mean, norm))
  {
    hide Product, Ratio, WeightedMean, Scaled;
    var average, count := speaker.embedding, speaker.embeddingCount;
    forall i | 0 <= i < |next| ensures Product(Scaled(mean, norm)[i], 1.0) == Product(average[i], count as real) + next[i] {
      NothingScaled(mean, norm, i);
      MeanIsWeighted(average, count, next, i);
      ZeroTimes(1.0);
      ZeroTimes((count + 1) as real);
    }
    assert IsMultiple(speaker, next, Scaled(mean, norm), 1.0);
  }

  lemma ScaledAt(xs: seq<real>, norm: real, i: nat)
    requires norm != 0.0 && i < |xs|
    ensures Product(Scaled(xs, norm)[i], norm) == xs[i]
  {
    RatioTimes(xs[i], norm);
  }

  // ----- What the mapping guarantees -----

  /** The ids run from SPEAKER_00 without a gap, and there are at most `cap` of them. */
  ghost predicate WellNumbered(cap: int, speakers: seq<GlobalSpeaker>) {
    && |speakers| <= cap
    && forall k :: 0 <= k < |speakers| ==> speakers[k].id == speakers[k].alias == SpeakerId(k)
  }

  /** Who a speaker is does not change: only the voice print and a missing reference clip do. */
  predicate SamePerson(before: GlobalSpeaker, after: GlobalSpeaker) {
    && after == before.(embedding := after.embedding, embeddingCount := after.embeddingCount, refAudioUrl := after.refAudioUrl)
    && (before.refAudioUrl != "" ==> after.refAudioUrl == before.refAudioUrl)
    && (before.embedding != [] ==> after.embedding != [])
  }

  ghost predicate Extends(before: seq<GlobalSpeaker>, after: seq<GlobalSpeaker>) {
    && |before| <= |after|
    && forall k :: 0 <= k < |before| ==> SamePerson(before[k], after[k])
  }

  ghost predicate IsSpeaker(speakers: seq<GlobalSpeaker>, id: string) {
    exists k :: 0 <= k < |speakers| && speakers[k].id == id
  }

  lemma MergeKeepsPerson(root: Root, speaker: GlobalSpeaker, local: LocalSpeaker)
    ensures SamePerson(speaker, Merge(root, speaker, local))
  {
  }

  ghost predicate CastIsSound(cap: int, cast: Cast) {
    && WellNumbered(cap, cast.speakers)
    && (forall id :: id in cast.used ==> IsSpeaker(cast.speakers, id))
    && (forall key :: key in cast.localMap ==> cast.localMap[key] in cast.used)
  }

  lemma MergedRegistry(root: Root, speakers: seq<GlobalSpeaker>, i: nat, local: LocalSpeaker)
    requires i < |speakers|
    ensures Extends(speakers, speakers[i := Merge(root, speakers[i], local)])
  {
    hide Merge, SamePerson;
    MergeKeepsPerson(root, speakers[i], local);
    forall k | 0 <= k < |speakers| ensures SamePerson(speakers[k], speakers[k]) {
      PersonIsSame(speakers[k]);
    }
  }

  lemma PersonIsSame(speaker: GlobalSpeaker)
    ensures SamePerson(speaker, speaker)
  {
  }

  lemma ExtendedKeepsIds(before: seq<GlobalSpeaker>, after: seq<GlobalSpeaker>)
    requires Extends(before, after)
    ensures forall id :: IsSpeaker(before, id) ==> IsSpeaker(after, id)
  {
    forall id | IsSpeaker(before, id) ensures IsSpeaker(after, id) {
      var k :| 0 <= k < |before| && before[k].id == id;
      assert after[k].id == id;
    }
  }

  lemma RegistryExtendsItself(speakers: seq<GlobalSpeaker>)
    ensures Extends(speakers, speakers)
  {
    hide SamePerson;
    forall k | 0 <= k < |speakers| ensures SamePerson(speakers[k], speakers[k]) {
      PersonIsSame(speakers[k]);
    }
  }

  lemma ExtendsIsTransitive(a: seq<GlobalSpeaker>, b: seq<GlobalSpeaker>, c: seq<GlobalSpeaker>)
    requires Extends(a, b) && Extends(b, c)
    ensures Extends(a, c)
  {
    forall k | 0 <= k < |a| ensures SamePerson(a[k], c[k]) {
      assert SamePerson(a[k], b[k]) && SamePerson(b[k], c[k]);
    }
  }

  lemma AdmittedRegistry(cap: int, speakers: seq<GlobalSpeaker>, local: LocalSpeaker)
    requires WellNumbered(cap, speakers) && |speakers| < cap
    ensures var after := speakers + [NewSpeaker(|speakers|, local)];
            WellNumbered(cap, after) && Extends(speakers, after) && IsSpeaker(after, SpeakerId(|speakers|))
  {
    hide SamePerson, SpeakerId;
    RegistryExtendsItself(speakers);
    var after := speakers + [NewSpeaker(|speakers|, local)];
    forall k | 0 <= k < |speakers| ensures SamePerson(speakers[k], after[k]) {
      PersonIsSame(speakers[k]);
    }
    assert after[|speakers|].id == SpeakerId(|speakers|);
  }

  lemma TakeIdIsSound(cap: int, cast: Cast, speakers: seq<GlobalSpeaker>, local: LocalSpeaker, id: string)
    requires CastIsSound(cap, cast) && WellNumbered(cap, speakers) && Extends(cast.speakers, speakers)
    requires IsSpeaker(speakers, id)
    ensures CastIsSound(cap, TakeId(cast.(speakers := speakers), local, id))
  {
    hide WellNumbered, LocalId, Extends, IsSpeaker;
    ExtendedKeepsIds(cast.speakers, speakers);
  }

  ghost predicate AssignedSoundly(cap: int, local: LocalSpeaker, before: Cast, after: Cast) {
    && CastIsSound(cap, after) && Extends(before.speakers, after.speakers)
    && after.localMap.Keys == before.localMap.Keys + {LocalId(local)}
    && after.used == before.used + {after.localMap[LocalId(local)]}
  }

  /** One local speaker, whichever way it is assigned. */
  lemma AssignIsSound(root: Root, cap: int, local: LocalSpeaker, cast: Cast)
    requires cap >= 1 && CastIsSound(cap, cast)
    ensures AssignedSoundly(cap, local, cast, Assign(root, cap, local, cast))
  {
    hide Merge, FindMatch, IsMatch, ForcedFrom, SpeakerId, LocalId, SamePerson, Extends, WellNumbered, NewSpeaker;
    var speakers := cast.speakers;
    var found := FindMatch(root, speakers, local, cast.used);
    if found.Some? {
      var merged := speakers[found.value := Merge(root, speakers[found.value], local)];
      MergedRegistry(root, speakers, found.value, local);
      MergedKeepsNumbers(root, cap, speakers, found.value, local);
      TakeIdIsSound(cap, cast, merged, local, speakers[found.value].id);
    } else if |speakers| < cap {
      AdmittedRegistry(cap, speakers, local);
      TakeIdIsSound(cap, cast, speakers + [NewSpeaker(|speakers|, local)], local, SpeakerId(|speakers|));
    } else {
      RegistryExtendsItself(speakers);
      TakeIdIsSound(cap, cast, speakers, local, speakers[ForcedFrom(speakers, cast.used, 0)].id);
    }
  }

  lemma MergedKeepsNumbers(root: Root, cap: int, speakers: seq<GlobalSpeaker>, i: nat, local: LocalSpeaker)
    requires i < |speakers| && WellNumbered(cap, speakers)
    ensures WellNumbered(cap, speakers[i := Merge(root, speakers[i], local)])
    ensures IsSpeaker(speakers[i := Merge(root, speakers[i], local)], speakers[i].id)
  {
    hide Merge;
    MergeKeepsPerson(root, speakers[i], local);
    assert speakers[i := Merge(root, speakers[i], local)][i].id == speakers[i].id;
  }

  function LocalIds(locals: seq<LocalSpeaker>): set<string> {
    set local | local in locals :: LocalId(local)
  }

  lemma {:induction false} AssignAllIsSound(root: Root, cap: int, locals: seq<LocalSpeaker>, cast: Cast)
    requires cap >= 1 && CastIsSound(cap, cast)
    ensures var after := AssignAll(root, cap, locals, cast);
            && CastIsSound(cap, after) && Extends(cast.speakers, after.speakers)
            && after.localMap.Keys == cast.localMap.Keys + LocalIds(locals)
  {
    hide Assign, LocalId, Extends, WellNumbered;
    if locals == [] {
      RegistryExtendsItself(cast.speakers);
    } else {
      var init, last := locals[..|locals| - 1], locals[|locals| - 1];
      AssignAllIsSound(root, cap, init, cast);
      var middle := AssignAll(root, cap, init, cast);
      AssignIsSound(root, cap, last, middle);
      ExtendsIsTransitive(cast.speakers, middle.speakers, Assign(root, cap, last, middle).speakers);
      assert locals == init + [last];
      assert LocalIds(locals) == LocalIds(init) + {LocalId(last)};
    }
  }

  /** Mapping a chunk keeps the cast contiguously numbered and within the cap, changes nobody's
      identity, and maps exactly the chunk's local ids, each to a speaker that exists. */
  lemma MappingIsSound(root: Root, cap: int, locals: seq<LocalSpeaker>, speakers: seq<GlobalSpeaker>)
    requires cap >= 1 && WellNumbered(cap, speakers)
    ensures var mapped := MapChunk(root, cap, locals, speakers);
            && WellNumbered(cap, mapped.speakers)
            && Extends(speakers, mapped.speakers)
            && mapped.localMap.Keys == LocalIds(locals)
            && forall key :: key in mapped.localMap ==> IsSpeaker(mapped.speakers, mapped.localMap[key])
  {
    hide AssignAll, WellNumbered, Extends;
    AssignAllIsSound(root, cap, locals, Cast(speakers, map[], {}));
  }

  /** The cast after the first n chunks. */
  ghost function MapChunks(root: Root, cap: int, chunks: seq<seq<LocalSpeaker>>, n: nat): seq<GlobalSpeaker>
    requires cap >= 1 && n <= |chunks|
  {
    if n == 0 then [] else MapChunk(root, cap, chunks[n - 1], MapChunks(root, cap, chunks, n - 1)).speakers
  }

  /** Over any chunks the ids stay contiguous and within the cap, and nobody who was in the cast
      after m chunks has become anybody else after n. */
  lemma {:induction false} CastStaysNumbered(root: Root, cap: int, chunks: seq<seq<LocalSpeaker>>, m: nat, n: nat)
    requires cap >= 1 && m <= n <= |chunks|
    ensures WellNumbered(cap, MapChunks(root, cap, chunks, n))
    ensures Extends(MapChunks(root, cap, chunks, m), MapChunks(root, cap, chunks, n))
    decreases n
  {
    hide MapChunk, Extends, WellNumbered;
    if m == n {
      RegistryExtendsItself(MapChunks(root, cap, chunks, n));
    }
    if n > 0 {
      var shorter := MapChunks(root, cap, chunks, n - 1);
      CastStaysNumbered(root, cap, chunks, if m < n then m else n - 1, n - 1);
      MappingIsSound(root, cap, chunks[n - 1], shorter);
      if m < n {
        ExtendsIsTransitive(MapChunks(root, cap, chunks, m), shorter, MapChunks(root, cap, chunks, n));
      }
    } else {
      EmptyCastIsNumbered(cap);
    }
  }

  lemma EmptyCastIsNumbered(cap: int)
    requires cap >= 0
    ensures WellNumbered(cap, [])
  {
  }

  // ----- When two voices share a speaker -----

  ghost predicate Injective(m: map<string, string>) {
    forall a, b :: a in m && b in m && m[a] == m[b] ==> a == b
  }

  predicate DistinctIds(locals: seq<LocalSpeaker>) {
    forall i, j :: 0 <= i < j < |locals| ==> LocalId(locals[i]) != LocalId(locals[j])
  }

  ghost function IdsUpTo(n: nat): (ids: set<string>) {
    set k | 0 <= k < n :: SpeakerId(k)
  }

  lemma {:induction false} IdsAreCounted(n: nat)
    ensures |IdsUpTo(n)| == n
  {
    if n > 0 {
      IdsAreCounted(n - 1);
      if SpeakerId(n - 1) in IdsUpTo(n - 1) {
        var k :| 0 <= k < n - 1 && SpeakerId(n - 1) == SpeakerId(k);
        SpeakerIdIsInjective(n - 1, k);
      }
      assert IdsUpTo(n) == IdsUpTo(n - 1) + {SpeakerId(n - 1)};
    }
  }

  /** While a chunk has used fewer speakers than the registry holds, the forced one is unused. */
  lemma ForcedIsUnused(cap: int, speakers: seq<GlobalSpeaker>, used: set<string>)
    requires WellNumbered(cap, speakers) && |used| < |speakers|
    ensures speakers[ForcedFrom(speakers, used, 0)].id !in used
  {
    if forall i :: 0 <= i < |speakers| ==> speakers[i].id in used {
      IdsAreCounted(|speakers|);
      forall id | id in IdsUpTo(|speakers|) ensures id in used {
        var k :| 0 <= k < |speakers| && id == SpeakerId(k);
        assert speakers[k].id in used;
      }
      SmallerSet(IdsUpTo(|speakers|), used);
    }
  }

  lemma NewIdIsUnused(cap: int, cast: Cast)
    requires CastIsSound(cap, cast)
    ensures SpeakerId(|cast.speakers|) !in cast.used
  {
    var id := SpeakerId(|cast.speakers|);
    if id in cast.used {
      var k :| 0 <= k < |cast.speakers| && cast.speakers[k].id == id;
      SpeakerIdIsInjective(k, |cast.speakers|);
    }
  }

  /** As long as fewer voices than the cap were mapped, the next one gets a speaker of its own. */
  lemma NextIdIsUnused(root: Root, cap: int, local: LocalSpeaker, cast: Cast)
    requires cap >= 1 && CastIsSound(cap, cast) && |cast.used| < cap
    ensures Assign(root, cap, local, cast).localMap[LocalId(local)] !in cast.used
  {
    hide Merge, ForcedFrom, SpeakerId, LocalId, NewSpeaker, WellNumbered;
    var found := FindMatch(root, cast.speakers, local, cast.used);
    if found == None {
      if |cast.speakers| < cap {
        NewIdIsUnused(cap, cast);
      } else {
        ForcedIsUnused(cap, cast.speakers, cast.used);
      }
    }
  }

  /** Up to the cap, distinct voices of one chunk get distinct speakers. */
  lemma {:induction false} VoicesStayApart(root: Root, cap: int, locals: seq<LocalSpeaker>, speakers: seq<GlobalSpeaker>)
    requires cap >= 1 && WellNumbered(cap, speakers) && DistinctIds(locals) && |locals| <= cap
    ensures var cast := MapChunk(root, cap, locals, speakers);
            && CastIsSound(cap, cast) && cast.localMap.Keys == LocalIds(locals)
            && Injective(cast.localMap) && |cast.used| == |locals|
  {
    hide WellNumbered, Assign, LocalId;
    AssignAllIsSound(root, cap, locals, Cast(speakers, map[], {}));
    if locals != [] {
      var init, last := locals[..|locals| - 1], locals[|locals| - 1];
      VoicesStayApart(root, cap, init, speakers);
      var middle := MapChunk(root, cap, init, speakers);
      NextIdIsUnused(root, cap, last, middle);
      LastIsNew(locals);
      AssignChangesOneEntry(root, cap, last, middle);
      InjectiveUpdate(middle.localMap, middle.used, LocalId(last), MapChunk(root, cap, locals, speakers).localMap[LocalId(last)]);
    }
  }

  lemma LastIsNew(locals: seq<LocalSpeaker>)
    requires DistinctIds(locals) && locals != []
    ensures LocalId(locals[|locals| - 1]) !in LocalIds(locals[..|locals| - 1])
  {
  }

  lemma AssignChangesOneEntry(root: Root, cap: int, local: LocalSpeaker, cast: Cast)
    requires cap >= 1
    ensures var after := Assign(root, cap, local, cast);
            && LocalId(local) in after.localMap
            && after.localMap == cast.localMap[LocalId(local) := after.localMap[LocalId(local)]]
            && after.used == cast.used + {after.localMap[LocalId(local)]}
  {
    hide FindMatch, Merge, ForcedFrom, LocalId, SpeakerId;
  }

  lemma InjectiveUpdate(m: map<string, string>, used: set<string>, key: string, value: string)
    requires Injective(m) && value !in used && forall k :: k in m ==> m[k] in used
    ensures Injective(m[key := value])
  {
  }

  lemma {:induction false} InjectiveMapFits(m: map<string, string>, values: set<string>)
    requires Injective(m) && forall k :: k in m ==> m[k] in values
    ensures |m.Keys| <= |values|
    decreases |m.Keys|
  {
    if m.Keys != {} {
      var k :| k in m;
      var rest := m - {k};
      assert rest.Keys == m.Keys - {k};
      assert forall j :: j in rest ==> rest[j] == m[j] && rest[j] != m[k];
      InjectiveMapFits(rest, values - {m[k]});
    }
  }

  lemma {:induction false} DistinctIdsAreCounted(locals: seq<LocalSpeaker>)
    requires DistinctIds(locals)
    ensures |LocalIds(locals)| == |locals|
  {
    if locals != [] {
      var init, last := locals[..|locals| - 1], locals[|locals| - 1];
      DistinctIdsAreCounted(init);
      LastIsNew(locals);
      assert locals == init + [last];
      assert LocalIds(locals) == LocalIds(init) + {LocalId(last)};
    }
  }

  /** Voices of one chunk are kept apart exactly when there are no more of them than the cap. */
  lemma VoicesStayApartExactlyUpToCap(root: Root, cap: int, locals: seq<LocalSpeaker>, speakers: seq<GlobalSpeaker>)
    requires cap >= 1 && WellNumbered(cap, speakers) && DistinctIds(locals)
    ensures Injective(MapChunk(root, cap, locals, speakers).localMap) <==> |locals| <= cap
  {
    if |locals| <= cap {
      VoicesStayApart(root, cap, locals, speakers);
    } else {
      var mapped := MapChunk(root, cap, locals, speakers);
      MappingIsSound(root, cap, locals, speakers);
      DistinctIdsAreCounted(locals);
      IdsAreCounted(|mapped.speakers|);
      forall key | key in mapped.localMap ensures mapped.localMap[key] in IdsUpTo(|mapped.speakers|) {
        assert IsSpeaker(mapped.speakers, mapped.localMap[key]);
      }
      if Injective(mapped.localMap) {
        InjectiveMapFits(mapped.localMap, IdsUpTo(|mapped.speakers|));
      }
    }
  }

  /** The first chunk founds the cast: every voice in it, up to the cap, becomes a speaker of its
      own, in order, however alike the voices are. */
  lemma {:induction false} FirstChunkFoundsTheCast(root: Root, cap: int, locals: seq<LocalSpeaker>)
    requires cap >= 1 && |locals| <= cap
    ensures var cast := MapChunk(root, cap, locals, []);
            && |cast.speakers| == |locals|
            && (forall k :: 0 <= k < |locals| ==> cast.speakers[k] == NewSpeaker(k, locals[k]))
            && (forall k :: 0 <= k < |locals| ==> SpeakerId(k) in cast.used)
  {
    hide LocalId, SpeakerId;
    if locals != [] {
      var init, last := locals[..|locals| - 1], locals[|locals| - 1];
      FirstChunkFoundsTheCast(root, cap, init);
      var middle := MapChunk(root, cap, init, []);
    }
  }
}
