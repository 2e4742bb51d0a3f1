/** The dictionaries the pipeline stages pass to one another, as values. */
module PipelineTypes {

  datatype Option<+T> = None | Some(value: T)

  /** A transcript segment. An absent or null key is the empty string, which every reader of
      these keys treats the same way. */
  datatype Segment = Segment(
    speakerId: string,
    start: real,
    end: real,
    text: string,
    translation: string,
    translatedText: string,
    originalAudioUrl: string,
    synthAudioUrl: string
  )

  /** A synthesized clip; the aligned times are absent until the alignment stage sets them. */
  datatype Synth = Synth(
    segmentId: int,
    audioUrl: string,
    duration: real,
    alignedStart: Option<real>,
    alignedEnd: Option<real>
  )

  /** `TaskStage`, in declaration order. */
  datatype TaskStage =
    | Uploaded
    | Preparing
    | Separating
    | Diarizing
    | Transcribing
    | Translating
    | Synthesizing
    | Aligning
    | Mixing
    | StageCompleted
    | StageFailed

  predicate IsSpace(c: char) {
    c == ' ' || c == '\t' || c == '\n' || c == '\r' || c as int == 11 || c as int == 12
  }

  /** `not s.strip()` */
  predicate Blank(s: string) {
    forall i :: 0 <= i < |s| ==> IsSpace(s[i])
  }

  function StripLeft(s: string): (r: string)
    ensures |r| <= |s| && r == s[|s| - |r|..]
    ensures forall i :: 0 <= i < |s| - |r| ==> IsSpace(s[i])
    ensures r != [] ==> !IsSpace(r[0])
  {
    if s != [] && IsSpace(s[0]) then StripLeft(s[1..]) else s
  }

  function StripRight(s: string): (r: string)
    ensures |r| <= |s| && r == s[..|r|]
    ensures forall i :: |r| <= i < |s| ==> IsSpace(s[i])
    ensures r != [] ==> !IsSpace(r[|r| - 1])
  {
    if s != [] && IsSpace(s[|s| - 1]) then StripRight(s[..|s| - 1]) else s
  }

  /** `s.strip()` over ASCII white space. */
  function Strip(s: string): (r: string)
    ensures r == [] <==> Blank(s)
    ensures r != [] ==> !IsSpace(r[0]) && !IsSpace(r[|r| - 1])
  {
    var left := StripLeft(s);
    assert left != [] ==> left[0] == s[|s| - |left|];
    StripRight(left)
  }

  /** Nothing but white space at the ends is missing from a stripped string. */
  lemma StripLeavesTheInside(s: string) returns (i: nat)
    ensures i + |Strip(s)| <= |s| && Strip(s) == s[i..i + |Strip(s)|]
    ensures forall k :: 0 <= k < i || i + |Strip(s)| <= k < |s| ==> IsSpace(s[k])
  {
    hide IsSpace;
    var left, r := StripLeft(s), Strip(s);
    i := |s| - |left|;
    forall k | i + |r| <= k < |s| ensures IsSpace(s[k]) {
      assert s[k] == left[k - i];
    }
  }

  /** `first or second`: Python picks the second operand when the first is empty. */
  function Or(first: string, second: string): string {
    if first != "" then first else second
  }
}
