/**
 * The rules of one conversational turn in src/App.jsx: the send guard, the
 * image-upload MIME guard, the texts of an image-analysis request, and the
 * image-generation intent classifier with its prompt extraction.
 */
module Turns {
  import opened Wrappers
  import opened Strings
  import opened Types
  import opened Seqs

  /** A typed or spoken message is sent only when it has a non-white-space character. */
  predicate IsBlank(s: string)
  {
    AllSpace(s)
  }

  /** Blank is what `!s.trim()` tests: the trimmed text is empty. */
  lemma BlankIffTrimsEmpty(s: string)
    ensures IsBlank(s) <==> Trim(s) == ""
  {
    TrimEmptyIffAllSpace(s);
  }

  /** `file.type.startsWith('image/')`: only images are staged. */
  predicate AcceptsFile(mimeType: string)
  {
    StartsWith(mimeType, "image/")
  }

  const DefaultAnalysisPrompt: string :=
    "Analyze this medical image using " +
    "strict protocols. Identify visible " +
    "symptoms, potential causes, and " +
    "suggest immediate first aid."

  const AnalysisTag: string := "[Image Analysis Request]: "

  /** The text sent with a staged image: its caption, or the default prompt when the caption is blank. */
  function AnalysisQuery(caption: string): string
  {
    if !IsBlank(caption) then caption else DefaultAnalysisPrompt
  }

  /** The text of the user message that shows a staged image ("" when the caption is blank). */
  function AnalysisMessageText(caption: string): string
  {
    if !IsBlank(caption) then AnalysisTag + caption else ""
  }

  /**
   * The analysis message carries text exactly when a caption was typed, and it
   * then shows, after its tag, the very text sent for analysis; without a
   * caption the default prompt is sent.
   */
  lemma AnalysisShowsQuery(caption: string)
    ensures AnalysisMessageText(caption) != "" <==> !AllSpace(caption)
    ensures AnalysisMessageText(caption) != "" ==> AnalysisMessageText(caption) == AnalysisTag + AnalysisQuery(caption)
    ensures AnalysisMessageText(caption) == "" ==> AnalysisQuery(caption) == DefaultAnalysisPrompt
  {
    TrimEmptyIffAllSpace(caption);
  }

  /**
   * The intent classifier: the lower-cased text starts with one of five
   * lead-ins, or mentions both "image" and "generate".
   */
  predicate IsImageGeneration(text: string)
  {
    var lower := ToLower(text);
    StartsWith(lower, "generate image") ||
    StartsWith(lower, "generate an image") ||
    StartsWith(lower, "create image") ||
    StartsWith(lower, "create an image") ||
    StartsWith(lower, "draw") ||
    (Contains(lower, "image") && Contains(lower, "generate"))
  }

  /**
   * The two "generate" lead-ins add nothing to the classifier: any text they
   * accept already mentions both "image" and "generate".
   */
  lemma GenerateLeadInsSubsumed(text: string)
    ensures var lower := ToLower(text);
      IsImageGeneration(text) <==>
        StartsWith(lower, "create image") || StartsWith(lower, "create an image") ||
        StartsWith(lower, "draw") || (Contains(lower, "image") && Contains(lower, "generate"))
  {
    var lower := ToLower(text);
    if StartsWith(lower, "generate image") {
      assert lower[..8] == "generate";
      assert lower[9..14] == "image";
      ContainsAt(lower, "generate", 0);
      ContainsAt(lower, "image", 9);
    }
    if StartsWith(lower, "generate an image") {
      assert lower[..8] == "generate";
      assert lower[12..17] == "image";
      ContainsAt(lower, "generate", 0);
      ContainsAt(lower, "image", 12);
    }
  }

  /** The classifier ignores ASCII case. */
  lemma ClassifierIgnoresCase(text: string)
    ensures IsImageGeneration(ToLower(text)) == IsImageGeneration(text)
  {
    ToLowerIdempotent(text);
  }

  /** The alternatives of the removal pattern, in the pattern's order. */
  const RemovedPhrases: seq<string> :=
    ["generate image", "create image", "draw", "generate an image", "create an image"]

  /** `s` begins with the lower-case phrase `p`, ignoring ASCII case (the pattern's `i` flag). */
  predicate StartsWithIgnoringCase(s: string, p: string)
  {
    |p| <= |s| && ToLower(s[..|p|]) == p
  }

  /** The length of the first alternative that matches at the start of `s`; 0 when none does. */
  function MatchLength(s: string, phrases: seq<string>): (n: nat)
    ensures n <= |s|
  {
    if phrases == [] then 0
    else if StartsWithIgnoringCase(s, phrases[0]) then |phrases[0]|
    else MatchLength(s, phrases[1..])
  }

  /**
   * `text.replace(/generate image|create image|draw|generate an image|create an image/gi, '')`:
   * one left-to-right pass that deletes each match and resumes after it.
   */
  function StripLeadIns(s: string): (r: string)
    ensures IsSubsequence(r, s)
    decreases |s|
  {
    if s == [] then []
    else
      var n := MatchLength(s, RemovedPhrases);
      if n > 0 then
        var r := StripLeadIns(s[n..]);
        SubsequenceOfSuffix(r, s, n);
        r
      else
        var r := StripLeadIns(s[1..]);
        SubsequenceOfCons(s[0], r, s[1..]);
        assert [s[0]] + s[1..] == s;
        [s[0]] + r
  }

  /** No alternative matches at any position of `s`. */
  predicate NoLeadInAnywhere(s: string)
  {
    forall i :: 0 <= i < |s| ==> MatchLength(s[i..], RemovedPhrases) == 0
  }

  /** Text without any lead-in phrase passes through the removal unchanged. */
  lemma {:induction false} StripWithoutLeadIns(s: string)
    requires NoLeadInAnywhere(s)
    ensures StripLeadIns(s) == s
    decreases |s|
  {
    if s != [] {
      assert s[0..] == s;
      assert forall i :: 0 <= i < |s| - 1 ==> s[1..][i..] == s[i + 1..];
      StripWithoutLeadIns(s[1..]);
    }
  }

  /** Every alternative starts with 'g', 'c' or 'd', so no other first character can match. */
  lemma NoMatchWithoutLeadLetter(s: string)
    requires s != [] && LowerChar(s[0]) != 'g' && LowerChar(s[0]) != 'c' && LowerChar(s[0]) != 'd'
    ensures MatchLength(s, RemovedPhrases) == 0
  {
    var ps := RemovedPhrases;
    forall k | 0 <= k < |ps| ensures !StartsWithIgnoringCase(s, ps[k]) {
      if |ps[k]| <= |s| {
        assert ToLower(s[..|ps[k]|])[0] == LowerChar(s[0]);
      }
    }
    assert MatchLength(s, ps[4..]) == 0;
    assert MatchLength(s, ps[3..]) == 0;
    assert MatchLength(s, ps[2..]) == 0;
    assert MatchLength(s, ps[1..]) == 0;
  }

  /** A phrase cannot match at the start of `w + s` when `w` already differs from it, case ignored, at position `k`. */
  lemma MismatchInFront(w: string, s: string, p: string, k: nat)
    requires k < |w| && k < |p| && LowerChar(w[k]) != p[k]
    ensures !StartsWithIgnoringCase(w + s, p)
  {
    if |p| <= |w + s| {
      assert ToLower((w + s)[..|p|])[k] == LowerChar(w[k]);
    }
  }

  /**
   * A lead-in phrase, written in any case, is matched whole at the start of
   * whatever text it begins: no earlier alternative matches a shorter piece.
   */
  lemma MatchesWholePhrase(w: string, s: string)
    requires ToLower(w) in RemovedPhrases
    ensures MatchLength(w + s, RemovedPhrases) == |w|
  {
    var ps := RemovedPhrases;
    var x := w + s;
    var lw := ToLower(w);
    assert x[..|w|] == w;
    assert StartsWithIgnoringCase(x, lw);
    if lw == ps[0] {
    } else if lw == ps[1] {
      MismatchInFront(w, s, ps[0], 0);
      assert MatchLength(x, ps[1..]) == |w|;
    } else if lw == ps[2] {
      MismatchInFront(w, s, ps[0], 0);
      MismatchInFront(w, s, ps[1], 0);
      assert MatchLength(x, ps[2..]) == |w|;
      assert MatchLength(x, ps[1..]) == |w|;
    } else if lw == ps[3] {
      MismatchInFront(w, s, ps[0], 9);
      MismatchInFront(w, s, ps[1], 0);
      MismatchInFront(w, s, ps[2], 0);
      assert MatchLength(x, ps[3..]) == |w|;
      assert MatchLength(x, ps[2..]) == |w|;
      assert MatchLength(x, ps[1..]) == |w|;
    } else {
      assert lw == ps[4];
      MismatchInFront(w, s, ps[0], 0);
      MismatchInFront(w, s, ps[1], 7);
      MismatchInFront(w, s, ps[2], 0);
      MismatchInFront(w, s, ps[3], 0);
      assert MatchLength(x, ps[4..]) == |w|;
      assert MatchLength(x, ps[3..]) == |w|;
      assert MatchLength(x, ps[2..]) == |w|;
      assert MatchLength(x, ps[1..]) == |w|;
    }
  }

  /** A lead-in phrase, in any case and wherever the scan meets it, is deleted. */
  lemma StripDropsPhrase(w: string, s: string)
    requires ToLower(w) in RemovedPhrases
    ensures StripLeadIns(w + s) == StripLeadIns(s)
  {
    MatchesWholePhrase(w, s);
    assert (w + s)[|w|..] == s;
  }

  /** The removal keeps `x[j..k]` as it is when no alternative matches at any position in between. */
  lemma {:induction false} StripKeepsRange(x: string, j: nat, k: nat)
    requires j <= k <= |x|
    requires forall i :: j <= i < k ==> MatchLength(x[i..], RemovedPhrases) == 0
    ensures StripLeadIns(x[j..]) == x[j..k] + StripLeadIns(x[k..])
    decreases k - j
  {
    if j == k {
      assert x[j..k] == [];
    } else {
      var y := x[j..];
      assert MatchLength(y, RemovedPhrases) == 0;
      assert y[1..] == x[j + 1..];
      assert StripLeadIns(y) == [x[j]] + StripLeadIns(x[j + 1..]);
      StripKeepsRange(x, j + 1, k);
      var r := StripLeadIns(x[k..]);
      assert [x[j]] + (x[j + 1..k] + r) == ([x[j]] + x[j + 1..k]) + r;
      assert x[j..k] == [x[j]] + x[j + 1..k];
    }
  }

  /** Text at whose every position no alternative matches is kept as it is, in front of the rest's result. */
  lemma StripKeepsPlain(u: string, s: string)
    requires forall i :: 0 <= i < |u| ==> MatchLength((u + s)[i..], RemovedPhrases) == 0
    ensures StripLeadIns(u + s) == u + StripLeadIns(s)
  {
    var x := u + s;
    StripKeepsRange(x, 0, |u|);
    assert x[0..] == x && x[0..|u|] == u && x[|u|..] == s;
  }

  const DefaultImagePrompt: string := "medical illustration"

  /**
   * The prompt of an image-generation request: the text with the lead-in
   * phrases removed and trimmed, or "medical illustration" when nothing is left.
   */
  function ImagePrompt(text: string): (r: string)
    ensures r != ""
    ensures !IsSpace(r[0]) && !IsSpace(r[|r| - 1])
    ensures AllSpace(StripLeadIns(text)) ==> r == DefaultImagePrompt
    ensures var stripped := StripLeadIns(text); var i := FirstNonSpace(stripped, 0);
      !AllSpace(stripped) ==>
        i + |r| <= |stripped| && r == stripped[i..i + |r|] &&
        SpaceBetween(stripped, 0, i) && SpaceBetween(stripped, i + |r|, |stripped|)
  {
    var stripped := StripLeadIns(text);
    var p := Trim(stripped);
    TrimEmptyIffAllSpace(stripped);
    if p == "" then DefaultImagePrompt else p
  }

  /**
   * The prompt is either the fallback or made of characters of the request,
   * in their order: nothing is added to what the user wrote.
   */
  lemma ImagePromptFromText(text: string)
    ensures ImagePrompt(text) == DefaultImagePrompt || IsSubsequence(ImagePrompt(text), text)
  {
    var stripped := StripLeadIns(text);
    var p := Trim(stripped);
    if p != "" {
      var i := FirstNonSpace(stripped, 0);
      SliceOfSubsequence(stripped, p, i, text);
      assert ImagePrompt(text) == p;
    }
  }

  /** A slice of a subsequence of `text` is a subsequence of `text`. */
  lemma SliceOfSubsequence(s: string, p: string, i: nat, text: string)
    requires i <= |s| - |p| && p == s[i..i + |p|] && IsSubsequence(s, text)
    ensures IsSubsequence(p, text)
  {
    SliceIsSubsequence(s, i, i + |p|);
    SubsequenceTransitive(p, s, text);
  }

  /** "generate image of a mole" asks for an image of "of a mole". */
  lemma PromptOfMole()
    ensures IsImageGeneration("generate image" + " of a mole")
    ensures ImagePrompt("generate image" + " of a mole") == "of a mole"
  {
    MoleIsImageRequest();
    StripOfMole();
    TrimOfMole();
  }

  lemma MoleIsImageRequest()
    ensures IsImageGeneration("generate image" + " of a mole")
  {
    var s := "generate image" + " of a mole";
    var lower := ToLower(s);
    assert lower[..14] == ToLower(s[..14]);
    assert s[..14] == "generate image";
    assert StartsWith(lower, "generate image");
  }

  lemma StripOfMole()
    ensures StripLeadIns("generate image" + " of a mole") == " of a mole"
  {
    var rest := " of a mole";
    var s := "generate image" + rest;
    assert s[..14] == "generate image";
    assert ToLower(s[..14]) == "generate image";
    assert MatchLength(s, RemovedPhrases) == 14;
    assert s[14..] == rest;
    NoLeadInOfMole();
    StripWithoutLeadIns(rest);
  }

  lemma TrimOfMole()
    ensures Trim(" of a mole") == "of a mole"
  {
    var rest := " of a mole";
    assert FirstNonSpace(rest, 1) == 1;
    assert FirstNonSpace(rest, 0) == 1;
    assert TextEnd(rest, 1, |rest|) == |rest|;
    assert rest[1..] == "of a mole";
  }

  lemma NoLeadInOfMole()
    ensures NoLeadInAnywhere(" of a mole")
  {
    var rest := " of a mole";
    forall i | 0 <= i < |rest| ensures MatchLength(rest[i..], RemovedPhrases) == 0 {
      assert rest[i..][0] == rest[i];
      NoMatchWithoutLeadLetter(rest[i..]);
    }
  }

  /** "generate image" alone falls back to the default prompt. */
  lemma PromptOfBareRequest()
    ensures IsImageGeneration("generate image")
    ensures ImagePrompt("generate image") == DefaultImagePrompt
  {
    var s := "generate image";
    assert ToLower(s)[..14] == "generate image";
    assert MatchLength(s, RemovedPhrases) == 14;
    assert s[14..] == "";
  }

  /**
   * The removal is a single pass: deleting "draw" from "drdrawaw" joins "dr"
   * and "aw" into a new "draw" that stays in the prompt.
   */
  lemma RemovalIsSinglePass()
    ensures StripLeadIns("drdrawaw") == "draw"
  {
    var s := "drdrawaw";
    NoMatchWithoutLeadLetter(s[1..]);
    NoMatchWithoutLeadLetter(s[7..]);
    NoMatchWithoutLeadLetter(s[6..]);
    assert MatchLength(s, RemovedPhrases) == 0 by {
      assert ToLower(s[..4]) == "drdr";
    }
    assert s[1..][1..] == s[2..];
    assert MatchLength(s[2..], RemovedPhrases) == 4 by {
      var ps := RemovedPhrases;
      assert s[2..][..4] == "draw";
      assert ToLower(s[2..][..4]) == "draw";
      assert !StartsWithIgnoringCase(s[2..], ps[0]) && !StartsWithIgnoringCase(s[2..], ps[1]);
      assert MatchLength(s[2..], ps[2..]) == 4;
    }
    assert s[2..][4..] == s[6..];
    assert s[6..][1..] == s[7..];
    assert s[7..][1..] == [];
  }

  /** `Math.floor(Math.random() * 10000)` for a draw `random` in [0, 1). */
  function Seed(random: real): (r: nat)
    requires 0.0 <= random < 1.0
    ensures r < 10000
  {
    (random * 10000.0).Floor
  }

  /** The image-rendering request: fixed 1024 x 1024 output, the "flux" model. */
  function ImageRequestFor(prompt: string, seed: nat): ImageRequest
  {
    ImageRequest(prompt, 1024, 1024, seed, "flux")
  }

  function ImageReplyText(prompt: string): string
  {
    "Here is the image you requested: **\"" + prompt + "\"**"
  }

  function ImageSpeechText(prompt: string): string
  {
    "Here is the image you requested: " + prompt
  }

  const ConnectionTrouble: string :=
    "I'm having trouble connecting. " +
    "Please check your internet or API " +
    "key."

  const ErrorApology: string := "I encountered an error. Please try " + "again."

  /** The text of the bot message that reports a failed request: the error's message, or a fallback. */
  function ErrorReplyText(message: string): string
  {
    if message != "" then message else ConnectionTrouble
  }
}
