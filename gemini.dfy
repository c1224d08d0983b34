/**
 * The Gemini client of src/services/gemini.js: the missing-key guard, the
 * model choice, the prompt, the split of a `data:<mime>;base64,<data>` image
 * URL (the form of section 3 of RFC 2397) and the error mapping. The SDK call
 * is the parameter `sdk`: it receives the request and either answers with
 * the response text or throws (with "" for an error without a message).
 */
module Gemini {
  import opened Wrappers
  import opened Strings

  const MissingKey: string := "API Key is missing. " + "Please add VITE_GEMINI_API_KEY " + "to your .env file."
  const QuotaExceeded: string := "Quota exceeded. " + "Please check your billing " + "or use a new API key."
  const InvalidKey: string := "Invalid API Key. " + "Please verify your .env file."
  const ErrorLead: string := "Gemini Error: "
  const InvalidFormat: string := "Invalid image format."
  const UnknownError: string := "Unknown " + "error occurred"

  const VisionModel: string := "gemini-1.5-flash"
  const TextModel: string := "gemini-pro"

  /** `imageBase64 ? "gemini-1.5-flash" : "gemini-pro"`. */
  function ModelFor(image: string): (r: string)
    ensures r == VisionModel <==> image != ""
    ensures r == TextModel <==> image == ""
  {
    if image != "" then VisionModel else TextModel
  }

  /** The fixed part of the prompt, one source line per piece, up to the user's query. */
  const Preamble: string :=
    "\n      You are **Dr. AI**, an empathetic, professional, and advanced virtual medical assistant. " +
    "\n      Your goal is to analyze the user's queries or images and provide helpful preliminary health insights, strictly as a first-aid and informational guide." +
    "\n" +
    "\n      **CRITICAL PROTOCOLS:**" +
    "\n      1. **Disclaimer First**: ALways start with a concise disclaimer: *\"I am an AI, not a doctor. Please consult a professional for medical advice.\"*" +
    "\n      2. **Structure**: " +
    "\n         - **Observation**: Briefly summarize what you see or understand." +
    "\n         - **Potential Causes**: List 2-3 possible reasons (medical or environmental)." +
    "\n         - **Immediate Relief**: Suggest safe, non-invasive first-aid steps." +
    "\n         - **Recommendation**: Advise if they should see a doctor immediately." +
    "\n      3. **Tone**: Be calm, reassuring, professional, and clear. Avoid jargon without explanation." +
    "\n" +
    "\n      "

  const QueryLead: string := "User Query: "
  const Gap: string := "\n      " + "\n      "
  const Closing: string := "\n    "

  /** The sentence asking for a visual examination, present when an image is sent. */
  const VisualNote: string :=
    "The user has provided an image " + "for visual analysis. " +
    "Carefully examine visible symptoms " + "(e.g., redness, swelling, rash)."

  /** The prompt up to the place of the visual note. */
  function QueryPart(text: string): string
  {
    Preamble + QueryLead + text + Gap
  }

  /** The template-string prompt: the query line, then the visual note when an image is sent. */
  function Prompt(text: string, hasImage: bool): string
  {
    (if hasImage then QueryPart(text) + VisualNote else QueryPart(text)) + Closing
  }

  /** Whatever precedes it, a note is followed by the closing exactly when it was put there. */
  lemma NoteBeforeClosing(q: string, note: string, closing: string)
    requires q != [] && note != [] && q[|q| - 1] != note[|note| - 1]
    ensures EndsWith(q + note + closing, note + closing)
    ensures !EndsWith(q + closing, note + closing)
  {
    assert q + note + closing == q + (note + closing);
    ConcatEnds(q, note + closing);
    var p := q + closing;
    if |note + closing| <= |p| {
      assert p[|p| - |closing| - 1] == q[|q| - 1];
      assert (note + closing)[|note| - 1] == note[|note| - 1];
      assert p[|p| - |note + closing|..][|note| - 1] == p[|p| - |closing| - 1];
    }
  }

  /**
   * The prompt quotes the query after "User Query: "; it carries the visual
   * note when an image is sent, and its closing line follows the visual note
   * exactly when an image is sent.
   */
  lemma PromptShape(text: string, hasImage: bool)
    ensures Contains(Prompt(text, hasImage), QueryLead + text)
    ensures hasImage ==> Contains(Prompt(text, hasImage), VisualNote)
    ensures EndsWith(Prompt(text, hasImage), VisualNote + Closing) <==> hasImage
  {
    var q := QueryPart(text);
    ContainsMiddle(Preamble, QueryLead + text, Gap);
    assert q == Preamble + (QueryLead + text) + Gap;
    assert Gap == "\n      \n      ";
    assert q[|q| - 1] == ' ';
    assert VisualNote[|VisualNote| - 1] == '.';
    NoteBeforeClosing(q, VisualNote, Closing);
    if hasImage {
      ContainsInLeft(q + VisualNote, Closing, QueryLead + text) by {
        ContainsInLeft(q, VisualNote, QueryLead + text);
      }
      ContainsMiddle(q, VisualNote, Closing);
    } else {
      ContainsInLeft(q, Closing, QueryLead + text);
    }
  }

  const DataPrefix: string := "data:"
  const Marker: string := ";base64,"

  /** The characters `.` does not match in a JavaScript regular expression without the `s` flag. */
  predicate IsLineTerminator(c: char)
  {
    c == '\n' || c == '\r' || c == '\U{2028}' || c == '\U{2029}'
  }

  predicate SingleLine(s: string)
  {
    forall i :: 0 <= i < |s| ==> !IsLineTerminator(s[i])
  }

  /** `;base64,` at position `k` leaves a non-empty MIME type before it and non-empty data after it. */
  predicate SplitsAt(s: string, k: int)
  {
    |DataPrefix| < k && k + |Marker| < |s| && OccursAt(s, Marker, k)
  }

  /** The parts of a data URL. */
  datatype DataUrl = DataUrl(mimeType: string, data: string)

  /** The largest split position not above `hi`. */
  function LastSplit(s: string, hi: int): (r: Option<nat>)
    ensures r.Some? ==> r.value <= hi && SplitsAt(s, r.value) && forall k :: r.value < k <= hi ==> !SplitsAt(s, k)
    ensures r.None? ==> forall k :: k <= hi ==> !SplitsAt(s, k)
    decreases hi
  {
    if hi <= |DataPrefix| then None
    else if SplitsAt(s, hi) then Some(hi)
    else LastSplit(s, hi - 1)
  }

  /**
   * `imageBase64.match(/^data:(.+);base64,(.+)$/)`. The whole string must be
   * one line; the first group is greedy, so the split is at the last
   * `;base64,` that still leaves data behind it.
   */
  function ParseDataUrl(s: string): (r: Option<DataUrl>)
    ensures r.Some? <==> StartsWith(s, DataPrefix) && SingleLine(s) && exists k :: SplitsAt(s, k)
    ensures r.Some? ==> r.value.mimeType != "" && r.value.data != "" &&
                        DataPrefix + r.value.mimeType + Marker + r.value.data == s
    ensures r.Some? ==> forall k :: SplitsAt(s, k) ==> k <= |DataPrefix| + |r.value.mimeType|
  {
    if StartsWith(s, DataPrefix) && SingleLine(s) then
      match LastSplit(s, |s| - |Marker| - 1)
      case None => None
      case Some(k) =>
        assert s == s[..5] + s[5..k] + s[k..k + 8] + s[k + 8..];
        Some(DataUrl(s[5..k], s[k + 8..]))
    else None
  }

  /**
   * Building a data URL and parsing it gives the parts back, for every
   * one-line MIME type (even one holding `;base64,` itself) and every
   * one-line data without `;`, as base64 data is.
   */
  lemma ParseDataUrlRoundTrip(mimeType: string, data: string)
    requires mimeType != "" && data != "" && SingleLine(mimeType) && SingleLine(data) && ';' !in data
    ensures ParseDataUrl(DataPrefix + mimeType + Marker + data) == Some(DataUrl(mimeType, data))
  {
    var s := DataPrefix + mimeType + Marker + data;
    var k0 := |DataPrefix| + |mimeType|;
    assert s == (DataPrefix + mimeType) + Marker + data;
    assert s[k0..k0 + |Marker|] == Marker;
    assert SplitsAt(s, k0);
    assert StartsWith(s, DataPrefix);
    forall i | 0 <= i < |s|
      ensures !IsLineTerminator(s[i])
    {
      if i < |DataPrefix| {
        assert s[i] == DataPrefix[i];
      } else if i < k0 {
        assert s[i] == mimeType[i - |DataPrefix|];
      } else if i < k0 + |Marker| {
        assert s[i] == Marker[i - k0];
      } else {
        assert s[i] == data[i - k0 - |Marker|];
      }
    }
    forall k | k0 < k
      ensures !SplitsAt(s, k)
    {
      if k + |Marker| < |s| {
        if k < k0 + |Marker| {
          assert s[k] == Marker[k - k0];
        } else {
          assert s[k] == data[k - k0 - |Marker|];
          assert s[k] in data;
        }
        assert s[k..k + |Marker|][0] == s[k] != Marker[0];
      }
    }
    var r := ParseDataUrl(s);
    assert r.Some?;
    assert |DataPrefix| + |r.value.mimeType| == k0;
    assert s[..k0] == DataPrefix + mimeType;
  }

  /** The request handed to the SDK: the model, the prompt and the image parts when an image is sent. */
  datatype Request = Request(model: string, prompt: string, inlineData: Option<DataUrl>)

  /** The request for a query and an optional image URL, or the format error for an image URL that does not parse. */
  function RequestFor(text: string, image: string): (r: Result<Request>)
    ensures r.Err? <==> image != "" && ParseDataUrl(image).None?
    ensures r.Err? ==> r.error == InvalidFormat
    ensures r.Ok? ==> r.value.model == ModelFor(image) && r.value.prompt == Prompt(text, image != "")
    ensures r.Ok? ==> (r.value.inlineData.Some? <==> image != "")
    ensures r.Ok? && image != "" ==> Some(r.value.inlineData.value) == ParseDataUrl(image)
  {
    if image != "" then
      match ParseDataUrl(image)
      case None => Err(InvalidFormat)
      case Some(d) => Ok(Request(ModelFor(image), Prompt(text, true), Some(d)))
    else Ok(Request(ModelFor(image), Prompt(text, false), None))
  }

  /**
   * The message of the error the client rethrows: "403" (in the message, or
   * in "Unknown error occurred" when there is none) means the quota, else
   * "key" means a bad key, else the message is reported as it is.
   */
  function MapError(message: string): (r: string)
    ensures |r| > 0 && (r[0] == 'Q' || r[0] == 'I' || r[0] == 'G')
  {
    var e := OrElse(message, UnknownError);
    if Contains(e, "403") then QuotaExceeded
    else if Contains(e, "key") then InvalidKey
    else ErrorLead + e
  }

  /** The three reports are told apart by the checks in their order: "403" before "key" before the rest. */
  lemma MapErrorCases(message: string)
    ensures var e := OrElse(message, UnknownError);
      (MapError(message) == QuotaExceeded <==> Contains(e, "403")) &&
      (MapError(message) == InvalidKey <==> !Contains(e, "403") && Contains(e, "key")) &&
      (!Contains(e, "403") && !Contains(e, "key") ==> MapError(message) == ErrorLead + e)
  {
    assert QuotaExceeded[0] == 'Q' && InvalidKey[0] == 'I' && ErrorLead[0] == 'G';
  }

  /** An image URL that does not parse, and a thrown error without a message, surface as generic Gemini errors. */
  lemma FormatErrorSurfaces()
    ensures MapError(InvalidFormat) == ErrorLead + InvalidFormat
    ensures MapError("") == ErrorLead + UnknownError
  {
    assert InvalidFormat[3] == 'a';
    MissingCharNotContained(InvalidFormat, "403", 0);
    MissingCharNotContained(InvalidFormat, "key", 2);
    assert UnknownError == "Unknown error occurred";
    MissingCharNotContained(UnknownError, "403", 0);
    MissingCharNotContained(UnknownError, "key", 2);
  }

  /** What the SDK does with a request: answer with the response text, or throw. */
  datatype SdkOutcome = Response(text: string) | Thrown(message: string)

  /** The reply: the response text, or the mapped error. */
  function Reply(outcome: SdkOutcome): (r: Result<string>)
    ensures r.Ok? <==> outcome.Response?
    ensures r.Ok? ==> r.value == outcome.text
    ensures r.Err? ==> r.error != MissingKey
  {
    assert MissingKey[0] == 'A';
    match outcome
    case Response(text) => Ok(text)
    case Thrown(message) => Err(MapError(message))
  }

  /** `generateMedicalAdvice`: the missing key fails before anything else; every later failure is mapped. */
  function Advice(apiKey: string, text: string, image: string, sdk: Request -> SdkOutcome): Result<string>
  {
    if apiKey == "" then Err(MissingKey)
    else
      match RequestFor(text, image)
      case Err(e) => Err(MapError(e))
      case Ok(request) => Reply(sdk(request))
  }

  /**
   * Without a key the SDK is never consulted and the error is not rewritten;
   * with a key, an image URL that does not parse never reaches the SDK and
   * is reported as a Gemini error.
   */
  lemma AdviceGuards(text: string, image: string, sdk1: Request -> SdkOutcome, sdk2: Request -> SdkOutcome)
    ensures Advice("", text, image, sdk1) == Advice("", text, image, sdk2) == Err(MissingKey)
    ensures forall apiKey :: apiKey != "" && image != "" && ParseDataUrl(image).None? ==>
      Advice(apiKey, text, image, sdk1) == Advice(apiKey, text, image, sdk2) == Err(ErrorLead + InvalidFormat)
  {
    FormatErrorSurfaces();
  }
}
