/**
 * The Groq chat client of src/services/groq.js: the missing-key guard, the
 * system prompt with its optional patient-context block, the chat history
 * mapping, the user turn, the model choice, the reply fallback and the error
 * mapping. The SDK call is the parameter `sdk`: it receives the request and
 * either completes (with "" for absent content) or throws (with "" for an
 * error without a message).
 */
module Groq {
  import opened Wrappers
  import opened Strings
  import opened Types
  import opened Seqs

  const MissingKey: string := "API Key is missing. " + "Please check your .env file."
  const InvalidKey: string := "Invalid API Key. " + "Please verify your .env file."
  const NoResponse: string := "No response received."
  const UnknownError: string := "Unknown error occurred"

  const Persona: string :=
    "You are **Dr. AI**, an empathetic and professional virtual medical assistant."

  const ContextHeader: string := "\n\n**PATIENT CONTEXT**:"

  const ContextNote: string :=
    "\n      \n      *Please take this patient context into account when providing advice.*"

  /** The instructions, one source line per piece. */
  const Instructions: string :=
    "\n\n**INSTRUCTIONS:**" +
    "\n      1. **For Medical Queries/Symptoms**: strictly follow this structure:" +
    "\n         - **Observation**: Summary of the issue." +
    "\n         - **Potential Causes**: Possible reasons." +
    "\n         - **Immediate Relief**: First-aid steps." +
    "\n         - **Recommendation**: Medical advice (and disclaimer)." +
    "\n" +
    "\n      2. **For Image Analysis**: " +
    "\n         - **If the user provides an image**: Analyze it carefully. " +
    "\n         - If it shows a medical symptom/issue, use the **Medical Query** structure (Observation, Causes, Relief, Recommendation)." +
    "\n         - If it is a general image, describing it naturally." +
    "\n" +
    "\n      3. **For General Chat/Questions** (e.g., \"Hello\", \"Who are you?\", \"How does an X-ray work?\"): " +
    "\n         - **Respond naturally** and directly to the question. " +
    "\n         - **DO NOT** use the medical structure (Observation/Causes/etc.) for general conversation." +
    "\n         - Be helpful, polite, and engaging." +
    "\n" +
    "\n      **Tone**: Calm, reassuring, and professional. Always prioritize patient safety."

  const VisionModel: string := "meta-llama/llama-4-scout-17b-16e-instruct"
  const TextModel: string := "llama-3.3-70b-versatile"

  /** The profile carries context when its name, age or medical history is filled in; the gender alone does not count. */
  predicate HasPatientContext(p: Profile)
  {
    p.name != "" || p.age != "" || p.medicalHistory != ""
  }

  /** One line of the patient-context block: the field's value, or the fallback when it is missing. */
  function Field(name: string, value: string, fallback: string): string
  {
    "\n      - " + name + ": " + OrElse(value, fallback)
  }

  /** The patient-context block, with "Unknown" or "None provided" for missing fields. */
  function ContextBlock(p: Profile): string
  {
    ContextHeader +
    Field("Name", p.name, "Unknown") +
    Field("Age", p.age, "Unknown") +
    Field("Gender", p.gender, "Unknown") +
    Field("Medical History", p.medicalHistory, "None provided") +
    ContextNote
  }

  /** The system prompt: the persona, the context block when there is context, the instructions. */
  function SystemPrompt(p: Profile): string
  {
    (if HasPatientContext(p) then Persona + ContextBlock(p) else Persona) + Instructions
  }

  /**
   * The system prompt always opens with the persona and closes with the
   * instructions, and the patient-context block follows the persona exactly
   * when the profile has context.
   */
  lemma SystemPromptShape(p: Profile)
    ensures StartsWith(SystemPrompt(p), Persona) && EndsWith(SystemPrompt(p), Instructions)
    ensures StartsWith(SystemPrompt(p), Persona + ContextHeader) <==> HasPatientContext(p)
  {
    if HasPatientContext(p) {
      var front := Persona + ContextBlock(p);
      ConcatEnds(front, Instructions);
      ConcatEnds(Persona, ContextBlock(p));
      StartsWithTransitive(SystemPrompt(p), front, Persona);
      ContextBlockStart(p);
      StartsWithBehind(Persona, ContextBlock(p), ContextHeader);
      StartsWithTransitive(SystemPrompt(p), front, Persona + ContextHeader);
    } else {
      ConcatEnds(Persona, Instructions);
      PromptsDiffer(Persona, Instructions, ContextHeader);
    }
  }

  lemma ContextBlockStart(p: Profile)
    ensures StartsWith(ContextBlock(p), ContextHeader)
  {
    var f1 := Field("Name", p.name, "Unknown");
    var f2 := Field("Age", p.age, "Unknown");
    var f3 := Field("Gender", p.gender, "Unknown");
    var f4 := Field("Medical History", p.medicalHistory, "None provided");
    ConcatEnds(ContextHeader, f1);
    ConcatEnds(ContextHeader + f1, f2);
    ConcatEnds(ContextHeader + f1 + f2, f3);
    ConcatEnds(ContextHeader + f1 + f2 + f3, f4);
    ConcatEnds(ContextHeader + f1 + f2 + f3 + f4, ContextNote);
    StartsWithTransitive(ContextHeader + f1 + f2, ContextHeader + f1, ContextHeader);
    StartsWithTransitive(ContextHeader + f1 + f2 + f3, ContextHeader + f1 + f2, ContextHeader);
    StartsWithTransitive(ContextHeader + f1 + f2 + f3 + f4, ContextHeader + f1 + f2 + f3, ContextHeader);
    StartsWithTransitive(ContextBlock(p), ContextHeader + f1 + f2 + f3 + f4, ContextHeader);
  }

  lemma PromptsDiffer(a: string, instructions: string, header: string)
    requires instructions == Instructions && header == ContextHeader
    ensures !StartsWith(a + instructions, a + header)
  {
    assert instructions[4] == 'I';
    assert header[4] == 'P';
    assert (a + instructions)[|a| + 4] == 'I';
    assert (a + header)[|a| + 4] == 'P';
  }

  /**
   * With context, the system prompt shows every field of the profile, missing
   * ones as "Unknown" (or "None provided" for the medical history).
   */
  lemma ContextShowsFields(p: Profile)
    requires HasPatientContext(p)
    ensures Contains(SystemPrompt(p), Field("Name", p.name, "Unknown"))
    ensures Contains(SystemPrompt(p), Field("Age", p.age, "Unknown"))
    ensures Contains(SystemPrompt(p), Field("Gender", p.gender, "Unknown"))
    ensures Contains(SystemPrompt(p), Field("Medical History", p.medicalHistory, "None provided"))
  {
    var f1 := Field("Name", p.name, "Unknown");
    var f2 := Field("Age", p.age, "Unknown");
    var f3 := Field("Gender", p.gender, "Unknown");
    var f4 := Field("Medical History", p.medicalHistory, "None provided");
    ContainsSelf(f1);
    ContainsInRight(ContextHeader, f1, f1);
    ContainsInLeft(ContextHeader + f1, f2, f1);
    ContainsInLeft(ContextHeader + f1 + f2, f3, f1);
    ContainsInLeft(ContextHeader + f1 + f2 + f3, f4, f1);
    ContainsInLeft(ContextHeader + f1 + f2 + f3 + f4, ContextNote, f1);
    InPrompt(p, f1);
    ContainsSelf(f2);
    ContainsInRight(ContextHeader + f1, f2, f2);
    ContainsInLeft(ContextHeader + f1 + f2, f3, f2);
    ContainsInLeft(ContextHeader + f1 + f2 + f3, f4, f2);
    ContainsInLeft(ContextHeader + f1 + f2 + f3 + f4, ContextNote, f2);
    InPrompt(p, f2);
    ContainsSelf(f3);
    ContainsInRight(ContextHeader + f1 + f2, f3, f3);
    ContainsInLeft(ContextHeader + f1 + f2 + f3, f4, f3);
    ContainsInLeft(ContextHeader + f1 + f2 + f3 + f4, ContextNote, f3);
    InPrompt(p, f3);
    ContainsSelf(f4);
    ContainsInRight(ContextHeader + f1 + f2 + f3, f4, f4);
    ContainsInLeft(ContextHeader + f1 + f2 + f3 + f4, ContextNote, f4);
    InPrompt(p, f4);
  }

  /** Whatever the context block shows, the system prompt shows when there is context. */
  lemma InPrompt(p: Profile, sub: string)
    requires HasPatientContext(p) && Contains(ContextBlock(p), sub)
    ensures Contains(SystemPrompt(p), sub)
  {
    ContainsInRight(Persona, ContextBlock(p), sub);
    ContainsInLeft(Persona + ContextBlock(p), Instructions, sub);
  }

  /** The speakers of the chat API. */
  datatype ChatRole = SystemRole | UserRole | AssistantRole

  /** A part of a multi-part user turn. */
  datatype Part = TextPart(text: string) | ImageUrl(url: string)

  /** A message's content: plain text, or a list of parts. */
  datatype Content = Plain(text: string) | Parts(parts: seq<Part>)

  datatype ChatMessage = ChatMessage(role: ChatRole, content: Content)

  /** How a stored message enters the history: a user message as the user, anything else as the assistant. */
  function Mapped(m: Message): ChatMessage
  {
    ChatMessage(if m.role == User then UserRole else AssistantRole, Plain(m.text))
  }

  /** Every history message mapped, in order. */
  function MapAll(history: seq<Message>): (r: seq<ChatMessage>)
    ensures |r| == |history|
    ensures forall i :: 0 <= i < |history| ==> r[i] == Mapped(history[i])
  {
    if history == [] then [] else MapAll(history[..|history| - 1]) + [Mapped(history[|history| - 1])]
  }

  /** The history part of the request: only messages with text, mapped, in order. */
  function MapHistory(history: seq<Message>): (r: seq<ChatMessage>)
    ensures IsSubsequence(r, MapAll(history))
    ensures forall i :: 0 <= i < |r| ==> r[i].role != SystemRole && r[i].content.Plain? && r[i].content.text != ""
  {
    if history == [] then []
    else
      var front := history[..|history| - 1];
      var last := history[|history| - 1];
      var rest := MapHistory(front);
      assert MapAll(history) == MapAll(front) + [Mapped(last)];
      AppendSubsequence(rest, MapAll(front), Mapped(last));
      if last.text != "" then rest + [Mapped(last)] else rest
  }

  /** The history keeps exactly the messages with text: an empty reply or an empty turn is dropped, nothing else is. */
  lemma {:induction false} MapHistoryMembers(history: seq<Message>)
    ensures forall c :: c in MapHistory(history) <==> exists m :: m in history && m.text != "" && c == Mapped(m)
    decreases |history|
  {
    if history != [] {
      var front := history[..|history| - 1];
      var last := history[|history| - 1];
      MapHistoryMembers(front);
      assert history == front + [last];
      assert forall m :: m in history <==> m in front || m == last;
    }
  }

  lemma {:induction false} AppendSubsequence<T>(a: seq<T>, b: seq<T>, x: T)
    requires IsSubsequence(a, b)
    ensures IsSubsequence(a, b + [x]) && IsSubsequence(a + [x], b + [x])
    decreases |b|
  {
    if b == [] {
      assert a == [];
      assert IsSubsequence([x], [x]) by { assert IsSubsequence([x][1..], [x][1..]); }
    } else {
      assert (b + [x])[1..] == b[1..] + [x];
      if a == [] {
        AppendSubsequence(a, b[1..], x);
        assert (a + [x]) == [x];
      } else if a[0] == b[0] && IsSubsequence(a[1..], b[1..]) {
        AppendSubsequence(a[1..], b[1..], x);
        assert (a + [x])[1..] == a[1..] + [x];
      } else {
        AppendSubsequence(a, b[1..], x);
      }
    }
  }

  /** Mapping a longer history extends the mapped list: a reply never reorders what came before. */
  lemma {:induction false} MapHistoryAppend(a: seq<Message>, b: seq<Message>)
    ensures MapHistory(a + b) == MapHistory(a) + MapHistory(b)
    decreases |b|
  {
    if b == [] {
      assert a + b == a;
    } else {
      assert (a + b)[..|a + b| - 1] == a + b[..|b| - 1];
      MapHistoryAppend(a, b[..|b| - 1]);
    }
  }

  /** The parts of the user turn: the query, then the image when there is one. */
  function UserParts(text: string, image: string): (r: seq<Part>)
    ensures 1 <= |r| <= 2 && r[0] == TextPart("User Query: " + text)
    ensures |r| == 2 <==> image != ""
    ensures |r| == 1 || r[1] == ImageUrl(image)
  {
    if image != "" then [TextPart("User Query: " + text), ImageUrl(image)] else [TextPart("User Query: " + text)]
  }

  /** The outgoing message list: the system prompt, the mapped history, the user turn. */
  function ChatMessages(text: string, image: string, history: seq<Message>, p: Profile): seq<ChatMessage>
  {
    [ChatMessage(SystemRole, Plain(SystemPrompt(p)))] + MapHistory(history) +
    [ChatMessage(UserRole, Parts(UserParts(text, image)))]
  }

  /** The only system message is the first, and the user turn is the last message. */
  lemma ChatMessagesShape(text: string, image: string, history: seq<Message>, p: Profile)
    ensures var ms := ChatMessages(text, image, history, p);
      |ms| == |MapHistory(history)| + 2 &&
      ms[0] == ChatMessage(SystemRole, Plain(SystemPrompt(p))) &&
      ms[|ms| - 1] == ChatMessage(UserRole, Parts(UserParts(text, image))) &&
      forall i :: 0 < i < |ms| ==> ms[i].role != SystemRole
  {
  }

  /** The completion request: the vision model when an image is sent, else the text model. */
  datatype ChatRequest = ChatRequest(messages: seq<ChatMessage>, model: string, temperature: real,
                                     maxTokens: nat, topP: real, stream: bool)

  function ModelFor(image: string): (r: string)
    ensures r == VisionModel <==> image != ""
  {
    if image != "" then VisionModel else TextModel
  }

  function RequestFor(messages: seq<ChatMessage>, image: string): ChatRequest
  {
    ChatRequest(messages, ModelFor(image), 0.5, 1024, 1.0, false)
  }

  /** What the SDK call does: complete with the content of the first choice ("" when absent), or throw. */
  datatype SdkOutcome = Completion(content: string) | Thrown(message: string)

  /**
   * The message of the error the client rethrows: "401" in the message (or in
   * "Unknown error occurred" when there is none) means a bad key, anything
   * else is reported as an overload with the original message in brackets.
   */
  function MapError(message: string): (r: string)
  {
    var e := OrElse(message, UnknownError);
    if Contains(e, "401") then InvalidKey else Overloaded(e)
  }

  const OverloadedLead: string := "Dr. AI is currently overloaded " + "or experiencing a network issue. ("

  /** The overload report, quoting the original message. */
  function Overloaded(e: string): (r: string)
    ensures |r| > 0 && r[0] == 'D' && Contains(r, e)
  {
    var r := OverloadedLead + e + ")";
    assert r[0] == OverloadedLead[0];
    ContainsSelf(e);
    ContainsInRight(OverloadedLead, e, e);
    ContainsInLeft(OverloadedLead + e, ")", e);
    r
  }

  /** A bad-key report comes exactly from messages mentioning 401; every other report quotes the message. */
  lemma MapErrorCases(message: string)
    ensures MapError(message) == InvalidKey <==> Contains(message, "401")
    ensures !Contains(message, "401") && message != "" ==> Contains(MapError(message), message)
  {
    assert UnknownError == "Unknown " + "error occurred";
    MissingCharNotContained(UnknownError, "401", 0);
    assert InvalidKey[0] == 'I';
  }

  /** The reply: the completion's content, "No response received." for an empty one, the mapped error for a throw. */
  function Reply(outcome: SdkOutcome): (r: Result<string>)
    ensures r.Ok? <==> outcome.Completion?
    ensures r.Ok? ==> r.value != ""
    ensures outcome.Completion? ==> r.value == (if outcome.content == "" then NoResponse else outcome.content)
    ensures outcome.Thrown? ==> r.error == MapError(outcome.message) && r.error != MissingKey
  {
    match outcome
    case Completion(content) => Ok(OrElse(content, NoResponse))
    case Thrown(message) => Err(MapError(message))
  }

  /** `generateMedicalAdvice` as one value: the missing key fails before any request is built. */
  function Advice(apiKey: string, text: string, image: string, history: seq<Message>, p: Profile,
                  sdk: ChatRequest -> SdkOutcome): Result<string>
  {
    if apiKey == "" then Err(MissingKey)
    else Reply(sdk(RequestFor(ChatMessages(text, image, history, p), image)))
  }

  /**
   * Without a key the SDK is never consulted, and the missing-key error is
   * not rewritten by the error mapping.
   */
  lemma MissingKeyFirst(text: string, image: string, history: seq<Message>, p: Profile,
                        sdk1: ChatRequest -> SdkOutcome, sdk2: ChatRequest -> SdkOutcome)
    ensures Advice("", text, image, history, p, sdk1) == Advice("", text, image, history, p, sdk2) == Err(MissingKey)
    ensures MapError(MissingKey) != MissingKey
  {
    assert InvalidKey[0] == 'I' && MissingKey[0] == 'A';
  }

  /**
   * The request assembly: the system content by concatenation, then the
   * history pushed one message at a time, then the user turn.
   */
  method BuildMessages(text: string, image: string, history: seq<Message>, p: Profile)
    returns (messages: seq<ChatMessage>)
    ensures messages == ChatMessages(text, image, history, p)
  {
    var systemContent := Persona;
    if HasPatientContext(p) {
      systemContent := systemContent + ContextBlock(p);
    }
    systemContent := systemContent + Instructions;
    assert systemContent == SystemPrompt(p);
    var system := ChatMessage(SystemRole, Plain(systemContent));
    messages := [system];
    var i := 0;
    assert history[..0] == [];
    while i < |history|
      invariant 0 <= i <= |history|
      invariant messages == [system] + MapHistory(history[..i])
    {
      assert MapHistory(history[..i + 1]) ==
        if history[i].text != "" then MapHistory(history[..i]) + [Mapped(history[i])] else MapHistory(history[..i])
      by {
        assert history[..i + 1][..i] == history[..i];
      }
      if history[i].text != "" {
        messages := messages + [Mapped(history[i])];
      }
      i := i + 1;
    }
    assert history[..i] == history;
    var userContent := [TextPart("User Query: " + text)];
    if image != "" {
      userContent := userContent + [ImageUrl(image)];
      assert userContent == [TextPart("User Query: " + text), ImageUrl(image)];
    }
    messages := messages + [ChatMessage(UserRole, Parts(userContent))];
  }

  /** `generateMedicalAdvice`. */
  method GenerateMedicalAdvice(apiKey: string, text: string, image: string, history: seq<Message>,
                               p: Profile, sdk: ChatRequest -> SdkOutcome)
    returns (r: Result<string>)
    ensures r == Advice(apiKey, text, image, history, p, sdk)
  {
    if apiKey == "" {
      return Err(MissingKey);
    }
    var messages := BuildMessages(text, image, history, p);
    var outcome := sdk(RequestFor(messages, image));
    r := Reply(outcome);
  }
}
