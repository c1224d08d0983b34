/**
 * The spoken-reply rules of src/App.jsx: which of the installed voices reads a
 * reply, and what text is read.
 */
module Speech {
  import opened Wrappers
  import opened Strings
  import opened Sanitize

  /** An installed speech-synthesis voice. */
  datatype Voice = Voice(name: string, lang: string)

  /** A voice the reader prefers: a Google US English or Samantha voice, or any en-US voice. */
  predicate IsPreferred(v: Voice)
  {
    Contains(v.name, "Google US English") || Contains(v.name, "Samantha") || StartsWith(v.lang, "en-US")
  }

  /** `voices[i]` is the first preferred voice of the list. */
  predicate IsFirstPreferred(voices: seq<Voice>, i: int)
  {
    0 <= i < |voices| && IsPreferred(voices[i]) && forall j :: 0 <= j < i ==> !IsPreferred(voices[j])
  }

  /** `voices.find(...)`: the first preferred voice in the engine's list. */
  function PreferredVoice(voices: seq<Voice>): (r: Option<Voice>)
    ensures r.None? <==> forall i :: 0 <= i < |voices| ==> !IsPreferred(voices[i])
    ensures r.Some? ==> exists i :: IsFirstPreferred(voices, i) && voices[i] == r.value
  {
    if voices == [] then None
    else if IsPreferred(voices[0]) then Some(voices[0])
    else
      var r := PreferredVoice(voices[1..]);
      assert forall i :: 1 <= i < |voices| ==> voices[i] == voices[1..][i - 1];
      assert forall i :: IsFirstPreferred(voices[1..], i) ==> IsFirstPreferred(voices, i + 1);
      r
  }

  /**
   * The utterance handed to the engine: the cleaned text, the message it
   * reads (None for speech not tied to a message) and the chosen voice
   * (None leaves the engine's default). Rate, pitch and volume are all 1.
   */
  datatype Utterance = Utterance(text: string, messageId: Option<int>, voice: Option<Voice>)

  function MakeUtterance(text: string, messageId: Option<int>, voices: seq<Voice>): (u: Utterance)
    ensures forall i :: 0 <= i < |u.text| ==> !IsMarker(u.text[i])
    ensures u.voice.Some? ==> IsPreferred(u.voice.value) && u.voice.value in voices
    ensures u.voice.None? ==> forall v :: v in voices ==> !IsPreferred(v)
    ensures u.messageId == messageId
    ensures u.text == SpeechText(text) && u.voice == PreferredVoice(voices)
  {
    Utterance(SpeechText(text), messageId, PreferredVoice(voices))
  }

  /** An en-US voice is chosen over an earlier voice of another language only if nothing before it is preferred. */
  lemma FirstPreferredWins(other: Voice, us: Voice)
    requires IsPreferred(us) && !IsPreferred(other)
    ensures PreferredVoice([other, us]) == Some(us)
  {
    assert [other, us][1..] == [us];
  }
}
