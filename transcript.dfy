/**
 * The speech-recognition result handler of src/App.jsx: the transcripts of
 * the results from `resultIndex` on are split into the final and the interim
 * text, and a non-empty final text is appended to the target buffer.
 */
module Transcript {

  /** One recognition result: its best transcript and whether it is final. */
  datatype Fragment = Fragment(transcript: string, isFinal: bool)

  /** The concatenated transcripts of the final results, in order. */
  function Finals(results: seq<Fragment>): string
  {
    if results == [] then ""
    else
      var last := results[|results| - 1];
      Finals(results[..|results| - 1]) + (if last.isFinal then last.transcript else "")
  }

  /** The concatenated transcripts of the results that are not yet final, in order. */
  function Interims(results: seq<Fragment>): string
  {
    if results == [] then ""
    else
      var last := results[|results| - 1];
      Interims(results[..|results| - 1]) + (if last.isFinal then "" else last.transcript)
  }

  /** The final text of two batches of results is the final text of each, one after the other. */
  lemma {:induction false} FinalsAppend(a: seq<Fragment>, b: seq<Fragment>)
    ensures Finals(a + b) == Finals(a) + Finals(b)
    decreases |b|
  {
    if b == [] {
      assert a + b == a;
    } else {
      assert (a + b)[..|a + b| - 1] == a + b[..|b| - 1];
      FinalsAppend(a, b[..|b| - 1]);
    }
  }

  /** Results that are all interim contribute no final text. */
  lemma {:induction false} NoFinalsNoText(results: seq<Fragment>)
    requires forall i :: 0 <= i < |results| ==> !results[i].isFinal
    ensures Finals(results) == ""
    decreases |results|
  {
    if results != [] {
      NoFinalsNoText(results[..|results| - 1]);
    }
  }

  /**
   * The accumulation loop of the result handler: every result from
   * `resultIndex` to the end is added to the final or the interim text.
   */
  method CollectTranscripts(results: seq<Fragment>, resultIndex: nat) returns (final: string, interim: string)
    ensures resultIndex <= |results| ==>
      final == Finals(results[resultIndex..]) && interim == Interims(results[resultIndex..])
    ensures resultIndex > |results| ==> final == "" && interim == ""
  {
    final, interim := "", "";
    var i := resultIndex;
    if i > |results| {
      return;
    }
    while i < |results|
      invariant resultIndex <= i <= |results|
      invariant final == Finals(results[resultIndex..i])
      invariant interim == Interims(results[resultIndex..i])
    {
      assert results[resultIndex..i + 1][..i - resultIndex] == results[resultIndex..i];
      if results[i].isFinal {
        final := final + results[i].transcript;
      } else {
        interim := interim + results[i].transcript;
      }
      i := i + 1;
    }
    assert results[resultIndex..i] == results[resultIndex..];
  }

  /** `prev + (prev ? ' ' : '') + final`: a separating space only after non-empty text. */
  function AppendTranscript(buffer: string, final: string): (r: string)
    ensures buffer == "" ==> r == final
    ensures buffer != "" ==> |r| == |buffer| + 1 + |final| && r[..|buffer|] == buffer && r[|buffer|] == ' '
    ensures r[|r| - |final|..] == final
  {
    buffer + (if buffer != "" then " " else "") + final
  }

  /**
   * Dictating in two pieces gives the same buffer as dictating them at once
   * with a space between them.
   */
  lemma AppendTwice(buffer: string, first: string, second: string)
    requires first != ""
    ensures AppendTranscript(AppendTranscript(buffer, first), second) == AppendTranscript(buffer, first + " " + second)
  {
    assert AppendTranscript(buffer, first) != "";
  }
}
