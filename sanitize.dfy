/**
 * The two text cleaners of src/App.jsx: the one applied before a reply is
 * spoken (markdown markers removed, `[name](target)` links reduced to their
 * name) and the one applied before a message is written into the PDF report
 * (markers removed, then everything outside printable ASCII and line feed).
 */
module Sanitize {
  import opened Wrappers
  import opened Seqs

  /** The characters of a one-character class `[...]` removed by a global replace with ''. */
  function Keep(s: string, keep: char -> bool): (r: string)
    ensures |r| <= |s|
    ensures forall c :: c in r <==> c in s && keep(c)
    ensures IsSubsequence(r, s)
    decreases |s|
  {
    if s == [] then []
    else
      var rest := Keep(s[1..], keep);
      assert [s[0]] + s[1..] == s;
      SubsequenceOfCons(s[0], rest, s[1..]);
      assert forall c :: c in s <==> c == s[0] || c in s[1..];
      if keep(s[0]) then [s[0]] + rest else rest
  }

  /** Filtering distributes over concatenation. */
  lemma {:induction false} KeepAppend(a: string, b: string, keep: char -> bool)
    ensures Keep(a + b, keep) == Keep(a, keep) + Keep(b, keep)
    decreases |a|
  {
    if a != [] {
      assert (a + b)[1..] == a[1..] + b;
      KeepAppend(a[1..], b, keep);
    } else {
      assert a + b == b;
    }
  }

  /** Filtering leaves a string unchanged exactly when every character is kept. */
  lemma {:induction false} KeepFixedIff(s: string, keep: char -> bool)
    ensures Keep(s, keep) == s <==> forall i :: 0 <= i < |s| ==> keep(s[i])
    decreases |s|
  {
    if s != [] {
      KeepFixedIff(s[1..], keep);
      if !keep(s[0]) {
        assert |Keep(s, keep)| <= |s[1..]|;
      }
      assert forall i :: 1 <= i < |s| ==> s[i] == s[1..][i - 1];
    }
  }

  /** The markdown markers the cleaners remove: `*`, `#`, `_` and the backtick. */
  predicate IsMarker(c: char)
  {
    c == '*' || c == '#' || c == '_' || c == '`'
  }

  /** `text.replace(/[*#_`]/g, '')`. */
  function StripMarkers(s: string): (r: string)
    ensures forall i :: 0 <= i < |r| ==> !IsMarker(r[i])
    ensures forall c :: c in r <==> c in s && !IsMarker(c)
  {
    var r := Keep(s, c => !IsMarker(c));
    assert forall i :: 0 <= i < |r| ==> r[i] in r;
    r
  }

  /** The position of the first `c` in `s`, if any. */
  function IndexOf(s: string, c: char): (r: Option<nat>)
    ensures r.None? <==> c !in s
    ensures r.Some? ==> r.value < |s| && s[r.value] == c && c !in s[..r.value]
  {
    if s == [] then None
    else if s[0] == c then Some(0)
    else match IndexOf(s[1..], c)
      case None => None
      case Some(i) =>
        assert s[..i + 1] == [s[0]] + s[1..][..i];
        Some(i + 1)
  }

  /** The first occurrence is found: `IndexOf` settles on the position before which `c` does not occur. */
  lemma IndexOfFirst(s: string, c: char, k: nat)
    requires k < |s| && s[k] == c && c !in s[..k]
    ensures IndexOf(s, c) == Some(k)
  {
    assert s[k] in s;
    var j := IndexOf(s, c).value;
    assert forall i :: 0 <= i < k ==> s[i] in s[..k];
    assert forall i :: 0 <= i < j ==> s[i] in s[..j];
  }

  /**
   * A match of `\[([^\]]+)\]\([^)]+\)` at the start of `s`: the label runs to
   * the first `]`, which must be followed by `(`; the target runs to the first
   * `)`. Both must be non-empty. The result is the label's end and the match's
   * length; since neither class can cross its closing bracket, the match is
   * unique when it exists.
   */
  function LinkAt(s: string): (r: Option<(nat, nat)>)
    ensures r.Some? ==> 2 <= r.value.0 < r.value.0 + 3 < r.value.1 <= |s|
    ensures r.Some? ==> s[0] == '[' && s[r.value.0] == ']' && s[r.value.0 + 1] == '(' && s[r.value.1 - 1] == ')'
  {
    if |s| < 5 || s[0] != '[' then None
    else match IndexOf(s[1..], ']')
      case None => None
      case Some(k) =>
        if k == 0 || 1 + k + 2 >= |s| || s[1 + k + 1] != '(' then None
        else match IndexOf(s[1 + k + 2..], ')')
          case None => None
          case Some(m) => if m == 0 then None else Some((1 + k, 1 + k + 2 + m + 1))
  }

  /**
   * `text.replace(/\[([^\]]+)\]\([^)]+\)/g, '$1')`: scanning from the left,
   * each link is replaced by its label and the scan resumes after it.
   */
  function CollapseLinks(s: string): (r: string)
    ensures |r| <= |s|
    ensures forall c :: c in r ==> c in s
    decreases |s|
  {
    if s == [] then []
    else match LinkAt(s)
      case Some(link) =>
        var rest := CollapseLinks(s[link.1..]);
        assert forall c :: c in s[1..link.0] ==> c in s;
        assert forall c :: c in s[link.1..] ==> c in s;
        s[1..link.0] + rest
      case None =>
        var rest := CollapseLinks(s[1..]);
        assert forall c :: c in s[1..] ==> c in s;
        [s[0]] + rest
  }

  /** A link made of a non-empty label without `]` and a non-empty target without `)` collapses to its label. */
  lemma LinkCollapses(name: string, target: string, rest: string)
    requires name != [] && ']' !in name
    requires target != [] && ')' !in target
    ensures CollapseLinks("[" + name + "](" + target + ")" + rest) == name + CollapseLinks(rest)
  {
    var s := "[" + name + "](" + target + ")" + rest;
    var k, m := |name|, |target|;
    var end := k + 3 + m + 1;
    assert s[1..k + 1] == name;
    assert s[k + 3..k + 3 + m] == target;
    LinkMatches(s, k, m);
    assert s[1..1 + |name|] == name;
    assert s[end..] == rest;
  }

  /** The conditions under which a link starts `s`: label `s[1..1 + k]`, target `s[k + 3..k + 3 + m]`. */
  lemma LinkMatches(s: string, k: nat, m: nat)
    requires 1 <= k && 1 <= m && k + 3 + m < |s|
    requires s[0] == '[' && s[k + 1] == ']' && s[k + 2] == '(' && s[k + 3 + m] == ')'
    requires ']' !in s[1..k + 1] && ')' !in s[k + 3..k + 3 + m]
    ensures LinkAt(s) == Some((k + 1, k + 3 + m + 1))
  {
    var inner := s[1..];
    assert inner[k] == ']' && inner[..k] == s[1..k + 1];
    IndexOfFirst(inner, ']', k);
    var target := s[1 + k + 2..];
    assert target[m] == ')' && target[..m] == s[k + 3..k + 3 + m];
    IndexOfFirst(target, ')', m);
    assert !(|s| < 5 || s[0] != '[');
    assert IndexOf(s[1..], ']') == Some(k);
    assert !(k == 0 || 1 + k + 2 >= |s| || s[1 + k + 1] != '(');
    assert IndexOf(s[1 + k + 2..], ')') == Some(m);
  }

  /** Text without `[` has no link and is left as it is. */
  lemma {:induction false} NoBracketUnchanged(s: string)
    requires '[' !in s
    ensures CollapseLinks(s) == s
    decreases |s|
  {
    if s != [] {
      assert '[' !in s[1..];
      NoBracketUnchanged(s[1..]);
    }
  }

  /** The text handed to the speech engine: markers stripped, then links collapsed. */
  function SpeechText(text: string): (r: string)
    ensures forall i :: 0 <= i < |r| ==> !IsMarker(r[i])
    ensures forall c :: c in r ==> c in text
  {
    var stripped := StripMarkers(text);
    var r := CollapseLinks(stripped);
    assert forall i :: 0 <= i < |r| ==> r[i] in r;
    r
  }

  /** A link whose label and target carry no markers is spoken as its bare label. */
  lemma SpokenLink(name: string, target: string)
    requires name != [] && ']' !in name
    requires target != [] && ')' !in target
    requires forall i :: 0 <= i < |name| ==> !IsMarker(name[i])
    requires forall i :: 0 <= i < |target| ==> !IsMarker(target[i])
    ensures SpeechText("[" + name + "](" + target + ")") == name
  {
    var s := "[" + name + "](" + target + ")";
    KeepFixedIff(s, c => !IsMarker(c));
    assert StripMarkers(s) == s;
    LinkCollapses(name, target, "");
    assert s + "" == s;
  }

  /** The characters `[^\x20-\x7E\n]` does not match: printable ASCII and line feed. */
  predicate PdfSafe(c: char)
  {
    ' ' <= c <= '~' || c == '\n'
  }

  /** The text written into the PDF report: markers stripped, then every other character outside printable ASCII and line feed. */
  function PdfText(text: string): (r: string)
    ensures forall i :: 0 <= i < |r| ==> PdfSafe(r[i]) && !IsMarker(r[i])
    ensures IsSubsequence(r, text)
  {
    var r := Keep(StripMarkers(text), PdfSafe);
    assert forall i :: 0 <= i < |r| ==> r[i] in r;
    SubsequenceTransitive(r, StripMarkers(text), text);
    r
  }

  /** Text already made of safe, marker-free characters is written unchanged, and only such text is. */
  lemma PdfTextFixedIff(text: string)
    ensures PdfText(text) == text <==> forall i :: 0 <= i < |text| ==> PdfSafe(text[i]) && !IsMarker(text[i])
  {
    KeepFixedIff(text, c => !IsMarker(c));
    if forall i :: 0 <= i < |text| ==> PdfSafe(text[i]) && !IsMarker(text[i]) {
      KeepFixedIff(text, PdfSafe);
    }
  }

  /** Cleaning twice is cleaning once. */
  lemma PdfTextIdempotent(text: string)
    ensures PdfText(PdfText(text)) == PdfText(text)
  {
    PdfTextFixedIff(PdfText(text));
  }

}
