/**
 * The list logic of src/components/Sidebar.jsx: the case-insensitive title
 * search, the newest-first order, the avatar initials and the fallback title.
 */
module Sidebar {
  import opened Strings
  import opened Types
  import opened Seqs

  /** `session.title.toLowerCase().includes(searchQuery.toLowerCase())`. */
  predicate MatchesQuery(s: Session, query: string)
  {
    Contains(ToLower(s.title), ToLower(query))
  }

  /** The sessions whose title matches the search query, in their stored order. */
  function FilterByTitle(sessions: seq<Session>, query: string): (r: seq<Session>)
    ensures forall s :: s in r <==> s in sessions && MatchesQuery(s, query)
    ensures IsSubsequence(r, sessions)
  {
    if sessions == [] then []
    else
      var rest := FilterByTitle(sessions[1..], query);
      assert [sessions[0]] + sessions[1..] == sessions;
      SubsequenceOfCons(sessions[0], rest, sessions[1..]);
      assert forall s :: s in sessions <==> s == sessions[0] || s in sessions[1..];
      if MatchesQuery(sessions[0], query) then [sessions[0]] + rest else rest
  }

  /** Searching a joined list searches each part. */
  lemma {:induction false} FilterAppend(a: seq<Session>, b: seq<Session>, query: string)
    ensures FilterByTitle(a + b, query) == FilterByTitle(a, query) + FilterByTitle(b, query)
    decreases |a|
  {
    if a == [] {
      assert a + b == b;
    } else {
      assert (a + b)[0] == a[0] && (a + b)[1..] == a[1..] + b;
      FilterAppend(a[1..], b, query);
    }
  }

  /** A matching session keeps all its copies; any other keeps none. */
  lemma {:induction false} FilterCount(sessions: seq<Session>, query: string, s: Session)
    ensures multiset(FilterByTitle(sessions, query))[s] == if MatchesQuery(s, query) then multiset(sessions)[s] else 0
    decreases |sessions|
  {
    if sessions != [] {
      FilterCount(sessions[1..], query, s);
      var rest := FilterByTitle(sessions[1..], query);
      assert sessions == [sessions[0]] + sessions[1..];
      assert multiset(sessions) == multiset{sessions[0]} + multiset(sessions[1..]);
      if MatchesQuery(sessions[0], query) {
        assert multiset([sessions[0]] + rest) == multiset{sessions[0]} + multiset(rest);
      }
    }
  }

  /** An empty search keeps every session, in order. */
  lemma {:induction false} EmptyQueryKeepsAll(sessions: seq<Session>)
    ensures FilterByTitle(sessions, "") == sessions
  {
    if sessions != [] {
      assert OccursAt(ToLower(sessions[0].title), ToLower(""), 0);
      EmptyQueryKeepsAll(sessions[1..]);
    }
  }

  /** Timestamps never increase along the list. */
  predicate NewestFirst(sessions: seq<Session>)
  {
    forall i, j :: 0 <= i < j < |sessions| ==> sessions[i].timestamp >= sessions[j].timestamp
  }

  /**
   * Inserts `x` in front of the first session that is not newer than it, so
   * that among equal timestamps `x` stays in front.
   */
  function Insert(x: Session, sorted: seq<Session>): (r: seq<Session>)
    requires NewestFirst(sorted)
    ensures NewestFirst(r)
    ensures multiset(r) == multiset(sorted) + multiset{x}
    ensures r[0] == x || r[0] == sorted[0]
  {
    if sorted == [] || sorted[0].timestamp <= x.timestamp then [x] + sorted
    else
      var rest := Insert(x, sorted[1..]);
      PrependNewest(sorted[0], rest);
      assert multiset(sorted) == multiset{sorted[0]} + multiset(sorted[1..]) by {
        assert sorted == [sorted[0]] + sorted[1..];
      }
      [sorted[0]] + rest
  }

  /** A session at least as new as the head of a newest-first list can go in front of it. */
  lemma PrependNewest(h: Session, rest: seq<Session>)
    requires NewestFirst(rest) && (rest == [] || h.timestamp >= rest[0].timestamp)
    ensures NewestFirst([h] + rest)
  {
    var r := [h] + rest;
    forall i, j | 0 <= i < j < |r| ensures r[i].timestamp >= r[j].timestamp {
      if i == 0 {
        assert r[j] == rest[j - 1];
      } else {
        assert r[i] == rest[i - 1] && r[j] == rest[j - 1];
      }
    }
  }

  /**
   * `[...filtered].sort((a, b) => b.timestamp - a.timestamp)`: newest first;
   * the sort is stable, so sessions with the same timestamp keep their order.
   */
  function SortByRecency(sessions: seq<Session>): (r: seq<Session>)
    ensures NewestFirst(r)
    ensures multiset(r) == multiset(sessions)
  {
    if sessions == [] then []
    else
      assert sessions == [sessions[0]] + sessions[1..];
      Insert(sessions[0], SortByRecency(sessions[1..]))
  }

  /** The sessions with timestamp `t`, in order. */
  function WithTimestamp(sessions: seq<Session>, t: int): seq<Session>
  {
    if sessions == [] then []
    else (if sessions[0].timestamp == t then [sessions[0]] else []) + WithTimestamp(sessions[1..], t)
  }

  /** Selecting by timestamp takes the head, when it matches, in front of the selection from the rest. */
  lemma WithTimestampCons(h: Session, rest: seq<Session>, t: int)
    ensures WithTimestamp([h] + rest, t) == (if h.timestamp == t then [h] else []) + WithTimestamp(rest, t)
  {
    assert ([h] + rest)[1..] == rest;
  }

  lemma {:induction false} InsertKeepsTies(x: Session, sorted: seq<Session>, t: int)
    requires NewestFirst(sorted)
    ensures WithTimestamp(Insert(x, sorted), t) ==
      (if x.timestamp == t then [x] else []) + WithTimestamp(sorted, t)
    decreases |sorted|
  {
    if sorted == [] || sorted[0].timestamp <= x.timestamp {
      WithTimestampCons(x, sorted, t);
    } else {
      var rest := Insert(x, sorted[1..]);
      InsertKeepsTies(x, sorted[1..], t);
      WithTimestampCons(sorted[0], rest, t);
      WithTimestampCons(sorted[0], sorted[1..], t);
      assert [sorted[0]] + sorted[1..] == sorted;
    }
  }

  /** The sort is stable: for every timestamp, the sessions carrying it keep their relative order. */
  lemma {:induction false} SortIsStable(sessions: seq<Session>, t: int)
    ensures WithTimestamp(SortByRecency(sessions), t) == WithTimestamp(sessions, t)
    decreases |sessions|
  {
    if sessions != [] {
      SortIsStable(sessions[1..], t);
      InsertKeepsTies(sessions[0], SortByRecency(sessions[1..]), t);
    }
  }

  /** The sidebar list: the matching sessions, newest first. */
  function Listed(sessions: seq<Session>, query: string): (r: seq<Session>)
    ensures NewestFirst(r)
    ensures forall s :: s in r <==> s in sessions && MatchesQuery(s, query)
    ensures multiset(r) == multiset(FilterByTitle(sessions, query))
  {
    var r := SortByRecency(FilterByTitle(sessions, query));
    assert forall s :: s in r <==> s in multiset(r);
    r
  }

  /** Every matching session is listed as often as it is stored, and no other is listed. */
  lemma ListedCount(sessions: seq<Session>, query: string, s: Session)
    ensures multiset(Listed(sessions, query))[s] == if MatchesQuery(s, query) then multiset(sessions)[s] else 0
  {
    FilterCount(sessions, query, s);
  }

  /** `name.split(' ')`: the pieces between single spaces, empty pieces included. */
  function Split(s: string): (r: seq<string>)
    ensures |r| >= 1
    decreases |s|
  {
    if s == [] then [""]
    else if s[0] == ' ' then [""] + Split(s[1..])
    else
      var rest := Split(s[1..]);
      [[s[0]] + rest[0]] + rest[1..]
  }

  /** `pieces.join(' ')`. */
  function Join(pieces: seq<string>): string
  {
    if pieces == [] then ""
    else if |pieces| == 1 then pieces[0]
    else pieces[0] + " " + Join(pieces[1..])
  }

  /** Splitting loses nothing: joining the pieces with spaces gives the name back, and no piece holds a space. */
  lemma {:induction false} SplitJoin(s: string)
    ensures Join(Split(s)) == s
    ensures forall w :: w in Split(s) ==> ' ' !in w
    decreases |s|
  {
    if s != [] {
      SplitJoin(s[1..]);
      var rest := Split(s[1..]);
      if s[0] == ' ' {
        assert Split(s)[1..] == rest;
        assert s == " " + s[1..];
      } else {
        assert rest == [rest[0]] + rest[1..];
        assert rest[0] in rest;
        assert forall w :: w in rest[1..] ==> w in rest;
        if |rest| == 1 {
          assert s == [s[0]] + rest[0];
        } else {
          assert Join(rest) == rest[0] + " " + Join(rest[1..]);
          assert Split(s)[1..] == rest[1..];
          assert s == [s[0]] + s[1..];
        }
      }
    }
  }

  /** `.map(n => n[0]).join('')`: the first character of every non-empty piece (an empty piece gives `undefined`, which joins as nothing). */
  function FirstChars(pieces: seq<string>): string
  {
    if pieces == [] then ""
    else (if pieces[0] == "" then "" else [pieces[0][0]]) + FirstChars(pieces[1..])
  }

  /**
   * The characters that begin a word, read directly off the name: every
   * non-space character at the start or after a space (`atStart` says whether
   * the previous character was a space or there was none).
   */
  function WordStarts(s: string, atStart: bool): (r: string)
    ensures ' ' !in r
    ensures IsSubsequence(r, s)
    decreases |s|
  {
    if s == [] then ""
    else
      var rest := if s[0] == ' ' then WordStarts(s[1..], true) else WordStarts(s[1..], false);
      assert [s[0]] + s[1..] == s;
      SubsequenceOfCons(s[0], rest, s[1..]);
      if s[0] != ' ' && atStart then [s[0]] + rest else rest
  }

  /** Taking first characters of the split pieces is the same as reading off the word starts. */
  lemma {:induction false} FirstCharsAreWordStarts(s: string, atStart: bool)
    ensures WordStarts(s, atStart) == if atStart then FirstChars(Split(s)) else FirstChars(Split(s)[1..])
    decreases |s|
  {
    if s != [] {
      var rest := Split(s[1..]);
      if s[0] == ' ' {
        FirstCharsAreWordStarts(s[1..], true);
        assert Split(s)[1..] == rest;
      } else {
        FirstCharsAreWordStarts(s[1..], false);
        assert Split(s)[1..] == rest[1..];
      }
    }
  }

  /** `getInitials`: "Pr" for a missing name, else the first two word starts, upper-cased. */
  function Initials(name: string): (r: string)
    ensures name == "" ==> r == "Pr"
    ensures |r| <= 2
  {
    if name == "" then "Pr"
    else
      var starts := FirstChars(Split(name));
      ToUpper(starts[..if |starts| < 2 then |starts| else 2])
  }

  /**
   * The initials of a name are the upper-cased first characters of its first
   * two words, in order: never a space, never a character the name lacks.
   */
  lemma InitialsOfName(name: string)
    requires name != ""
    ensures var starts := WordStarts(name, true);
      Initials(name) == ToUpper(starts[..if |starts| < 2 then |starts| else 2])
    ensures forall i :: 0 <= i < |Initials(name)| ==> exists j :: 0 <= j < |name| && name[j] != ' ' && Initials(name)[i] == UpperChar(name[j])
  {
    FirstCharsAreWordStarts(name, true);
    var starts := WordStarts(name, true);
    SubsequenceElements(starts, name);
    assert forall i :: 0 <= i < |starts| ==> starts[i] in starts;
  }

  /** `session.title || "New Chat"`. */
  function DisplayTitle(s: Session): (r: string)
    ensures r != ""
    ensures s.title != "" ==> r == s.title
  {
    if s.title != "" then s.title else "New Chat"
  }
}
