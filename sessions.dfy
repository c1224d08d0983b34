/**
 * The session-list rules of the chat application (src/App.jsx): looking a
 * session up, the list without a deleted session, the title rule, the
 * message-sync update and the choice of the active session at start-up.
 */
module Sessions {
  import opened Wrappers
  import opened Strings
  import opened Types
  import opened Seqs

  const DefaultTitle: string := "New Consultation"
  const TitleLength: nat := 30

  /** The session `createNewChat` adds. */
  function NewSession(id: string, now: int): Session
  {
    Session(id, DefaultTitle, now, [Welcome])
  }

  predicate HasSession(sessions: seq<Session>, id: string)
  {
    exists i :: 0 <= i < |sessions| && sessions[i].id == id
  }

  /** `i` is the position `findIndex`/`find` settle on for `id`. */
  predicate IsFirstIndex(sessions: seq<Session>, id: string, i: int)
  {
    0 <= i < |sessions| && sessions[i].id == id &&
    forall j :: 0 <= j < i ==> sessions[j].id != id
  }

  /** `sessions.findIndex(s => s.id === id)`, with -1 written as None. */
  function FindIndex(sessions: seq<Session>, id: string): (r: Option<nat>)
    ensures r.None? <==> !HasSession(sessions, id)
    ensures r.Some? ==> IsFirstIndex(sessions, id, r.value)
  {
    if sessions == [] then None
    else if sessions[0].id == id then Some(0)
    else match FindIndex(sessions[1..], id)
      case None => None
      case Some(i) => Some(i + 1)
  }

  lemma FirstIndexUnique(sessions: seq<Session>, id: string, i: int, j: int)
    requires IsFirstIndex(sessions, id, i) && IsFirstIndex(sessions, id, j)
    ensures i == j
  {
  }

  /** `sessions.filter(s => s.id !== id)`. */
  function Without(sessions: seq<Session>, id: string): (r: seq<Session>)
    ensures forall s :: s in r <==> s in sessions && s.id != id
    ensures !HasSession(r, id)
    ensures IsSubsequence(r, sessions)
  {
    if sessions == [] then []
    else
      var rest := Without(sessions[1..], id);
      if sessions[0].id == id then
        SubsequenceOfCons(sessions[0], rest, sessions[1..]);
        assert [sessions[0]] + sessions[1..] == sessions;
        rest
      else
        SubsequenceOfCons(sessions[0], rest, sessions[1..]);
        assert [sessions[0]] + sessions[1..] == sessions;
        [sessions[0]] + rest
  }

  /** Deleting from a joined list deletes from each part. */
  lemma {:induction false} WithoutAppend(a: seq<Session>, b: seq<Session>, id: string)
    ensures Without(a + b, id) == Without(a, id) + Without(b, id)
    decreases |a|
  {
    if a == [] {
      assert a + b == b;
    } else {
      assert (a + b)[0] == a[0] && (a + b)[1..] == a[1..] + b;
      WithoutAppend(a[1..], b, id);
    }
  }

  /** Every session with another id keeps all its copies; those with the deleted id keep none. */
  lemma {:induction false} WithoutCount(sessions: seq<Session>, id: string, s: Session)
    ensures multiset(Without(sessions, id))[s] == if s.id != id then multiset(sessions)[s] else 0
    decreases |sessions|
  {
    if sessions != [] {
      WithoutCount(sessions[1..], id, s);
      var rest := Without(sessions[1..], id);
      assert sessions == [sessions[0]] + sessions[1..];
      assert multiset(sessions) == multiset{sessions[0]} + multiset(sessions[1..]);
      if sessions[0].id != id {
        assert multiset([sessions[0]] + rest) == multiset{sessions[0]} + multiset(rest);
      }
    }
  }

  /** Deleting one id keeps every session with another id. */
  lemma WithoutKeepsOthers(sessions: seq<Session>, id: string, other: string)
    requires other != id && HasSession(sessions, other)
    ensures HasSession(Without(sessions, id), other)
  {
    var i :| 0 <= i < |sessions| && sessions[i].id == other;
    assert sessions[i] in Without(sessions, id);
  }

  /** `messages[i]` is the first message with the user's role. */
  predicate IsFirstUser(messages: seq<Message>, i: int)
  {
    0 <= i < |messages| && messages[i].role == User && forall j :: 0 <= j < i ==> messages[j].role != User
  }

  /** The text of the first user message (`messages.find(m => m.type === 'user')?.text`). */
  function FirstUserText(messages: seq<Message>): (r: string)
    ensures (forall i :: 0 <= i < |messages| ==> messages[i].role != User) ==> r == ""
    ensures forall i :: IsFirstUser(messages, i) ==> r == messages[i].text
  {
    if messages == [] then ""
    else if messages[0].role == User then messages[0].text
    else
      var rest := messages[1..];
      assert forall i :: 0 < i < |messages| ==> messages[i] == rest[i - 1];
      assert forall i :: IsFirstUser(messages, i) ==> i > 0 && IsFirstUser(rest, i - 1);
      FirstUserText(rest)
  }

  /**
   * The title the sync step gives a session: the first 30 characters of the
   * first user message's text; when that message has no text, or there is no
   * user message, the previous title, or "New Consultation" when that is empty.
   */
  function Title(messages: seq<Message>, previous: string): (r: string)
    ensures r != ""
    ensures |r| <= TitleLength || r == previous
    ensures var t := FirstUserText(messages);
      t != "" ==> |r| == (if |t| < TitleLength then |t| else TitleLength) && r == t[..|r|]
    ensures var t := FirstUserText(messages);
      t == "" ==> r == (if previous != "" then previous else DefaultTitle)
  {
    var t := FirstUserText(messages);
    if t != "" then t[..if |t| < TitleLength then |t| else TitleLength]
    else if previous != "" then previous
    else DefaultTitle
  }

  /** Once a user message exists, appending messages cannot change which one comes first. */
  lemma {:induction false} FirstUserTextStable(messages: seq<Message>, more: seq<Message>)
    requires FirstUserText(messages) != ""
    ensures FirstUserText(messages + more) == FirstUserText(messages)
  {
    assert messages != [];
    assert (messages + more)[0] == messages[0];
    if messages[0].role != User {
      assert (messages + more)[1..] == messages[1..] + more;
      FirstUserTextStable(messages[1..], more);
    }
  }

  /**
   * Once the first user message has text, the title is fixed: later messages
   * and the earlier title no longer change it.
   */
  lemma TitleStable(messages: seq<Message>, more: seq<Message>, previous: string, earlier: string)
    requires FirstUserText(messages) != ""
    ensures Title(messages + more, previous) == Title(messages, earlier)
  {
    FirstUserTextStable(messages, more);
  }

  /**
   * A long first question gives a title of exactly its first 30 characters
   * (the question is written as its first 30 characters and the rest).
   */
  lemma TitleOfLongQuestion()
    ensures Title([Welcome, UserMessage(2, "I have a headache and fever si" + "nce yesterday morning, what should I...")],
                  DefaultTitle) == "I have a headache and fever si"
  {
    var q := "I have a headache and fever si" + "nce yesterday morning, what should I...";
    var ms := [Welcome, UserMessage(2, q)];
    assert FirstUserText(ms) == FirstUserText(ms[1..]) == q;
    assert q[..30] == "I have a headache and fever si";
  }

  /**
   * An image-only first user message keeps the previous title, even when a
   * later user message has text.
   */
  lemma TitleIgnoresLaterUserMessages(previous: string)
    requires previous != ""
    ensures Title([Welcome, Message(2, User, "", "data:image/png;base64,AA", None), UserMessage(3, "rash")],
                  previous) == previous
  {
    var ms := [Welcome, Message(2, User, "", "data:image/png;base64,AA", None), UserMessage(3, "rash")];
    assert FirstUserText(ms) == FirstUserText(ms[1..]);
  }

  /** The active entry after a sync: new messages, recomputed title, fresh timestamp. */
  function Synced(s: Session, messages: seq<Message>, now: int): Session
  {
    s.(messages := messages, title := Title(messages, s.title), timestamp := now)
  }

  /**
   * The session-list update of the sync effect. None means the list is left as
   * it was and nothing is written: no active id, an active id no session has,
   * or messages equal to those already stored. Otherwise only the first
   * session with the active id changes, and the new list is what gets persisted.
   */
  function SyncedSessions(prev: seq<Session>, active: Option<string>, messages: seq<Message>, now: int)
    : (r: Option<seq<Session>>)
    ensures r.Some? <==>
      (active.Some? && active.value != "" &&
       exists i :: IsFirstIndex(prev, active.value, i) && prev[i].messages != messages)
    ensures r.Some? ==> |r.value| == |prev|
    ensures r.Some? ==> forall i :: 0 <= i < |prev| ==>
      r.value[i] == (if IsFirstIndex(prev, active.value, i) then Synced(prev[i], messages, now) else prev[i])
    ensures r.Some? ==> forall i :: 0 <= i < |prev| ==> r.value[i].id == prev[i].id
  {
    if active.None? || active.value == "" then None
    else match FindIndex(prev, active.value)
      case None => None
      case Some(i) =>
        if prev[i].messages == messages then
          assert forall j :: IsFirstIndex(prev, active.value, j) ==> j == i;
          None
        else
          assert forall j :: IsFirstIndex(prev, active.value, j) ==> j == i;
          Some(prev[i := Synced(prev[i], messages, now)])
  }

  /** Where the application starts: a stored session to resume, or a fresh one. */
  datatype Startup = Resume(id: string, messages: seq<Message>) | StartFresh

  /**
   * The initial-load choice over the stored session list: the stored active id
   * when it is non-empty and names a stored session, else the first stored
   * session, else a new session.
   */
  function StartupChoice(stored: seq<Session>, storedActive: Option<string>): (r: Startup)
    ensures r.StartFresh? <==> stored == []
    ensures r.Resume? ==> exists i :: IsFirstIndex(stored, r.id, i) && stored[i].messages == r.messages
    ensures r.Resume? ==> HasSession(stored, r.id)
    ensures storedActive.Some? && storedActive.value != "" && HasSession(stored, storedActive.value) ==>
      r == Resume(storedActive.value, r.messages)
    ensures (!(storedActive.Some? && storedActive.value != "" && HasSession(stored, storedActive.value)) &&
             stored != []) ==> r == Resume(stored[0].id, stored[0].messages)
  {
    if storedActive.Some? && storedActive.value != "" && HasSession(stored, storedActive.value) then
      var i := FindIndex(stored, storedActive.value).value;
      Resume(storedActive.value, stored[i].messages)
    else if |stored| > 0 then
      assert IsFirstIndex(stored, stored[0].id, 0);
      Resume(stored[0].id, stored[0].messages)
    else StartFresh
  }
}
