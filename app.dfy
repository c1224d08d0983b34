/**
 * The state of the chat screen of src/App.jsx and the handlers that change
 * it: the session list with its active session, the open conversation, the
 * two text inputs fed by typing and dictation, the staged image, the
 * requests in flight, the spoken reply and the profile.
 *
 * Browser storage is the three `stored` fields. The clock, fresh ids, the
 * random draw, the installed voices and the chat client's SDK are
 * parameters of the handlers that use them. React runs the session-sync
 * effect after a render that changed the messages or the active id; here it
 * is the explicit method `SyncActiveSession`.
 */
module ChatApp {
  import opened Wrappers
  import opened Strings
  import opened Types
  import opened Sessions
  import opened Turns
  import opened Transcript
  import opened Speech
  import Groq

  /** `activeInputRef.current`: the buffer dictation writes to. */
  datatype InputTarget = ChatInput | ModalInput

  /** A file handed to the upload, drop or paste handler, already read as a data URL. */
  datatype File = File(mimeType: string, dataUrl: string)

  /** An item of a paste event: its declared type and the file it holds, if any. */
  datatype ClipboardItem = ClipboardItem(kind: string, file: Option<File>)

  /** The paste handler hands this item's file to `handleFile`, and `handleFile` accepts it. */
  predicate Pasted(item: ClipboardItem)
  {
    AcceptsFile(item.kind) && item.file.Some? && AcceptsFile(item.file.value.mimeType)
  }

  /** The image a paste stages: the last item the paste handler passes on and `handleFile` accepts. */
  function LastPastedImage(items: seq<ClipboardItem>): (r: Option<File>)
    ensures r.None? <==> forall i :: 0 <= i < |items| ==> !Pasted(items[i])
    ensures r.Some? ==> exists i :: 0 <= i < |items| && Pasted(items[i]) && items[i].file.value == r.value &&
                                    forall j :: i < j < |items| ==> !Pasted(items[j])
  {
    if items == [] then None
    else if Pasted(items[|items| - 1]) then items[|items| - 1].file
    else
      var front := items[..|items| - 1];
      assert forall i :: 0 <= i < |front| ==> front[i] == items[i];
      LastPastedImage(front)
  }

  /**
   * A `processAI` call that has not settled yet: the query, the image ("" for
   * none), and the conversation and profile its closure saw.
   */
  datatype Turn = Turn(text: string, image: string, history: seq<Message>, profile: Profile)

  /** Everything the screen holds, as one value. */
  datatype AppState = AppState(
    sessions: seq<Session>, currentSessionId: Option<string>, messages: seq<Message>,
    inputText: string, imageInputText: string, imgSrc: string, isCameraOpen: bool,
    isListening: bool, activeInput: InputTarget, silenceTimerArmed: bool,
    isLoading: bool, inFlight: seq<Turn>, utterance: Option<Utterance>, speakingMessageId: Option<int>,
    userDetails: Profile,
    storedSessions: Option<seq<Session>>, storedActiveId: Option<string>, storedUser: Option<Profile>)

  /** Two session lists with the same ids, position by position, hold the same ids. */
  lemma SameIds(a: seq<Session>, b: seq<Session>, id: string)
    requires |a| == |b| && forall i :: 0 <= i < |a| ==> a[i].id == b[i].id
    ensures HasSession(a, id) <==> HasSession(b, id)
  {
    if HasSession(a, id) {
      var i :| 0 <= i < |a| && a[i].id == id;
      assert b[i].id == id;
    }
    if HasSession(b, id) {
      var i :| 0 <= i < |b| && b[i].id == id;
      assert a[i].id == id;
    }
  }

  /** `handleSendMessage` on the screen state: a non-blank input is shown as the user's message, cleared and sent. */
  function AfterSend(s: AppState, now: int): AppState
  {
    if IsBlank(s.inputText) then s
    else s.(messages := s.messages + [UserMessage(now, s.inputText)], inputText := "", isLoading := true,
            inFlight := s.inFlight + [Turn(s.inputText, "", s.messages, s.userDetails)])
  }

  /**
   * `analyzeImage` on the screen state: with an image staged, the user's
   * message shows the image (and the caption, when one was typed), the
   * staged state is cleared, and the caption (or the default analysis
   * prompt) is sent with the image. Without an image nothing happens.
   */
  function AfterAnalyze(s: AppState, now: int): AppState
  {
    if s.imgSrc == "" then s
    else s.(messages := s.messages + [Message(now, User, AnalysisMessageText(s.imageInputText), s.imgSrc, None)],
            isCameraOpen := false, imgSrc := "", imageInputText := "", isLoading := true,
            inFlight := s.inFlight + [Turn(AnalysisQuery(s.imageInputText), s.imgSrc, s.messages, s.userDetails)])
  }

  /**
   * The auto-submit as corrected: dictation into the chat input is sent the
   * way `handleSendMessage` sends it; dictation into the image caption
   * analyses the staged image.
   */
  function AfterAutoSubmit(s: AppState, now: int): AppState
  {
    if s.activeInput == ChatInput then AfterSend(s, now) else AfterAnalyze(s, now)
  }

  /**
   * `latestAutoSubmit` as written: dictation into the chat input is sent and
   * cleared, but not added to the conversation.
   */
  function AfterAutoSubmitAsWritten(s: AppState, now: int): AppState
  {
    if s.activeInput == ChatInput then
      if IsBlank(s.inputText) then s
      else s.(inputText := "", isLoading := true, inFlight := s.inFlight + [Turn(s.inputText, "", s.messages, s.userDetails)])
    else AfterAnalyze(s, now)
  }

  /**
   * The silence timer firing three seconds after the last result: dictation
   * stops and the buffer is submitted. A disarmed timer does not fire.
   */
  function AfterSilence(s: AppState, now: int): AppState
  {
    if !s.silenceTimerArmed then s
    else AfterAutoSubmit(s.(silenceTimerArmed := false, isListening := false), now)
  }

  /**
   * `deleteChat` on the screen state: the list without the session is kept
   * and stored; deleting the active session opens the first remaining one
   * (and stores its id), or a new greeting session when none remain, whose
   * list is not stored.
   */
  function AfterDelete(s: AppState, id: string, freshId: string, now: int): (r: AppState)
    ensures r.storedSessions == Some(Without(s.sessions, id))
    ensures s.currentSessionId != Some(id) ==>
      r == s.(sessions := Without(s.sessions, id), storedSessions := r.storedSessions)
    ensures s.currentSessionId == Some(id) ==>
      r.currentSessionId.Some? && r.storedActiveId == r.currentSessionId && HasSession(r.sessions, r.currentSessionId.value)
  {
    var rest := Without(s.sessions, id);
    if s.currentSessionId != Some(id) then s.(sessions := rest, storedSessions := Some(rest))
    else if rest != [] then
      assert HasSession(rest, rest[0].id);
      s.(sessions := rest, storedSessions := Some(rest), currentSessionId := Some(rest[0].id),
         messages := rest[0].messages, storedActiveId := Some(rest[0].id))
    else
      assert [NewSession(freshId, now)][0].id == freshId;
      s.(sessions := [NewSession(freshId, now)], storedSessions := Some(rest), currentSessionId := Some(freshId),
         messages := [Welcome], storedActiveId := Some(freshId))
  }

  /** A request's question is on screen: the image it analyses, or else its text, in a user message. */
  predicate Shows(messages: seq<Message>, t: Turn)
  {
    exists i :: 0 <= i < |messages| && messages[i].role == User &&
      (if t.image != "" then messages[i].image == t.image else messages[i].text == t.text)
  }

  /** Every request in flight has its question on screen. */
  predicate Asked(s: AppState)
  {
    forall k :: 0 <= k < |s.inFlight| ==> Shows(s.messages, s.inFlight[k])
  }

  /** A shown question stays shown when messages are appended. */
  lemma ShowsAppend(messages: seq<Message>, more: seq<Message>, t: Turn)
    requires Shows(messages, t)
    ensures Shows(messages + more, t)
  {
    var i :| 0 <= i < |messages| && messages[i].role == User &&
      (if t.image != "" then messages[i].image == t.image else messages[i].text == t.text);
    assert (messages + more)[i] == messages[i];
  }

  /** Appending a user message that shows a new request keeps every request asked. */
  lemma AskedAfterSubmission(s: AppState, r: AppState, m: Message, t: Turn)
    requires Asked(s)
    requires r.messages == s.messages + [m] && r.inFlight == s.inFlight + [t]
    requires m.role == User && (if t.image != "" then m.image == t.image else m.text == t.text)
    ensures Asked(r)
  {
    forall k | 0 <= k < |r.inFlight|
      ensures Shows(r.messages, r.inFlight[k])
    {
      if k < |s.inFlight| {
        ShowsAppend(s.messages, [m], s.inFlight[k]);
      } else {
        assert r.messages[|s.messages|] == m;
      }
    }
  }

  /** Sending puts the question on screen before sending it. */
  lemma SendShowsQuestion(s: AppState, now: int)
    requires Asked(s)
    ensures Asked(AfterSend(s, now))
  {
    if !IsBlank(s.inputText) {
      AskedAfterSubmission(s, AfterSend(s, now), UserMessage(now, s.inputText), Turn(s.inputText, "", s.messages, s.userDetails));
    }
  }

  /** Analysing puts the staged image on screen before sending it. */
  lemma AnalyzeShowsQuestion(s: AppState, now: int)
    requires Asked(s)
    ensures Asked(AfterAnalyze(s, now))
  {
    if s.imgSrc != "" {
      AskedAfterSubmission(s, AfterAnalyze(s, now),
        Message(now, User, AnalysisMessageText(s.imageInputText), s.imgSrc, None),
        Turn(AnalysisQuery(s.imageInputText), s.imgSrc, s.messages, s.userDetails));
    }
  }

  /** The corrected auto-submit, and so the silence timeout, keeps every request in flight asked. */
  lemma SilenceShowsQuestion(s: AppState, now: int)
    requires Asked(s)
    ensures Asked(AfterAutoSubmit(s, now))
    ensures Asked(AfterSilence(s, now))
  {
    SendShowsQuestion(s, now);
    AnalyzeShowsQuestion(s, now);
    var quiet := s.(silenceTimerArmed := false, isListening := false);
    SendShowsQuestion(quiet, now);
    AnalyzeShowsQuestion(quiet, now);
  }

  /** Settling a request (taking it out of flight and appending the reply) keeps the others asked. */
  lemma SettleKeepsAsked(s: AppState, k: nat, reply: Message)
    requires Asked(s) && k < |s.inFlight|
    ensures Asked(s.(messages := s.messages + [reply], inFlight := s.inFlight[..k] + s.inFlight[k + 1..]))
  {
    var rest := s.inFlight[..k] + s.inFlight[k + 1..];
    forall j | 0 <= j < |rest|
      ensures Shows(s.messages + [reply], rest[j])
    {
      if j < k {
        assert rest[j] == s.inFlight[j];
      } else {
        assert rest[j] == s.inFlight[j + 1];
      }
      ShowsAppend(s.messages, [reply], rest[j]);
    }
  }

  /**
   * Under the auto-submit as written, a dictated question sent while no
   * user message is on screen is sent without being shown.
   */
  lemma AutoSubmitAsWrittenHidesQuestion(s: AppState, now: int)
    requires s.activeInput == ChatInput && !IsBlank(s.inputText)
    requires forall i :: 0 <= i < |s.messages| ==> s.messages[i].role == Bot
    ensures !Asked(AfterAutoSubmitAsWritten(s, now))
  {
    var r := AfterAutoSubmitAsWritten(s, now);
    assert !Shows(r.messages, r.inFlight[|s.inFlight|]);
  }

  class App {
    var sessions: seq<Session>
    var currentSessionId: Option<string>
    var messages: seq<Message>
    var inputText: string
    var imageInputText: string
    var imgSrc: string
    var isCameraOpen: bool
    var isListening: bool
    var activeInput: InputTarget
    var silenceTimerArmed: bool
    var isLoading: bool
    var inFlight: seq<Turn>
    var utterance: Option<Utterance>
    var speakingMessageId: Option<int>
    var userDetails: Profile
    var storedSessions: Option<seq<Session>>
    var storedActiveId: Option<string>
    var storedUser: Option<Profile>

    function State(): AppState
      reads this
    {
      AppState(sessions, currentSessionId, messages, inputText, imageInputText, imgSrc, isCameraOpen,
               isListening, activeInput, silenceTimerArmed, isLoading, inFlight, utterance, speakingMessageId,
               userDetails, storedSessions, storedActiveId, storedUser)
    }

    /** The active id names a stored session. */
    predicate Valid()
      reads this
    {
      currentSessionId.Some? && HasSession(sessions, currentSessionId.value)
    }

    /**
     * The first render followed by the initial-load effect: the stored
     * profile and sessions are restored and the start-up choice is made; with
     * no stored session a new one is created.
     */
    constructor (stored: Option<seq<Session>>, storedActive: Option<string>, storedProfile: Option<Profile>,
                 freshId: string, now: int)
      requires freshId != ""
      ensures Valid()
      ensures var list := if stored.Some? then stored.value else [];
        match StartupChoice(list, storedActive)
        case Resume(id, ms) => sessions == list && currentSessionId == Some(id) && messages == ms
        case StartFresh => sessions == [NewSession(freshId, now)] && currentSessionId == Some(freshId) &&
                           messages == [Welcome]
      ensures userDetails == if storedProfile.Some? then storedProfile.value else EmptyProfile
      ensures storedSessions == stored && storedUser == storedProfile && storedActiveId == currentSessionId
      ensures inFlight == [] && !isLoading && !isListening && !silenceTimerArmed && activeInput == ChatInput
      ensures inputText == "" && imageInputText == "" && imgSrc == "" && !isCameraOpen
      ensures utterance.None? && speakingMessageId.None?
    {
      sessions := [];
      currentSessionId := None;
      messages := [Welcome];
      inputText, imageInputText, imgSrc := "", "", "";
      isCameraOpen, isListening, silenceTimerArmed, isLoading := false, false, false, false;
      activeInput := ChatInput;
      inFlight := [];
      utterance, speakingMessageId := None, None;
      userDetails := if storedProfile.Some? then storedProfile.value else EmptyProfile;
      storedSessions, storedActiveId, storedUser := stored, storedActive, storedProfile;
      new;
      LoadStored(stored, storedActive, freshId, now);
    }

    /**
     * The session part of the initial-load effect, run once on the first
     * render while the list is still empty: a stored list is restored with
     * the start-up choice opened; without a stored session a new one is
     * created.
     */
    method LoadStored(stored: Option<seq<Session>>, storedActive: Option<string>, freshId: string, now: int)
      modifies this
      requires sessions == [] && freshId != ""
      ensures Valid()
      ensures var list := if stored.Some? then stored.value else [];
        var choice := StartupChoice(list, storedActive);
        choice.Resume? ==>
          State() == old(State()).(sessions := list, currentSessionId := Some(choice.id),
                                   messages := choice.messages, storedActiveId := Some(choice.id))
      ensures var list := if stored.Some? then stored.value else [];
        StartupChoice(list, storedActive).StartFresh? ==>
          State() == old(State()).(sessions := [NewSession(freshId, now)], currentSessionId := Some(freshId),
                                   messages := [Welcome], storedActiveId := Some(freshId))
    {
      var list := if stored.Some? then stored.value else [];
      var choice := StartupChoice(list, storedActive);
      if choice.Resume? {
        sessions := list;
        currentSessionId := Some(choice.id);
        messages := choice.messages;
        storedActiveId := currentSessionId;
      } else {
        assert list == [];
        CreateNewChat(freshId, now);
      }
    }

    /**
     * `createNewChat`: a fresh session with the greeting goes in front of the
     * list and becomes the active one. The list itself is not written to
     * storage here; the active id is.
     */
    method CreateNewChat(freshId: string, now: int)
      modifies this
      requires freshId != ""
      ensures Valid()
      ensures sessions == [NewSession(freshId, now)] + old(sessions)
      ensures currentSessionId == Some(freshId) && messages == [Welcome]
      ensures storedActiveId == Some(freshId) && storedSessions == old(storedSessions)
      ensures State() == old(State()).(sessions := sessions, currentSessionId := currentSessionId,
                                       messages := messages, storedActiveId := storedActiveId)
    {
      sessions := [NewSession(freshId, now)] + sessions;
      assert sessions[0].id == freshId;
      currentSessionId := Some(freshId);
      messages := [Welcome];
      storedActiveId := currentSessionId;
    }

    /** `selectChat`: open a stored session; an unknown id changes nothing. */
    method SelectChat(id: string)
      modifies this
      requires Valid()
      ensures Valid()
      ensures !HasSession(old(sessions), id) ==> State() == old(State())
      ensures HasSession(old(sessions), id) ==>
        exists i :: IsFirstIndex(sessions, id, i) &&
          State() == old(State()).(currentSessionId := Some(id), messages := sessions[i].messages,
                                   storedActiveId := Some(id))
    {
      match FindIndex(sessions, id) {
        case None =>
        case Some(i) =>
          currentSessionId := Some(id);
          messages := sessions[i].messages;
          storedActiveId := currentSessionId;
      }
    }

    /**
     * `deleteChat`: the session goes, and the shortened list is written to
     * storage. Deleting the active session opens the first remaining one, or a
     * new session when none remain; deleting another leaves the open
     * conversation alone.
     */
    method DeleteChat(id: string, freshId: string, now: int)
      modifies this
      requires Valid() && freshId != ""
      ensures Valid()
      ensures State() == AfterDelete(old(State()), id, freshId, now)
    {
      ghost var before := State();
      var rest := Without(sessions, id);
      if Some(id) == currentSessionId {
        sessions, storedSessions := rest, Some(rest);
        ghost var mid := State();
        assert mid == before.(sessions := rest, storedSessions := Some(rest));
        OpenFirstOrNew(freshId, now);
      } else {
        WithoutKeepsOthers(sessions, id, currentSessionId.value);
        sessions, storedSessions := rest, Some(rest);
        ghost var after := before.(sessions := rest, storedSessions := Some(rest));
        assert State() == after;
        assert AfterDelete(before, id, freshId, now) == after;
      }
    }

    /**
     * The rest of `deleteChat` once the active session is gone: the first
     * session left is opened (and its id stored), or a new one is created
     * when none is left.
     */
    method OpenFirstOrNew(freshId: string, now: int)
      modifies this
      requires freshId != ""
      ensures Valid()
      ensures old(sessions) != [] ==>
        State() == old(State()).(currentSessionId := Some(old(sessions)[0].id), messages := old(sessions)[0].messages,
                                 storedActiveId := Some(old(sessions)[0].id))
      ensures old(sessions) == [] ==>
        State() == old(State()).(sessions := [NewSession(freshId, now)], currentSessionId := Some(freshId),
                                 messages := [Welcome], storedActiveId := Some(freshId))
    {
      if |sessions| > 0 {
        var first := sessions[0];
        assert HasSession(sessions, first.id);
        currentSessionId := Some(first.id);
        messages := first.messages;
        storedActiveId := currentSessionId;
      } else {
        CreateNewChat(freshId, now);
      }
    }

    /**
     * The session-sync effect: when the open conversation differs from what
     * the active session stores, that session takes the messages, its title
     * and the time, and the list is written to storage; otherwise nothing
     * happens.
     */
    method SyncActiveSession(now: int)
      modifies this
      requires Valid()
      ensures Valid()
      ensures match SyncedSessions(old(sessions), currentSessionId, messages, now)
        case None => State() == old(State())
        case Some(updated) => State() == old(State()).(sessions := updated, storedSessions := Some(updated))
    {
      match SyncedSessions(sessions, currentSessionId, messages, now) {
        case None =>
        case Some(updated) =>
          SameIds(sessions, updated, currentSessionId.value);
          sessions := updated;
          storedSessions := Some(updated);
      }
    }

    /** `handleSaveProfile`: the profile is replaced and written to storage. */
    method SaveProfile(details: Profile)
      modifies this
      ensures State() == old(State()).(userDetails := details, storedUser := Some(details))
    {
      userDetails := details;
      storedUser := Some(details);
    }

    /** `toggleListening`: stop (and disarm the silence timer), or start dictating into `target`. */
    method ToggleListening(target: InputTarget)
      modifies this
      ensures isListening == !old(isListening)
      ensures old(isListening) ==> State() == old(State()).(isListening := false, silenceTimerArmed := false)
      ensures !old(isListening) ==> State() == old(State()).(isListening := true, activeInput := target)
    {
      if isListening {
        silenceTimerArmed := false;
        isListening := false;
      } else {
        activeInput := target;
        isListening := true;
      }
    }

    /** The recognizer's `onend` or `onerror`. */
    method OnRecognitionEnd()
      modifies this
      ensures State() == old(State()).(isListening := false)
    {
      isListening := false;
    }

    /**
     * `onresult`: the final text of the new results is appended, after a
     * space when the buffer is not empty, to the buffer dictation writes to;
     * the other buffer never changes, and an empty final text changes
     * neither. The silence timer is (re)armed.
     */
    method OnResult(results: seq<Fragment>, resultIndex: nat)
      modifies this
      ensures var final := if resultIndex <= |results| then Finals(results[resultIndex..]) else "";
        (final == "" ==> inputText == old(inputText) && imageInputText == old(imageInputText)) &&
        (final != "" && activeInput == ChatInput ==>
           inputText == AppendTranscript(old(inputText), final) && imageInputText == old(imageInputText)) &&
        (final != "" && activeInput == ModalInput ==>
           imageInputText == AppendTranscript(old(imageInputText), final) && inputText == old(inputText))
      ensures State() == old(State()).(inputText := inputText, imageInputText := imageInputText,
                                       silenceTimerArmed := true)
    {
      var final, interim := CollectTranscripts(results, resultIndex);
      if final != "" {
        if activeInput == ChatInput {
          inputText := AppendTranscript(inputText, final);
        } else {
          imageInputText := AppendTranscript(imageInputText, final);
        }
      }
      silenceTimerArmed := true;
    }

    /**
     * `processAI`, up to its first `await`: the request is in flight and the
     * screen shows that it is loading. `history` is the conversation of the
     * render that called it, before the caller's own message was added.
     */
    method ProcessAI(text: string, image: string, history: seq<Message>)
      modifies this
      ensures State() == old(State()).(isLoading := true,
                                       inFlight := old(inFlight) + [Turn(text, image, history, userDetails)])
    {
      isLoading := true;
      inFlight := inFlight + [Turn(text, image, history, userDetails)];
    }

    /** `handleSendMessage`: a non-blank input is shown as the user's message, cleared and sent. */
    method HandleSendMessage(now: int)
      modifies this
      ensures State() == AfterSend(old(State()), now)
    {
      if IsBlank(inputText) {
        return;
      }
      var textToSend := inputText;
      var history := messages;
      messages := messages + [UserMessage(now, textToSend)];
      inputText := "";
      ProcessAI(textToSend, "", history);
    }

    /** `handleFile`: an image file is staged, with an empty caption, and the camera panel opens; anything else is ignored. */
    method HandleFile(file: Option<File>)
      modifies this
      ensures (file.Some? && AcceptsFile(file.value.mimeType)) ==>
        State() == old(State()).(imgSrc := file.value.dataUrl, imageInputText := "", isCameraOpen := true)
      ensures !(file.Some? && AcceptsFile(file.value.mimeType)) ==> State() == old(State())
    {
      if file.Some? && AcceptsFile(file.value.mimeType) {
        imgSrc := file.value.dataUrl;
        imageInputText := "";
        isCameraOpen := true;
      }
    }

    /**
     * The global paste handler: every item of an image type that holds a file
     * goes to `handleFile`, in order, so the last accepted one stays staged.
     */
    method HandlePaste(items: seq<ClipboardItem>)
      modifies this
      ensures match LastPastedImage(items)
        case None => State() == old(State())
        case Some(f) => State() == old(State()).(imgSrc := f.dataUrl, imageInputText := "", isCameraOpen := true)
    {
      var i := 0;
      while i < |items|
        invariant 0 <= i <= |items|
        invariant match LastPastedImage(items[..i])
          case None => State() == old(State())
          case Some(f) => State() == old(State()).(imgSrc := f.dataUrl, imageInputText := "", isCameraOpen := true)
      {
        if AcceptsFile(items[i].kind) && items[i].file.Some? {
          HandleFile(items[i].file);
        }
        assert items[..i + 1][..i] == items[..i];
        i := i + 1;
      }
      assert items[..i] == items;
    }

    /** `capture`: the webcam's screenshot is staged with an empty caption. */
    method Capture(screenshot: string)
      modifies this
      ensures State() == old(State()).(imgSrc := screenshot, imageInputText := "")
    {
      imgSrc := screenshot;
      imageInputText := "";
    }

    /** `retake`: the staged image is dropped; the camera stays open. */
    method Retake()
      modifies this
      ensures State() == old(State()).(imgSrc := "")
    {
      imgSrc := "";
    }

    /** `closeCamera`: the panel closes and the staged image is dropped. */
    method CloseCamera()
      modifies this
      ensures State() == old(State()).(isCameraOpen := false, imgSrc := "")
    {
      isCameraOpen := false;
      imgSrc := "";
    }

    /**
     * `analyzeImage`: with an image staged, the user's message shows the
     * image (and the caption, when one was typed), the staged state is
     * cleared, and the caption (or the default analysis prompt) is sent with
     * the image. Without an image nothing happens.
     */
    method AnalyzeImage(now: int)
      modifies this
      ensures State() == AfterAnalyze(old(State()), now)
    {
      if imgSrc != "" {
        var description := AnalysisQuery(imageInputText);
        var newMessage := Message(now, User, AnalysisMessageText(imageInputText), imgSrc, None);
        var history := messages;
        messages := messages + [newMessage];
        var imageToAnalyze := imgSrc;
        isCameraOpen := false;
        imgSrc := "";
        imageInputText := "";
        ProcessAI(description, imageToAnalyze, history);
      }
    }

    /**
     * The auto-submit of a dictated chat message as corrected: like
     * `handleSendMessage`, the question is shown as the user's message before
     * it is sent.
     */
    method AutoSubmit(now: int)
      modifies this
      ensures State() == AfterAutoSubmit(old(State()), now)
    {
      if activeInput == ChatInput {
        HandleSendMessage(now);
      } else {
        AnalyzeImage(now);
      }
    }

    /**
     * `latestAutoSubmit` as written: a dictated chat message is sent and
     * cleared, but never added to the conversation.
     */
    method AutoSubmitAsWritten(now: int)
      modifies this
      ensures State() == AfterAutoSubmitAsWritten(old(State()), now)
    {
      if activeInput == ChatInput {
        if !IsBlank(inputText) {
          ProcessAI(inputText, "", messages);
          inputText := "";
        }
      } else {
        AnalyzeImage(now);
      }
    }

    /**
     * The silence timer firing three seconds after the last result:
     * dictation stops and the buffer is submitted through the corrected
     * `AutoSubmit` (the code as written is `AutoSubmitAsWritten`). A disarmed
     * timer does not fire.
     */
    method OnSilenceTimeout(now: int)
      modifies this
      ensures State() == AfterSilence(old(State()), now)
    {
      if silenceTimerArmed {
        silenceTimerArmed := false;
        isListening := false;
        AutoSubmit(now);
      }
    }

    /** `speak`: whatever is being read is cancelled, and the cleaned text is queued with the preferred voice. */
    method Speak(text: string, messageId: Option<int>, voices: seq<Voice>)
      modifies this
      ensures State() == old(State()).(utterance := Some(MakeUtterance(text, messageId, voices)))
    {
      utterance := Some(MakeUtterance(text, messageId, voices));
    }

    /** The utterance's `onstart`: the message being read is marked. */
    method OnSpeechStart()
      modifies this
      ensures utterance.Some? ==> State() == old(State()).(speakingMessageId := utterance.value.messageId)
      ensures utterance.None? ==> State() == old(State())
    {
      if utterance.Some? {
        speakingMessageId := utterance.value.messageId;
      }
    }

    /** `stopSpeaking`, and the utterance's `onend` or `onerror`: nothing is read any more. */
    method StopSpeaking()
      modifies this
      ensures State() == old(State()).(utterance := None, speakingMessageId := None)
    {
      utterance := None;
      speakingMessageId := None;
    }

    /**
     * The rest of `processAI` for the in-flight request `k`: the reply of
     * `Answer` is appended to the conversation open at that moment, its
     * speech is queued, and loading ends.
     */
    method SettleTurn(k: nat, apiKey: string, sdk: Groq.ChatRequest -> Groq.SdkOutcome,
                      now: int, random: real, voices: seq<Voice>)
      modifies this
      requires k < |inFlight| && 0.0 <= random < 1.0
      ensures var a := Answer(old(inFlight[k]), apiKey, sdk, now, random);
        State() == old(State()).(messages := old(messages) + [a.reply], inFlight := old(inFlight[..k] + inFlight[k + 1..]),
                                 isLoading := false, utterance := Some(MakeUtterance(a.speech, a.speechId, voices)))
      ensures old(Asked(State())) ==> Asked(State())
    {
      ghost var before := State();
      var a := Answer(inFlight[k], apiKey, sdk, now, random);
      inFlight := inFlight[..k] + inFlight[k + 1..];
      messages := messages + [a.reply];
      Speak(a.speech, a.speechId, voices);
      isLoading := false;
      if Asked(before) {
        SettleKeepsAsked(before, k, a.reply);
      }
    }
  }

  /** What a settled request adds: the bot's message, and the text to speak with the message it belongs to. */
  datatype Outcome = Outcome(reply: Message, speech: string, speechId: Option<int>)

  /**
   * How `processAI` answers a request: an image-generation request with the
   * extracted prompt and a picture request, anything else with the chat
   * client's reply; a failure with the error's message (or a fallback) and a
   * spoken apology that belongs to no message.
   */
  function Answer(t: Turn, apiKey: string, sdk: Groq.ChatRequest -> Groq.SdkOutcome, now: int, random: real)
    : (a: Outcome)
    requires 0.0 <= random < 1.0
    ensures a.reply.role == Bot && a.reply.id == now + 1 && a.reply.image == ""
    ensures a.reply.generatedImage.Some? <==> IsImageGeneration(t.text)
    ensures a.reply.generatedImage.Some? ==>
      a.reply.generatedImage.value.prompt == ImagePrompt(t.text) && a.reply.generatedImage.value.seed < 10000
    ensures a.speechId.None? <==>
      !IsImageGeneration(t.text) && Groq.Advice(apiKey, t.text, t.image, t.history, t.profile, sdk).Err?
    ensures a.speechId.Some? ==> a.speechId.value == a.reply.id
    ensures a.reply.text != ""
    ensures IsImageGeneration(t.text) ==>
      a.reply.text == ImageReplyText(ImagePrompt(t.text)) && a.speech == ImageSpeechText(ImagePrompt(t.text))
    ensures !IsImageGeneration(t.text) ==>
      match Groq.Advice(apiKey, t.text, t.image, t.history, t.profile, sdk)
      case Ok(x) => a.reply.text == x && a.speech == x
      case Err(e) => a.reply.text == ErrorReplyText(e) && a.speech == ErrorApology
  {
    if IsImageGeneration(t.text) then
      var prompt := ImagePrompt(t.text);
      Outcome(Message(now + 1, Bot, ImageReplyText(prompt), "", Some(ImageRequestFor(prompt, Seed(random)))),
              ImageSpeechText(prompt), Some(now + 1))
    else
      match Groq.Advice(apiKey, t.text, t.image, t.history, t.profile, sdk)
      case Ok(text) => Outcome(BotMessage(now + 1, text), text, Some(now + 1))
      case Err(e) => Outcome(BotMessage(now + 1, ErrorReplyText(e)), ErrorApology, None)
  }
}
