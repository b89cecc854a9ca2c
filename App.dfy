/**
 * The App component's state and its event handlers. Each handler runs as one
 * atomic step on the component's state fields; the streamed reply of a send
 * is consumed inside that step.
 */
module App {
  import opened Wrappers
  import opened Text
  import opened Catalog
  import opened WatchSampler
  import opened Transcript

  datatype View = Login | Home | CharacterDetail | Chat

  /** An open conversation with the remote model, bound to one character. */
  datatype Session = Session(characterId: string, handle: nat)

  /**
   * What the remote model yields for one send: the chunk texts in order (an
   * `undefined` chunk is the empty string: both fail `if (chunk)`), and
   * whether the stream then failed instead of ending normally.
   */
  datatype Reply = Reply(chunks: seq<string>, failed: bool)

  const Passcode: string := "0829"
  const LoginDenied: string := "ACCESS DENIED: Invalid Security Clearance."

  /** The screen changes a handler may make. No edge leads back to the lock screen. */
  predicate ViewEdge(from: View, to: View) {
    || from == to
    || (from == Login && to == Home)
    || (from == Home && to == CharacterDetail)
    || (from == CharacterDetail && (to == Home || to == Chat))
    || (from == Chat && to == CharacterDetail)
  }

  /** Once past the lock screen, no sequence of edges returns to it. */
  lemma {:induction false} NeverBackToLogin(path: seq<View>)
    requires |path| >= 1 && path[0] != Login
    requires forall k :: 0 <= k < |path| - 1 ==> ViewEdge(path[k], path[k + 1])
    ensures forall k :: 0 <= k < |path| ==> path[k] != Login
    decreases |path|
  {
    if |path| > 1 {
      NeverBackToLogin(path[..|path| - 1]);
      assert ViewEdge(path[|path| - 2], path[|path| - 1]);
    }
  }

  class AppState {
    /** The watch-data pool table the component reads. */
    const pools: map<string, WatchPool>
    var currentView: View
    var selectedChar: Option<Character>
    var chatSession: Option<Session>
    var messages: seq<ChatMessage>
    var inputMessage: string
    var isTyping: bool
    var watchData: Option<WatchData>
    var loginId: string
    var loginPassword: string
    var loginError: string

    /**
     * What holds in every reachable state: the detail and chat screens have
     * a character; the chat screen has a session and watch data; watch data
     * was sampled from the selected character's pool.
     */
    ghost predicate Valid()
      reads this`currentView, this`selectedChar, this`chatSession, this`watchData
    {
      && DefaultPoolId in pools
      && (currentView == CharacterDetail || currentView == Chat ==> selectedChar.Some?)
      && (currentView == Chat ==> chatSession.Some? && watchData.Some?)
      && (watchData.Some? ==> selectedChar.Some? && SampledFrom(watchData.value, PoolFor(pools, selectedChar.value.id)))
    }

    constructor ()
      ensures Valid() && pools == WatchDataPools
      ensures currentView == Login && selectedChar == None && chatSession == None
      ensures messages == [] && inputMessage == [] && !isTyping && watchData == None
      ensures loginId == [] && loginPassword == [] && loginError == []
    {
      pools := WatchDataPools;
      CatalogWellFormed();
      currentView := Login;
      selectedChar := None;
      chatSession := None;
      messages := [];
      inputMessage := [];
      isTyping := false;
      watchData := None;
      loginId := [];
      loginPassword := [];
      loginError := [];
    }

    /** The identity field's change handler. */
    method SetLoginId(value: string)
      requires Valid() && currentView == Login
      modifies this`loginId
      ensures Valid() && loginId == value
    {
      loginId := value;
    }

    /** The security-code field's change handler. */
    method SetLoginPassword(value: string)
      requires Valid() && currentView == Login
      modifies this`loginPassword
      ensures Valid() && loginPassword == value
    {
      loginPassword := value;
    }

    /** The chat input's change handler. */
    method SetInputMessage(value: string)
      requires Valid() && currentView == Chat
      modifies this`inputMessage
      ensures Valid() && inputMessage == value
    {
      inputMessage := value;
    }

    /**
     * `handleLogin`: only the security code is compared, never the identity.
     * The right code opens the home screen and clears the error; any other
     * code stays on the lock screen, shows the error and empties the code.
     */
    method HandleLogin()
      requires Valid() && currentView == Login
      modifies this`loginError, this`currentView, this`loginPassword
      ensures Valid() && ViewEdge(old(currentView), currentView)
      ensures old(loginPassword) == Passcode ==>
                currentView == Home && loginError == [] && loginPassword == old(loginPassword)
      ensures old(loginPassword) != Passcode ==>
                currentView == Login && loginError == LoginDenied && loginPassword == []
    {
      if loginPassword == Passcode {
        loginError := [];
        currentView := Home;
      } else {
        loginError := LoginDenied;
        loginPassword := [];
      }
    }

    /**
     * `handleSelectCharacter`: select the character, open its detail screen
     * and drop any watch data; nothing else changes (the session and the
     * transcript of an earlier chat stay).
     */
    method HandleSelectCharacter(c: Character)
      requires Valid() && currentView == Home
      modifies this`selectedChar, this`currentView, this`watchData
      ensures Valid() && ViewEdge(old(currentView), currentView)
      ensures selectedChar == Some(c) && currentView == CharacterDetail && watchData == None
    {
      selectedChar := Some(c);
      currentView := CharacterDetail;
      watchData := None;
    }

    /** The detail screen's "Return to Lobby" button: only the view changes. */
    method BackToLobby()
      requires Valid() && currentView == CharacterDetail
      modifies this`currentView
      ensures Valid() && ViewEdge(old(currentView), currentView)
      ensures currentView == Home
    {
      currentView := Home;
    }

    /**
     * The chat screen's back button: only the view changes. The session,
     * the transcript and the watch data are kept.
     */
    method BackToDetail()
      requires Valid() && currentView == Chat
      modifies this`currentView
      ensures Valid() && ViewEdge(old(currentView), currentView)
      ensures currentView == CharacterDetail
    {
      currentView := CharacterDetail;
    }

    /**
     * `startChat`. `createChatSession` stands for the gateway: None is a
     * throw (no API key, unknown character). A throw changes no state; a
     * session opens the chat screen with fresh watch data for the selected
     * character and a transcript holding only the opening line.
     */
    method StartChat(createChatSession: string -> Option<Session>, draws: Draws)
      requires Valid() && currentView == CharacterDetail
      requires selectedChar.Some? ==> DrawsFor(draws, PoolFor(pools, selectedChar.value.id))
      modifies this`chatSession, this`watchData, this`messages, this`currentView
      ensures Valid() && ViewEdge(old(currentView), currentView)
      ensures old(selectedChar).None? || createChatSession(old(selectedChar).value.id).None? ==>
                chatSession == old(chatSession) && watchData == old(watchData)
                && messages == old(messages) && currentView == old(currentView)
      ensures old(selectedChar).Some? && createChatSession(old(selectedChar).value.id).Some? ==>
                && chatSession == createChatSession(old(selectedChar).value.id)
                && watchData == Some(GenerateWatchData(pools, old(selectedChar).value.id, draws))
                && messages == [OpeningLine]
                && currentView == Chat
    {
      if selectedChar.None? {
        return;
      }
      var id := selectedChar.value.id;
      var session := createChatSession(id);
      if session.None? {
        // the gateway threw: an alert is shown and no state changes
        return;
      }
      chatSession := session;
      watchData := Some(GenerateWatchData(pools, id, draws));
      messages := [OpeningLine];
      currentView := Chat;
    }

    /**
     * `handleSendMessage`. `sendMessageStream` stands for the gateway's
     * stream, `userId` and `tempId` for the two clock-derived ids. There is
     * no `isTyping` check: a send goes ahead whenever the input has a
     * non-whitespace character and a session exists. The user's message and
     * an empty placeholder are appended, the input is cleared, and each
     * non-empty chunk rewrites every message with id `tempId` to hold all
     * text received so far. A failing stream keeps whatever was received;
     * either way `isTyping` ends false.
     */
    method HandleSendMessage(userId: string, tempId: string,
                             sendMessageStream: (Session, string) -> Reply)
      requires Valid() && currentView == Chat
      modifies this`messages, this`inputMessage, this`isTyping
      ensures Valid()
      ensures Trim(old(inputMessage)) == [] || old(chatSession).None? ==>
                messages == old(messages) && inputMessage == old(inputMessage) && isTyping == old(isTyping)
      ensures Trim(old(inputMessage)) != [] && old(chatSession).Some? ==>
                && messages == AfterSend(old(messages), userId, tempId, old(inputMessage),
                                         sendMessageStream(old(chatSession).value, old(inputMessage)).chunks)
                && inputMessage == []
                && !isTyping
    {
      if Trim(inputMessage) == [] || chatSession.None? {
        return;
      }
      var text := inputMessage;
      var session := chatSession.value;
      messages := messages + [ChatMessage(userId, User, text)];
      inputMessage := [];
      isTyping := true;

      var placeholderAdded := messages + [ChatMessage(tempId, Model, [])];
      assert placeholderAdded == old(messages) + [ChatMessage(userId, User, text), ChatMessage(tempId, Model, [])];
      messages := placeholderAdded;
      var chunks := sendMessageStream(session, text).chunks;
      FoldStream(tempId, chunks);
      assert messages == AfterSend(old(messages), userId, tempId, text, chunks);
      // a failed stream is only logged: the text received so far stays
      isTyping := false;
    }

    /**
     * The `for await` loop of `handleSendMessage`: each non-empty chunk is
     * appended to the text received so far, and every message with id
     * `tempId` is rewritten to hold that text.
     */
    method FoldStream(tempId: string, chunks: seq<string>)
      modifies this`messages
      ensures messages == Streamed(old(messages), tempId, chunks)
    {
      var fullResponse: string := [];
      var i := 0;
      while i < |chunks|
        invariant 0 <= i <= |chunks|
        invariant fullResponse == Concat(chunks[..i])
        invariant messages == Streamed(old(messages), tempId, chunks[..i])
      {
        var chunk := chunks[i];
        StreamedStep(old(messages), tempId, chunks[..i], chunk);
        assert chunks[..i + 1] == chunks[..i] + [chunk];
        if chunk != [] {
          fullResponse := fullResponse + chunk;
          messages := Patch(messages, tempId, fullResponse);
        }
        i := i + 1;
      }
      assert chunks[..i] == chunks;
    }
  }

  /**
   * The lock screen as a user meets it: a wrong code is refused and emptied,
   * the right one opens the home screen, and the identity plays no part.
   */
  method LoginExample()
  {
    var app := new AppState();
    app.SetLoginId("agent");
    app.SetLoginPassword("1234");
    app.HandleLogin();
    assert app.currentView == Login && app.loginError == LoginDenied && app.loginPassword == [];
    app.SetLoginPassword(Passcode);
    app.HandleLogin();
    assert app.currentView == Home && app.loginError == [];
  }

  /**
   * From the home screen: choosing a character and opening a chat leaves the
   * transcript holding only the opening line.
   */
  method OpenChatExample(app: AppState, c: Character, draws: Draws)
    requires app.Valid() && app.currentView == Home
    requires DrawsFor(draws, PoolFor(app.pools, c.id))
    modifies app
  {
    app.HandleSelectCharacter(c);
    var session := Session(c.id, 1);
    app.StartChat(id => Some(session), draws);
    assert app.currentView == Chat && app.messages == [OpeningLine];
    assert app.chatSession == Some(session);
  }

  /**
   * In a chat, a message with some visible character is sent as typed,
   * surrounding whitespace included, and the reply follows it; the earlier
   * transcript is kept.
   */
  method SendExample(app: AppState, input: string, k: nat, userId: string, tempId: string,
                     reply: seq<string>)
    requires app.Valid() && app.currentView == Chat
    requires k < |input| && !IsWhitespace(input[k])
    requires userId != tempId && FreshId(app.messages, tempId)
    modifies app
  {
    ghost var before := app.messages;
    app.SetInputMessage(input);
    TrimHasContent(input, k);
    app.HandleSendMessage(userId, tempId, (s, m) => Reply(reply, false));
    AfterSendShape(before, userId, tempId, input, reply);
    assert app.messages[..|before|] == before;
    assert app.messages[|before|] == ChatMessage(userId, User, input);
    assert app.messages[|before| + 1] == ChatMessage(tempId, Model, Concat(NonEmpty(reply)));
  }
}
