/**
 * The conversation session (`ChatViewModel`): the prompt composer, the send
 * flow with its optimistic append, the mapping of service failures to
 * messages, loading the profile used as prompt context, and saving the
 * transcript to the store.
 *
 * Every asynchronous step is split in two: a method for the synchronous part,
 * which returns the request it issues (`None` when it issues none), and a
 * `Complete...` method that is handed the outcome of that request.
 */
module Chat {
  import opened Wrappers
  import opened Store
  import opened Text
  import opened Messages

  // ---------------------------------------------------------------- profile

  datatype UserProfile = UserProfile(name: string, age: string, gender: string,
                                     occupation: string, location: string, bio: string)

  /** The profile built from a `users` record: every missing or non-string field becomes "". */
  function ProfileFromRecord(data: Record): (p: UserProfile)
    ensures p.name == StringOr(data, "name") && p.age == StringOr(data, "age")
    ensures p.gender == StringOr(data, "gender") && p.occupation == StringOr(data, "occupation")
    ensures p.location == StringOr(data, "location") && p.bio == StringOr(data, "bio")
  {
    UserProfile(StringOr(data, "name"), StringOr(data, "age"), StringOr(data, "gender"),
                StringOr(data, "occupation"), StringOr(data, "location"), StringOr(data, "bio"))
  }

  // ---------------------------------------------------------- prompt composer

  const RoastMode: string := "Roast Me"
  const ComplimentMode: string := "Compliment Me"
  const SurpriseMode: string := "Surprise Me"

  /** The modes the composer has a template for; any other mode passes the input through. */
  predicate IsKnownMode(mode: string) {
    mode == RoastMode || mode == ComplimentMode || mode == SurpriseMode
  }

  const NoProfileContext: string := "No profile info available."

  /** The seven lines of the context block for a present profile: a heading, then Name through Bio. */
  function ProfileLines(p: UserProfile): (lines: seq<string>)
    ensures |lines| == 7
  {
    ["USER PROFILE:", "Name: " + p.name, "Age: " + p.age, "Gender: " + p.gender,
     "Occupation: " + p.occupation, "Location: " + p.location, "Bio: " + p.bio]
  }

  /** The context block that opens every templated prompt (a multi-line literal is its lines joined by line breaks). */
  function ProfileContext(profile: Option<UserProfile>): string {
    match profile
    case None => NoProfileContext
    case Some(p) => JoinLines(ProfileLines(p))
  }

  /**
   * Read back line by line, a profile's context block gives exactly its
   * heading and six labelled lines (when no field itself holds a line break).
   */
  lemma ProfileContextLines(p: UserProfile)
    requires NoLineBreaks(p.name) && NoLineBreaks(p.age) && NoLineBreaks(p.gender)
    requires NoLineBreaks(p.occupation) && NoLineBreaks(p.location) && NoLineBreaks(p.bio)
    ensures SplitLines(ProfileContext(Some(p))) == ["USER PROFILE:", "Name: " + p.name, "Age: " + p.age,
      "Gender: " + p.gender, "Occupation: " + p.occupation, "Location: " + p.location, "Bio: " + p.bio]
  {
    var ls := ProfileLines(p);
    forall k | 0 <= k < |ls| ensures NoLineBreaks(ls[k]) {
      var tag := ["USER PROFILE:", "Name: ", "Age: ", "Gender: ", "Occupation: ", "Location: ", "Bio: "][k];
      var field := ["", p.name, p.age, p.gender, p.occupation, p.location, p.bio][k];
      assert ls[k] == tag + field;
      assert NoLineBreaks(tag) && NoLineBreaks(field);
    }
    SplitLinesOfJoinLines(ls);
  }

  /**
   * The text of a mode's template before the input's opening double quote
   * (`lead`) or after its closing one (`!lead`). `depth` has no meaning of
   * its own: every depth gives the same text. It is passed the mode's length
   * so that the verifier expands these long texts only in a proof that asks
   * for them. The texts are written as short pieces, which the verifier
   * handles far more cheaply than one long literal.
   */
  function TemplateText(mode: string, lead: bool, depth: nat): string
    requires IsKnownMode(mode)
    decreases depth
  {
    if depth > 0 then TemplateText(mode, lead, depth - 1)
    else if mode == RoastMode then
      if lead then
        "\n" +
        "\n" +
        "You are an absolutely " + "savage roast " + "master with " + "zero filter. " + "Think of the " +
        "most brutal, " + "insulting, and " + "vicious roast " + "you can possibly " + "give\U{2014}no " +
        "politeness, " + "no restraint. " + "Use dark humor, " + "curse words, " + "personal jabs, " +
        "and ruthless " + "sarcasm based " + "on the user's " + "profile and " + "the input they " +
        "gave: "
      else
        ".\n" +
        "\n" +
        "Be clever, creative, " + "and merciless " + "\U{2014} go " + "for the jugular " +
        "and make it " + "hurt (while " + "still being " + "funny). Channel " + "your inner roast " +
        "demon.\n" +
        "you may include " + "curse words " + "like \"f*ck\", " + "\"sh*t\", \"b*tch\", " +
        "\"asshole\", " + "etc. Be as savage " + "as possible.\n" +
        "Only bring up " + "the USER PROFILE " + "when it's relevant, " + "natural, or " +
        "helps enhance " + "the reply.\n" +
        "Make sure the " + "response is " + "not too long, " + "but absolutely " + "cutting and " +
        "memorable."
    else if mode == ComplimentMode then
      if lead then
        "\n" +
        "\n" +
        "You are a world-class " + "compliment expert. " + "Your job is " + "to make this " +
        "user feel like " + "the most admired, " + "special, and " + "powerful human " +
        "being on Earth.\n" +
        "\n" +
        "Create a heartfelt, " + "over-the-top, " + "poetic compliment " + "that flatters " +
        "them using their " + "profile info " + "and their input: "
      else
        ". Make them " + "feel like a " + "god among mortals, " + "the center of " + "the universe, " +
        "someone everyone " + "wishes they " + "could be. Use " + "metaphors, emotion, " +
        "and pure admiration. " + "Make it unforgettable.\n" +
        "Only bring up " + "the USER PROFILE " + "when it's relevant, " + "natural, or " +
        "helps enhance " + "the reply.\n" +
        "Make sure to " + "use simple language " + "and the response " + "is not too long, " +
        "but absolutely " + "cutting and " + "memorable."
    else
      if lead then
        "\n" +
        "\n" +
        "You are a wild, " + "unpredictable, " + "and creative " + "AI that generates " +
        "something *surprisingly " + "personal* based " + "on the user's " + "profile and " +
        "their input: "
      else
        ".\n" +
        "\n" +
        "It could be " + "a hilarious " + "scenario involving " + "them, an unexpected " +
        "secret about " + "their future, " + "a fictional " + "letter from " + "their pet, a " +
        "fake news headline " + "about them, " + "or a poem from " + "an alternate " + "universe. The " +
        "only rule: it " + "must be original, " + "tailored to " + "their profile, " +
        "and **genuinely " + "surprising**.\n" +
        "Only bring up " + "the USER PROFILE " + "when it's relevant, " + "natural, or " +
        "helps enhance " + "the reply.\n" +
        "Make sure the " + "response is " + "not too long, " + "but absolutely " + "cutting and " +
        "memorable."
  }

  /** The template text between the context block and the input, up to the opening double quote. */
  function TemplateLead(mode: string): (lead: string)
    requires IsKnownMode(mode)
    ensures |lead| > 0 && lead[|lead| - 1] == '"'
  {
    TemplateText(mode, true, |mode|) + "\""
  }

  /** The template text after the input, from the closing double quote. */
  function TemplateTail(mode: string): (tail: string)
    requires IsKnownMode(mode)
    ensures |tail| > 0 && tail[0] == '"'
  {
    "\"" + TemplateText(mode, false, |mode|)
  }

  /**
   * `generatePrompt(for:input:)`. A known mode gives the context block, then
   * the mode's instructions with the input verbatim between double quotes;
   * any other mode gives the input unchanged.
   */
  function GeneratePrompt(mode: string, profile: Option<UserProfile>, input: string): (r: string)
    ensures !IsKnownMode(mode) ==> r == input
    ensures IsKnownMode(mode) ==>
      var ctx := ProfileContext(profile);
      var at := |ctx| + |TemplateLead(mode)|;
      && |r| > at + |input|
      && r[..|ctx|] == ctx
      && r[at - 1] == '"' && r[at..at + |input|] == input && r[at + |input|] == '"'
  {
    var context := ProfileContext(profile);
    if IsKnownMode(mode) then
      var lead, tail := TemplateLead(mode), TemplateTail(mode);
      ConcatenationParts(context, lead, input, tail);
      context + lead + input + tail
    else input
  }

  /** Where each part of `a + b + c + d` sits. */
  lemma ConcatenationParts(a: string, b: string, c: string, d: string)
    requires |b| > 0 && |d| > 0
    ensures var r := a + b + c + d;
      && |r| == |a| + |b| + |c| + |d|
      && r[..|a|] == a
      && r[|a| + |b| - 1] == b[|b| - 1]
      && r[|a| + |b|..|a| + |b| + |c|] == c
      && r[|a| + |b| + |c|] == d[0]
  {
  }

  /** Reads the user's input back out of a prompt (`None` if `prompt` is not a prompt for this mode and profile). */
  function ExtractInput(mode: string, profile: Option<UserProfile>, prompt: string): Option<string> {
    if !IsKnownMode(mode) then Some(prompt)
    else
      var head := ProfileContext(profile) + TemplateLead(mode);
      var tail := TemplateTail(mode);
      if |head| + |tail| <= |prompt| && prompt[..|head|] == head && prompt[|prompt| - |tail|..] == tail
      then Some(prompt[|head|..|prompt| - |tail|])
      else None
  }

  /** The input is interpolated as is: it can always be recovered from the prompt. */
  lemma ExtractInputOfGeneratePrompt(mode: string, profile: Option<UserProfile>, input: string)
    ensures ExtractInput(mode, profile, GeneratePrompt(mode, profile, input)) == Some(input)
  {
    if IsKnownMode(mode) {
      var head := ProfileContext(profile) + TemplateLead(mode);
      assert GeneratePrompt(mode, profile, input) == head + input + TemplateTail(mode);
      SplitAround(head, input, TemplateTail(mode));
    }
  }

  /** Where the middle of `head + mid + tail` sits. */
  lemma SplitAround(head: string, mid: string, tail: string)
    ensures var r := head + mid + tail;
      && |head| + |tail| <= |r|
      && r[..|head|] == head && r[|r| - |tail|..] == tail && r[|head|..|r| - |tail|] == mid
  {
  }

  /** Different inputs give different prompts, in every mode. */
  lemma GeneratePromptInjective(mode: string, profile: Option<UserProfile>, s1: string, s2: string)
    requires GeneratePrompt(mode, profile, s1) == GeneratePrompt(mode, profile, s2)
    ensures s1 == s2
  {
    ExtractInputOfGeneratePrompt(mode, profile, s1);
    ExtractInputOfGeneratePrompt(mode, profile, s2);
  }

  // ------------------------------------------------------- service failures

  /** The generation service's closed failure set. */
  datatype ServiceError =
    | InvalidURL
    | NetworkError(cause: string)
    | NoData
    | DecodingError(cause: string)
    | ApiError(code: int, message: string)

  /** `handleError`: the message shown for each failure (a cause is its `localizedDescription`). */
  function ServiceErrorText(e: ServiceError): string {
    match e
    case InvalidURL => "Invalid API URL."
    case NetworkError(cause) => "Network error: " + cause
    case NoData => "No response received."
    case DecodingError(cause) => "Decoding error: " + cause
    case ApiError(code, message) => "API error " + IntToString(code) + ": " + message
  }

  lemma ApiErrorTextInjective(c1: int, m1: string, c2: int, m2: string)
    requires ServiceErrorText(ApiError(c1, m1)) == ServiceErrorText(ApiError(c2, m2))
    ensures c1 == c2 && m1 == m2
  {
    var s := ServiceErrorText(ApiError(c1, m1));
    var a1, a2 := IntToString(c1), IntToString(c2);
    // the code's description holds no ':', so the first ':' after "API error " ends it
    assert s == "API error " + a1 + ": " + m1;
    assert s == "API error " + a2 + ": " + m2;
    IndexOfFromFinds(s, ':', 10, 10 + |a1|);
    IndexOfFromFinds(s, ':', 10, 10 + |a2|);
    assert a1 == s[10..10 + |a1|] == a2;
    IntToStringInjective(c1, c2);
    assert m1 == s[12 + |a1|..] == m2;
  }

  /** Each failure, cause included, is shown with a text of its own. */
  lemma ServiceErrorTextInjective(e1: ServiceError, e2: ServiceError)
    requires ServiceErrorText(e1) == ServiceErrorText(e2)
    ensures e1 == e2
  {
    var s := ServiceErrorText(e1);
    if e1.ApiError? && e2.ApiError? {
      ApiErrorTextInjective(e1.code, e1.message, e2.code, e2.message);
    } else if e1.NetworkError? && e2.NetworkError? {
      assert e1.cause == s[15..] == e2.cause;
    } else if e1.DecodingError? && e2.DecodingError? {
      assert e1.cause == s[16..] == e2.cause;
    } else {
      assert ServiceErrorText(e1)[0] == ServiceErrorText(e2)[0];
      assert ServiceErrorText(e1)[1] == ServiceErrorText(e2)[1];
    }
  }

  /** How one request to the generation service ends. */
  datatype ReplyOutcome =
    | Replied(response: string)
    | ServiceFailed(error: ServiceError)
      /** Any other thrown error, such as a cancelled delay. */
    | OtherFailure(description: string)

  function FailureText(outcome: ReplyOutcome): string
    requires !outcome.Replied?
  {
    match outcome
    case ServiceFailed(e) => ServiceErrorText(e)
    case OtherFailure(d) => "Unexpected error: " + d
  }

  // ------------------------------------------------------------ persistence

  /** The store record of a conversation, as sent by every save. */
  function ConversationPayload(uid: string, mode: string, messages: seq<Message>): (data: Record)
    ensures data.Keys == {"userId", "mode", "messages", "updatedAt"}
    ensures data["userId"] == Str(uid) && data["mode"] == Str(mode)
    ensures data["messages"] == EncodeMessages(messages) && data["updatedAt"] == ServerTimestamp
  {
    map["userId" := Str(uid), "mode" := Str(mode), "messages" := EncodeMessages(messages),
        "updatedAt" := ServerTimestamp]
  }

  /** A store write issued by a save. */
  datatype SaveRequest =
    | UpdateRecord(docId: string, data: Record)
      /** `docId` is the identifier the store generated for the new document reference. */
    | CreateRecord(docId: string, data: Record)

  // ---------------------------------------------------------------- session

  class ChatSession {
    var messages: seq<Message>
    var inputText: string
    var errorMessage: Option<string>
    var showErrorAlert: bool
    var isLoading: bool
    var showSuccessAlert: bool
    const mode: string
    var profile: Option<UserProfile>
    var conversationId: Option<string>

    constructor (mode: string, profile: Option<UserProfile>, conversationId: Option<string>)
      ensures this.mode == mode && this.profile == profile && this.conversationId == conversationId
      ensures messages == [] && inputText == "" && errorMessage == None
      ensures !showErrorAlert && !isLoading && !showSuccessAlert
    {
      this.mode := mode;
      this.profile := profile;
      this.conversationId := conversationId;
      messages, inputText, errorMessage := [], "", None;
      showErrorAlert, isLoading, showSuccessAlert := false, false, false;
    }

    method SetProfile(p: UserProfile)
      modifies this`profile
      ensures profile == Some(p)
    {
      profile := Some(p);
    }

    method SetConversationId(id: string)
      modifies this`conversationId
      ensures conversationId == Some(id)
    {
      conversationId := Some(id);
    }

    /**
     * The synchronous part of `sendMessage`. Blank input (only white space
     * and line breaks) changes nothing and sends nothing. Otherwise the input,
     * untrimmed, is appended as a user message and cleared, and that message
     * is returned: it is what the background task goes on to send.
     */
    method SendMessage(id: string, now: Instant) returns (sent: Option<Message>)
      modifies this`messages, this`inputText
      ensures IsBlank(old(inputText)) ==> sent == None && messages == old(messages) && inputText == old(inputText)
      ensures !IsBlank(old(inputText)) ==>
        && sent == Some(Message(id, old(inputText), true, now))
        && messages == old(messages) + [sent.value]
        && inputText == ""
    {
      TrimIsEmptyIffBlank(inputText);
      if Trim(inputText) == [] {
        return None;
      }
      var userMessage := Message(id, inputText, true, now);
      messages := messages + [userMessage];
      inputText := "";
      sent := Some(userMessage);
    }

    /** The `Task`, after its first delay: shows the typing indicator and composes the prompt it sends. */
    method BeginRequest(text: string) returns (prompt: string)
      modifies this`isLoading
      ensures isLoading
      ensures prompt == GeneratePrompt(mode, profile, text)
    {
      isLoading := true;
      prompt := GeneratePrompt(mode, profile, text);
    }

    /** `handleError`. */
    method HandleError(e: ServiceError)
      modifies this`errorMessage, this`showErrorAlert
      ensures errorMessage == Some(ServiceErrorText(e)) && showErrorAlert
    {
      errorMessage := Some(ServiceErrorText(e));
      showErrorAlert := true;
    }

    /**
     * The end of the asynchronous `Task`. A reply is appended as an assistant message; a
     * failure appends nothing (the user's message stays) and is reported.
     * Either way the typing indicator goes away.
     */
    method CompleteSend(outcome: ReplyOutcome, replyId: string, now: Instant)
      modifies this`messages, this`errorMessage, this`showErrorAlert, this`isLoading
      ensures !isLoading
      ensures outcome.Replied? ==>
        && messages == old(messages) + [Message(replyId, outcome.response, false, now)]
        && errorMessage == old(errorMessage) && showErrorAlert == old(showErrorAlert)
      ensures !outcome.Replied? ==>
        messages == old(messages) && errorMessage == Some(FailureText(outcome)) && showErrorAlert
    {
      match outcome {
        case Replied(response) =>
          messages := messages + [Message(replyId, response, false, now)];
        case ServiceFailed(e) =>
          HandleError(e);
        case OtherFailure(d) =>
          errorMessage := Some("Unexpected error: " + d);
          showErrorAlert := true;
      }
      isLoading := false;
    }

    /**
     * One whole `sendMessage` whose `Task` runs to `outcome` with nothing
     * interleaved: a user message, then an assistant message only on success.
     * It returns the text that `Task` sent, if it sent anything.
     */
    method SendAndAwait(id: string, replyId: string, now: Instant, replyAt: Instant, outcome: ReplyOutcome)
      returns (sentText: Option<string>)
      modifies this`messages, this`inputText, this`errorMessage, this`showErrorAlert, this`isLoading
      ensures IsBlank(old(inputText)) ==>
        && sentText == None && messages == old(messages) && inputText == old(inputText)
        && errorMessage == old(errorMessage) && showErrorAlert == old(showErrorAlert) && isLoading == old(isLoading)
      ensures !IsBlank(old(inputText)) ==>
        && sentText == Some(old(inputText)) && inputText == "" && !isLoading
        && messages == old(messages) + [Message(id, old(inputText), true, now)]
                       + (if outcome.Replied? then [Message(replyId, outcome.response, false, replyAt)] else [])
        && (outcome.Replied? ==> errorMessage == old(errorMessage) && showErrorAlert == old(showErrorAlert))
        && (!outcome.Replied? ==> errorMessage == Some(FailureText(outcome)) && showErrorAlert)
    {
      var sent := SendMessage(id, now);
      if sent == None {
        return None;
      }
      var _ := BeginRequest(sent.value.text);
      CompleteSend(outcome, replyId, replyAt);
      sentText := Some(sent.value.text);
    }

    /** The synchronous part of `loadUserProfile`: the `users` document it reads, if any. */
    method LoadUserProfile(uid: Option<string>) returns (request: Option<string>)
      modifies this`errorMessage, this`showErrorAlert
      ensures request == uid
      ensures uid.None? ==> errorMessage == Some("User not authenticated.") && showErrorAlert
      ensures uid.Some? ==> errorMessage == old(errorMessage) && showErrorAlert == old(showErrorAlert)
    {
      if uid.None? {
        errorMessage := Some("User not authenticated.");
        showErrorAlert := true;
      }
      request := uid;
    }

    /** The completion of `loadUserProfile`, given the read's error or the document (absent if none exists). */
    method CompleteLoadUserProfile(error: Option<string>, document: Option<Record>)
      modifies this`profile, this`errorMessage, this`showErrorAlert
      ensures error.Some? ==>
        profile == old(profile) && errorMessage == Some("Failed to load profile: " + error.value) && showErrorAlert
      ensures error.None? && document.None? ==>
        profile == old(profile) && errorMessage == Some("User profile not found.") && showErrorAlert
      ensures error.None? && document.Some? ==>
        && profile == Some(ProfileFromRecord(document.value))
        && errorMessage == old(errorMessage) && showErrorAlert == old(showErrorAlert)
    {
      if error.Some? {
        errorMessage := Some("Failed to load profile: " + error.value);
        showErrorAlert := true;
        return;
      }
      if document.None? {
        errorMessage := Some("User profile not found.");
        showErrorAlert := true;
        return;
      }
      profile := Some(ProfileFromRecord(document.value));
    }

    /**
     * The synchronous part of `saveConversation`. An empty transcript is
     * refused first, then a missing user; neither issues a write. Otherwise
     * a stored conversation is updated under its identifier, and a new one
     * is created at `newDocId` with a creation time.
     */
    method SaveConversation(uid: Option<string>, newDocId: string) returns (request: Option<SaveRequest>)
      modifies this`errorMessage, this`showErrorAlert
      ensures messages == [] ==>
        request == None && errorMessage == Some("Conversation is empty.") && showErrorAlert
      ensures messages != [] && uid.None? ==>
        request == None && errorMessage == Some("User not authenticated.") && showErrorAlert
      ensures messages != [] && uid.Some? ==>
        && errorMessage == old(errorMessage) && showErrorAlert == old(showErrorAlert)
        && var data := ConversationPayload(uid.value, mode, messages);
           request == Some(if conversationId.Some? then UpdateRecord(conversationId.value, data)
                           else CreateRecord(newDocId, data["createdAt" := ServerTimestamp]))
    {
      if messages == [] {
        errorMessage := Some("Conversation is empty.");
        showErrorAlert := true;
        return None;
      }
      if uid.None? {
        errorMessage := Some("User not authenticated.");
        showErrorAlert := true;
        return None;
      }
      var data := ConversationPayload(uid.value, mode, messages);
      if conversationId.Some? {
        request := Some(UpdateRecord(conversationId.value, data));
      } else {
        data := data["createdAt" := ServerTimestamp];
        request := Some(CreateRecord(newDocId, data));
      }
    }

    /**
     * The completion of a save's write. Only a successful create changes the
     * identifier, to the new document's; an update never does.
     */
    method CompleteSave(request: SaveRequest, error: Option<string>)
      modifies this`errorMessage, this`showErrorAlert, this`showSuccessAlert, this`conversationId
      ensures error.Some? ==>
        && errorMessage == Some((if request.UpdateRecord? then "Failed to update: " else "Failed to save: ") + error.value)
        && showErrorAlert && showSuccessAlert == old(showSuccessAlert) && conversationId == old(conversationId)
      ensures error.None? ==>
        && showSuccessAlert
        && errorMessage == old(errorMessage) && showErrorAlert == old(showErrorAlert)
        && conversationId == if request.CreateRecord? then Some(request.docId) else old(conversationId)
    {
      if error.Some? {
        errorMessage := Some((if request.UpdateRecord? then "Failed to update: " else "Failed to save: ") + error.value);
        showErrorAlert := true;
      } else {
        if request.CreateRecord? {
          conversationId := Some(request.docId);
        }
        showSuccessAlert := true;
      }
    }
  }

  /** Saving twice: a first save that creates succeeds, so the second updates that same record. */
  method SaveTwice(s: ChatSession, uid: string, firstId: string, otherId: string)
    returns (first: Option<SaveRequest>, second: Option<SaveRequest>)
    requires s.messages != [] && s.conversationId == None
    modifies s
    ensures first == Some(CreateRecord(firstId, ConversationPayload(uid, s.mode, s.messages)["createdAt" := ServerTimestamp]))
    ensures second == Some(UpdateRecord(firstId, ConversationPayload(uid, s.mode, s.messages)))
    ensures s.conversationId == Some(firstId)
    ensures s.messages == old(s.messages)
  {
    first := s.SaveConversation(Some(uid), firstId);
    s.CompleteSave(first.value, None);
    second := s.SaveConversation(Some(uid), otherId);
  }
}
