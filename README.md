# AIChatBuddy — a Dafny model of the chat app's core

AIChatBuddy is an iOS app for playful chats with a generation service. The
user picks one of three modes ("Roast Me", "Compliment Me", "Surprise Me")
and types messages. Each message goes out inside a prompt built from the
mode's template and the user's saved profile. Conversations are saved to a
document store, listed on a history screen, and can be resumed or deleted
from there. Around this sit a sign-up form, a profile form with pickers and a
bio placeholder, a welcome greeting, and a "Typing..." indicator.

The model takes each piece in the form the app gives it:

- `ChatViewModel` becomes the class `Chat.ChatSession`. Its published fields
  become class fields. `sendMessage`, `loadUserProfile` and `saveConversation`
  become methods with precise `modifies` frames.
- Every asynchronous store or service call ends in a `Complete…` method that
  takes the call's outcome as a parameter. Where the app's state can change
  between the request and its completion (sending, saving, deleting), a
  synchronous method returns the request it issues (`None` when none goes
  out), and `SendAndAwait`, `SaveTwice` and `SwipeDelete` chain the halves.
  Elsewhere the whole operation is one method that takes the store's
  answer as a function of the request (`FetchConversations`, the profile
  screen's `LoadUserProfile`, `Appear`). The history screen's delete keeps
  both its as-written and its corrected completion; see Findings.
- The prompt composer `generatePrompt` is a pure function
  (`Chat.GeneratePrompt`). It has a round-trip partner (`ExtractInput`) and
  an injectivity lemma.
- `Message.asDictionary` and the history screen's nested `compactMap`
  decoders are functions over a small value model of store records
  (`Store.Value`). They are proved to be inverse to each other. The decoders
  are proved to keep exactly the well-formed entries, in order.
- The history list, the sign-up form, the profile screen, the mode-selection
  screen and the typing indicator are classes whose methods are tied to pure
  step functions. The properties are proved about those functions.

These values are parameters instead of calls:

- message identifiers (`UUID()`) and timestamps (`Date()`);
- the store's document identifiers, snapshots and errors;
- the service's replies and failures;
- the signed-in user.

`FieldValue.serverTimestamp()` is the token `Store.ServerTimestamp`.
`Store.ResolveServerTimestamps` says what the store keeps once it has written
a record at a given time.

## Model

| member | source | states |
|---|---|---|
| Text.NatToDecimal | AIChatBuddy/UIKitControllers/ProfileViewController.swift:59 | `"\(n)"` for a natural number is a non-empty string of decimal digits with no leading zero |
| Text.ParseDecimalOfNatToDecimal | AIChatBuddy/UIKitControllers/ProfileViewController.swift:59 | reading the decimal rendering of `n` back gives `n` |
| Text.IntToString | AIChatBuddy/ViewModels/ChatViewModel.swift:155-156 | an error code's interpolation is non-empty and made of digits and '-' only |
| Text.ParseIntOfIntToString | AIChatBuddy/ViewModels/ChatViewModel.swift:155-156 | the interpolated error code reads back as the code, negative codes included |
| Text.IntToStringInjective | AIChatBuddy/ViewModels/ChatViewModel.swift:155-156 | different codes render differently |
| Text.TrimStart | AIChatBuddy/ViewModels/ChatViewModel.swift:36 | the result is a suffix of the input, starts with a non-white-space character or is empty, and every dropped character is white space or a line break |
| Text.TrimEnd | AIChatBuddy/ViewModels/ChatViewModel.swift:36 | the result is a prefix of the input, ends with a non-white-space character or is empty, and every dropped character is white space or a line break |
| Text.Trim | AIChatBuddy/ViewModels/ChatViewModel.swift:36 | `trimmingCharacters(in: .whitespacesAndNewlines)`: stated by the ensures of TrimStart and TrimEnd, and by TrimIsEmptyIffBlank |
| Text.TrimIsEmptyIffBlank | AIChatBuddy/ViewModels/ChatViewModel.swift:36 | trimming white space and line breaks gives "" exactly when every character of the input is white space or a line break |
| Text.JoinLines | AIChatBuddy/ViewModels/ChatViewModel.swift:163-175 | the multi-line literal as lines joined by line breaks: stated by SplitLinesOfJoinLines, which splits it back into its lines |
| Text.SplitLinesOfJoinLines | AIChatBuddy/ViewModels/ChatViewModel.swift:164-172 | a multi-line literal split at its line breaks gives back its lines, when no line holds a break itself |
| Store.CastString | AIChatBuddy/UIKitControllers/ProfileViewController.swift:220-224 | `data[key] as? String` succeeds exactly when the key is present with a string value, and then gives that string |
| Store.StringOr | AIChatBuddy/ViewModels/ChatViewModel.swift:85-92 | `data[key] as? String ?? ""`: stated by the CastString ensures and by ProfileFromRecord's, which give each profile field as the record's string or "" |
| Store.ResolveServerTimestamps | AIChatBuddy/ViewModels/ChatViewModel.swift:118 | a stored record has the written record's keys; server-timestamp tokens become the write time and every other value is kept |
| Sequences.Map | AIChatBuddy/ViewModels/ChatViewModel.swift:112 | `map` keeps the length and applies the function at each position |
| Sequences.CompactMap | AIChatBuddy/UIKitControllers/HistoryViewController.swift:114 | `compactMap` never yields more elements than it is given |
| Sequences.CompactMapSelects | AIChatBuddy/UIKitControllers/HistoryViewController.swift:114-130 | `compactMap`'s result is an order-preserving selection. Its k-th element is the transform of an input at a strictly increasing position. Every input the transform accepts is selected |
| Sequences.CompactMapAppend | AIChatBuddy/UIKitControllers/HistoryViewController.swift:114 | `compactMap` of a concatenation is the concatenation of the two `compactMap`s |
| Sequences.CompactMapOfMap | AIChatBuddy/UIKitControllers/HistoryViewController.swift:122-128 | `compactMap` with a left inverse of an encoding undoes `map` with that encoding |
| Sequences.CompactMapLength | AIChatBuddy/UIKitControllers/HistoryViewController.swift:114 | `compactMap` yields exactly as many elements as there are inputs the transform accepts |
| Sequences.RemoveAt | AIChatBuddy/UIKitControllers/HistoryViewController.swift:167 | `remove(at: i)` drops exactly element i. The elements before it stay in place, those after it shift down by one, and the multiset loses that one element |
| Messages.AsDictionary | AIChatBuddy/Models/Message.swift:17-24 | the dictionary has exactly the keys id, text, isUser and timestamp, each holding the matching field |
| Messages.AsDictionaryInjective | AIChatBuddy/Models/Message.swift:10-24 | messages with equal dictionaries are equal, since all four fields are encoded |
| Messages.EncodeMessages | AIChatBuddy/ViewModels/ChatViewModel.swift:112 | the payload's messages array has one dictionary per message, in transcript order |
| Chat.ProfileFromRecord | AIChatBuddy/ViewModels/ChatViewModel.swift:85-92 | each profile field is the record's string under that key, or "" when it is missing or not a string |
| Chat.ProfileLines | AIChatBuddy/ViewModels/ChatViewModel.swift:162-175 | the heading and the six labelled profile lines, seven in all: stated by its length ensures and by ProfileContextLines |
| Chat.ProfileContext | AIChatBuddy/ViewModels/ChatViewModel.swift:162-175 | the context block, or the no-profile text: stated by ProfileContextLines and by GeneratePrompt's ensures that a known mode's prompt starts with it |
| Chat.ProfileContextLines | AIChatBuddy/ViewModels/ChatViewModel.swift:162-175 | a profile's context block reads back, line by line, as the heading and the six labelled lines Name through Bio, when no field holds a line break |
| Chat.TemplateLead | AIChatBuddy/ViewModels/ChatViewModel.swift:178-209 | each mode's instructions before the input end with an opening double quote |
| Chat.TemplateTail | AIChatBuddy/ViewModels/ChatViewModel.swift:178-209 | each mode's instructions after the input start with a closing double quote |
| Chat.GeneratePrompt | AIChatBuddy/ViewModels/ChatViewModel.swift:161-215 | an unknown mode gives the input unchanged. A known mode gives a prompt that starts with the context block and holds the input verbatim between double quotes |
| Chat.ExtractInputOfGeneratePrompt | AIChatBuddy/ViewModels/ChatViewModel.swift:177-213 | the input can always be read back out of its prompt |
| Chat.GeneratePromptInjective | AIChatBuddy/ViewModels/ChatViewModel.swift:177-213 | in any mode and for any profile, different inputs give different prompts |
| Chat.ServiceErrorText | AIChatBuddy/ViewModels/ChatViewModel.swift:145-159 | `handleError`'s five texts: stated by HandleError's ensures, and by ServiceErrorTextInjective and ApiErrorTextInjective |
| Chat.FailureText | AIChatBuddy/ViewModels/ChatViewModel.swift:53-57 | the alert text of a failed reply, either a service failure's text or "Unexpected error: " and the description: stated by the ensures of CompleteSend and SendAndAwait |
| Chat.ApiErrorTextInjective | AIChatBuddy/ViewModels/ChatViewModel.swift:155-156 | "API error code: message" determines both the code and the message |
| Chat.ServiceErrorTextInjective | AIChatBuddy/ViewModels/ChatViewModel.swift:145-159 | every service failure, cause included, is shown with a text of its own |
| Chat.ConversationPayload | AIChatBuddy/ViewModels/ChatViewModel.swift:112-119 | a save's record has exactly the keys userId, mode, messages and updatedAt. The messages are the encoded transcript and updatedAt is a server timestamp |
| Chat.ChatSession.constructor | AIChatBuddy/ViewModels/ChatViewModel.swift:20-25 | a session starts on the given mode, profile and conversation id, with an empty transcript and input and no alerts |
| Chat.ChatSession.SetProfile | AIChatBuddy/ViewModels/ChatViewModel.swift:27-29 | the profile becomes the given one and nothing else changes |
| Chat.ChatSession.SetConversationId | AIChatBuddy/ViewModels/ChatViewModel.swift:31-33 | the conversation id becomes the given one and nothing else changes |
| Chat.ChatSession.SendMessage | AIChatBuddy/ViewModels/ChatViewModel.swift:35-39 | blank input (white space and line breaks only) changes nothing and sends nothing. Otherwise exactly one user message with the untrimmed input is appended, the input is cleared, and that message is what gets sent |
| Chat.ChatSession.BeginRequest | AIChatBuddy/ViewModels/ChatViewModel.swift:44-47 | the typing indicator comes on, and the prompt sent is the composed prompt for the session's mode and profile |
| Chat.ChatSession.HandleError | AIChatBuddy/ViewModels/ChatViewModel.swift:145-159 | the error alert shows the failure's own text |
| Chat.ChatSession.CompleteSend | AIChatBuddy/ViewModels/ChatViewModel.swift:52-62 | a reply appends exactly one assistant message after the transcript. A failure appends nothing and raises the alert with its text. Either way loading ends |
| Chat.ChatSession.SendAndAwait | AIChatBuddy/ViewModels/ChatViewModel.swift:35-62 | a whole send. Blank input changes nothing: transcript, input, alerts and loading all stay. Otherwise the transcript grows by the user's message, then by the reply only if one came. The input is cleared and loading has ended. A failure shows its own text in the error alert, and a reply leaves the alert as it was |
| Chat.ChatSession.LoadUserProfile | AIChatBuddy/ViewModels/ChatViewModel.swift:65-72 | the read goes to the user's own record; without a user, nothing is read and "User not authenticated." is shown |
| Chat.ChatSession.CompleteLoadUserProfile | AIChatBuddy/ViewModels/ChatViewModel.swift:72-94 | a read error or a missing document leaves the profile and raises its own alert. A document sets the profile from the record |
| Chat.ChatSession.SaveConversation | AIChatBuddy/ViewModels/ChatViewModel.swift:97-142 | an empty transcript is refused first, even without a user, and a missing user second; neither writes. Otherwise a stored conversation is updated under its id, and a new one is created with a creation time |
| Chat.ChatSession.CompleteSave | AIChatBuddy/ViewModels/ChatViewModel.swift:121-142 | a failed write reports "Failed to update: " or "Failed to save: " and keeps the id. A success shows the success alert, and only a create adopts the new document's id |
| Chat.SaveTwice | AIChatBuddy/ViewModels/ChatViewModel.swift:121-142 | after a successful first save creates a record, a second save updates that same record. The transcript is left as it was (the mode is a constant) |
| History.IsMessageEntry | AIChatBuddy/UIKitControllers/HistoryViewController.swift:123-126 | the inner guard: stated by DecodeMessage's ensures, which decode exactly the entries it accepts |
| History.DecodeMessage | AIChatBuddy/UIKitControllers/HistoryViewController.swift:122-128 | an entry decodes exactly when id, text, isUser and timestamp are all present and of the right kind. The message then re-encodes to the entry's four fields |
| History.DecodeMessageOfAsDictionary | AIChatBuddy/UIKitControllers/HistoryViewController.swift:122-127 | decoding a message's dictionary gives that message back |
| History.MessageEntries | AIChatBuddy/UIKitControllers/HistoryViewController.swift:117 | `as? [[String: Any]]` succeeds exactly on an array of dictionaries only, and then gives them in order |
| History.IsConversationRecord | AIChatBuddy/UIKitControllers/HistoryViewController.swift:116-119 | the outer guard: stated by DecodeConversation's ensures, which keep exactly the records it accepts |
| History.DecodeConversation | AIChatBuddy/UIKitControllers/HistoryViewController.swift:114-130 | a record is kept exactly when it has a string mode, an array of dictionaries as messages and a createdAt time. It is kept under its document id, with the record's mode, its creation time and its well-formed messages |
| History.DecodedMessagesInOrder | AIChatBuddy/UIKitControllers/HistoryViewController.swift:122-128 | malformed entries are dropped one by one, and the surviving messages keep their original order |
| History.DecodeConversations | AIChatBuddy/UIKitControllers/HistoryViewController.swift:114-130 | the outer `compactMap`: stated by DecodedConversationsInOrder, ListedCount and ListedIdsDistinct |
| History.ListedCount | AIChatBuddy/UIKitControllers/HistoryViewController.swift:114-130 | the list has exactly one row per well-formed document |
| History.ListedIdsDistinct | AIChatBuddy/UIKitControllers/HistoryViewController.swift:114-130 | documents with distinct ids are listed under distinct ids |
| History.WithoutId | AIChatBuddy/UIKitControllers/HistoryViewController.swift:162-167 | deleting by id keeps exactly the conversations with another id |
| History.WithoutIdInOrder | AIChatBuddy/UIKitControllers/HistoryViewController.swift:162-167 | deleting by id is `compactMap` with the keep-other-ids closure, so it is an order-preserving selection of the conversations with another id |
| History.WithoutAbsentId | AIChatBuddy/UIKitControllers/HistoryViewController.swift:162-167 | deleting an id that is not listed leaves the list unchanged |
| History.WithoutIdOfDistinct | AIChatBuddy/UIKitControllers/HistoryViewController.swift:162-167 | when ids are distinct, deleting row r's id is exactly `remove(at: r)` |
| History.WithoutIdIdempotent | AIChatBuddy/UIKitControllers/HistoryViewController.swift:162-167 | deleting the same id twice is the same as deleting it once |
| History.WithoutIdCommutes | AIChatBuddy/UIKitControllers/HistoryViewController.swift:162-167 | two deletions by id give the same list in either order of completion |
| History.DecodedConversationsInOrder | AIChatBuddy/UIKitControllers/HistoryViewController.swift:105-130 | the list is an order-preserving selection of exactly the well-formed documents, so a newest-first fetch gives a newest-first list |
| History.EncodedMessagesDecode | AIChatBuddy/UIKitControllers/HistoryViewController.swift:117-128 | a saved transcript's messages array reads back as that transcript |
| History.CreatedConversationReloads | AIChatBuddy/ViewModels/ChatViewModel.swift:130-142 | a conversation created by a save and stamped by the store is listed with the session's mode and messages under its new id, created at the write time |
| History.UpdatedConversationReloads | AIChatBuddy/ViewModels/ChatViewModel.swift:121-129 | an update keeps the record's creation time and reloads as the saved mode and messages |
| History.HistoryList.constructor | AIChatBuddy/UIKitControllers/HistoryViewController.swift:24 | the list starts empty |
| History.HistoryList.FetchConversations | AIChatBuddy/UIKitControllers/HistoryViewController.swift:99-135 | without a user nothing is queried and the list stays. Otherwise the query asks for that user's conversations by createdAt, newest first, and the list is what the completion makes of the answer to that query |
| History.HistoryList.CompleteFetch | AIChatBuddy/UIKitControllers/HistoryViewController.swift:108-130 | an error keeps the list. A snapshot replaces it with its decoded documents, and a missing snapshot empties it. The row count is then the number of well-formed documents, and distinct document ids give distinct listed ids |
| History.HistoryList.RowCount | AIChatBuddy/UIKitControllers/HistoryViewController.swift:140-142 | the row count is the number of conversations. The contracts of CompleteFetch, CompleteDelete and SwipeDelete state its value after each of them |
| History.HistoryList.CommitDelete | AIChatBuddy/UIKitControllers/HistoryViewController.swift:160-163 | the deletion goes to the swiped row's document. When ids are distinct, that id names no other row |
| History.HistoryList.CompleteDelete | AIChatBuddy/UIKitControllers/HistoryViewController.swift:163-171 | as written: a successful delete removes the row index taken at swipe time, keeps the others in order and lowers the row count by one. A failed one changes nothing |
| History.HistoryList.CompleteDeleteById | AIChatBuddy/UIKitControllers/HistoryViewController.swift:163-171 | as intended: a successful delete removes the conversations with the deleted document's id and nothing else. A failed one changes nothing |
| History.HistoryList.SwipeDelete | AIChatBuddy/UIKitControllers/HistoryViewController.swift:160-171 | a whole swipe with nothing interleaved. The request names the swiped conversation's id, and a success runs `remove(at: row)`: the others keep their order, the multiset loses that one conversation and the row count drops by one. With distinct ids, exactly the conversations with that id leave. A failure changes nothing |
| History.HistoryList.SelectRow | AIChatBuddy/UIKitControllers/HistoryViewController.swift:179-184 | the new session has the row's mode, id and messages, and no profile |
| History.HistoryList.ResumeAndSave | AIChatBuddy/UIKitControllers/HistoryViewController.swift:179-184 | saving a resumed conversation updates that conversation's own record and never creates another |
| History.OverlappingDeletesAsWritten | AIChatBuddy/UIKitControllers/HistoryViewController.swift:160-171 | two swipes on row 1 of [a, b, c] before either completes both ask to delete b, yet with the completions as written only a remains listed |
| History.OverlappingDeletesById | AIChatBuddy/UIKitControllers/HistoryViewController.swift:160-171 | the same two swipes with completions that delete by id leave [a, c] |
| SignUp.SignUpError | AIChatBuddy/Views/SignUpView.swift:125-133 | "Please fill in all fields." exactly when the email or password is empty. "Passwords do not match." exactly when both are filled and the confirmation differs. No error otherwise |
| SignUp.SignUpForm.constructor | AIChatBuddy/Views/SignUpView.swift:7-13 | the form starts empty, with no error, no loading and no alert |
| SignUp.SignUpForm.SignUp | AIChatBuddy/Views/SignUpView.swift:122-137 | the old error is cleared and replaced by the form's verdict. Loading starts and the account request goes out exactly when there is no error |
| SignUp.SignUpForm.CompleteSignUp | AIChatBuddy/Views/SignUpView.swift:137-145 | loading ends; the service's error is shown, or else the success alert |
| SignUp.SubmitFreshForm | AIChatBuddy/Views/SignUpView.swift:122-147 | a submission ends in exactly one of an error message (the form's or the service's) or the success alert, with loading ended |
| Profile.DecimalRange | AIChatBuddy/UIKitControllers/ProfileViewController.swift:59 | a closed range rendered in decimal has one entry per number, in ascending order |
| Profile.AgeOptionsAscending | AIChatBuddy/UIKitControllers/ProfileViewController.swift:59 | the constant `AgeOptions` is "13" through "99": 87 strings whose values are 13 + i, strictly ascending |
| Profile.Options | AIChatBuddy/UIKitControllers/ProfileViewController.swift:59-60 | only an unknown picker has no options. The age picker offers `AgeOptions` and the gender picker `GenderOptions`, whose sizes NumberOfRows states |
| Profile.NumberOfRows | AIChatBuddy/UIKitControllers/ProfileViewController.swift:300-307 | a picker's row count is its option count: 87 for age, 3 for gender, 0 for an unknown picker |
| Profile.TitleForRow | AIChatBuddy/UIKitControllers/ProfileViewController.swift:309-316 | a known picker's row shows its option; an unknown picker shows nothing |
| Profile.Selected | AIChatBuddy/UIKitControllers/ProfileViewController.swift:318-324 | selecting row r writes option r into the picker's own field and nothing else |
| Profile.BeginEditing | AIChatBuddy/UIKitControllers/ProfileViewController.swift:280-285 | in placeholder state the bio becomes "" and real text. Otherwise nothing changes, and no other field ever does |
| Profile.EndEditing | AIChatBuddy/UIKitControllers/ProfileViewController.swift:287-292 | an empty bio goes back to the "Bio" placeholder. A non-empty one is unchanged |
| Profile.TypeBio | AIChatBuddy/UIKitControllers/ProfileViewController.swift:30-45 | typing changes the bio's text but not its colour |
| Profile.Loaded | AIChatBuddy/UIKitControllers/ProfileViewController.swift:220-232 | each field shows the record's string or nothing. A non-empty bio is shown as real text, and an empty or missing one as the placeholder |
| Profile.SavedBio | AIChatBuddy/UIKitControllers/ProfileViewController.swift:253 | the placeholder (told apart by colour) is saved as "", and anything else as its text |
| Profile.UserData | AIChatBuddy/UIKitControllers/ProfileViewController.swift:247-255 | the saved record has exactly the six field keys and a server timestamp, with nil text saved as "" |
| Profile.StepsKeepBioConsistent | AIChatBuddy/UIKitControllers/ProfileViewController.swift:280-324 | begin editing, end editing, picking, and typing into real text keep the placeholder colour together with the placeholder text |
| Profile.EditedBioIsSaved | AIChatBuddy/UIKitControllers/ProfileViewController.swift:253 | a bio typed in one editing session is saved exactly as typed, so a typed "Bio" is saved as "Bio" |
| Profile.LoadThenSave | AIChatBuddy/UIKitControllers/ProfileViewController.swift:220-253 | a load followed by a save with no edits writes back every stored string field, with missing fields as "" |
| Profile.LoadSaveKeepsChatProfile | AIChatBuddy/UIKitControllers/ProfileViewController.swift:247-260 | a load and save with no edits, merged into any stored record, leave the chat's profile for that user unchanged |
| Profile.SaveAlert | AIChatBuddy/UIKitControllers/ProfileViewController.swift:261-267 | a failed save shows "Error" / "Failed to save profile.". A successful one shows "Saved" / "Your profile has been updated successfully." |
| Profile.ProfileScreen.constructor | AIChatBuddy/UIKitControllers/ProfileViewController.swift:24-45 | the screen starts with empty fields and the bio placeholder |
| Profile.ProfileScreen.BeginEditingBio | AIChatBuddy/UIKitControllers/ProfileViewController.swift:280-285 | the screen takes the begin-editing step |
| Profile.ProfileScreen.EndEditingBio | AIChatBuddy/UIKitControllers/ProfileViewController.swift:287-292 | the screen takes the end-editing step |
| Profile.ProfileScreen.TypeInBio | AIChatBuddy/UIKitControllers/ProfileViewController.swift:30-45 | the screen takes the typing step |
| Profile.ProfileScreen.SelectPickerRow | AIChatBuddy/UIKitControllers/ProfileViewController.swift:318-324 | the screen takes the picking step |
| Profile.ProfileScreen.LoadUserProfile | AIChatBuddy/UIKitControllers/ProfileViewController.swift:202-234 | without a user nothing is read and the form stays. Otherwise the answer for that user's own record is taken: an error or no data keeps the form, and data shows the loaded form |
| Profile.ProfileScreen.CompleteLoad | AIChatBuddy/UIKitControllers/ProfileViewController.swift:209-233 | an error or a document without data leaves the form. Data shows the loaded form |
| Profile.ProfileScreen.SaveProfile | AIChatBuddy/UIKitControllers/ProfileViewController.swift:240-260 | without a user nothing is written. Otherwise the form's record is merged into the user's document |
| ModeSelection.OfferedModesAreTemplated | AIChatBuddy/Views/ModeSelectionView.swift:46 | the constant `OfferedModes` holds exactly three distinct modes. They are exactly the modes the prompt composer knows, and none passes the input through unchanged |
| ModeSelection.GradientForMode | AIChatBuddy/Views/ModeSelectionView.swift:216-227 | each known mode gets a two-colour gradient, and any other string gets plain grey |
| ModeSelection.GradientsDistinguishModes | AIChatBuddy/Views/ModeSelectionView.swift:216-227 | two modes share a gradient exactly when they are equal or both unknown |
| ModeSelection.WelcomeName | AIChatBuddy/Views/ModeSelectionView.swift:172-183 | the greeting is the stored name if non-empty, else the display name if non-empty, else "Friend"; so it is never empty |
| ModeSelection.ModeSelectionScreen.constructor | AIChatBuddy/Views/ModeSelectionView.swift:19 | no greeting is shown at first |
| ModeSelection.ModeSelectionScreen.Appear | AIChatBuddy/Views/ModeSelectionView.swift:165-184 | without a user the greeting stays as it was. Otherwise it shows the welcome name chosen from that user's own record and display name |
| ModeSelection.ModeSelectionScreen.CompleteAppear | AIChatBuddy/Views/ModeSelectionView.swift:172-183 | the greeting shows the chosen welcome name, which is non-empty |
| TypingIndicator.NextDotCount | AIChatBuddy/Views/ChatView/TypingIndicatorView.swift:21 | a tick adds a dot below the maximum of three and wraps from three to none, so the count never leaves 0..3 |
| TypingIndicator.TicksAreModular | AIChatBuddy/Views/ChatView/TypingIndicatorView.swift:21 | k ticks from a count in range advance it by k modulo 4 |
| TypingIndicator.TicksCycle | AIChatBuddy/Views/ChatView/TypingIndicatorView.swift:11-21 | from zero the counts are 1, 2, 3, 0, and any count returns to itself after 4 ticks |
| TypingIndicator.Dots | AIChatBuddy/Views/ChatView/TypingIndicatorView.swift:16 | `String(repeating: ".", count: n)` is exactly n dots |
| TypingIndicator.Label | AIChatBuddy/Views/ChatView/TypingIndicatorView.swift:16 | the label is "Typing" followed by exactly n dots, so its length is 6 + n |
| TypingIndicator.Indicator.constructor | AIChatBuddy/Views/ChatView/TypingIndicatorView.swift:11 | the count starts at zero, in range |
| TypingIndicator.Indicator.Tick | AIChatBuddy/Views/ChatView/TypingIndicatorView.swift:21 | the count takes one tick step and stays in range |
| TypingIndicator.Indicator.Text | AIChatBuddy/Views/ChatView/TypingIndicatorView.swift:16 | the indicator shows "Typing" and then at most three dots |

## Left out

- Network and store I/O (Firebase Auth, Firestore reads, writes and deletes, the generation service) is not executed. Each call is the request it issues plus an outcome passed to its completion.
- The generation service's client is not part of this model. Only its closed set of failures and their display texts are modelled.
- Concurrency is left out: the `Task` delays (a fixed 1 s, and a random 3–5 s before the reply), the main-queue hops, and overlapping sends. `SendAndAwait` describes one send whose `Task` runs to completion with nothing interleaved.
- Chat.ChatSession.SendAndAwait: does not restate the prompt it sends. `BeginRequest` states that the prompt is `GeneratePrompt` of the session's mode, profile and the sent text.
- The generation service's error type is not part of this model. Its API error is taken to carry an `Int` code, shown in decimal by string interpolation, and a message string.
- `UUID()` and `Date()` become parameters. A `Date` saved as a store `Timestamp` is treated as exact: the store's sub-microsecond truncation is not modelled.
- Store values are limited to the kinds the app writes: strings, booleans, timestamps, arrays, dictionaries and the server-timestamp token. A boolean decoded from a numeric store value (NSNumber bridging) is not modelled, so `as? Bool` succeeds only on booleans.
- White-space trimming works per Unicode scalar on the `.whitespacesAndNewlines` set, as `trimmingCharacters(in:)` does. Scanning UTF-16 code units instead of scalars changes nothing here, since every member of that set lies in the Basic Multilingual Plane.
- SignUp.SignUpError: compares the password and its confirmation character by character. Swift's `String ==` uses canonical equivalence, so "é" written as U+00E9 and as "e" plus U+0301 match in the app but not in the model. Unicode normalisation is not modelled.
- Concurrency is also left out of deletes and saves: History.HistoryList.CompleteDelete, Chat.ChatSession.SaveConversation and Chat.ChatSession.CompleteSave are each modelled one call at a time. Two taps on Save Chat before the first write completes send two creates and make two records; `SaveTwice` starts its second save only after the first has completed. The overlapping delete is recorded under Findings.
- Store queries are not evaluated. The `userId` filter and the `createdAt` ordering are part of the query value. The ordering lemma takes the fetched documents' newest-first order as a premise.
- UIKit text fields are optional strings. Setting one to nil and reading it back as "" is not modelled; the save turns nil into "" either way.
- The colours of the gradients are named, not rendered. Layout, animations, fonts, scrolling, navigation and alert presentation are left out, as are the login screens, the app and delegate set-up, and the UIKit bridge views.
- The timer that drives the typing indicator is left out; only its tick is modelled.
- Logout (Firebase and Google sign-out, clearing saved defaults) is platform I/O and is left out.
- The history cells' date formatting (`DateFormatter`, medium date and short time) is left out: its output depends on the device locale.
- Diagnostic `print` output is left out.

## Findings

| source | as written | input that shows it | evidently intended | confidence | as-written member | corrected member |
|---|---|---|---|---|---|---|
| AIChatBuddy/UIKitControllers/HistoryViewController.swift:162-167 | the delete completion removes `indexPath.row`, the row index taken when the swipe was committed | list [a, b, c]: swipe row 1 twice before either delete completes; both requests delete b, both succeed, and `remove(at: 1)` runs twice, leaving [a]. With pending swipes on rows 3 and 4 of five, the second `remove(at: 4)` runs on four elements and traps | remove the conversation whose document was deleted, by its id. History.OverlappingDeletesAsWritten exhibits the discrepancy; History.OverlappingDeletesById and History.WithoutIdCommutes prove the corrected behaviour | not executed | History.HistoryList.CompleteDelete | History.HistoryList.CompleteDeleteById |
