/**
 * The history screen (`HistoryViewController`): decoding fetched conversation
 * documents and their message entries, the list it shows, swipe-to-delete,
 * and resuming a conversation in a new session.
 */
module History {
  import opened Wrappers
  import opened Store
  import opened Sequences
  import opened Messages
  import opened Chat

  /** A fetched conversation. */
  datatype Conversation = Conversation(id: string, mode: string, messages: seq<Message>, createdAt: Instant)

  /** A document of the `conversations` collection, as the query returns it. */
  datatype Document = Document(documentID: string, data: Record)

  /** A message entry has all four fields, each of the right kind. */
  predicate IsMessageEntry(d: Record) {
    && "id" in d && d["id"].Str?
    && "text" in d && d["text"].Str?
    && "isUser" in d && d["isUser"].Flag?
    && "timestamp" in d && d["timestamp"].Time?
  }

  /**
   * The inner `compactMap` closure: a well-formed entry gives its message,
   * whose encoding is the entry's four fields (any others are ignored).
   */
  function DecodeMessage(d: Record): (r: Option<Message>)
    ensures r.Some? <==> IsMessageEntry(d)
    ensures r.Some? ==> AsDictionary(r.value) == map k | k in d && k in MessageKeys :: d[k]
  {
    if IsMessageEntry(d)
    then Some(Message(d["id"].s, d["text"].s, d["isUser"].b, d["timestamp"].t))
    else None
  }

  /** Decoding the encoding of a message gives the message back. */
  lemma DecodeMessageOfAsDictionary(m: Message)
    ensures DecodeMessage(AsDictionary(m)) == Some(m)
  {
  }

  /** `data["messages"] as? [[String: Any]]`: an array all of whose elements are dictionaries. */
  function MessageEntries(v: Value): (r: Option<seq<Record>>)
    ensures r.Some? <==> v.List? && forall i :: 0 <= i < |v.items| ==> v.items[i].Dict?
    ensures r.Some? ==> |r.value| == |v.items| && forall i :: 0 <= i < |r.value| ==> v.items[i] == Dict(r.value[i])
  {
    if v.List? && forall i :: 0 <= i < |v.items| ==> v.items[i].Dict?
    then Some(seq(|v.items|, i requires 0 <= i < |v.items| && v.items[i].Dict? => v.items[i].fields))
    else None
  }

  /** A document is shown when it has a string mode, an array of dictionaries as messages, and a creation time. */
  predicate IsConversationRecord(data: Record) {
    && "mode" in data && data["mode"].Str?
    && "messages" in data && MessageEntries(data["messages"]).Some?
    && "createdAt" in data && data["createdAt"].Time?
  }

  /** The outer `compactMap` closure. */
  function DecodeConversation(doc: Document): (r: Option<Conversation>)
    ensures r.Some? <==> IsConversationRecord(doc.data)
    ensures r.Some? ==> r.value.id == doc.documentID && Str(r.value.mode) == doc.data["mode"]
    ensures r.Some? ==> Time(r.value.createdAt) == doc.data["createdAt"]
    ensures r.Some? ==> r.value.messages == CompactMap(MessageEntries(doc.data["messages"]).value, DecodeMessage)
  {
    var data := doc.data;
    if IsConversationRecord(data) then
      var entries := MessageEntries(data["messages"]).value;
      Some(Conversation(doc.documentID, data["mode"].s, CompactMap(entries, DecodeMessage), data["createdAt"].t))
    else None
  }

  function DecodeConversations(docs: seq<Document>): seq<Conversation> {
    CompactMap(docs, DecodeConversation)
  }

  /**
   * Malformed entries are dropped one by one: the messages of a record are
   * exactly its well-formed entries, decoded, in their original order.
   */
  lemma DecodedMessagesInOrder(entries: seq<Record>)
    ensures exists idx :: Selects(entries, DecodeMessage, CompactMap(entries, DecodeMessage), idx)
  {
    CompactMapSelects(entries, DecodeMessage);
  }

  /** A creation time, if the document has one. */
  function CreatedAt(doc: Document): Option<Instant> {
    if "createdAt" in doc.data && doc.data["createdAt"].Time? then Some(doc.data["createdAt"].t) else None
  }

  /** The order the query asks for: newest first, by creation time. */
  ghost predicate NewestFirst(docs: seq<Document>) {
    forall i, j :: 0 <= i < j < |docs| && CreatedAt(docs[i]).Some? && CreatedAt(docs[j]).Some? ==>
      CreatedAt(docs[i]).value >= CreatedAt(docs[j]).value
  }

  /** A selection from a newest-first fetch is itself newest first. */
  lemma SelectionKeepsNewestFirst(docs: seq<Document>, cs: seq<Conversation>, idx: seq<int>)
    requires Selects(docs, DecodeConversation, cs, idx)
    requires NewestFirst(docs)
    ensures forall k, l :: 0 <= k < l < |cs| ==> cs[k].createdAt >= cs[l].createdAt
  {
    forall k, l | 0 <= k < l < |cs| ensures cs[k].createdAt >= cs[l].createdAt {
      var i, j := idx[k], idx[l];
      assert DecodeConversation(docs[i]) == Some(cs[k]) && DecodeConversation(docs[j]) == Some(cs[l]);
      assert CreatedAt(docs[i]) == Some(cs[k].createdAt) && CreatedAt(docs[j]) == Some(cs[l].createdAt);
    }
  }

  /**
   * The list shows exactly the well-formed documents, in the order fetched,
   * each under its document id; so a newest-first fetch gives a newest-first list.
   */
  lemma DecodedConversationsInOrder(docs: seq<Document>)
    ensures exists idx :: Selects(docs, DecodeConversation, DecodeConversations(docs), idx)
    ensures NewestFirst(docs) ==>
      var cs := DecodeConversations(docs);
      forall k, l :: 0 <= k < l < |cs| ==> cs[k].createdAt >= cs[l].createdAt
  {
    var cs := DecodeConversations(docs);
    CompactMapSelects(docs, DecodeConversation);
    var idx :| Selects(docs, DecodeConversation, cs, idx);
    if NewestFirst(docs) {
      SelectionKeepsNewestFirst(docs, cs, idx);
    }
  }

  /** The list has one row per well-formed document. */
  lemma ListedCount(docs: seq<Document>)
    ensures |DecodeConversations(docs)| == |AcceptedPositions(docs, DecodeConversation)|
  {
    CompactMapLength(docs, DecodeConversation);
  }

  /** Document ids are unique within the fetched snapshot. */
  predicate DistinctDocumentIds(docs: seq<Document>) {
    forall i, j :: 0 <= i < j < |docs| ==> docs[i].documentID != docs[j].documentID
  }

  /** No two listed conversations share an id. */
  predicate DistinctIds(cs: seq<Conversation>) {
    forall i, j :: 0 <= i < j < |cs| ==> cs[i].id != cs[j].id
  }

  /** Distinct documents are listed under distinct ids. */
  lemma ListedIdsDistinct(docs: seq<Document>)
    requires DistinctDocumentIds(docs)
    ensures DistinctIds(DecodeConversations(docs))
  {
    var cs := DecodeConversations(docs);
    CompactMapSelects(docs, DecodeConversation);
    var idx :| Selects(docs, DecodeConversation, cs, idx);
    forall k, l | 0 <= k < l < |cs| ensures cs[k].id != cs[l].id {
      assert DecodeConversation(docs[idx[k]]) == Some(cs[k]) && DecodeConversation(docs[idx[l]]) == Some(cs[l]);
      assert idx[k] < idx[l];
    }
  }

  // ------------------------------------------------------------- deleting

  /**
   * The list without the conversations whose id is `id`. The others keep
   * their order: `WithoutIdInOrder` shows it is `compactMap` with `KeepOther`.
   */
  function WithoutId(cs: seq<Conversation>, id: string): (r: seq<Conversation>)
    ensures forall c :: c in r <==> c in cs && c.id != id
    ensures |r| <= |cs|
  {
    if cs == [] then [] else (if cs[0].id == id then [] else [cs[0]]) + WithoutId(cs[1..], id)
  }

  /** The closure of `removeAll { $0.id == id }`'s complement: keeps a conversation with another id. */
  function KeepOther(id: string): Conversation -> Option<Conversation> {
    (c: Conversation) => if c.id != id then Some(c) else None
  }

  /** Deleting by id is an order-preserving selection of the conversations with another id. */
  lemma {:induction false} WithoutIdInOrder(cs: seq<Conversation>, id: string)
    ensures WithoutId(cs, id) == CompactMap(cs, KeepOther(id))
    ensures exists idx :: Selects(cs, KeepOther(id), WithoutId(cs, id), idx)
  {
    if cs != [] {
      WithoutIdInOrder(cs[1..], id);
      assert Kept(KeepOther(id), cs[0]) == if cs[0].id == id then [] else [cs[0]];
    }
    CompactMapSelects(cs, KeepOther(id));
  }

  /** Dropping an id that is not listed changes nothing. */
  lemma {:induction false} WithoutAbsentId(cs: seq<Conversation>, id: string)
    requires forall c :: c in cs ==> c.id != id
    ensures WithoutId(cs, id) == cs
  {
    if cs != [] {
      assert cs[0] in cs;
      WithoutAbsentId(cs[1..], id);
      assert [cs[0]] + cs[1..] == cs;
    }
  }

  /** `WithoutId` on a list with a head. */
  lemma WithoutIdCons(h: Conversation, t: seq<Conversation>, id: string)
    ensures WithoutId([h] + t, id) == (if h.id == id then [] else [h]) + WithoutId(t, id)
  {
    assert ([h] + t)[0] == h && ([h] + t)[1..] == t;
  }

  /** With distinct ids, dropping row `row`'s id is removing that row. */
  lemma {:induction false} WithoutIdOfDistinct(cs: seq<Conversation>, row: nat)
    requires row < |cs| && DistinctIds(cs)
    ensures WithoutId(cs, cs[row].id) == RemoveAt(cs, row)
  {
    var id := cs[row].id;
    var t := cs[1..];
    assert cs == [cs[0]] + t;
    WithoutIdCons(cs[0], t, id);
    if row == 0 {
      forall c | c in t ensures c.id != id {
        var j :| 0 <= j < |t| && t[j] == c;
        assert cs[j + 1] == c;
      }
      WithoutAbsentId(t, id);
      assert RemoveAt(cs, 0) == t;
    } else {
      assert t[row - 1] == cs[row];
      assert cs[0].id != id;
      assert DistinctIds(t) by {
        forall i, j | 0 <= i < j < |t| ensures t[i].id != t[j].id {
          assert t[i] == cs[i + 1] && t[j] == cs[j + 1];
        }
      }
      WithoutIdOfDistinct(t, row - 1);
      RemoveAtTail(cs, row);
    }
  }

  /** Deleting the same id again is harmless. */
  lemma WithoutIdIdempotent(cs: seq<Conversation>, id: string)
    ensures WithoutId(WithoutId(cs, id), id) == WithoutId(cs, id)
  {
    WithoutAbsentId(WithoutId(cs, id), id);
  }

  /** Deletions by id give the same list whichever completes first. */
  lemma {:induction false} WithoutIdCommutes(cs: seq<Conversation>, a: string, b: string)
    ensures WithoutId(WithoutId(cs, a), b) == WithoutId(WithoutId(cs, b), a)
  {
    if cs != [] {
      WithoutIdCommutes(cs[1..], a, b);
      var h, t := cs[0], cs[1..];
      var ta, tb := WithoutId(t, a), WithoutId(t, b);
      if h.id == a {
        assert WithoutId(cs, a) == ta;
        if h.id != b {
          assert WithoutId(cs, b) == [h] + tb;
          WithoutIdCons(h, tb, a);
        }
      } else {
        assert WithoutId(cs, a) == [h] + ta;
        WithoutIdCons(h, ta, b);
        if h.id == b {
          assert WithoutId(cs, b) == tb;
        } else {
          assert WithoutId(cs, b) == [h] + tb;
          WithoutIdCons(h, tb, a);
        }
      }
    }
  }

  /** The encoded transcript reads back as that transcript. */
  lemma {:induction false} EncodedMessagesDecode(ms: seq<Message>)
    ensures MessageEntries(EncodeMessages(ms)) == Some(Map(ms, AsDictionary))
    ensures CompactMap(Map(ms, AsDictionary), DecodeMessage) == ms
  {
    var v := EncodeMessages(ms);
    assert MessageEntries(v).value == Map(ms, AsDictionary);
    forall m ensures DecodeMessage(AsDictionary(m)) == Some(m) {
      DecodeMessageOfAsDictionary(m);
    }
    CompactMapOfMap(ms, AsDictionary, DecodeMessage);
  }

  /**
   * A conversation created by a save, once the store has stamped it at `t`,
   * is listed with the session's mode and messages under its new id.
   */
  lemma CreatedConversationReloads(uid: string, mode: string, ms: seq<Message>, docId: string, t: Instant)
    ensures var data := ConversationPayload(uid, mode, ms)["createdAt" := ServerTimestamp];
      DecodeConversation(Document(docId, ResolveServerTimestamps(data, t))) == Some(Conversation(docId, mode, ms, t))
  {
    var data := ConversationPayload(uid, mode, ms)["createdAt" := ServerTimestamp];
    var stored := ResolveServerTimestamps(data, t);
    EncodedMessagesDecode(ms);
    assert stored["messages"] == EncodeMessages(ms);
    assert stored["mode"] == Str(mode) && stored["createdAt"] == Time(t);
  }

  /**
   * An update keeps the record's creation time and replaces its mode and
   * messages, so the record reloads as the saved session.
   */
  lemma UpdatedConversationReloads(old_data: Record, uid: string, mode: string, ms: seq<Message>,
                                   docId: string, t: Instant)
    requires "createdAt" in old_data && old_data["createdAt"].Time?
    ensures var stored := old_data + ResolveServerTimestamps(ConversationPayload(uid, mode, ms), t);
      DecodeConversation(Document(docId, stored)) == Some(Conversation(docId, mode, ms, old_data["createdAt"].t))
  {
    var stored := old_data + ResolveServerTimestamps(ConversationPayload(uid, mode, ms), t);
    EncodedMessagesDecode(ms);
    assert stored["messages"] == EncodeMessages(ms);
    assert stored["mode"] == Str(mode) && stored["createdAt"] == old_data["createdAt"];
  }

  /** The query the screen issues: the signed-in user's conversations, newest first. */
  datatype Query = Query(ownerField: string, ownerId: string, orderField: string, descending: bool)

  /** How the query ends: an error, or a snapshot that may be missing. */
  datatype QueryResult = QueryFailed(description: string) | Snapshot(documents: Option<seq<Document>>)

  class HistoryList {
    var conversations: seq<Conversation>

    constructor ()
      ensures conversations == []
    {
      conversations := [];
    }

    /**
     * `fetchConversations`, with `answer` standing for the store: without a
     * signed-in user nothing is queried and the list stays; otherwise the
     * user's conversations are asked for newest first and the answer to
     * exactly that query is taken by the completion.
     */
    method FetchConversations(uid: Option<string>, answer: Query -> QueryResult)
      modifies this`conversations
      ensures uid.None? ==> conversations == old(conversations)
      ensures uid.Some? ==>
        var result := answer(Query("userId", uid.value, "createdAt", true));
        && (result.QueryFailed? ==> conversations == old(conversations))
        && (result.Snapshot? ==> conversations == DecodeConversations(result.documents.GetOr([])))
    {
      if uid.Some? {
        CompleteFetch(answer(Query("userId", uid.value, "createdAt", true)));
      }
    }

    /** The query's completion: an error keeps the list; a snapshot replaces it (a missing one empties it). */
    method CompleteFetch(result: QueryResult)
      modifies this`conversations
      ensures result.QueryFailed? ==> conversations == old(conversations)
      ensures result.Snapshot? ==> conversations == DecodeConversations(result.documents.GetOr([]))
      ensures result.Snapshot? ==> RowCount() == |AcceptedPositions(result.documents.GetOr([]), DecodeConversation)|
      ensures result.Snapshot? && DistinctDocumentIds(result.documents.GetOr([])) ==> DistinctIds(conversations)
    {
      match result {
        case QueryFailed(_) =>
        case Snapshot(docs) =>
          conversations := DecodeConversations(docs.GetOr([]));
          ListedCount(docs.GetOr([]));
          if DistinctDocumentIds(docs.GetOr([])) {
            ListedIdsDistinct(docs.GetOr([]));
          }
      }
    }

    /** `numberOfRowsInSection`. */
    function RowCount(): (n: nat)
      reads this`conversations
      ensures n == |conversations|
    {
      |conversations|
    }

    /**
     * A delete swipe on `row`: the id of the document whose deletion it
     * requests. With distinct ids that id names no other row.
     */
    method CommitDelete(row: nat) returns (docId: string)
      requires row < |conversations|
      ensures docId == conversations[row].id
      ensures DistinctIds(conversations) ==>
        forall j :: 0 <= j < |conversations| && conversations[j].id == docId ==> j == row
    {
      docId := conversations[row].id;
    }

    /**
     * The deletion's completion as written: on success the row index taken
     * at swipe time goes, whatever is at that index by now.
     */
    method CompleteDelete(row: nat, error: Option<string>)
      requires row < |conversations|
      modifies this`conversations
      ensures error.Some? ==> conversations == old(conversations)
      ensures error.None? ==> conversations == RemoveAt(old(conversations), row)
      ensures error.None? ==> RowCount() == old(RowCount()) - 1
    {
      if error.None? {
        conversations := RemoveAt(conversations, row);
      }
    }

    /** The deletion's completion as intended: on success the deleted document's conversation goes. */
    method CompleteDeleteById(docId: string, error: Option<string>)
      modifies this`conversations
      ensures error.Some? ==> conversations == old(conversations)
      ensures error.None? ==> conversations == WithoutId(old(conversations), docId)
    {
      if error.None? {
        conversations := WithoutId(conversations, docId);
      }
    }

    /**
     * One whole swipe-to-delete with nothing interleaved: the request names
     * the swiped conversation's id, and on success `remove(at: row)` runs.
     * With distinct ids (as a fetch of distinct documents gives) exactly the
     * conversation with that id leaves the list, the others keeping their order.
     */
    method SwipeDelete(row: nat, error: Option<string>) returns (docId: string)
      requires row < |conversations|
      modifies this`conversations
      ensures docId == old(conversations)[row].id
      ensures error.Some? ==> conversations == old(conversations)
      ensures error.None? ==>
        && conversations == RemoveAt(old(conversations), row)
        && multiset(conversations) + multiset{old(conversations)[row]} == multiset(old(conversations))
        && RowCount() == old(RowCount()) - 1
      ensures error.None? && DistinctIds(old(conversations)) ==>
        && conversations == WithoutId(old(conversations), docId)
        && forall c :: c in conversations <==> c in old(conversations) && c.id != docId
    {
      if error.None? && DistinctIds(conversations) {
        WithoutIdOfDistinct(conversations, row);
      }
      docId := CommitDelete(row);
      CompleteDelete(row, error);
    }

    /** `didSelectRowAt`: a new session on the row's mode, id and messages. */
    method SelectRow(row: nat) returns (session: ChatSession)
      requires row < |conversations|
      ensures fresh(session)
      ensures session.mode == conversations[row].mode && session.conversationId == Some(conversations[row].id)
      ensures session.messages == conversations[row].messages
      ensures session.profile == None && session.inputText == "" && session.errorMessage == None
      ensures !session.showErrorAlert && !session.isLoading && !session.showSuccessAlert
    {
      var conv := conversations[row];
      session := new ChatSession(conv.mode, None, Some(conv.id));
      session.messages := conv.messages;
    }

    /**
     * Resuming a conversation and saving it at once updates that
     * conversation's own record rather than creating another.
     */
    method ResumeAndSave(row: nat, uid: string, newDocId: string) returns (request: Option<SaveRequest>)
      requires row < |conversations|
      ensures var conv := conversations[row];
        request == if conv.messages == [] then None
                   else Some(UpdateRecord(conv.id, ConversationPayload(uid, conv.mode, conv.messages)))
    {
      var session := SelectRow(row);
      request := session.SaveConversation(Some(uid), newDocId);
    }
  }

  // ---------------------------------------------- overlapping deletes

  /**
   * Two delete swipes on row 1 of [a, b, c] before either completes, with
   * the completions as written: both requests name `b`, yet `c` leaves the
   * list as well, though its document was never deleted.
   */
  method OverlappingDeletesAsWritten(a: Conversation, b: Conversation, c: Conversation)
    returns (requested: seq<string>, shown: seq<Conversation>)
    requires a.id != b.id && b.id != c.id && a.id != c.id
    ensures requested == [b.id, b.id] && c.id !in requested
    ensures shown == [a]
  {
    var list := new HistoryList();
    list.conversations := [a, b, c];
    var first := list.CommitDelete(1);
    var second := list.CommitDelete(1);
    list.CompleteDelete(1, None);
    list.CompleteDelete(1, None);
    requested, shown := [first, second], list.conversations;
  }

  /** The same two swipes with completions that delete by id: only `b` goes. */
  method OverlappingDeletesById(a: Conversation, b: Conversation, c: Conversation)
    returns (requested: seq<string>, shown: seq<Conversation>)
    requires a.id != b.id && b.id != c.id && a.id != c.id
    ensures requested == [b.id, b.id]
    ensures shown == [a, c]
  {
    var list := new HistoryList();
    list.conversations := [a, b, c];
    var first := list.CommitDelete(1);
    var second := list.CommitDelete(1);
    list.CompleteDeleteById(first, None);
    list.CompleteDeleteById(second, None);
    requested, shown := [first, second], list.conversations;
  }
}
