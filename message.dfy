/** The chat message record and its store encoding (`Message.asDictionary`). */
module Messages {
  import opened Store
  import opened Sequences

  /**
   * One chat message. `id` and `timestamp` default to a fresh UUID string and
   * the current time in the app; here they are always given explicitly.
   */
  datatype Message = Message(id: string, text: string, isUser: bool, timestamp: Instant)

  /** The four keys a message is stored under. */
  const MessageKeys: set<string> := {"id", "text", "isUser", "timestamp"}

  /** `asDictionary`: the store record of a message. */
  function AsDictionary(m: Message): (r: Record)
    ensures r.Keys == MessageKeys
    ensures r["id"] == Str(m.id) && r["text"] == Str(m.text)
    ensures r["isUser"] == Flag(m.isUser) && r["timestamp"] == Time(m.timestamp)
  {
    map["id" := Str(m.id), "text" := Str(m.text), "isUser" := Flag(m.isUser), "timestamp" := Time(m.timestamp)]
  }

  /** Every field is encoded, so equal records come from equal messages. */
  lemma AsDictionaryInjective(m1: Message, m2: Message)
    requires AsDictionary(m1) == AsDictionary(m2)
    ensures m1 == m2
  {
    var d1, d2 := AsDictionary(m1), AsDictionary(m2);
    assert d1["id"] == d2["id"] && d1["text"] == d2["text"];
    assert d1["isUser"] == d2["isUser"] && d1["timestamp"] == d2["timestamp"];
  }

  /** The `messages` array of a conversation record: each message encoded, in order. */
  function EncodeMessages(ms: seq<Message>): (v: Value)
    ensures v.List? && |v.items| == |ms|
    ensures forall i :: 0 <= i < |ms| ==> v.items[i] == Dict(AsDictionary(ms[i]))
  {
    List(Map(ms, m => Dict(AsDictionary(m))))
  }
}
