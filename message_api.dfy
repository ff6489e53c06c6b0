/** The message queries (entities/message/api/index.ts): how their replies are
    shaped into conversations and messages, and what `createConversation`
    writes. The database is a value of `ChatDb`; each backend reply is a
    parameter. */
module MessageApi {
  import opened Common
  import opened Types

  /** A `conversation_participants` row joined with its conversation. */
  datatype ParticipantRow = ParticipantRow(conversation: Conversation)

  /** A `conversation_participants` record written by `createConversation`. */
  datatype ParticipantRecord = ParticipantRecord(conversationId: string, userId: string)

  /** The tables `createConversation` writes to. */
  datatype ChatDb = ChatDb(conversations: seq<Conversation>, participants: seq<ParticipantRecord>)

  /** `getUserConversations`: the joined conversation of each row, in row
      order; the error is not read, so a failed query (data null) gives []. */
  function UserConversations(reply: Reply<seq<ParticipantRow>>): (r: seq<Conversation>)
    ensures reply.Data? ==> |r| == |reply.value| && forall i :: 0 <= i < |r| ==> r[i] == reply.value[i].conversation
    ensures !reply.Data? ==> r == []
  {
    match reply
    case Data(rows) => seq(|rows|, i requires 0 <= i < |rows| => rows[i].conversation)
    case _ => []
  }

  /** `getConversationMessages`: the fetched rows as they come, or [] when
      data is null. */
  function ConversationMessages(reply: Reply<seq<Message>>): (r: seq<Message>)
    ensures reply.Data? ==> r == reply.value
    ensures !reply.Data? ==> r == []
  {
    if reply.Data? then reply.value else []
  }

  /** `sendMessage`: the inserted row, or the insert error thrown. */
  function SendMessage(reply: Reply<Message>): (r: Result<Message>)
    ensures reply.Data? <==> r.Ok?
    ensures reply.Data? ==> r.value == reply.value
    ensures reply.Failure? ==> r == Err(reply.message)
  {
    match reply
    case Data(m) => Ok(m)
    case Failure(e) => Err(e)
    // `.single()` reports a missing row as an error.
    case NullData => Err("no row returned")
  }

  /** The participant records: one per id, in the order given, all for the
      new conversation. */
  function ParticipantRecords(conversationId: string, participants: seq<string>): (r: seq<ParticipantRecord>)
    ensures |r| == |participants|
    ensures forall i :: 0 <= i < |r| ==> r[i].conversationId == conversationId
  {
    seq(|participants|, i requires 0 <= i < |participants| => ParticipantRecord(conversationId, participants[i]))
  }

  /** The user ids the participant records name, in order. */
  function UserIds(records: seq<ParticipantRecord>): (r: seq<string>)
    ensures |r| == |records| && forall i :: 0 <= i < |r| ==> r[i] == records[i].userId
  {
    seq(|records|, i requires 0 <= i < |records| => records[i].userId)
  }

  /** The records name exactly the ids given, in order. */
  lemma ParticipantRecordsUsers(conversationId: string, participants: seq<string>)
    ensures UserIds(ParticipantRecords(conversationId, participants)) == participants
  {
  }

  /** `createConversation`. The conversation insert's reply and whether the
      participant insert went through are parameters. A failed conversation
      insert is thrown and nothing is written. Otherwise the conversation is
      added whatever conversations already exist, the participant records are
      written when their insert succeeds, and the conversation is returned
      either way, because that insert's reply is never read. */
  function CreateConversation(db: ChatDb, inserted: Result<Conversation>, participants: seq<string>,
                              participantsWritten: bool): (r: (Result<Conversation>, ChatDb))
    ensures inserted.Err? ==> r == (inserted, db)
    ensures inserted.Ok? ==>
      && r.0 == inserted
      && r.1.conversations == db.conversations + [inserted.value]
      && r.1.participants == db.participants
           + (if participantsWritten then ParticipantRecords(inserted.value.id, participants) else [])
  {
    match inserted
    case Err(_) => (inserted, db)
    case Ok(c) =>
      var written := if participantsWritten then ParticipantRecords(c.id, participants) else [];
      (inserted, ChatDb(db.conversations + [c], db.participants + written))
  }

  /** Starting a chat with the same people twice makes two conversations:
      nothing is looked up before inserting. */
  lemma CreateConversationNeverReuses(db: ChatDb, c1: Conversation, c2: Conversation, participants: seq<string>)
    ensures var db1 := CreateConversation(db, Ok(c1), participants, true).1;
      var db2 := CreateConversation(db1, Ok(c2), participants, true).1;
      |db2.conversations| == |db.conversations| + 2
      && |db2.participants| == |db.participants| + 2 * |participants|
  {
  }
}
