/**
 * The chat store: conversations newest first, each conversation's messages
 * in arrival order keyed by conversation id, and the id of the open
 * conversation. Deleting the last conversation replaces it by a fresh one,
 * so the list is never empty.
 */
module Chat {
  import opened Wrappers
  import opened Text
  import Seqs

  datatype Role = User | Assistant

  /** `isStreaming` is an optional field: absent on user and seed messages. */
  datatype ChatMessage = ChatMessage(id: string, role: Role, content: string, createdAt: string, isStreaming: Option<bool>)

  datatype ChatConversation = ChatConversation(
    id: string,
    title: string,
    classId: Option<string>,
    createdAt: string,
    updatedAt: string)

  const DefaultTitle: string := "새 대화"
  const SeedTitle: string := "환영 대화"
  const ClassConversationTitle: string := "수업 연결 대화"
  const WelcomeText: string := "안녕하세요. UniMate 채팅입니다. 수업과 연결해서 질문해보세요."
  /** A conversation still titled `DefaultTitle` is renamed after the first this-many code units of a message. */
  const TitleLength: nat := 24

  /**
   * `buildConversation`: the trimmed title, or the default when the title is
   * absent or blank; `id` is the `uid()` result and `now` the clock.
   */
  function BuildConversation(title: Option<string>, classId: Option<string>, id: string, now: string): (r: ChatConversation)
    ensures r.id == id && r.classId == classId && r.createdAt == now && r.updatedAt == now
    ensures r.title == if title.Some? && !IsBlank(title.value) then Trim(title.value) else DefaultTitle
    ensures r.title != []
  {
    var t := if title.Some? then (TrimEmptyIffBlank(title.value); Trim(title.value)) else [];
    ChatConversation(id, if t != [] then t else DefaultTitle, classId, now, now)
  }

  /** `messagesByConversation[id] ?? []` */
  function MessagesOf(messages: map<string, seq<ChatMessage>>, conversationId: string): seq<ChatMessage> {
    if conversationId in messages then messages[conversationId] else []
  }

  /** Some conversation has this id. */
  predicate HasConversation(conversations: seq<ChatConversation>, id: string) {
    exists i :: 0 <= i < |conversations| && conversations[i].id == id
  }

  /** The newest conversation linked to the class, if any. */
  function ConversationForClass(conversations: seq<ChatConversation>, classId: string): (r: Option<ChatConversation>)
    ensures r.None? <==> forall i :: 0 <= i < |conversations| ==> conversations[i].classId != Some(classId)
    ensures r.Some? ==>
      exists i :: 0 <= i < |conversations| && conversations[i] == r.value && r.value.classId == Some(classId)
        && forall j :: 0 <= j < i ==> conversations[j].classId != Some(classId)
  {
    Seqs.Find(conversations, (c: ChatConversation) => c.classId == Some(classId))
  }

  /** The conversations left by `deleteConversation(id)` before the fallback is considered. */
  function OtherConversations(conversations: seq<ChatConversation>, id: string): seq<ChatConversation> {
    Seqs.Filter(conversations, (c: ChatConversation) => c.id != id)
  }

  /** The active id after deleting `id` when other conversations remain. */
  function ActiveAfterDelete(remaining: seq<ChatConversation>, active: Option<string>, id: string): Option<string>
    requires remaining != []
  {
    if active == Some(id) then Some(remaining[0].id) else active
  }

  /** The title a message gives its conversation: only a default-titled conversation and a non-blank message rename it. */
  function RetitledBy(title: string, content: string): (r: string)
    ensures title != DefaultTitle || IsBlank(content) ==> r == title
    ensures title == DefaultTitle && !IsBlank(content) ==> r == SlicePrefix(content, TitleLength) && r != [] && r <= content && |r| <= TitleLength
  {
    TrimEmptyIffBlank(content);
    if title == DefaultTitle && Trim(content) != [] then SlicePrefix(content, TitleLength) else title
  }

  /** The conversation after a user message: retitled as above and touched. */
  function AfterUserMessage(c: ChatConversation, content: string, now: string): ChatConversation {
    c.(title := RetitledBy(c.title, content), updatedAt := now)
  }

  /** The messages after a chunk is streamed into message `messageId`. */
  function AppendChunk(messages: seq<ChatMessage>, messageId: string, chunk: string): seq<ChatMessage> {
    Seqs.Update(messages, (m: ChatMessage) => m.id == messageId, (m: ChatMessage) => m.(content := m.content + chunk))
  }

  /** The messages after message `messageId` finishes streaming. */
  function FinishMessage(messages: seq<ChatMessage>, messageId: string): seq<ChatMessage> {
    Seqs.Update(messages, (m: ChatMessage) => m.id == messageId, (m: ChatMessage) => m.(isStreaming := Some(false)))
  }

  /** Conversation `id` touched at `now`, every other conversation kept. */
  function Touched(conversations: seq<ChatConversation>, id: string, now: string): seq<ChatConversation> {
    Seqs.Update(conversations, (c: ChatConversation) => c.id == id, (c: ChatConversation) => c.(updatedAt := now))
  }

  /** The conversations after a user message in conversation `id`. */
  function AfterUserMessageIn(conversations: seq<ChatConversation>, id: string, content: string, now: string): seq<ChatConversation> {
    Seqs.Update(conversations, (c: ChatConversation) => c.id == id, (c: ChatConversation) => AfterUserMessage(c, content, now))
  }

  /**
   * Streaming a chunk changes only the content of the target message, which
   * becomes the old content followed by the chunk; the number and order of
   * messages and every other message stay as they were.
   */
  lemma AppendChunkOnlyTarget(messages: seq<ChatMessage>, messageId: string, chunk: string)
    ensures var r := AppendChunk(messages, messageId, chunk);
      |r| == |messages|
      && forall i :: 0 <= i < |messages| ==>
        (messages[i].id != messageId ==> r[i] == messages[i])
        && (messages[i].id == messageId ==> r[i] == messages[i].(content := messages[i].content + chunk))
  {
  }

  /** An empty chunk changes nothing. */
  lemma AppendEmptyChunk(messages: seq<ChatMessage>, messageId: string)
    ensures AppendChunk(messages, messageId, []) == messages
  {
    forall i | 0 <= i < |messages| && messages[i].id == messageId
      ensures messages[i].(content := messages[i].content + []) == messages[i]
    {
      assert messages[i].content + [] == messages[i].content;
    }
    Seqs.UpdateNoop(messages, (m: ChatMessage) => m.id == messageId, (m: ChatMessage) => m.(content := m.content + []));
  }

  /** Streaming two chunks one after the other is streaming their concatenation. */
  lemma AppendChunksCompose(messages: seq<ChatMessage>, messageId: string, a: string, b: string)
    ensures AppendChunk(AppendChunk(messages, messageId, a), messageId, b) == AppendChunk(messages, messageId, a + b)
  {
    var once := AppendChunk(messages, messageId, a);
    var twice := AppendChunk(once, messageId, b);
    var direct := AppendChunk(messages, messageId, a + b);
    forall i | 0 <= i < |messages| ensures twice[i] == direct[i] {
      if messages[i].id == messageId {
        assert messages[i].content + a + b == messages[i].content + (a + b);
      }
    }
  }

  /** Finishing clears the streaming flag of the target message only. */
  lemma FinishOnlyTarget(messages: seq<ChatMessage>, messageId: string)
    ensures var r := FinishMessage(messages, messageId);
      |r| == |messages|
      && forall i :: 0 <= i < |messages| ==>
        (messages[i].id != messageId ==> r[i] == messages[i])
        && (messages[i].id == messageId ==> r[i] == messages[i].(isStreaming := Some(false)))
  {
  }

  /**
   * Deleting a conversation that is not the last one keeps the others in
   * order; the active id moves to the new head only when the deleted
   * conversation was active, so an active id naming a conversation still
   * names one afterwards.
   */
  lemma DeleteKeepsActive(conversations: seq<ChatConversation>, active: Option<string>, id: string)
    requires OtherConversations(conversations, id) != []
    requires active.Some? ==> HasConversation(conversations, active.value)
    ensures var remaining := OtherConversations(conversations, id);
      var next := ActiveAfterDelete(remaining, active, id);
      (active != Some(id) ==> next == active)
      && (active == Some(id) ==> next == Some(remaining[0].id))
      && (next.Some? ==> HasConversation(remaining, next.value))
  {
    var remaining := OtherConversations(conversations, id);
    if active.Some? && active != Some(id) {
      var i :| 0 <= i < |conversations| && conversations[i].id == active.value;
      assert conversations[i] in remaining;
    }
  }

  /** Deleting an id no conversation has leaves the conversations as they are. */
  lemma DeleteUnknown(conversations: seq<ChatConversation>, id: string)
    requires !HasConversation(conversations, id)
    ensures OtherConversations(conversations, id) == conversations
  {
    Seqs.FilterKeepsAll(conversations, (c: ChatConversation) => c.id != id);
  }

  /** The chat store. */
  class ChatStore {
    var conversations: seq<ChatConversation>
    var messagesByConversation: map<string, seq<ChatMessage>>
    var activeConversationId: Option<string>

    /** The store's invariant: there is always at least one conversation. */
    predicate Valid()
      reads this
    {
      conversations != []
    }

    /**
     * The seed state: one welcome conversation holding one assistant message;
     * `seedId` and `messageId` are the `uid()` results, `created` and `sent`
     * the two clock readings.
     */
    constructor(seedId: string, messageId: string, created: string, sent: string)
      ensures conversations == [BuildConversation(Some(SeedTitle), None, seedId, created)]
      ensures messagesByConversation == map[seedId := [ChatMessage(messageId, Assistant, WelcomeText, sent, None)]]
      ensures activeConversationId == Some(seedId)
      ensures Valid()
    {
      conversations := [BuildConversation(Some(SeedTitle), None, seedId, created)];
      messagesByConversation := map[seedId := [ChatMessage(messageId, Assistant, WelcomeText, sent, None)]];
      activeConversationId := Some(seedId);
    }

    /** `createConversation`: prepends the new conversation, with no messages, and opens it. */
    method CreateConversation(title: Option<string>, classId: Option<string>, id: string, now: string) returns (newId: string)
      modifies this
      ensures newId == id
      ensures conversations == [BuildConversation(title, classId, id, now)] + old(conversations)
      ensures messagesByConversation == old(messagesByConversation)[id := []]
      ensures activeConversationId == Some(id)
      ensures Valid()
    {
      var conversation := BuildConversation(title, classId, id, now);
      conversations := [conversation] + conversations;
      messagesByConversation := messagesByConversation[id := []];
      activeConversationId := Some(id);
      newId := id;
    }

    /**
     * `ensureConversationForClass`: opens the newest conversation linked to
     * the class, or creates one (with `id` and `now`) when there is none.
     */
    method EnsureConversationForClass(classId: string, id: string, now: string) returns (found: string)
      requires Valid()
      modifies this
      ensures var existing := ConversationForClass(old(conversations), classId);
        if existing.Some? then
          found == existing.value.id && activeConversationId == Some(found)
          && conversations == old(conversations) && messagesByConversation == old(messagesByConversation)
        else
          found == id && activeConversationId == Some(id)
          && conversations == [BuildConversation(Some(ClassConversationTitle), Some(classId), id, now)] + old(conversations)
          && messagesByConversation == old(messagesByConversation)[id := []]
      ensures Valid()
    {
      var existing := ConversationForClass(conversations, classId);
      if existing.Some? {
        activeConversationId := Some(existing.value.id);
        found := existing.value.id;
      } else {
        found := CreateConversation(Some(ClassConversationTitle), Some(classId), id, now);
      }
    }

    /**
     * `deleteConversation`: removes the conversation and its messages; when
     * none remains, a fresh default conversation (`fallbackId`, `now`) replaces
     * everything.
     */
    method DeleteConversation(id: string, fallbackId: string, now: string)
      modifies this
      ensures var remaining := OtherConversations(old(conversations), id);
        if remaining == [] then
          conversations == [BuildConversation(Some(DefaultTitle), None, fallbackId, now)]
          && messagesByConversation == map[fallbackId := []]
          && activeConversationId == Some(fallbackId)
        else
          conversations == remaining
          && messagesByConversation == old(messagesByConversation) - {id}
          && activeConversationId == ActiveAfterDelete(remaining, old(activeConversationId), id)
      ensures Valid()
    {
      var next := OtherConversations(conversations, id);
      var nextMessages := messagesByConversation - {id};
      if next == [] {
        conversations := [BuildConversation(Some(DefaultTitle), None, fallbackId, now)];
        messagesByConversation := map[fallbackId := []];
        activeConversationId := Some(fallbackId);
        return;
      }
      var nextActive := activeConversationId;
      if activeConversationId == Some(id) {
        nextActive := Some(next[0].id);
      }
      conversations := next;
      messagesByConversation := nextMessages;
      activeConversationId := nextActive;
    }

    /** `setActiveConversation`: any id is accepted. */
    method SetActiveConversation(id: string)
      modifies this
      ensures activeConversationId == Some(id)
      ensures conversations == old(conversations) && messagesByConversation == old(messagesByConversation)
    {
      activeConversationId := Some(id);
    }

    /** `addUserMessage`: appends the message and retitles and touches its conversation. */
    method AddUserMessage(conversationId: string, content: string, messageId: string, now: string)
      requires Valid()
      modifies this
      ensures messagesByConversation == old(messagesByConversation)[conversationId :=
        MessagesOf(old(messagesByConversation), conversationId) + [ChatMessage(messageId, User, content, now, None)]]
      ensures conversations == AfterUserMessageIn(old(conversations), conversationId, content, now)
      ensures activeConversationId == old(activeConversationId)
      ensures Valid()
    {
      var existing := MessagesOf(messagesByConversation, conversationId);
      messagesByConversation := messagesByConversation[conversationId := existing + [ChatMessage(messageId, User, content, now, None)]];
      conversations := AfterUserMessageIn(conversations, conversationId, content, now);
    }

    /** `startAssistantMessage`: appends an empty streaming assistant message and returns its id. */
    method StartAssistantMessage(conversationId: string, messageId: string, now: string) returns (id: string)
      requires Valid()
      modifies this
      ensures id == messageId
      ensures messagesByConversation == old(messagesByConversation)[conversationId :=
        MessagesOf(old(messagesByConversation), conversationId) + [ChatMessage(messageId, Assistant, [], now, Some(true))]]
      ensures conversations == Touched(old(conversations), conversationId, now)
      ensures activeConversationId == old(activeConversationId)
      ensures Valid()
    {
      var existing := MessagesOf(messagesByConversation, conversationId);
      messagesByConversation := messagesByConversation[conversationId := existing + [ChatMessage(messageId, Assistant, [], now, Some(true))]];
      conversations := Touched(conversations, conversationId, now);
      id := messageId;
    }

    /** `appendAssistantChunk`; an unknown conversation gets an empty message list. */
    method AppendAssistantChunk(conversationId: string, messageId: string, chunk: string)
      modifies this
      ensures messagesByConversation == old(messagesByConversation)[conversationId :=
        AppendChunk(MessagesOf(old(messagesByConversation), conversationId), messageId, chunk)]
      ensures conversations == old(conversations) && activeConversationId == old(activeConversationId)
    {
      var existing := MessagesOf(messagesByConversation, conversationId);
      messagesByConversation := messagesByConversation[conversationId := AppendChunk(existing, messageId, chunk)];
    }

    /** `finishAssistantMessage`; an unknown conversation gets an empty message list. */
    method FinishAssistantMessage(conversationId: string, messageId: string)
      modifies this
      ensures messagesByConversation == old(messagesByConversation)[conversationId :=
        FinishMessage(MessagesOf(old(messagesByConversation), conversationId), messageId)]
      ensures conversations == old(conversations) && activeConversationId == old(activeConversationId)
    {
      var existing := MessagesOf(messagesByConversation, conversationId);
      messagesByConversation := messagesByConversation[conversationId := FinishMessage(existing, messageId)];
    }
  }

  /** A user message lands at the end of its conversation's list, after everything already there. */
  lemma UserMessageAppended(messages: map<string, seq<ChatMessage>>, conversationId: string, m: ChatMessage)
    ensures var after := messages[conversationId := MessagesOf(messages, conversationId) + [m]];
      |MessagesOf(after, conversationId)| == |MessagesOf(messages, conversationId)| + 1
      && MessagesOf(after, conversationId)[..|MessagesOf(messages, conversationId)|] == MessagesOf(messages, conversationId)
      && MessagesOf(after, conversationId)[|MessagesOf(messages, conversationId)|] == m
      && forall k :: k != conversationId ==> MessagesOf(after, k) == MessagesOf(messages, k)
  {
    var before := MessagesOf(messages, conversationId);
    assert (before + [m])[..|before|] == before;
  }

  /** A user message retitles only its own conversation and changes nothing else about any conversation. */
  lemma UserMessageTouchesOnlyTarget(conversations: seq<ChatConversation>, id: string, content: string, now: string)
    ensures var r := AfterUserMessageIn(conversations, id, content, now);
      |r| == |conversations|
      && forall i :: 0 <= i < |conversations| ==>
        (conversations[i].id != id ==> r[i] == conversations[i])
        && (conversations[i].id == id ==>
          r[i].id == id && r[i].classId == conversations[i].classId && r[i].createdAt == conversations[i].createdAt
          && r[i].updatedAt == now && r[i].title == RetitledBy(conversations[i].title, content))
  {
  }
}
