/** `conversationStorage`: the widget's persistence of transcripts in the
    browser's local storage. A transcript lives under the key
    `conversation_<id>`, and the id of the conversation to resume lives under
    `current_conversation_id`. Outside a browser every read finds nothing and
    every write does nothing. JSON encoding of the stored lists is taken to
    round-trip exactly. */
module ConversationStorage {
  import opened Wrappers
  import opened ChatApi

  const ConversationPrefix := "conversation_"
  const CurrentIdKey := "current_conversation_id"

  /** The local-storage key of a conversation's transcript. */
  function ConversationKey(id: string): string {
    ConversationPrefix + id
  }

  /** Different conversations never share a transcript key. */
  lemma ConversationKeyInjective(a: string, b: string)
    requires ConversationKey(a) == ConversationKey(b)
    ensures a == b
  {
    assert a == ConversationKey(a)[|ConversationPrefix|..];
    assert b == ConversationKey(b)[|ConversationPrefix|..];
  }

  /** No transcript key is the key of the current-id entry, so transcripts
      and the current id are stored independently. */
  lemma ConversationKeyIsNotCurrentIdKey(id: string)
    ensures ConversationKey(id) != CurrentIdKey
  {
    assert ConversationKey(id)[1] == 'o' != CurrentIdKey[1];
  }

  /** What the widget's keys hold: transcripts by their storage key, and the
      current-id entry. `inBrowser` says whether `window` is defined. */
  datatype Store = Store(
    inBrowser: bool,
    conversations: map<string, seq<Message>>,
    currentId: Option<string>)
  {
    /** `getConversation`: the transcript saved for `id`, or nothing. */
    function Read(id: string): seq<Message> {
      if !inBrowser then []
      else if ConversationKey(id) in conversations then conversations[ConversationKey(id)]
      else []
    }

    /** `saveConversation`: overwrite the transcript of `id`. */
    function Save(id: string, messages: seq<Message>): Store {
      if !inBrowser then this
      else this.(conversations := conversations[ConversationKey(id) := messages])
    }

    /** `getCurrentConversationId`. */
    function CurrentId(): Option<string> {
      if !inBrowser then None else currentId
    }

    /** `setCurrentConversationId`. */
    function SetCurrentId(id: string): Store {
      if !inBrowser then this else this.(currentId := Some(id))
    }

    /** `clearConversation`: drop the transcript of `id`, and the current id too
        when it names `id`. */
    function Clear(id: string): Store {
      if !inBrowser then this
      else
        var removed := this.(conversations := conversations - {ConversationKey(id)});
        if removed.CurrentId() == Some(id) then removed.(currentId := None) else removed
    }
  }

  /** Local storage before the widget has written anything. */
  function EmptyStore(inBrowser: bool): Store {
    Store(inBrowser, map[], None)
  }

  /** A saved transcript reads back as saved. */
  lemma ReadAfterSave(s: Store, id: string, messages: seq<Message>)
    requires s.inBrowser
    ensures s.Save(id, messages).Read(id) == messages
  {
  }

  /** Saving one conversation changes no other conversation's transcript and
      leaves the current-id entry alone. */
  lemma {:induction false} SaveIsolation(s: Store, a: string, messages: seq<Message>, b: string)
    requires a != b
    ensures s.Save(a, messages).Read(b) == s.Read(b)
    ensures s.Save(a, messages).CurrentId() == s.CurrentId()
  {
    if ConversationKey(a) == ConversationKey(b) {
      ConversationKeyInjective(a, b);
    }
  }

  /** A conversation that was never saved reads as the empty transcript, and
      before any current id is set the current id reads as null. */
  lemma NothingBeforeFirstWrite(inBrowser: bool, id: string)
    ensures EmptyStore(inBrowser).Read(id) == []
    ensures EmptyStore(inBrowser).CurrentId() == None
  {
  }

  /** The current id reads back as set, and setting it touches no transcript. */
  lemma CurrentIdAfterSet(s: Store, id: string, other: string)
    requires s.inBrowser
    ensures s.SetCurrentId(id).CurrentId() == Some(id)
    ensures s.SetCurrentId(id).Read(other) == s.Read(other)
  {
  }

  /** Clearing empties the conversation's transcript, removes the current id
      exactly when it named that conversation, and keeps every other
      conversation's transcript. */
  lemma {:induction false} ClearEffect(s: Store, id: string, other: string)
    requires s.inBrowser
    ensures s.Clear(id).Read(id) == []
    ensures s.Clear(id).CurrentId() == (if s.CurrentId() == Some(id) then None else s.CurrentId())
    ensures other != id ==> s.Clear(id).Read(other) == s.Read(other)
  {
    if other != id && ConversationKey(id) == ConversationKey(other) {
      ConversationKeyInjective(id, other);
    }
  }

  /** Outside a browser nothing is ever read or written. */
  lemma OutsideBrowserInert(s: Store, id: string, messages: seq<Message>)
    requires !s.inBrowser
    ensures s.Read(id) == [] && s.CurrentId() == None
    ensures s.Save(id, messages) == s && s.SetCurrentId(id) == s && s.Clear(id) == s
  {
  }

  /** The browser's local storage as the widget sees it. */
  class LocalConversationStore {
    const inBrowser: bool
    var conversations: map<string, seq<Message>>
    var currentId: Option<string>

    /** The stored keys as a value. */
    function State(): Store
      reads this
    {
      Store(inBrowser, conversations, currentId)
    }

    constructor (inBrowser: bool)
      ensures State() == EmptyStore(inBrowser)
    {
      this.inBrowser := inBrowser;
      conversations := map[];
      currentId := None;
    }

    method GetConversation(id: string) returns (messages: seq<Message>)
      ensures messages == State().Read(id)
    {
      if !inBrowser {
        return [];
      }
      var key := ConversationKey(id);
      if key in conversations {
        messages := conversations[key];
      } else {
        messages := [];
      }
    }

    method SaveConversation(id: string, messages: seq<Message>)
      modifies this
      ensures State() == old(State()).Save(id, messages)
    {
      if !inBrowser {
        return;
      }
      conversations := conversations[ConversationKey(id) := messages];
    }

    method GetCurrentConversationId() returns (id: Option<string>)
      ensures id == State().CurrentId()
    {
      if !inBrowser {
        return None;
      }
      id := currentId;
    }

    method SetCurrentConversationId(id: string)
      modifies this
      ensures State() == old(State()).SetCurrentId(id)
    {
      if !inBrowser {
        return;
      }
      currentId := Some(id);
    }

    method ClearConversation(id: string)
      modifies this
      ensures State() == old(State()).Clear(id)
    {
      if !inBrowser {
        return;
      }
      conversations := conversations - {ConversationKey(id)};
      var current := GetCurrentConversationId();
      if current == Some(id) {
        currentId := None;
      }
    }
  }
}
