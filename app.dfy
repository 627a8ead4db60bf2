/** streamlit/app.py: the chat page. Streamlit re-runs the script on every
    interaction; what survives between runs is `st.session_state`, a dict modelled as
    the map `entries` of an `AppState`. The connector and the search application are
    created once and kept there, with the chat history and three flags. What the
    search application answers is foreign (its class is not part of this model) and
    is given as a function. */
module App {
  import opened Py
  import opened Text
  import opened Connection
  import UtilsSessions

  /** `message.origin`: `"user"` or `"ai"`. */
  datatype Origin = User | Ai

  /** The `message` dataclass. */
  datatype Message = Message(origin: Origin, message: string)

  /** The session-state keys the page uses: `session`, `root`, `sfChatApp`,
      `messages`, `first_load`, `data_frame` and `parse_status`. */
  datatype Key = SessionKey | RootKey | ChatAppKey | MessagesKey | FirstLoadKey | DataFrameKey | ParseStatusKey

  /** A value kept in the session state. `Root(...)` is foreign and stands as a
      handle; the chat application records the root and session values it was built
      with. */
  datatype Value =
    | SessionRef(session: Option<SessionHandle>)
    | RootRef(root: nat)
    | ChatApp(rootValue: Value, sessionValue: Value)
    | Messages(messages: seq<Message>)
    | Flag(flag: bool)
    | NoneValue

  /** A chat bubble drawn on the page: role, avatar and markdown text. */
  datatype Bubble = Bubble(role: string, avatar: string, text: string)

  const UserAvatar := "\U{1F464}"
  const AssistantAvatar := "\U{2744}\U{FE0F}"

  /** The keys `initialize_session_state` provides. */
  const StateKeys := {SessionKey, RootKey, ChatAppKey, MessagesKey, FirstLoadKey, DataFrameKey, ParseStatusKey}

  /** The keys `clearChat` resets. */
  const ChatKeys := {MessagesKey, FirstLoadKey, DataFrameKey, ParseStatusKey}

  /** `if key not in st.session_state: st.session_state.key = value`. */
  function SetIfAbsent(entries: map<Key, Value>, key: Key, value: Value): map<Key, Value> {
    if key in entries then entries else entries[key := value]
  }

  /** The session state after `initialize_session_state`, given the session the new
      connector would hand out and the root built on it: the seven set-if-absent
      steps in source order. It holds exactly the stored keys and the missing state
      keys, and every value already stored is kept. */
  function Initialized(entries: map<Key, Value>, session: Option<SessionHandle>, root: nat): (r: map<Key, Value>)
    ensures r.Keys == entries.Keys + StateKeys
    ensures forall k :: k in entries ==> r[k] == entries[k]
  {
    var e1 := SetIfAbsent(entries, SessionKey, SessionRef(session));
    var e2 := SetIfAbsent(e1, RootKey, RootRef(root));
    var e3 := SetIfAbsent(e2, ChatAppKey, ChatApp(e2[RootKey], e2[SessionKey]));
    var e4 := SetIfAbsent(e3, MessagesKey, Messages([]));
    var e5 := SetIfAbsent(e4, FirstLoadKey, Flag(true));
    var e6 := SetIfAbsent(e5, DataFrameKey, NoneValue);
    SetIfAbsent(e6, ParseStatusKey, NoneValue)
  }

  /** A missing session, root or chat application gets the connector's session, the
      root, and a chat application built on the stored root and session. */
  lemma InitializedConnection(entries: map<Key, Value>, session: Option<SessionHandle>, root: nat)
    ensures var r := Initialized(entries, session, root);
            && SessionKey in r && RootKey in r
            && (SessionKey !in entries ==> r[SessionKey] == SessionRef(session))
            && (RootKey !in entries ==> r[RootKey] == RootRef(root))
            && (ChatAppKey !in entries ==> r[ChatAppKey] == ChatApp(r[RootKey], r[SessionKey]))
  {
  }

  /** A missing history is empty, a missing welcome flag is raised, and a missing parsed
      document and status are `None`. */
  lemma InitializedChat(entries: map<Key, Value>, session: Option<SessionHandle>, root: nat)
    ensures var r := Initialized(entries, session, root);
            && (MessagesKey !in entries ==> r[MessagesKey] == Messages([]))
            && (FirstLoadKey !in entries ==> r[FirstLoadKey] == Flag(true))
            && (DataFrameKey !in entries ==> r[DataFrameKey] == NoneValue)
            && (ParseStatusKey !in entries ==> r[ParseStatusKey] == NoneValue)
  {
  }

  /** A second initialisation changes nothing, whatever connection and root it would
      have made. */
  lemma InitializedIdempotent(entries: map<Key, Value>, s1: Option<SessionHandle>, r1: nat,
                              s2: Option<SessionHandle>, r2: nat)
    ensures Initialized(Initialized(entries, s1, r1), s2, r2) == Initialized(entries, s1, r1)
  {
  }

  /** The state is ready for the rest of the script: every key is present, and the
      history and the welcome flag have their types. */
  predicate Ready(entries: map<Key, Value>) {
    StateKeys <= entries.Keys && entries[MessagesKey].Messages? && entries[FirstLoadKey].Flag?
  }

  /** The keys given types by `Ready` do not hold values of another type. */
  predicate WellTyped(entries: map<Key, Value>) {
    (MessagesKey in entries ==> entries[MessagesKey].Messages?)
    && (FirstLoadKey in entries ==> entries[FirstLoadKey].Flag?)
  }

  /** `stream_output(response)`: each word of `response.split(" ")` followed by one
      space. */
  function StreamPieces(response: string): (r: seq<string>)
    ensures |r| == |SplitOn(response, ' ')|
    ensures forall i :: 0 <= i < |r| ==> r[i] == SplitOn(response, ' ')[i] + " "
  {
    var words := SplitOn(response, ' ');
    seq(|words|, i requires 0 <= i < |words| => words[i] + " ")
  }

  /** The text shown once all pieces have been written, one after another. */
  function Concat(pieces: seq<string>): string
    decreases |pieces|
  {
    if |pieces| == 0 then "" else pieces[0] + Concat(pieces[1..])
  }

  /** Appending a space to every part and concatenating gives the parts joined with
      spaces, plus one trailing space. */
  lemma {:induction false} ConcatSpaced(parts: seq<string>)
    requires |parts| > 0
    ensures Concat(seq(|parts|, i requires 0 <= i < |parts| => parts[i] + " ")) == Join(" ", parts) + " "
    decreases |parts|
  {
    var spaced := seq(|parts|, i requires 0 <= i < |parts| => parts[i] + " ");
    if |parts| > 1 {
      var rest := parts[1..];
      ConcatSpaced(rest);
      assert spaced[1..] == seq(|rest|, i requires 0 <= i < |rest| => rest[i] + " ");
    }
  }

  /** The streamed pieces add up to the response plus one trailing space, and there is
      one piece more than the response has spaces. */
  lemma StreamReassembles(response: string)
    ensures Concat(StreamPieces(response)) == response + " "
    ensures |StreamPieces(response)| == Count(response, ' ') + 1
  {
    var words := SplitOn(response, ' ');
    assert StreamPieces(response) == seq(|words|, i requires 0 <= i < |words| => words[i] + " ");
    ConcatSpaced(words);
    JoinSplitOn(response, ' ');
    assert [' '] == " ";
    SplitOnCount(response, ' ');
  }

  /** The bubble a stored message is drawn as: its text unchanged, as `user` exactly
      when the user sent it and as `assistant` otherwise. */
  function BubbleFor(m: Message): (b: Bubble)
    ensures b.text == m.message
    ensures b.role == "user" <==> m.origin == User
    ensures b.role == "user" || b.role == "assistant"
  {
    if m.origin == User then Bubble("user", UserAvatar, m.message)
    else Bubble("assistant", AssistantAvatar, m.message)
  }

  /** `SnowflakeConnector().get_session()` with the connector of utils/sessions.py:
      the constructor's exception, or the session its first connection attempt
      gives. */
  method OpenSession(env: map<string, string>, created: Option<SessionHandle>)
    returns (r: Result<Option<SessionHandle>>)
    ensures r.Err? <==> Validate(UtilsSessions.Connector, env).Err?
    ensures r.Err? ==> r.error == Validate(UtilsSessions.Connector, env).error
    ensures r.Ok? ==> r.value == created
  {
    var connector := NewConnector(UtilsSessions.Connector, env);
    if connector.Err? {
      return Err(connector.error);
    }
    var session := connector.value.GetSession(created);
    r := Ok(session);
  }

  class AppState {
    /** `st.session_state`. */
    var entries: map<Key, Value>

    constructor ()
      ensures entries == map[]
    {
      entries := map[];
    }

    /** `initialize_session_state()`: a connector from utils/sessions.py is built only
        when no session is stored, and its constructor's exception propagates before
        anything is stored; otherwise the state becomes `Initialized`, with the
        session that connector's `get_session()` hands out. */
    method InitializeSessionState(env: map<string, string>, created: Option<SessionHandle>, root: nat)
      returns (r: Result<()>)
      modifies this
      ensures r.Err? <==> SessionKey !in old(entries) && Validate(UtilsSessions.Connector, env).Err?
      ensures r.Err? ==> r.error == Validate(UtilsSessions.Connector, env).error && entries == old(entries)
      ensures r.Ok? ==> entries == Initialized(old(entries), created, root)
      ensures r.Ok? && WellTyped(old(entries)) ==> Ready(entries)
    {
      InitializedChat(entries, created, root);
      if SessionKey !in entries {
        var session := OpenSession(env, created);
        if session.Err? {
          return Err(session.error);
        }
        entries := SetIfAbsent(entries, SessionKey, SessionRef(session.value));
      }
      entries := SetIfAbsent(entries, RootKey, RootRef(root));
      entries := SetIfAbsent(entries, ChatAppKey, ChatApp(entries[RootKey], entries[SessionKey]));
      entries := SetIfAbsent(entries, MessagesKey, Messages([]));
      entries := SetIfAbsent(entries, FirstLoadKey, Flag(true));
      entries := SetIfAbsent(entries, DataFrameKey, NoneValue);
      entries := SetIfAbsent(entries, ParseStatusKey, NoneValue);
      r := Ok(());
    }

    /** `clearChat()`: empties the history, re-arms the welcome banner and forgets the
        parsed document and its status; the connection and the chat application are
        kept. */
    method ClearChat()
      modifies this
      ensures entries.Keys == old(entries).Keys + ChatKeys
      ensures entries[MessagesKey] == Messages([]) && entries[FirstLoadKey] == Flag(true)
      ensures entries[DataFrameKey] == NoneValue && entries[ParseStatusKey] == NoneValue
      ensures forall k :: k in old(entries) && k !in ChatKeys ==> entries[k] == old(entries)[k]
      ensures Ready(old(entries)) ==> Ready(entries)
    {
      entries := entries[MessagesKey := Messages([])];
      entries := entries[FirstLoadKey := Flag(true)];
      entries := entries[DataFrameKey := NoneValue];
      entries := entries[ParseStatusKey := NoneValue];
    }

    /** The welcome banner: shown exactly when `first_load` is set, which it clears, so
        the next run shows nothing. */
    method ShowWelcome() returns (shown: bool)
      requires Ready(entries)
      modifies this
      ensures shown == old(entries)[FirstLoadKey].flag
      ensures entries == old(entries)[FirstLoadKey := Flag(false)]
      ensures Ready(entries) && !entries[FirstLoadKey].flag
    {
      shown := entries[FirstLoadKey].flag;
      if shown {
        entries := entries[FirstLoadKey := Flag(false)];
      }
    }

    /** The history replay: one bubble per stored message, in the order they were
        stored, user messages as `user` and the others as `assistant`. */
    method Replay() returns (bubbles: seq<Bubble>)
      requires Ready(entries)
      ensures |bubbles| == |entries[MessagesKey].messages|
      ensures forall i :: 0 <= i < |bubbles| ==>
                bubbles[i].text == entries[MessagesKey].messages[i].message
                && (bubbles[i].role == "user" <==> entries[MessagesKey].messages[i].origin == User)
    {
      var history := entries[MessagesKey].messages;
      bubbles := [];
      for i := 0 to |history|
        invariant |bubbles| == i
        invariant forall j :: 0 <= j < i ==> bubbles[j] == BubbleFor(history[j])
      {
        bubbles := bubbles + [BubbleFor(history[i])];
      }
    }

    /** One chat turn. Nothing happens without input or with an empty one. Otherwise
        the query is stored as a user message before the application is asked; its
        exception propagates with only that message added, and its answer is streamed
        in pieces and then stored as an ai message. */
    method ChatTurn(input: Option<string>, ask: string -> Result<string>)
      returns (r: Result<seq<string>>)
      requires Ready(entries)
      modifies this
      ensures Ready(entries) && entries.Keys == old(entries).Keys
      ensures forall k :: k in old(entries) && k != MessagesKey ==> entries[k] == old(entries)[k]
      ensures input.None? || input.value == "" ==> r == Ok([]) && entries == old(entries)
      ensures input.Some? && input.value != "" ==>
                var before := old(entries)[MessagesKey].messages;
                var question := Message(User, input.value);
                match ask(input.value)
                case Err(e) => r == Err(e) && entries[MessagesKey].messages == before + [question]
                case Ok(answer) =>
                  && r == Ok(StreamPieces(answer))
                  && entries[MessagesKey].messages == before + [question, Message(Ai, answer)]
    {
      if input.None? || input.value == "" {
        return Ok([]);
      }
      var query := input.value;
      entries := entries[MessagesKey := Messages(entries[MessagesKey].messages + [Message(User, query)])];
      var response := ask(query);
      if response.Err? {
        return Err(response.error);
      }
      var pieces := StreamPieces(response.value);
      entries := entries[MessagesKey := Messages(entries[MessagesKey].messages + [Message(Ai, response.value)])];
      r := Ok(pieces);
    }
  }
}
