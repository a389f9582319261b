/** The chat page of the Next.js front end (frontend/app/page.tsx): the list
    of chat sessions, the current session, and the state updates of sending,
    regenerating, editing and deleting messages. The updaters handed to
    `setChatSessions` are functions on the session list; the component's
    state is a `ChatPage` object whose methods apply them. Ids, which the
    page draws from `Date.now()`, are parameters. */
module Frontend {
  import opened Wrappers
  import opened Strings
  import Backend

  type Id = nat

  datatype Role = User | Assistant

  /** A chat message (its timestamp is not modelled). */
  datatype Message = Message(role: Role, content: string, id: Id)

  /** A chat session (its creation and update dates are not modelled). */
  datatype Session = Session(id: Id, title: string, messages: seq<Message>)

  const NewChatTitle := "New Chat"

  // ---------------------------------------------------------------------
  // Looking things up

  /** `sessions.find(chat => chat.id === id)`: the first session with the id. */
  function Find(ss: seq<Session>, id: Id): (r: Option<Session>)
    ensures r.Some? ==> r.value in ss && r.value.id == id
    ensures r.None? <==> forall i :: 0 <= i < |ss| ==> ss[i].id != id
  {
    if |ss| == 0 then None
    else if ss[0].id == id then Some(ss[0])
    else Find(ss[1..], id)
  }

  /** `currentChat?.messages || []`. */
  function MessagesOf(ss: seq<Session>, current: Option<Id>): seq<Message> {
    if current.None? then []
    else
      match Find(ss, current.value)
      case Some(s) => s.messages
      case None => []
  }

  /** `messages.findIndex(m => m.id === id)`. */
  function IndexOf(msgs: seq<Message>, id: Id): (k: int)
    ensures -1 <= k < |msgs|
    ensures k >= 0 ==> msgs[k].id == id && forall j :: 0 <= j < k ==> msgs[j].id != id
    ensures k == -1 <==> forall j :: 0 <= j < |msgs| ==> msgs[j].id != id
  {
    if |msgs| == 0 then -1
    else if msgs[0].id == id then 0
    else
      var k := IndexOf(msgs[1..], id);
      if k == -1 then -1 else k + 1
  }

  function Ids(ss: seq<Session>): (ids: seq<Id>)
    ensures |ids| == |ss|
    ensures forall i :: 0 <= i < |ss| ==> ids[i] == ss[i].id
  {
    seq(|ss|, i requires 0 <= i < |ss| => ss[i].id)
  }

  predicate DistinctIds(ss: seq<Session>) {
    forall i, j :: 0 <= i < j < |ss| ==> ss[i].id != ss[j].id
  }

  /** With distinct ids, the session found is the one at the id's position. */
  lemma FindDistinct(ss: seq<Session>, i: nat)
    requires DistinctIds(ss) && i < |ss|
    ensures Find(ss, ss[i].id) == Some(ss[i])
  {
    if i > 0 {
      FindDistinct(ss[1..], i - 1);
    }
  }

  // ---------------------------------------------------------------------
  // The updaters handed to `setChatSessions`

  /** What an updater does to the sessions it selects. */
  datatype Change =
    | SetTitle(title: string)              // `updateChatTitle`
    | Append(m: Message)                   // adding a user or assistant message
    | Keep(n: nat)                         // `messages.slice(0, n)`
    | EditAt(k: nat, content: string)      // `saveEdit`: new content at k, later ones dropped
    | Clear                                // `clearChat`

  function Apply(c: Change, s: Session): (r: Session)
    ensures r.id == s.id
  {
    match c
    case SetTitle(t) => s.(title := t)
    case Append(m) => s.(messages := s.messages + [m])
    case Keep(n) => s.(messages := Take(s.messages, n))
    case EditAt(k, content) =>
      if k < |s.messages| then s.(messages := s.messages[..k] + [s.messages[k].(content := content)]) else s
    case Clear => s.(messages := [], title := NewChatTitle)
  }

  /** `prev.map(chat => chat.id === id ? change(chat) : chat)`. */
  function UpdateWhere(ss: seq<Session>, id: Id, c: Change): (r: seq<Session>)
    ensures |r| == |ss|
  {
    seq(|ss|, i requires 0 <= i < |ss| => if ss[i].id == id then Apply(c, ss[i]) else ss[i])
  }

  /** The map changes only the sessions with the given id and keeps the ids
      in place. */
  lemma UpdateWhereFrame(ss: seq<Session>, id: Id, c: Change)
    ensures var r := UpdateWhere(ss, id, c);
      && Ids(r) == Ids(ss)
      && (forall i :: 0 <= i < |ss| && ss[i].id != id ==> r[i] == ss[i])
      && (forall i :: 0 <= i < |ss| && ss[i].id == id ==> r[i] == Apply(c, ss[i]))
      && (Find(ss, id).None? ==> r == ss)
  {
  }

  /** What the page finds under the id is changed, and what it finds under
      any other id is not. */
  lemma {:induction false} UpdateWhereFind(ss: seq<Session>, id: Id, c: Change, x: Id)
    ensures Find(UpdateWhere(ss, id, c), x)
      == if x == id && Find(ss, x).Some? then Some(Apply(c, Find(ss, x).value)) else Find(ss, x)
  {
    if |ss| > 0 {
      var r := UpdateWhere(ss, id, c);
      var head := if ss[0].id == id then Apply(c, ss[0]) else ss[0];
      assert r[0] == head && head.id == ss[0].id;
      assert r[1..] == UpdateWhere(ss[1..], id, c);
      UpdateWhereFind(ss[1..], id, c, x);
    }
  }

  /** `after` holds the same ids as `before`, in the same places; under `id`
      it holds `s`, and under every other id what `before` held. */
  ghost predicate Replaces(before: seq<Session>, after: seq<Session>, id: Id, s: Session) {
    && Ids(after) == Ids(before)
    && Find(after, id) == Some(s)
    && forall x :: x != id ==> Find(after, x) == Find(before, x)
  }

  lemma UpdateWhereReplaces(ss: seq<Session>, id: Id, c: Change)
    requires Find(ss, id).Some?
    ensures Replaces(ss, UpdateWhere(ss, id, c), id, Apply(c, Find(ss, id).value))
  {
    UpdateWhereFrame(ss, id, c);
    UpdateWhereFind(ss, id, c, id);
    forall x | x != id
      ensures Find(UpdateWhere(ss, id, c), x) == Find(ss, x)
    {
      UpdateWhereFind(ss, id, c, x);
    }
  }

  lemma ReplacesTrans(a: seq<Session>, b: seq<Session>, c: seq<Session>, id: Id, s: Session, s': Session)
    requires Replaces(a, b, id, s) && Replaces(b, c, id, s')
    ensures Replaces(a, c, id, s')
  {
  }

  /** Replacing keeps the ids distinct. */
  lemma ReplacesKeepsDistinct(a: seq<Session>, b: seq<Session>, id: Id, s: Session)
    requires Replaces(a, b, id, s) && DistinctIds(a)
    ensures DistinctIds(b)
  {
    forall i, j | 0 <= i < j < |b|
      ensures b[i].id != b[j].id
    {
      assert Ids(b)[i] == Ids(a)[i] && Ids(b)[j] == Ids(a)[j];
    }
  }

  /** `title` of `updateChatTitle`: the first 30 characters, and `...` when
      the message is longer. */
  function Title(firstMessage: string): string {
    Take(firstMessage, 30) + (if |firstMessage| > 30 then "..." else "")
  }

  /** A title has at most 33 characters; a message of up to 30 characters is
      its own title, a longer one is cut to 30 and marked with `...`. */
  lemma TitleShape(m: string)
    ensures |Title(m)| <= 33
    ensures |m| <= 30 ==> Title(m) == m
    ensures |m| > 30 ==> Title(m) == m[..30] + "..."
  {
    if |m| <= 30 {
      assert Title(m) == m + "";
    }
  }

  /** `prev.filter(c => c.id !== id)`. */
  function Without(ss: seq<Session>, id: Id): seq<Session> {
    if |ss| == 0 then []
    else (if ss[0].id != id then [ss[0]] else []) + Without(ss[1..], id)
  }

  /** The filter removes exactly the sessions with the id, keeps the others in
      their order, and keeps the ids distinct. */
  lemma {:induction false} WithoutExact(ss: seq<Session>, id: Id)
    ensures var r := Without(ss, id);
      && (forall s :: s in r <==> s in ss && s.id != id)
      && |r| <= |ss|
      && (DistinctIds(ss) ==> DistinctIds(r))
  {
    if |ss| > 0 {
      WithoutExact(ss[1..], id);
      var r := Without(ss, id);
      var rest := Without(ss[1..], id);
      if DistinctIds(ss) {
        assert DistinctIds(ss[1..]);
        if ss[0].id != id {
          forall j | 0 < j < |r|
            ensures r[0].id != r[j].id
          {
            assert r[j] in rest;
          }
        }
      }
    }
  }

  /** Deleting a session other than the current one keeps the current one,
      and the ids stay distinct. */
  lemma WithoutKeepsValid(ss: seq<Session>, id: Id, current: Option<Id>)
    requires DistinctIds(ss) && (current.Some? ==> Find(ss, current.value).Some?)
    ensures var r := Without(ss, id);
      && DistinctIds(r)
      && (current.Some? && current.value != id ==> Find(r, current.value).Some?)
      && (|r| > 0 ==> Find(r, r[0].id).Some?)
  {
    var r := Without(ss, id);
    WithoutExact(ss, id);
    if current.Some? && current.value != id {
      assert Find(ss, current.value).value in r;
    }
  }

  /** The filter keeps the order: filtering a concatenation filters each
      part. */
  lemma {:induction false} WithoutConcat(a: seq<Session>, b: seq<Session>, id: Id)
    ensures Without(a + b, id) == Without(a, id) + Without(b, id)
  {
    if |a| > 0 {
      assert (a + b)[1..] == a[1..] + b;
      WithoutConcat(a[1..], b, id);
    } else {
      assert a + b == b;
    }
  }

  // ---------------------------------------------------------------------
  // The request context and the fetch error messages

  function RoleName(r: Role): string {
    match r
    case User => "user"
    case Assistant => "assistant"
  }

  /** `msgs.map(m => ({role: m.role, content: m.content}))`, as the back end
      reads it. */
  function Turns(msgs: seq<Message>): (ts: seq<Backend.Turn>)
    ensures |ts| == |msgs|
    ensures forall i :: 0 <= i < |msgs| ==> ts[i] == Backend.Turn(Backend.Str(RoleName(msgs[i].role)), Backend.Str(msgs[i].content))
    ensures Backend.TextRoles(ts)
  {
    seq(|msgs|, i requires 0 <= i < |msgs| => Backend.Turn(Backend.Str(RoleName(msgs[i].role)), Backend.Str(msgs[i].content)))
  }

  /** The body of a `POST /api/chat`. */
  datatype ChatRequest = ChatRequest(message: string, context: seq<Backend.Turn>)

  /** How the `fetch` of `/api/chat` ends: the `answer` of a 2xx response, a
      response with another status, or a rejected promise with the error's
      message. */
  datatype FetchOutcome = Answered(answer: string) | HttpStatus(status: nat) | Rejected(message: string)

  const ServiceUnavailable := "\U{E2}\U{161}\U{A0}\U{EF}\U{B8} AI service temporarily unavailable. Please try again later."
  const CannotConnect := "\U{F0}\U{178}\U{201D}\U{152} Unable to connect to the server. Please check your connection."
  const SomethingWrong := "\U{E2}\U{152} Something went wrong. Please try asking a different question."
  const RegenerateFailed := "\U{E2}\U{152} Failed to regenerate response. Please try again."

  /** The `Error` thrown for a response that is not ok. */
  function HttpErrorMessage(status: nat): string {
    "HTTP error! status: " + NatToString(status)
  }

  /** The message of the error `sendMessage` catches. */
  function FailureMessage(f: FetchOutcome): string
    requires !f.Answered?
  {
    if f.HttpStatus? then HttpErrorMessage(f.status) else f.message
  }

  /** `sendMessage`'s classification: the first rule that matches wins. */
  function FetchErrorText(message: string): string {
    if Contains(message, "404") || Contains(message, "not found") then ServiceUnavailable
    else if Contains(message, "NetworkError") || Contains(message, "Failed to fetch") then CannotConnect
    else SomethingWrong
  }

  /** Each message is given exactly when its rule is the first that
      matches. */
  lemma FetchErrorTextFirstMatch(message: string)
    ensures var t := FetchErrorText(message);
      && (t == ServiceUnavailable <==> Contains(message, "404") || Contains(message, "not found"))
      && (t == CannotConnect <==> !(Contains(message, "404") || Contains(message, "not found"))
                                  && (Contains(message, "NetworkError") || Contains(message, "Failed to fetch")))
      && (t == SomethingWrong <==> !(Contains(message, "404") || Contains(message, "not found"))
                                   && !(Contains(message, "NetworkError") || Contains(message, "Failed to fetch")))
  {
    assert |ServiceUnavailable| != |CannotConnect| && |ServiceUnavailable| != |SomethingWrong|;
    assert |CannotConnect| != |SomethingWrong|;
  }

  /** A 404 from the back end is reported as the service being unavailable. */
  lemma NotFoundStatusIsUnavailable()
    ensures FetchErrorText(HttpErrorMessage(404)) == ServiceUnavailable
  {
    var m := HttpErrorMessage(404);
    StatusRendersAsDigits();
    assert m == "HTTP error! status: " + "404";
    assert OccursAt(m, "404", |"HTTP error! status: "|);
  }

  /** The status 404 renders as the text `404`. */
  lemma StatusRendersAsDigits()
    ensures NatToString(404) == "404"
  {
    assert NatToString(4) == "4";
    assert NatToString(40) == "40";
  }

  // ---------------------------------------------------------------------
  // The page component

  /** The component's other state hooks: `input`, `isLoading`, `error`,
      `editingMessageId` and `editContent`, held together in one field. */
  datatype Ui = Ui(input: string, isLoading: bool, error: Option<string>, editingId: Option<Id>, editContent: string)

  /** `text || input`: an explicit non-empty text, else the input box. */
  function SendText(text: Option<string>, input: string): string {
    if text.Some? && text.value != "" then text.value else input
  }

  /** The assistant's reply, when the fetch gave one. */
  function Reply(response: FetchOutcome, id: Id): seq<Message> {
    if response.Answered? then [Message(Assistant, response.answer, id)] else []
  }

  /** The session list after `sendMessage`'s updaters: the user message is
      appended to the current session, which is retitled if it was empty,
      and the reply, if any, follows. */
  function SendUpdate(ss: seq<Session>, cur: Id, m: string, userId: Id, response: FetchOutcome, assistantId: Id): seq<Session>
    requires Find(ss, cur).Some?
  {
    var s1 := UpdateWhere(ss, cur, Append(Message(User, m, userId)));
    var s2 := if Find(ss, cur).value.messages == [] then UpdateWhere(s1, cur, SetTitle(Title(m))) else s1;
    if response.Answered? then UpdateWhere(s2, cur, Append(Message(Assistant, response.answer, assistantId))) else s2
  }

  /** Sending changes the current session only: it gains the user message
      and the reply, and the first message of an empty session titles it. */
  lemma SendUpdateReplaces(ss: seq<Session>, cur: Id, m: string, userId: Id, response: FetchOutcome, assistantId: Id)
    requires Find(ss, cur).Some?
    ensures var before := Find(ss, cur).value;
      Replaces(ss, SendUpdate(ss, cur, m, userId, response, assistantId), cur,
               before.(messages := before.messages + [Message(User, m, userId)] + Reply(response, assistantId),
                       title := if before.messages == [] then Title(m) else before.title))
  {
    var before := Find(ss, cur).value;
    var user := Message(User, m, userId);
    var s1 := UpdateWhere(ss, cur, Append(user));
    UpdateWhereReplaces(ss, cur, Append(user));
    var b1 := before.(messages := before.messages + [user]);
    var s2 := s1;
    var b2 := b1;
    if before.messages == [] {
      s2 := UpdateWhere(s1, cur, SetTitle(Title(m)));
      b2 := b1.(title := Title(m));
      UpdateWhereReplaces(s1, cur, SetTitle(Title(m)));
      ReplacesTrans(ss, s1, s2, cur, b1, b2);
    }
    if response.Answered? {
      var reply := Message(Assistant, response.answer, assistantId);
      UpdateWhereReplaces(s2, cur, Append(reply));
      ReplacesTrans(ss, s2, UpdateWhere(s2, cur, Append(reply)), cur, b2, b2.(messages := b2.messages + [reply]));
    } else {
      assert b2.messages + Reply(response, assistantId) == b2.messages;
    }
  }

  /** Sending keeps the ids distinct and the current session present. */
  lemma SendUpdateKeepsValid(ss: seq<Session>, cur: Id, m: string, userId: Id, response: FetchOutcome, assistantId: Id)
    requires DistinctIds(ss) && Find(ss, cur).Some?
    ensures var r := SendUpdate(ss, cur, m, userId, response, assistantId);
      DistinctIds(r) && Find(r, cur).Some?
  {
    SendUpdateReplaces(ss, cur, m, userId, response, assistantId);
    var r := SendUpdate(ss, cur, m, userId, response, assistantId);
    ReplacesKeepsDistinct(ss, r, cur, Find(r, cur).value);
  }

  /** The session list after `regenerateResponse`'s updaters: the current
      session is cut after position `k`, and the reply, if any, follows. */
  function RegenerateUpdate(ss: seq<Session>, cur: Id, k: nat, response: FetchOutcome, assistantId: Id): seq<Session> {
    var s1 := UpdateWhere(ss, cur, Keep(k + 1));
    if response.Answered? then UpdateWhere(s1, cur, Append(Message(Assistant, response.answer, assistantId))) else s1
  }

  /** Regenerating changes the current session only: it keeps its messages
      up to and including position `k`, then the reply. */
  lemma RegenerateUpdateReplaces(ss: seq<Session>, cur: Id, k: nat, response: FetchOutcome, assistantId: Id)
    requires Find(ss, cur).Some?
    ensures var before := Find(ss, cur).value;
      Replaces(ss, RegenerateUpdate(ss, cur, k, response, assistantId), cur,
               before.(messages := Take(before.messages, k + 1) + Reply(response, assistantId)))
  {
    var before := Find(ss, cur).value;
    var s1 := UpdateWhere(ss, cur, Keep(k + 1));
    UpdateWhereReplaces(ss, cur, Keep(k + 1));
    var b1 := before.(messages := Take(before.messages, k + 1));
    if response.Answered? {
      var reply := Message(Assistant, response.answer, assistantId);
      UpdateWhereReplaces(s1, cur, Append(reply));
      ReplacesTrans(ss, s1, UpdateWhere(s1, cur, Append(reply)), cur, b1, b1.(messages := b1.messages + [reply]));
    } else {
      assert b1.messages + Reply(response, assistantId) == b1.messages;
    }
  }

  lemma RegenerateUpdateKeepsValid(ss: seq<Session>, cur: Id, k: nat, response: FetchOutcome, assistantId: Id)
    requires DistinctIds(ss) && Find(ss, cur).Some?
    ensures var r := RegenerateUpdate(ss, cur, k, response, assistantId);
      DistinctIds(r) && Find(r, cur).Some?
  {
    RegenerateUpdateReplaces(ss, cur, k, response, assistantId);
    var r := RegenerateUpdate(ss, cur, k, response, assistantId);
    ReplacesKeepsDistinct(ss, r, cur, Find(r, cur).value);
  }

  /** `saveEdit`'s updater: the message at `k` takes the new content and the
      later ones are dropped; nothing else changes. */
  lemma EditReplaces(ss: seq<Session>, cur: Id, k: nat, content: string)
    requires DistinctIds(ss) && Find(ss, cur).Some? && k < |Find(ss, cur).value.messages|
    ensures var before := Find(ss, cur).value;
      && Replaces(ss, UpdateWhere(ss, cur, EditAt(k, content)), cur,
                  before.(messages := before.messages[..k] + [before.messages[k].(content := content)]))
      && DistinctIds(UpdateWhere(ss, cur, EditAt(k, content)))
  {
    var r := UpdateWhere(ss, cur, EditAt(k, content));
    UpdateWhereReplaces(ss, cur, EditAt(k, content));
    ReplacesKeepsDistinct(ss, r, cur, Find(r, cur).value);
  }

  /** Saving an edit of a user message and regenerating leaves the current
      session with the messages before `k`, the edited message and the
      reply; every other session is untouched. */
  lemma EditThenRegenerate(ss: seq<Session>, cur: Id, k: nat, content: string, response: FetchOutcome, assistantId: Id)
    requires DistinctIds(ss) && Find(ss, cur).Some? && k < |Find(ss, cur).value.messages|
    ensures var before := Find(ss, cur).value;
      var edited := UpdateWhere(ss, cur, EditAt(k, content));
      Replaces(ss, RegenerateUpdate(edited, cur, k, response, assistantId), cur,
               before.(messages := before.messages[..k] + [before.messages[k].(content := content)] + Reply(response, assistantId)))
  {
    var before := Find(ss, cur).value;
    var edited := UpdateWhere(ss, cur, EditAt(k, content));
    var b1 := before.(messages := before.messages[..k] + [before.messages[k].(content := content)]);
    EditReplaces(ss, cur, k, content);
    RegenerateUpdateReplaces(edited, cur, k, response, assistantId);
    assert Take(b1.messages, k + 1) == b1.messages;
    ReplacesTrans(ss, edited, RegenerateUpdate(edited, cur, k, response, assistantId), cur, b1,
                  b1.(messages := Take(b1.messages, k + 1) + Reply(response, assistantId)));
  }

  /** The requests of send and regenerate carry the last five messages
      before the one sent, but the back end only writes the last three of
      them into its prompt; since every role it sends is a string, that
      prompt always gets its history. */
  lemma BackendSeesLastThree(msgs: seq<Message>)
    ensures Backend.History(Some(Turns(Last(msgs, 5)))) == Backend.History(Some(Turns(Last(msgs, 3))))
    ensures Backend.History(Some(Turns(Last(msgs, 5)))).Success?
  {
    var t5 := Turns(Last(msgs, 5));
    var t3 := Turns(Last(msgs, 3));
    TurnsLastThree(msgs);
    assert Last(t3, 3) == t3;
    if |msgs| > 0 {
      Backend.HistoryOfContext(t5);
      Backend.HistoryOfContext(t3);
    }
  }

  /** The last three entries of the five-message context are the context of
      the last three messages. */
  lemma TurnsLastThree(msgs: seq<Message>)
    ensures Last(Turns(Last(msgs, 5)), 3) == Turns(Last(msgs, 3))
  {
    var m5 := Last(msgs, 5);
    TurnsCommuteWithLast(m5, 3);
    assert Last(m5, 3) == Last(msgs, 3);
  }

  /** Taking the last entries of the context is taking the context of the
      last messages. */
  lemma TurnsCommuteWithLast(msgs: seq<Message>, n: nat)
    ensures Last(Turns(msgs), n) == Turns(Last(msgs, n))
  {
    var l := Last(Turns(msgs), n);
    var r := Turns(Last(msgs, n));
    forall i | 0 <= i < |l| ensures l[i] == r[i] {
      assert l[i] == Turns(msgs)[|msgs| - |l| + i];
    }
  }

  class ChatPage {
    var sessions: seq<Session>
    var currentId: Option<Id>
    var ui: Ui

    /** Session ids are distinct and the current id names a session. */
    ghost predicate Valid()
      reads this
    {
      DistinctIds(sessions) && (currentId.Some? ==> Find(sessions, currentId.value).Some?)
    }

    /** `messages`: the current session's messages. */
    function Messages(): seq<Message>
      reads this
    {
      MessagesOf(sessions, currentId)
    }

    /** The state of the first render. */
    constructor ()
      ensures Valid() && sessions == [] && currentId.None?
      ensures ui == Ui("", false, None, None, "")
    {
      sessions, currentId := [], None;
      ui := Ui("", false, None, None, "");
    }

    /** `createNewChat`, with `newId` a fresh id. */
    method CreateNewChat(newId: Id)
      requires Valid() && Find(sessions, newId).None?
      modifies this
      ensures Valid()
      ensures sessions == [Session(newId, NewChatTitle, [])] + old(sessions)
      ensures currentId == Some(newId) && Messages() == []
      ensures ui == old(ui)
    {
      sessions := [Session(newId, NewChatTitle, [])] + sessions;
      currentId := Some(newId);
    }

    /** `deleteChat`, the confirmation being accepted; `scheduled` tells
        whether a new chat is to be created by the timer. */
    method DeleteChat(chatId: Id) returns (scheduled: bool)
      requires Valid()
      modifies this
      ensures Valid()
      ensures sessions == Without(old(sessions), chatId)
      ensures old(currentId) == Some(chatId) ==> currentId == (if sessions == [] then None else Some(sessions[0].id))
      ensures old(currentId) != Some(chatId) ==> currentId == old(currentId)
      ensures scheduled <==> sessions == []
      ensures ui == old(ui)
    {
      var updated := Without(sessions, chatId);
      WithoutKeepsValid(sessions, chatId, currentId);
      if currentId == Some(chatId) {
        currentId := if |updated| > 0 then Some(updated[0].id) else None;
      }
      scheduled := |updated| == 0;
      sessions := updated;
    }

    /** `updateChatTitle`. */
    method UpdateChatTitle(chatId: Id, firstMessage: string)
      requires Valid()
      modifies this
      ensures Valid()
      ensures sessions == UpdateWhere(old(sessions), chatId, SetTitle(Title(firstMessage)))
      ensures currentId == old(currentId) && ui == old(ui)
    {
      var updated := UpdateWhere(sessions, chatId, SetTitle(Title(firstMessage)));
      UpdateWhereKeepsValid(sessions, chatId, SetTitle(Title(firstMessage)), currentId);
      sessions := updated;
    }

    method SendMessage(text: Option<string>, userId: Id, assistantId: Id, response: FetchOutcome)
      returns (ghost request: Option<ChatRequest>)
      requires Valid()
      modifies this
      ensures Valid()
      ensures var m := SendText(text, old(ui.input));
        Strip(JavaScript, m) == "" || old(ui.isLoading) || old(currentId).None? ==>
          sessions == old(sessions) && currentId == old(currentId) && ui == old(ui) && request.None?
      ensures var m := SendText(text, old(ui.input));
        !(Strip(JavaScript, m) == "" || old(ui.isLoading) || old(currentId).None?) ==>
          var cur := old(currentId).value;
          && request == Some(ChatRequest(m, Turns(Last(old(Messages()), 5))))
          && sessions == SendUpdate(old(sessions), cur, m, userId, response, assistantId)
          && currentId == old(currentId)
          && ui == old(ui).(input := "", isLoading := false,
                                          error := if response.Answered? then None else Some(FetchErrorText(FailureMessage(response))))
    {
      var messageText := SendText(text, ui.input);
      if Strip(JavaScript, messageText) == "" || ui.isLoading || currentId.None? {
        return None;
      }
      var cur := currentId.value;
      var rendered := Messages();
      var updated := SendUpdate(sessions, cur, messageText, userId, response, assistantId);
      request := Some(ChatRequest(messageText, Turns(Last(rendered, 5))));
      var failure := if response.Answered? then None else Some(FetchErrorText(FailureMessage(response)));
      SendUpdateKeepsValid(sessions, cur, messageText, userId, response, assistantId);
      sessions, ui := updated, ui.(input := "", isLoading := false, error := failure);
    }

    /** `regenerateResponse(userMessageId)` as the closure of the render
        whose messages were `rendered`; `assistantId` is the id drawn for the
        reply and `response` how the fetch ends. The ghost output is the
        request posted to `/api/chat`. */
    method Regenerate(rendered: seq<Message>, userMessageId: Id, assistantId: Id, response: FetchOutcome)
      returns (ghost request: Option<ChatRequest>)
      requires Valid()
      modifies this
      ensures Valid()
      ensures old(currentId).None? || IndexOf(rendered, userMessageId) == -1 ==>
        sessions == old(sessions) && currentId == old(currentId) && ui == old(ui) && request.None?
      ensures old(currentId).Some? && IndexOf(rendered, userMessageId) != -1 ==>
        var k := IndexOf(rendered, userMessageId);
        && request == Some(ChatRequest(rendered[k].content, Turns(Last(rendered[..k], 5))))
        && sessions == RegenerateUpdate(old(sessions), old(currentId).value, k, response, assistantId)
        && currentId == old(currentId)
        && ui == old(ui).(isLoading := false, error := if response.Answered? then None else Some(RegenerateFailed))
    {
      if currentId.None? {
        return None;
      }
      var cur := currentId.value;
      var k := IndexOf(rendered, userMessageId);
      if k == -1 {
        return None;
      }
      var updated := RegenerateUpdate(sessions, cur, k, response, assistantId);
      request := Some(ChatRequest(rendered[k].content, Turns(Last(rendered[..k], 5))));
      var failure := if response.Answered? then None else Some(RegenerateFailed);
      RegenerateUpdateKeepsValid(sessions, cur, k, response, assistantId);
      sessions, ui := updated, ui.(isLoading := false, error := failure);
    }

    /** `regenerateResponse`, called from the current render. */
    method RegenerateResponse(userMessageId: Id, assistantId: Id, response: FetchOutcome)
      returns (ghost request: Option<ChatRequest>)
      requires Valid()
      modifies this
      ensures Valid()
      ensures var rendered := MessagesOf(old(sessions), old(currentId));
        old(currentId).Some? && IndexOf(rendered, userMessageId) != -1 ==>
          var k := IndexOf(rendered, userMessageId);
          && request == Some(ChatRequest(rendered[k].content, Turns(Last(rendered[..k], 5))))
          && sessions == RegenerateUpdate(old(sessions), old(currentId).value, k, response, assistantId)
          && ui == old(ui).(isLoading := false, error := if response.Answered? then None else Some(RegenerateFailed))
      ensures var rendered := MessagesOf(old(sessions), old(currentId));
        old(currentId).None? || IndexOf(rendered, userMessageId) == -1 ==>
          sessions == old(sessions) && ui == old(ui) && request.None?
      ensures currentId == old(currentId)
    {
      request := Regenerate(Messages(), userMessageId, assistantId, response);
    }

    /** `startEdit(message)`. */
    method StartEdit(m: Message)
      modifies this
      ensures sessions == old(sessions) && currentId == old(currentId)
      ensures ui == old(ui).(editingId := Some(m.id), editContent := m.content)
    {
      ui := ui.(editingId := Some(m.id), editContent := m.content);
    }

    /** `cancelEdit`. */
    method CancelEdit()
      modifies this
      ensures sessions == old(sessions) && currentId == old(currentId)
      ensures ui == old(ui).(editingId := None, editContent := "")
    {
      ui := ui.(editingId := None, editContent := "");
    }

    /** `saveEdit`, with `assistantId` and `response` as for regenerating. The
        regeneration of a user message runs as the closure of the same
        render, so it reads the messages from before the edit. */
    method SaveEdit(assistantId: Id, response: FetchOutcome) returns (ghost request: Option<ChatRequest>)
      requires Valid()
      modifies this
      ensures Valid()
      ensures currentId == old(currentId)
      ensures var rendered := MessagesOf(old(sessions), old(currentId));
        old(ui).editingId.None? || Strip(JavaScript, old(ui).editContent) == "" || old(currentId).None?
        || IndexOf(rendered, old(ui).editingId.value) == -1 ==>
          sessions == old(sessions) && ui == old(ui) && request.None?
      ensures var rendered := MessagesOf(old(sessions), old(currentId));
        !(old(ui).editingId.None? || Strip(JavaScript, old(ui).editContent) == "" || old(currentId).None?
          || IndexOf(rendered, old(ui).editingId.value) == -1) ==>
          var k := IndexOf(rendered, old(ui).editingId.value);
          var cur := old(currentId).value;
          var edited := UpdateWhere(old(sessions), cur, EditAt(k, old(ui).editContent));
          && (rendered[k].role == Assistant ==>
                sessions == edited && ui == old(ui).(editingId := None, editContent := "") && request.None?)
          && (rendered[k].role == User ==>
                && sessions == RegenerateUpdate(edited, cur, k, response, assistantId)
                && request == Some(ChatRequest(rendered[k].content, Turns(Last(rendered[..k], 5))))
                && ui == old(ui).(editingId := None, editContent := "", isLoading := false,
                                  error := if response.Answered? then None else Some(RegenerateFailed)))
    {
      if ui.editingId.None? || Strip(JavaScript, ui.editContent) == "" || currentId.None? {
        return None;
      }
      var id := ui.editingId.value;
      var cur := currentId.value;
      var rendered := Messages();
      var k := IndexOf(rendered, id);
      if k == -1 {
        return None;
      }
      var message := rendered[k];
      var edited := UpdateWhere(sessions, cur, EditAt(k, ui.editContent));
      UpdateWhereKeepsValid(sessions, cur, EditAt(k, ui.editContent), currentId);
      sessions, ui := edited, ui.(editingId := None, editContent := "");
      if message.role == User {
        request := Regenerate(rendered, id, assistantId, response);
      } else {
        request := None;
      }
    }

    /** `deleteMessage(id)`: the current session keeps the messages before
        the one with the id. */
    method DeleteMessage(id: Id)
      requires Valid()
      modifies this
      ensures Valid()
      ensures var k := IndexOf(MessagesOf(old(sessions), old(currentId)), id);
        sessions == (if old(currentId).None? || k == -1 then old(sessions)
                     else UpdateWhere(old(sessions), old(currentId).value, Keep(k)))
      ensures currentId == old(currentId) && ui == old(ui)
    {
      if currentId.None? {
        return;
      }
      var k := IndexOf(Messages(), id);
      if k != -1 {
        var updated := UpdateWhere(sessions, currentId.value, Keep(k));
        UpdateWhereKeepsValid(sessions, currentId.value, Keep(k), currentId);
        sessions := updated;
      }
    }

    /** `clearChat`, the confirmation being accepted. */
    method ClearChat()
      requires Valid()
      modifies this
      ensures Valid()
      ensures old(currentId).None? ==> sessions == old(sessions) && ui == old(ui)
      ensures old(currentId).Some? ==>
        sessions == UpdateWhere(old(sessions), old(currentId).value, Clear) && ui == old(ui).(error := None)
      ensures currentId == old(currentId)
    {
      if currentId.None? {
        return;
      }
      var updated := UpdateWhere(sessions, currentId.value, Clear);
      UpdateWhereKeepsValid(sessions, currentId.value, Clear, currentId);
      sessions, ui := updated, ui.(error := None);
    }
  }

  /** A map over the sessions keeps the page's invariant. */
  lemma UpdateWhereKeepsValid(ss: seq<Session>, id: Id, c: Change, current: Option<Id>)
    requires DistinctIds(ss) && (current.Some? ==> Find(ss, current.value).Some?)
    ensures var r := UpdateWhere(ss, id, c);
      DistinctIds(r) && (current.Some? ==> Find(r, current.value).Some?)
  {
    var r := UpdateWhere(ss, id, c);
    UpdateWhereFrame(ss, id, c);
    assert forall i :: 0 <= i < |r| ==> r[i].id == Ids(r)[i] == ss[i].id;
    if current.Some? {
      UpdateWhereFind(ss, id, c, current.value);
    }
  }
}
