/** The chat conversation of one session: its turns, the "reply pending" flag and the
    selected knowledge base, the four events that change them, and the invariant the
    events keep. The query endpoint is not called: its answer is an `Outcome` argument. */
module ChatModel {
  import opened Base
  import opened Text

  /** One turn of the conversation. */
  datatype Message = Message(text: string, isAi: bool)

  /** What the query endpoint gave back: a body that decoded to a JSON object, or the
      description of the exception raised instead. That exception is a transport or HTTP
      error, a decoding error, or the `AttributeError` of `.get` on a body that decoded to a
      list, string or number. */
  datatype Outcome = Ok(body: map<string, string>) | Err(desc: string)

  /** The payload posted to the query endpoint. */
  datatype Query = Query(knowledgeBaseId: string, query: string)

  /** What `send_message` did: ignored while a reply is pending, ignored a blank message,
      appended a turn and scheduled `generate_response`, or raised `KeyError`. */
  datatype SendStatus = Busy | BlankMessage | Sent | MissingMessage

  /** The value of the session's chat fields. */
  datatype Session = Session(messages: seq<Message>, typing: bool, knowledgeBaseId: Option<string>)

  /** The events that change a session. */
  datatype ChatEvent =
    | ClearEvent
    | SelectEvent(kb: Option<string>)
    | SendEvent(form: FormData)
    | GenerateEvent(outcome: Outcome)

  const InitialSession := Session([], false, None)

  const NoAssistantReply :=
    "No assistant selected. Please go to the dashboard and choose one of the assistant templates first."

  const ErrorPrefix := "Error contacting chat API: "

  /** Python's truth value of the selected id: neither `None` nor "". */
  predicate HasAssistant(kb: Option<string>) {
    kb.Some? && kb.value != ""
  }

  /** Index of the most recent user turn, or -1 when every turn is the assistant's. */
  function LastUserIndex(ms: seq<Message>): (r: int)
    ensures -1 <= r < |ms|
    ensures 0 <= r ==> !ms[r].isAi
    ensures forall k :: r < k < |ms| ==> ms[k].isAi
  {
    if ms == [] then -1
    else if !ms[|ms| - 1].isAi then |ms| - 1
    else LastUserIndex(ms[..|ms| - 1])
  }

  /** The query sent for a conversation: the text of its most recent user turn, or ""
      when it has none. */
  function QueryText(ms: seq<Message>): (q: string)
    ensures (forall k :: 0 <= k < |ms| ==> ms[k].isAi) ==> q == ""
    ensures forall i ::
      0 <= i < |ms| && !ms[i].isAi && (forall k :: i < k < |ms| ==> ms[k].isAi) ==> q == ms[i].text
  {
    var i := LastUserIndex(ms);
    if i < 0 then "" else ms[i].text
  }

  /** The search `generate_response` runs: walk the turns from the newest and stop at the
      first user turn. */
  method FindQuery(ms: seq<Message>) returns (q: string)
    ensures q == QueryText(ms)
  {
    q := "";
    var i := |ms|;
    while i > 0
      invariant 0 <= i <= |ms|
      invariant q == ""
      invariant forall k :: i <= k < |ms| ==> ms[k].isAi
      decreases i
    {
      if !ms[i - 1].isAi {
        q := ms[i - 1].text;
        return;
      }
      i := i - 1;
    }
  }

  /** The reply text an outcome yields: the body's "response" field (default ""), or the
      error description behind a fixed prefix. */
  function ReplyText(outcome: Outcome): (reply: string)
    ensures outcome.Ok? && "response" in outcome.body ==> reply == outcome.body["response"]
    ensures outcome.Ok? && "response" !in outcome.body ==> reply == ""
    ensures outcome.Err? ==>
      |reply| == |ErrorPrefix| + |outcome.desc|
      && reply[..|ErrorPrefix|] == ErrorPrefix && reply[|ErrorPrefix|..] == outcome.desc
  {
    match outcome
    case Ok(body) => Lookup(body, "response", "")
    case Err(desc) => ErrorPrefix + desc
  }

  /** Overwrite the text of the last turn, keeping its author. */
  function SetLastText(ms: seq<Message>, t: string): (r: seq<Message>)
    requires ms != []
    ensures |r| == |ms|
    ensures forall i :: 0 <= i < |ms| - 1 ==> r[i] == ms[i]
    ensures r[|ms| - 1] == Message(t, ms[|ms| - 1].isAi)
  {
    ms[|ms| - 1 := ms[|ms| - 1].(text := t)]
  }

  /** What `send_message` reports for a session and a submitted form. */
  function SendStatusOf(s: Session, form: FormData): (st: SendStatus)
    ensures st == Busy <==> s.typing
    ensures st == MissingMessage <==> !s.typing && "message" !in form
    ensures st == Sent <==> !s.typing && "message" in form && !Blank(form["message"])
  {
    if s.typing then Busy
    else if "message" !in form then MissingMessage
    else if Strip(form["message"]) == "" then BlankMessage
    else Sent
  }

  /** The session after `send_message(form)`. */
  function Send(s: Session, form: FormData): (r: Session)
    ensures SendStatusOf(s, form) != Sent ==> r == s
    ensures SendStatusOf(s, form) == Sent ==>
      |r.messages| == |s.messages| + 2
      && r.messages[..|s.messages|] == s.messages
      && r.messages[|s.messages|] == Message(Strip(form["message"]), false)
      && r.messages[|s.messages| + 1] == Message("", true)
      && r.typing && r.knowledgeBaseId == s.knowledgeBaseId
  {
    if SendStatusOf(s, form) != Sent then s
    else
      var message := Strip(form["message"]);
      s.(messages := s.messages + [Message(message, false)] + [Message("", true)], typing := true)
  }

  /** The request `generate_response` posts for a session, if any: none for an empty
      conversation or when no assistant is selected. */
  function Request(s: Session): (r: Option<Query>)
    ensures r.Some? <==> s.messages != [] && HasAssistant(s.knowledgeBaseId)
    ensures r.Some? ==> r.value.knowledgeBaseId == s.knowledgeBaseId.value
                        && r.value.query == QueryText(s.messages)
  {
    if s.messages == [] || !HasAssistant(s.knowledgeBaseId) then None
    else Some(Query(s.knowledgeBaseId.value, QueryText(s.messages)))
  }

  /** The session after `generate_response`, given the endpoint's outcome. */
  function Generate(s: Session, outcome: Outcome): (r: Session)
    ensures !r.typing && r.knowledgeBaseId == s.knowledgeBaseId
    ensures |r.messages| == |s.messages|
    ensures forall i :: 0 <= i < |s.messages| - 1 ==> r.messages[i] == s.messages[i]
    ensures forall i :: 0 <= i < |s.messages| ==> r.messages[i].isAi == s.messages[i].isAi
    ensures s.messages != [] && !HasAssistant(s.knowledgeBaseId) ==>
      r.messages[|s.messages| - 1].text == NoAssistantReply
    ensures s.messages != [] && HasAssistant(s.knowledgeBaseId) ==>
      r.messages[|s.messages| - 1].text == ReplyText(outcome)
  {
    if s.messages == [] then s.(typing := false)
    else
      var reply := if HasAssistant(s.knowledgeBaseId) then ReplyText(outcome) else NoAssistantReply;
      Session(SetLastText(s.messages, reply), false, s.knowledgeBaseId)
  }

  /** One event applied to a session. */
  function Step(s: Session, e: ChatEvent): Session {
    match e
    case ClearEvent => s.(messages := [], typing := false)
    case SelectEvent(kb) => Session([], false, kb)
    case SendEvent(form) => Send(s, form)
    case GenerateEvent(outcome) => Generate(s, outcome)
  }

  /** A sequence of events applied in order. */
  function Run(s: Session, es: seq<ChatEvent>): Session
    decreases |es|
  {
    if es == [] then s else Run(Step(s, es[0]), es[1..])
  }

  /** Turns come in pairs: a user turn, then the assistant's. */
  predicate Paired(ms: seq<Message>) {
    |ms| % 2 == 0 && forall i :: 0 <= i < |ms| ==> ms[i].isAi == (i % 2 == 1)
  }

  /** Every user turn is non-empty and already stripped (`strip()` would leave it alone). */
  predicate UserTurnsStripped(ms: seq<Message>) {
    forall i :: 0 <= i < |ms| && !ms[i].isAi ==> ms[i].text != "" && IsStripped(ms[i].text)
  }

  /** While a reply is pending, exactly the last turn is the empty assistant placeholder. */
  predicate PlaceholderWhileTyping(s: Session) {
    s.typing ==> |s.messages| >= 2 && s.messages[|s.messages| - 1] == Message("", true)
  }

  predicate WellFormed(s: Session) {
    Paired(s.messages) && UserTurnsStripped(s.messages) && PlaceholderWhileTyping(s)
  }

  lemma SendKeepsWellFormed(s: Session, form: FormData)
    requires WellFormed(s)
    ensures WellFormed(Send(s, form))
  {
  }

  lemma GenerateKeepsWellFormed(s: Session, outcome: Outcome)
    requires WellFormed(s)
    ensures WellFormed(Generate(s, outcome))
  {
  }

  /** Every event keeps the conversation well formed. */
  lemma StepKeepsWellFormed(s: Session, e: ChatEvent)
    requires WellFormed(s)
    ensures WellFormed(Step(s, e))
  {
  }

  lemma {:induction false} RunKeepsWellFormed(s: Session, es: seq<ChatEvent>)
    requires WellFormed(s)
    ensures WellFormed(Run(s, es))
    decreases |es|
  {
    if es != [] {
      StepKeepsWellFormed(s, es[0]);
      RunKeepsWellFormed(Step(s, es[0]), es[1..]);
    }
  }

  /** Every session reachable from a fresh one is well formed. */
  lemma ReachableWellFormed(es: seq<ChatEvent>)
    ensures WellFormed(Run(InitialSession, es))
  {
    RunKeepsWellFormed(InitialSession, es);
  }

  /** In a well-formed non-empty conversation the query is the user turn just before the
      last (assistant) turn, and it is never blank. */
  lemma QueryOfWellFormed(s: Session)
    requires WellFormed(s) && s.messages != []
    ensures QueryText(s.messages) == s.messages[|s.messages| - 2].text
    ensures QueryText(s.messages) != ""
  {
  }

  /** A message that was sent is, stripped, exactly the query the next
      `generate_response` posts, provided an assistant is selected. */
  lemma SendThenRequest(s: Session, form: FormData)
    requires SendStatusOf(s, form) == Sent
    ensures HasAssistant(s.knowledgeBaseId) ==>
      Request(Send(s, form)) == Some(Query(s.knowledgeBaseId.value, Strip(form["message"])))
    ensures !HasAssistant(s.knowledgeBaseId) ==> Request(Send(s, form)) == None
  {
  }

  /** A full exchange: sending a message and then receiving the outcome leaves the earlier
      turns, then the stripped message, then the assistant's reply. */
  lemma SendThenGenerate(s: Session, form: FormData, outcome: Outcome)
    requires SendStatusOf(s, form) == Sent
    ensures var reply := if HasAssistant(s.knowledgeBaseId) then ReplyText(outcome) else NoAssistantReply;
      Generate(Send(s, form), outcome)
        == Session(s.messages + [Message(Strip(form["message"]), false), Message(reply, true)],
                   false, s.knowledgeBaseId)
  {
  }

  /** Without a selected assistant the endpoint's outcome is never consulted. */
  lemma NoAssistantIgnoresOutcome(s: Session, o1: Outcome, o2: Outcome)
    requires !HasAssistant(s.knowledgeBaseId)
    ensures Request(s) == None
    ensures Generate(s, o1) == Generate(s, o2)
  {
  }

  /** The `ChatState` of one session. Each handler runs atomically. */
  class ChatState {
    var messages: seq<Message>
    var typing: bool
    var knowledgeBaseId: Option<string>

    function View(): Session
      reads this
    {
      Session(messages, typing, knowledgeBaseId)
    }

    constructor ()
      ensures View() == InitialSession
    {
      messages := [];
      typing := false;
      knowledgeBaseId := None;
    }

    /** `clear_messages`: empty the conversation and drop the pending flag. */
    method ClearMessages()
      modifies this
      ensures messages == [] && !typing && knowledgeBaseId == old(knowledgeBaseId)
      ensures View() == Step(old(View()), ClearEvent)
    {
      typing := false;
      messages := [];
    }

    /** `select_assistant(kb)`: switch knowledge base and start a fresh conversation. */
    method SelectAssistant(kb: Option<string>)
      modifies this
      ensures messages == [] && !typing && knowledgeBaseId == kb
      ensures View() == Step(old(View()), SelectEvent(kb))
    {
      knowledgeBaseId := kb;
      typing := false;
      messages := [];
    }

    /** `send_message(form)`: append the stripped message and an empty placeholder, unless a
        reply is pending or the message is blank. `Sent` means `generate_response` is
        scheduled; `MissingMessage` stands for the `KeyError` raised without a "message" field. */
    method SendMessage(form: FormData) returns (status: SendStatus)
      modifies this
      ensures status == SendStatusOf(old(View()), form)
      ensures status != Sent ==> View() == old(View())
      ensures status == Sent ==>
        messages == old(messages) + [Message(Strip(form["message"]), false), Message("", true)]
        && typing && knowledgeBaseId == old(knowledgeBaseId)
      ensures View() == Step(old(View()), SendEvent(form))
      ensures WellFormed(old(View())) ==> WellFormed(View())
    {
      ghost var before := View();
      if typing {
        return Busy;
      }
      if "message" !in form {
        return MissingMessage;
      }
      var message := Strip(form["message"]);
      if message != "" {
        messages := messages + [Message(message, false)];
        messages := messages + [Message("", true)];
        typing := true;
        status := Sent;
      } else {
        status := BlankMessage;
      }
      if WellFormed(before) {
        SendKeepsWellFormed(before, form);
      }
    }

    /** `generate_response`: post the most recent user turn to the selected knowledge base and
        write the reply into the last turn. Returns the request it posted, if any; `outcome`
        is what the endpoint answered to it. */
    method GenerateResponse(outcome: Outcome) returns (request: Option<Query>)
      modifies this
      ensures request == Request(old(View()))
      ensures !typing && knowledgeBaseId == old(knowledgeBaseId) && |messages| == |old(messages)|
      ensures forall i :: 0 <= i < |messages| - 1 ==> messages[i] == old(messages[i])
      ensures View() == Step(old(View()), GenerateEvent(outcome))
      ensures WellFormed(old(View())) ==> WellFormed(View())
    {
      ghost var before := View();
      var snapshot := messages;
      var kb := knowledgeBaseId;
      if snapshot == [] {
        typing := false;
        return None;
      }
      var query := FindQuery(snapshot);
      var reply: string;
      if !HasAssistant(kb) {
        reply := NoAssistantReply;
        request := None;
      } else {
        request := Some(Query(kb.value, query));
        reply := ReplyText(outcome);
      }
      assert request == Request(before);
      if messages != [] {
        messages := messages[|messages| - 1 := messages[|messages| - 1].(text := reply)];
      }
      typing := false;
      assert messages == SetLastText(before.messages, reply);
      assert View() == Generate(before, outcome);
      if WellFormed(before) {
        GenerateKeepsWellFormed(before, outcome);
      }
    }
  }
}
