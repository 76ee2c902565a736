/**
  The scripted chat assistant: a conversation that only grows, a send step that
  rejects blank input, and a reply step, taken later, that appends one of four canned
  answers chosen by keyword.
 */
module AIAssistant {
  import opened JsString

  datatype Message = Message(id: int, content: string, isAI: bool, timestamp: string)

  /** The four canned answers, in the order the keyword tests try them. */
  datatype Reply = ResourceReply | PartnerReply | EventReply | FallbackReply

  /**
    A reply timer that has been started and has not fired yet, with what its closure
    captured: the text that was sent and the length of the conversation the send saw.
   */
  datatype PendingReply = PendingReply(sent: string, seenLength: nat)

  const JustNow: string := "Just now"

  const Greeting: string :=
    "Hello! I'm your AI assistant for NexusCollab. I can help you find resources, suggest potential collaborators, and assist with event planning. How can I help you today?"

  function InitialMessages(): seq<Message> {
    [Message(1, Greeting, true, JustNow)]
  }

  /**
    The reply chosen for a sent text: the keyword groups are tried in order on its
    lower-cased form (resource, then partner, then event) and the first that matches wins;
    with none, the fallback.
   */
  function Classify(input: string): (r: Reply)
    ensures var text := ToLower(input);
      var resource := Includes(text, "resource") || Includes(text, "lab");
      var partner := Includes(text, "collaborator") || Includes(text, "partner");
      var event := Includes(text, "event") || Includes(text, "hackathon");
      && (r == ResourceReply <==> resource)
      && (r == PartnerReply <==> !resource && partner)
      && (r == EventReply <==> !resource && !partner && event)
      && (r == FallbackReply <==> !resource && !partner && !event)
  {
    var text := ToLower(input);
    if Includes(text, "resource") || Includes(text, "lab") then ResourceReply
    else if Includes(text, "collaborator") || Includes(text, "partner") then PartnerReply
    else if Includes(text, "event") || Includes(text, "hackathon") then EventReply
    else FallbackReply
  }

  const ResourceReplyText: string :=
    "I found several resources that might be suitable for your needs. The Engineering College has a lab with 80 computers available on weekdays from 6-9pm. Would you like me to reserve this for your event?"

  const PartnerReplyText: string :=
    "Based on your project description, I recommend reaching out to TechNova Startups. They have expertise in AI research and have collaborated on 8 similar projects recently. Would you like me to initiate contact?"

  const EventReplyText: string :=
    "I can help you plan your event. Based on available resources, I suggest scheduling your hackathon on March 25, 2025. The lab with 80 computers is available, and we can accommodate up to 140 participants. Shall I create a draft event plan?"

  const FallbackReplyText: string :=
    "I understand you're looking for assistance. Could you provide more details about what you need? I can help with finding resources, suggesting collaborators, or planning events."

  function ReplyText(r: Reply): string {
    match r
    case ResourceReply => ResourceReplyText
    case PartnerReply => PartnerReplyText
    case EventReply => EventReplyText
    case FallbackReply => FallbackReplyText
  }

  /** The assistant's message a reply timer appends: id two past the length its send saw, and the chosen answer. */
  function ReplyMessage(p: PendingReply): (m: Message)
    ensures m.isAI && m.id == p.seenLength + 2 && m.timestamp == JustNow
    ensures m.content == ReplyText(Classify(p.sent))
  {
    Message(p.seenLength + 2, ReplyText(Classify(p.sent)), true, JustNow)
  }

  /** The message at index `i` has id `i + 1`. */
  predicate Consecutive(ms: seq<Message>) {
    forall i :: 0 <= i < |ms| ==> ms[i].id == i + 1
  }

  /** Only the lower-cased text matters: changing the case of letters never changes the reply. */
  lemma ClassifyIgnoresCase(a: string, b: string)
    requires ToLower(a) == ToLower(b)
    ensures Classify(a) == Classify(b)
  {
  }

  /** "collaborator" contains "lab". */
  lemma CollaboratorContainsLab()
    ensures Includes("collaborator", "lab")
  {
    assert "collaborator"[3..6] == "lab";
    IncludesAt("collaborator", "lab", 3);
  }

  /** Any text that mentions collaborators, in any case, gets the resource reply. */
  lemma CollaboratorGetsResourceReply(input: string)
    requires Includes(ToLower(input), "collaborator")
    ensures Classify(input) == ResourceReply
  {
    CollaboratorContainsLab();
    IncludesTransitive(ToLower(input), "collaborator", "lab");
  }

  /**
    The partner reply is reached only through "partner", with none of the resource
    keywords and no "collaborator" in the text.
   */
  lemma PartnerReplyNeedsPartner(input: string)
    requires Classify(input) == PartnerReply
    ensures var text := ToLower(input);
      && Includes(text, "partner")
      && !Includes(text, "collaborator")
      && !Includes(text, "resource") && !Includes(text, "lab")
  {
    if Includes(ToLower(input), "collaborator") {
      CollaboratorGetsResourceReply(input);
    }
  }

  /** The conversation's state; each method is one event of the chat panel. */
  class Assistant {
    var messages: seq<Message>
    var input: string
    var isTyping: bool
    var pending: seq<PendingReply>

    /**
      The conversation is never empty, a user message is never blank, and every waiting reply
      timer saw a conversation no longer than the present one and was started by a non-blank send.
     */
    ghost predicate Valid()
      reads this
    {
      && |messages| >= 1
      && (forall i :: 0 <= i < |messages| && !messages[i].isAI ==> !Blank(messages[i].content))
      && (forall j :: 0 <= j < |pending| ==> pending[j].seenLength < |messages| && !Blank(pending[j].sent))
    }

    /** No reply outstanding and ids consecutive. */
    ghost predicate Settled()
      reads this
    {
      Consecutive(messages) && pending == [] && !isTyping
    }

    /** Exactly one reply outstanding, for the last message, and ids consecutive. */
    ghost predicate Awaiting()
      reads this
    {
      && Consecutive(messages) && isTyping
      && |pending| == 1 && pending[0].seenLength == |messages| - 1
    }

    /**
      What one call of the send handler does: for a blank input, nothing; otherwise it
      appends the user's message with id `length + 1` and the untrimmed text, starts a
      reply timer that captures that text and the length it saw, clears the input and
      shows the typing indicator.
     */
    twostate predicate Sent()
      reads this
    {
      if Blank(old(input)) then
        && messages == old(messages) && input == old(input)
        && isTyping == old(isTyping) && pending == old(pending)
      else
        && messages == old(messages) + [Message(|old(messages)| + 1, old(input), false, JustNow)]
        && pending == old(pending) + [PendingReply(old(input), |old(messages)|)]
        && input == [] && isTyping
    }

    constructor ()
      ensures Valid() && Settled()
      ensures messages == InitialMessages() && input == [] && !isTyping && pending == []
    {
      messages := InitialMessages();
      input := [];
      isTyping := false;
      pending := [];
    }

    /** Typing in the input box. */
    method ChangeInput(value: string)
      requires Valid()
      modifies this
      ensures Valid()
      ensures input == value
      ensures messages == old(messages) && isTyping == old(isTyping) && pending == old(pending)
      ensures old(Settled()) ==> Settled()
      ensures old(Awaiting()) ==> Awaiting()
    {
      input := value;
    }

    /** The send handler. */
    method SendMessage()
      requires Valid()
      modifies this
      ensures Valid()
      ensures Sent()
      ensures old(Settled()) ==> Settled() || Awaiting()
    {
      if Trim(input) == [] {
        return;
      }
      var sent := input;
      var m := Message(|messages| + 1, sent, false, JustNow);
      var p := PendingReply(sent, |messages|);
      ghost var ms := messages;
      ghost var ps := pending;
      messages := messages + [m];
      input := [];
      isTyping := true;
      pending := pending + [p];
      assert forall i :: 0 <= i < |messages| ==> messages[i] == if i < |ms| then ms[i] else m;
      assert forall j :: 0 <= j < |pending| ==> pending[j] == if j < |ps| then ps[j] else p;
    }

    /**
      The oldest reply timer fires (all wait the same 1.5 seconds, so they fire in the
      order they were started): it appends the reply chosen from the text that was sent,
      with id two past the length that send saw, and hides the typing indicator.
     */
    method DeliverReply()
      requires Valid()
      requires pending != []
      modifies this
      ensures Valid()
      ensures
        messages == old(messages) + [ReplyMessage(old(pending)[0])]
      ensures pending == old(pending)[1..]
      ensures !isTyping && input == old(input)
      ensures old(Awaiting()) ==> Settled()
    {
      var p := pending[0];
      var m := ReplyMessage(p);
      ghost var ms := messages;
      ghost var ps := pending;
      messages := messages + [m];
      isTyping := false;
      pending := pending[1..];
      assert forall i :: 0 <= i < |messages| ==> messages[i] == if i < |ms| then ms[i] else m;
      assert forall j :: 0 <= j < |pending| ==> pending[j] == ps[j + 1];
      if |ps| == 1 && p.seenLength == |ms| - 1 && Consecutive(ms) {
        assert m.id == |ms| + 1;
        assert Consecutive(messages);
      }
    }

    /** The Send button is disabled while the input is blank or a reply is being typed. */
    function SendDisabled(): (disabled: bool)
      reads this
      ensures disabled <==> Blank(input) || isTyping
    {
      Trim(input) == [] || isTyping
    }

    /** Clicking Send: nothing while disabled, the send handler otherwise. Clicks alone keep ids consecutive. */
    method ClickSend()
      requires Valid()
      modifies this
      ensures Valid()
      ensures if old(SendDisabled()) then unchanged(this) else Sent()
      ensures old(Settled()) ==> Settled() || Awaiting()
      ensures old(Awaiting()) ==> Awaiting()
    {
      if !SendDisabled() {
        SendMessage();
      }
    }

    /**
      A key press in the input box: Enter without Shift calls the send handler directly,
      whether or not a reply is still being typed.
     */
    method PressKey(key: string, shiftKey: bool)
      requires Valid()
      modifies this
      ensures Valid()
      ensures if key == "Enter" && !shiftKey then Sent() else unchanged(this)
      ensures old(Settled()) ==> Settled() || Awaiting()
    {
      if key == "Enter" && !shiftKey {
        SendMessage();
      }
    }
  }

  /**
    Enter pressed a second time before the first reply arrives: the second user message
    and the first reply share id 3.
   */
  method EnterWhileTyping(first: string, second: string) returns (ids: seq<int>)
    requires !Blank(first) && !Blank(second)
    ensures ids == [1, 2, 3, 3, 4]
  {
    var a := new Assistant();
    a.ChangeInput(first);
    a.PressKey("Enter", false);
    assert |a.messages| == 2 && a.messages[1].id == 2 && a.pending == [PendingReply(first, 1)];
    a.ChangeInput(second);
    a.PressKey("Enter", false);
    assert |a.messages| == 3 && a.messages[2].id == 3 && a.pending == [PendingReply(first, 1), PendingReply(second, 2)];
    a.DeliverReply();
    assert |a.messages| == 4 && a.messages[3].id == 3 && a.pending == [PendingReply(second, 2)];
    a.DeliverReply();
    assert |a.messages| == 5 && a.messages[4].id == 4;
    ids := [a.messages[0].id, a.messages[1].id, a.messages[2].id, a.messages[3].id, a.messages[4].id];
  }

  /** Asking about collaborators through the Send button: ids 1, 2, 3 and the resource reply. */
  method AskForCollaborators(question: string) returns (ids: seq<int>, reply: string)
    requires !Blank(question) && Includes(ToLower(question), "collaborator")
    ensures ids == [1, 2, 3]
    ensures reply == ResourceReplyText
  {
    var a := new Assistant();
    CollaboratorGetsResourceReply(question);
    a.ChangeInput(question);
    a.ClickSend();
    assert |a.messages| == 2 && a.messages[1].id == 2 && a.pending == [PendingReply(question, 1)];
    a.DeliverReply();
    assert a.messages[2] == Message(3, ResourceReplyText, true, JustNow);
    ids := [a.messages[0].id, a.messages[1].id, a.messages[2].id];
    reply := a.messages[2].content;
  }
}
