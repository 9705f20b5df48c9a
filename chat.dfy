/** The scripted doctor chat of the dashboard: a cursor that walks a fixed list
    of canned replies round-robin, and a chat history that grows by one
    exchange per message sent. The behaviour is given first as a pure state
    machine (ChatState and the functions over it) and then as the object the
    page updates in place (DoctorChat), whose methods are proved to follow it. */
module Chat {

  /** The canned replies, in the order they are handed out. */
  const DoctorResponses: seq<string> := [
    "Thank you for your query. Please provide more details about the symptoms.",
    "It's important to consider the size and shape of the lump. Can you describe it?",
    "Have you noticed any changes in the skin over the lump, such as dimpling or redness?",
    "Are there any other symptoms, like pain or nipple discharge?",
    "It's good that you're getting this checked. Early detection is crucial.",
    "Based on the data provided, it seems like the results are benign. Please consult a specialist for confirmation.",
    "The measurements indicate a higher risk. Further tests are recommended.",
    "Please ensure you get a mammogram done if not already.",
    "How long have you noticed the lump?",
    "Is there any family history of breast cancer?",
    "Regular check-ups are very important. Make sure to follow up with your healthcare provider.",
    "It's natural to feel anxious. Try to stay calm and follow the recommended procedures.",
    "Maintaining a healthy lifestyle can help reduce risks. Consider a balanced diet and regular exercise.",
    "It's good that you're proactive about your health. Stay informed and aware.",
    "Have you experienced any weight loss or gain recently?",
    "Hormonal changes can sometimes cause lumps. Have you noticed any changes in your menstrual cycle?",
    "It's important to stay positive and hopeful.",
    "If you have any medical reports, please share them with your doctor.",
    "Have you been experiencing fatigue or lack of energy?",
    "Do you have any pain or discomfort in the breast area?",
    "It\U{2019}s essential to follow the treatment plan provided by your doctor.",
    "Are you currently taking any medications?",
    "Remember, not all lumps are cancerous. Many are benign.",
    "Regular self-exams can help in early detection. Make it a habit.",
    "If you have dense breast tissue, it might be harder to detect abnormalities.",
    "Do you have any questions about the procedures involved?",
    "Make sure to get enough rest and sleep.",
    "Are you facing any issues with your insurance or healthcare provider?",
    "Stay hydrated and maintain a healthy diet.",
    "Are there any other health concerns you have?",
    "Make sure to keep all follow-up appointments.",
    "Have you experienced any changes in your appetite?",
    "Avoid stress and practice relaxation techniques.",
    "Do you have any known allergies?",
    "It's important to stay in touch with your healthcare provider.",
    "Have you undergone any surgeries in the past?",
    "Make sure to keep a record of all your medical reports.",
    "It\U{2019}s essential to have a support system. Talk to your family and friends.",
    "Are you currently pregnant or planning to be?",
    "Ensure that you follow all the instructions provided by your doctor.",
    "Keep monitoring any changes and report them to your healthcare provider.",
    "Stay informed about the latest research and treatments.",
    "Do you need assistance in understanding your medical reports?",
    "Are you experiencing any side effects from the medication?",
    "Consider joining a support group for breast cancer patients.",
    "Make sure to follow a regular screening schedule.",
    "If you have any doubts, don\U{2019}t hesitate to seek a second opinion.",
    "Stay connected with your doctor for any updates.",
    "If you need emotional support, consider talking to a counselor.",
    "Stay hopeful and trust the medical process."
  ]

  /** The reply handed out when the cursor stands at k. */
  function ResponseAt(k: nat): (r: string)
    ensures |DoctorResponses| == 50
    ensures r in DoctorResponses
  {
    DoctorResponses[k % |DoctorResponses|]
  }

  /** Replies repeat with the period of the list. */
  lemma ResponsesPeriodic(k: nat)
    ensures ResponseAt(k + 50) == ResponseAt(k)
  {
    assert (k + 50) % 50 == k % 50;
  }

  /** One entry of the chat history. */
  datatype Exchange = Exchange(user: string, doctor: string)

  /** The cursor, the history and the pending message. */
  datatype ChatState = ChatState(cursor: nat, history: seq<Exchange>, userMessage: string)

  /** The state when the page starts: cursor 0, no history, nothing typed. */
  const Initial: ChatState := ChatState(0, [], "")

  /** get_doctor_response: the round-robin reply for the cursor; only the cursor
      changes, and it advances by exactly one. */
  function Respond(s: ChatState): (r: (ChatState, string))
    ensures r.1 == DoctorResponses[s.cursor % 50]
    ensures r.0.cursor == s.cursor + 1
    ensures r.0.history == s.history && r.0.userMessage == s.userMessage
  {
    (s.(cursor := s.cursor + 1), ResponseAt(s.cursor))
  }

  /** send_message: the pending message and the next reply become one exchange at
      the end of the history, and the pending message is cleared. */
  function Send(s: ChatState): (r: ChatState)
    ensures |r.history| == |s.history| + 1
    ensures r.history[..|s.history|] == s.history
    ensures r.history[|s.history|] == Exchange(s.userMessage, ResponseAt(s.cursor))
    ensures r.cursor == s.cursor + 1 && r.userMessage == ""
  {
    var (t, reply) := Respond(s);
    t.(history := s.history + [Exchange(s.userMessage, reply)], userMessage := "")
  }

  /** chat_interface: the text box's content becomes the pending message, and a
      press of Send sends it unless it is empty. */
  function Interact(s: ChatState, typed: string, sendPressed: bool): (r: ChatState)
    ensures sendPressed && typed != "" ==>
              && r.history == s.history + [Exchange(typed, ResponseAt(s.cursor))]
              && r.cursor == s.cursor + 1 && r.userMessage == ""
    ensures !sendPressed || typed == "" ==>
              r.history == s.history && r.cursor == s.cursor && r.userMessage == typed
  {
    var t := s.(userMessage := typed);
    if sendPressed && t.userMessage != "" then Send(t) else t
  }

  /** A page session: one interaction per user input, in order. */
  function Session(s: ChatState, inputs: seq<(string, bool)>): (r: ChatState)
    ensures |s.history| <= |r.history| && r.history[..|s.history|] == s.history
    ensures r.cursor - s.cursor == |r.history| - |s.history|
    decreases |inputs|
  {
    if inputs == [] then s
    else Session(Interact(s, inputs[0].0, inputs[0].1), inputs[1..])
  }

  /** The messages a sequence of inputs actually sends: those typed non-empty
      with Send pressed. */
  function Sent(inputs: seq<(string, bool)>): (r: seq<string>)
    ensures forall m :: m in r ==> m != ""
    decreases |inputs|
  {
    if inputs == [] then []
    else (if inputs[0].1 && inputs[0].0 != "" then [inputs[0].0] else []) + Sent(inputs[1..])
  }

  /** The exchanges that sending msgs in order makes when the cursor starts at start. */
  function Replies(start: nat, msgs: seq<string>): (r: seq<Exchange>)
  {
    seq(|msgs|, i requires 0 <= i < |msgs| => Exchange(msgs[i], ResponseAt(start + i)))
  }

  lemma RepliesAppend(start: nat, a: seq<string>, b: seq<string>)
    ensures Replies(start, a) + Replies(start + |a|, b) == Replies(start, a + b)
  {
    var lhs := Replies(start, a) + Replies(start + |a|, b);
    var rhs := Replies(start, a + b);
    assert |lhs| == |rhs|;
    forall i | 0 <= i < |lhs| ensures lhs[i] == rhs[i] {
      if i >= |a| {
        assert lhs[i] == Replies(start + |a|, b)[i - |a|];
      }
    }
  }

  /** Over a whole session the history grows by exactly the messages sent, in
      order, each paired with the round-robin reply for the cursor it was sent
      at, and the cursor advances once per message sent. */
  lemma {:induction false} SessionHistory(s: ChatState, inputs: seq<(string, bool)>)
    ensures Session(s, inputs).history == s.history + Replies(s.cursor, Sent(inputs))
    ensures Session(s, inputs).cursor == s.cursor + |Sent(inputs)|
    decreases |inputs|
  {
    if inputs == [] {
      assert Replies(s.cursor, []) == [];
    } else {
      var s' := Interact(s, inputs[0].0, inputs[0].1);
      var a, b := Sent([inputs[0]]), Sent(inputs[1..]);
      SessionStep(s, inputs);
      InteractStep(s, inputs[0]);
      SessionHistory(s', inputs[1..]);
      RepliesAppend(s.cursor, a, b);
      AppendTwice(s.history, s'.history, Session(s', inputs[1..]).history,
                  Replies(s.cursor, a), Replies(s'.cursor, b), Replies(s.cursor, a + b));
    }
  }

  /** Growing a sequence by x and then by y grows it by x + y. */
  lemma AppendTwice<T>(h0: seq<T>, h1: seq<T>, h2: seq<T>, x: seq<T>, y: seq<T>, xy: seq<T>)
    requires h1 == h0 + x && h2 == h1 + y && xy == x + y
    ensures h2 == h0 + xy
  {
    assert h0 + x + y == h0 + (x + y);
  }

  /** A session is its first interaction followed by the rest of the session. */
  lemma SessionStep(s: ChatState, inputs: seq<(string, bool)>)
    requires inputs != []
    ensures Session(s, inputs) == Session(Interact(s, inputs[0].0, inputs[0].1), inputs[1..])
    ensures Sent(inputs) == Sent([inputs[0]]) + Sent(inputs[1..])
  {
    assert inputs == [inputs[0]] + inputs[1..];
    SentAppend([inputs[0]], inputs[1..]);
  }

  /** One interaction adds the replies to what that one input sends. */
  lemma InteractStep(s: ChatState, input: (string, bool))
    ensures Interact(s, input.0, input.1).history == s.history + Replies(s.cursor, Sent([input]))
    ensures Interact(s, input.0, input.1).cursor == s.cursor + |Sent([input])|
  {
    assert Sent([input]) == (if input.1 && input.0 != "" then [input.0] else []) + Sent([]);
  }

  /** Sent distributes over concatenation of inputs. */
  lemma {:induction false} SentAppend(a: seq<(string, bool)>, b: seq<(string, bool)>)
    ensures Sent(a + b) == Sent(a) + Sent(b)
    decreases |a|
  {
    if a == [] {
      assert a + b == b;
    } else {
      assert (a + b)[1..] == a[1..] + b;
      SentAppend(a[1..], b);
    }
  }

  /** From the page's initial state, the k-th exchange (0-based) pairs the k-th
      message actually sent with doctor_responses[k mod 50], and the cursor
      counts the exchanges. */
  lemma FreshSession(inputs: seq<(string, bool)>)
    ensures var t := Session(Initial, inputs);
      && |t.history| == |Sent(inputs)| == t.cursor
      && forall k :: 0 <= k < |t.history| ==>
           t.history[k] == Exchange(Sent(inputs)[k], ResponseAt(k))
  {
    SessionHistory(Initial, inputs);
    assert Session(Initial, inputs).history == Replies(0, Sent(inputs));
  }

  /** The history's replies are in lockstep with the cursor: every exchange made
      so far got the round-robin reply for its own position. */
  ghost predicate Lockstep(s: ChatState)
  {
    && |s.history| == s.cursor
    && forall i :: 0 <= i < |s.history| ==> s.history[i].doctor == ResponseAt(i)
  }

  /** Sending keeps the history in lockstep with the cursor. */
  lemma SendKeepsLockstep(s: ChatState)
    ensures Lockstep(s) ==> Lockstep(Send(s))
  {
    if Lockstep(s) {
      var t := Send(s);
      forall i | 0 <= i < |t.history| ensures t.history[i].doctor == ResponseAt(i) {
        if i < |s.history| {
          assert t.history[i] == t.history[..|s.history|][i];
        }
      }
    }
  }

  /** The chat as the page keeps it: the module-level cursor and the session's
      history and pending message, all updated in place. */
  class DoctorChat {
    var cursor: nat
    var history: seq<Exchange>
    var userMessage: string

    /** The abstract value of this object. */
    ghost function State(): ChatState
      reads this
    {
      ChatState(cursor, history, userMessage)
    }

    constructor ()
      ensures State() == Initial
    {
      cursor := 0;
      history := [];
      userMessage := "";
    }

    /** get_doctor_response. */
    method GetDoctorResponse() returns (response: string)
      modifies this`cursor
      ensures response == DoctorResponses[old(cursor) % |DoctorResponses|]
      ensures cursor == old(cursor) + 1
      ensures (State(), response) == Respond(old(State()))
    {
      response := DoctorResponses[cursor % |DoctorResponses|];
      cursor := cursor + 1;
    }

    /** send_message. */
    method SendMessage()
      modifies this
      ensures history == old(history) + [Exchange(old(userMessage), ResponseAt(old(cursor)))]
      ensures cursor == old(cursor) + 1 && userMessage == ""
      ensures State() == Send(old(State()))
      ensures old(Lockstep(State())) ==> Lockstep(State())
    {
      ghost var before := State();
      var reply := GetDoctorResponse();
      history := history + [Exchange(userMessage, reply)];
      userMessage := "";
      SendKeepsLockstep(before);
    }

    /** The send guard of chat_interface: take the text box's content, and on a
        press of Send, send it unless it is empty. */
    method ChatInterface(typed: string, sendPressed: bool)
      modifies this
      ensures State() == Interact(old(State()), typed, sendPressed)
      ensures typed == "" ==> history == old(history) && cursor == old(cursor)
      ensures !sendPressed ==> history == old(history) && cursor == old(cursor) && userMessage == typed
      ensures old(Lockstep(State())) ==> Lockstep(State())
    {
      userMessage := typed;
      if sendPressed {
        if userMessage != "" {
          SendMessage();
        }
      }
    }
  }
}
