/**
 * The registration dialog: the states of the `Registration` group and the
 * message handlers that move a user through them. With the chat transport
 * stripped away, each handler is a total function from the current state,
 * the answers gathered so far and the message to the next state, an optional
 * reply and, on the last step, the answers to commit to the sheet.
 */
module Registration {
  import opened Wrappers
  import opened Text

  /** The steps of the dialog, one per question (plus the free-text position). */
  datatype State = FullName | Email | Position | CustomPosition | Company | Experience | JobSearch | KnowG5

  /** The keys of the per-user answer map. */
  datatype Key = FullNameKey | EmailKey | PositionKey | CompanyKey | ExperienceKey | JobSearchKey | KnowG5Key

  type Answers = map<Key, string>

  const AllKeys: set<Key> :=
    {FullNameKey, EmailKey, PositionKey, CompanyKey, ExperienceKey, JobSearchKey, KnowG5Key}

  /** A user's conversation: the current step (`None` outside the dialog) and the answers so far. */
  datatype Conv = Conv(state: Option<State>, data: Answers)

  /** The conversation of a user who never wrote, or whose state was cleared. */
  const Idle: Conv := Conv(None, map[])

  /**
   * An incoming message as the router's filters see it: the `/start` command,
   * any other text, or a message that carries no text (a sticker, a photo).
   */
  datatype Input = StartCommand | TextMessage(body: string) | NonTextMessage

  /** The replies, abstracted from their wording and keyboards. */
  datatype Prompt =
    | AskFullName | AskEmail | InvalidEmail | AskPosition | AskCustomPosition
    | AskCompany | AskExperience | AskJobSearch | AskKnowG5
    | Thanks(name: string)
    | ConfirmButtons

  /** What one message does: the next conversation, the reply, and the answers to write, if any. */
  datatype Turn = Turn(next: Conv, reply: Option<Prompt>, commit: Option<Answers>)

  /** The "other" choice of the position keyboard ("✏️ Другое"). */
  const OtherPosition: string :=
    "\U{270F}\U{FE0F} \U{0414}\U{0440}\U{0443}\U{0433}\U{043E}\U{0435}"

  /** The manual test command that shows the confirmation buttons. */
  const TestConfirmCommand: string := "/test_confirm"

  /** `data.get(key, "")`. */
  function Get(data: Answers, k: Key): string {
    if k in data then data[k] else ""
  }

  /** The first white-space-delimited word of `s`. */
  function FirstWord(s: string): (r: string)
    ensures |r| <= |s| && r == s[..|r|]
    ensures forall i :: 0 <= i < |r| ==> !IsSpace(r[i])
    ensures |r| == |s| || IsSpace(s[|r|])
  {
    if s == [] || IsSpace(s[0]) then [] else [s[0]] + FirstWord(s[1..])
  }

  /**
   * The `/start` command with any arguments after it: alone, addressed to
   * this bot, or with an empty mention (`/start@`), which the command filter
   * treats as no mention at all.
   */
  predicate IsStartCommand(text: string, botName: string) {
    var w := FirstWord(TrimLeft(text));
    w == "/start" || w == "/start@" || w == "/start@" + botName
  }

  /** The command filter of the `start` handler, which is registered before every other one. */
  function Classify(text: string, botName: string): (i: Input)
    ensures i == StartCommand <==> IsStartCommand(text, botName)
    ensures i != StartCommand ==> i == TextMessage(text)
  {
    if IsStartCommand(text, botName) then StartCommand else TextMessage(text)
  }

  // ---------------------------------------------------------------------------
  // The handlers, one per state

  /** `start`: enter the first step; the answers already in the map are kept. */
  function Start(c: Conv): Turn {
    Turn(Conv(Some(FullName), c.data), Some(AskFullName), None)
  }

  function ProcessName(data: Answers, text: string): Turn {
    Turn(Conv(Some(Email), data[FullNameKey := Trim(text)]), Some(AskEmail), None)
  }

  /** The only validated step: the raw text must contain '@'; otherwise ask again. */
  function ProcessEmail(data: Answers, text: string): Turn {
    if '@' !in text then Turn(Conv(Some(Email), data), Some(InvalidEmail), None)
    else Turn(Conv(Some(Position), data[EmailKey := Trim(text)]), Some(AskPosition), None)
  }

  /** The "other" choice asks for a free-text position instead of storing one. */
  function ProcessPosition(data: Answers, text: string): Turn {
    if Trim(text) == OtherPosition then Turn(Conv(Some(CustomPosition), data), Some(AskCustomPosition), None)
    else Turn(Conv(Some(Company), data[PositionKey := Trim(text)]), Some(AskCompany), None)
  }

  function ProcessCustomPosition(data: Answers, text: string): Turn {
    Turn(Conv(Some(Company), data[PositionKey := Trim(text)]), Some(AskCompany), None)
  }

  function ProcessCompany(data: Answers, text: string): Turn {
    Turn(Conv(Some(Experience), data[CompanyKey := Trim(text)]), Some(AskExperience), None)
  }

  function ProcessExperience(data: Answers, text: string): Turn {
    Turn(Conv(Some(JobSearch), data[ExperienceKey := Trim(text)]), Some(AskJobSearch), None)
  }

  function ProcessJobSearch(data: Answers, text: string): Turn {
    Turn(Conv(Some(KnowG5), data[JobSearchKey := Trim(text)]), Some(AskKnowG5), None)
  }

  /** `finish`, without the sheet: store the last answer, commit the map, clear the conversation. */
  function Finish(data: Answers, text: string): Turn {
    var d := data[KnowG5Key := Trim(text)];
    Turn(Idle, Some(Thanks(Get(d, FullNameKey))), Some(d))
  }

  /** The handler registered for state `s`. */
  function Answer(s: State, data: Answers, text: string): Turn {
    match s
    case FullName => ProcessName(data, text)
    case Email => ProcessEmail(data, text)
    case Position => ProcessPosition(data, text)
    case CustomPosition => ProcessCustomPosition(data, text)
    case Company => ProcessCompany(data, text)
    case Experience => ProcessExperience(data, text)
    case JobSearch => ProcessJobSearch(data, text)
    case KnowG5 => Finish(data, text)
  }

  /**
   * Routing of one message, in the order the handlers are registered: `/start`
   * first, then the handler of the current state, then the test command.
   * A message without text makes the state's handler raise before it changes
   * anything; outside the dialog it matches no handler.
   */
  function Handle(c: Conv, input: Input): Turn {
    match input
    case NonTextMessage => Turn(c, None, None)
    case StartCommand => Start(c)
    case TextMessage(text) =>
      match c.state
      case Some(s) => Answer(s, c.data, text)
      case None => Turn(c, if text == TestConfirmCommand then Some(ConfirmButtons) else None, None)
  }

  // ---------------------------------------------------------------------------
  // The transition table the handlers implement

  /** The key each step stores its answer under. */
  function KeyOf(s: State): Key {
    match s
    case FullName => FullNameKey
    case Email => EmailKey
    case Position | CustomPosition => PositionKey
    case Company => CompanyKey
    case Experience => ExperienceKey
    case JobSearch => JobSearchKey
    case KnowG5 => KnowG5Key
  }

  /** The step after an accepted answer; `None` after the last one (registration complete). */
  function Successor(s: State): Option<State> {
    match s
    case FullName => Some(Email)
    case Email => Some(Position)
    case Position | CustomPosition => Some(Company)
    case Company => Some(Experience)
    case Experience => Some(JobSearch)
    case JobSearch => Some(KnowG5)
    case KnowG5 => None
  }

  /** Whether step `s` takes `text` as its answer: the '@' rule, and "other" is a choice, not an answer. */
  predicate Accepts(s: State, text: string) {
    match s
    case Email => '@' in text
    case Position => Trim(text) != OtherPosition
    case _ => true
  }

  /** The keys every conversation at step `s` has already answered. */
  function Answered(s: State): set<Key> {
    match s
    case FullName => {}
    case Email => {FullNameKey}
    case Position | CustomPosition => {FullNameKey, EmailKey}
    case Company => {FullNameKey, EmailKey, PositionKey}
    case Experience => {FullNameKey, EmailKey, PositionKey, CompanyKey}
    case JobSearch => {FullNameKey, EmailKey, PositionKey, CompanyKey, ExperienceKey}
    case KnowG5 => {FullNameKey, EmailKey, PositionKey, CompanyKey, ExperienceKey, JobSearchKey}
  }

  /** Outside the dialog nothing is stored; inside it every earlier step has been answered. */
  ghost predicate Inv(c: Conv) {
    match c.state
    case None => c.data == map[]
    case Some(s) => Answered(s) <= c.data.Keys
  }

  /**
   * Every handler follows the table: an accepted answer is stored trimmed
   * under the step's key and the dialog moves to the successor (or completes,
   * committing the map and clearing the conversation); a rejected email leaves
   * the conversation as it was; "other" moves to the free-text step and stores
   * nothing.
   */
  lemma StepFollowsTable(s: State, data: Answers, text: string)
    ensures var t := Handle(Conv(Some(s), data), TextMessage(text));
      var stored := data[KeyOf(s) := Trim(text)];
      if Accepts(s, text) then
        match Successor(s)
        case Some(n) => t.next == Conv(Some(n), stored) && t.commit == None
        case None => t.next == Idle && t.commit == Some(stored)
      else
        t.commit == None &&
        t.next == (if s == Position then Conv(Some(CustomPosition), data) else Conv(Some(s), data))
  {
    match s
    case FullName =>
    case Email =>
    case Position =>
    case CustomPosition =>
    case Company =>
    case Experience =>
    case JobSearch =>
    case KnowG5 =>
  }

  /** `/start` is recognised in every state, enters the first step and keeps the stored answers. */
  lemma StartEntersFirstStep(c: Conv, text: string, botName: string)
    requires IsStartCommand(text, botName)
    ensures Handle(c, Classify(text, botName)) == Turn(Conv(Some(FullName), c.data), Some(AskFullName), None)
  {
  }

  /** `/start@` with an empty mention, with or without arguments, is the start command for any bot. */
  lemma EmptyMentionIsStart(botName: string, args: string)
    ensures IsStartCommand("/start@", botName)
    ensures IsStartCommand("/start@ " + args, botName)
  {
    var w := "/start@";
    assert TrimLeft(w) == w;
    assert FirstWord(w) == w by {
      assert FirstWord(w[7..]) == [];
      assert FirstWord(w[6..]) == w[6..];
      assert FirstWord(w[5..]) == w[5..];
      assert FirstWord(w[4..]) == w[4..];
      assert FirstWord(w[3..]) == w[3..];
      assert FirstWord(w[2..]) == w[2..];
      assert FirstWord(w[1..]) == w[1..];
    }
    var t := "/start@ " + args;
    assert t[..7] == w;
    assert TrimLeft(t) == t;
    assert FirstWord(t) == w by {
      assert t[7..][0] == ' ';
      assert FirstWord(t[7..]) == [];
      assert FirstWord(t[6..]) == w[6..];
      assert FirstWord(t[5..]) == w[5..];
      assert FirstWord(t[4..]) == w[4..];
      assert FirstWord(t[3..]) == w[3..];
      assert FirstWord(t[2..]) == w[2..];
      assert FirstWord(t[1..]) == w[1..];
    }
  }

  /** The email step: the conversation is unchanged exactly when the raw text has no '@'. */
  lemma EmailNeedsAt(data: Answers, text: string)
    ensures var c := Conv(Some(Email), data);
      var t := Handle(c, TextMessage(text));
      && (t.next == c <==> '@' !in text)
      && ('@' !in text ==> t.reply == Some(InvalidEmail))
      && ('@' in text ==> t.next == Conv(Some(Position), data[EmailKey := Trim(text)]))
  {
  }

  /** The "other" text is never mistaken for `/start`. */
  lemma OtherIsNotStart(text: string, botName: string)
    requires Trim(text) == OtherPosition
    ensures Classify(text, botName) == TextMessage(text)
  {
    var l := TrimLeft(text);
    TrimLeftSpec(text);
    TrimRightSpec(l);
    assert TrimRight(l) == l[..|OtherPosition|];
    assert l[0] == '\U{270F}';
    assert FirstWord(l)[0] == '\U{270F}';
  }

  /**
   * The two position paths converge: choosing "other" and then typing a
   * position leads to the same conversation and prompt as typing it directly.
   */
  lemma PositionPathsConverge(data: Answers, other: string, text: string, botName: string)
    requires Trim(other) == OtherPosition && Trim(text) != OtherPosition
    ensures var c := Conv(Some(Position), data);
      var first := Handle(c, Classify(other, botName));
      var viaOther := Handle(first.next, TextMessage(text));
      var direct := Handle(c, TextMessage(text));
      && first.next == Conv(Some(CustomPosition), data)
      && viaOther == direct
      && direct.next == Conv(Some(Company), data[PositionKey := Trim(text)])
  {
    OtherIsNotStart(other, botName);
  }

  /** A message without text changes nothing. */
  lemma NonTextChangesNothing(c: Conv)
    ensures Handle(c, NonTextMessage) == Turn(c, None, None)
  {
  }

  /** Each state's handler keeps the conversation invariant. */
  lemma AnswerKeepsInv(s: State, data: Answers, text: string)
    requires Answered(s) <= data.Keys
    ensures Inv(Answer(s, data, text).next)
  {
    match s
    case FullName =>
    case Email =>
    case Position =>
    case CustomPosition =>
    case Company =>
    case Experience =>
    case JobSearch =>
    case KnowG5 =>
  }

  /** Every message keeps the conversation invariant. */
  lemma HandleKeepsInv(c: Conv, input: Input)
    requires Inv(c)
    ensures Inv(Handle(c, input).next)
  {
    if input.TextMessage? && c.state.Some? {
      AnswerKeepsInv(c.state.value, c.data, input.body);
    }
  }

  /** Only the last step commits. */
  lemma AnswerCommitsOnlyAtEnd(s: State, data: Answers, text: string)
    ensures (Answer(s, data, text).commit != None) == (s == KnowG5)
  {
    match s
    case FullName =>
    case Email =>
    case Position =>
    case CustomPosition =>
    case Company =>
    case Experience =>
    case JobSearch =>
    case KnowG5 =>
  }

  /** What reaches the sheet holds an answer for each of the seven questions. */
  lemma CommitHoldsAllAnswers(c: Conv, input: Input)
    requires Inv(c)
    ensures var t := Handle(c, input);
      t.commit.Some? ==> t.commit.value.Keys == AllKeys
  {
    if input.TextMessage? && c.state.Some? {
      AnswerCommitsOnlyAtEnd(c.state.value, c.data, input.body);
      if c.state.value == KnowG5 {
        EveryKeyIsKnown(c.data[KnowG5Key := Trim(input.body)].Keys);
      }
    }
  }

  lemma EveryKeyIsKnown(keys: set<Key>)
    requires Answered(KnowG5) + {KnowG5Key} <= keys
    ensures keys == AllKeys
  {
    forall k: Key ensures k in AllKeys {
      match k
      case FullNameKey =>
      case EmailKey =>
      case PositionKey =>
      case CompanyKey =>
      case ExperienceKey =>
      case JobSearchKey =>
      case KnowG5Key =>
    }
  }

  // ---------------------------------------------------------------------------
  // Whole dialogs

  /** The conversation after a run of messages, and the answer maps committed along the way. */
  datatype Trace = Trace(final: Conv, commits: seq<Answers>)

  function Run(c: Conv, inputs: seq<Input>): Trace
    decreases |inputs|
  {
    if inputs == [] then Trace(c, [])
    else
      var t := Handle(c, inputs[0]);
      var rest := Run(t.next, inputs[1..]);
      Trace(rest.final, (if t.commit.Some? then [t.commit.value] else []) + rest.commits)
  }

  /** A run whose first message commits nothing goes on from that message's conversation. */
  lemma RunStep(c: Conv, input: Input, rest: seq<Input>)
    requires Handle(c, input).commit == None
    ensures Run(c, [input] + rest) == Run(Handle(c, input).next, rest)
  {
    assert ([input] + rest)[0] == input && ([input] + rest)[1..] == rest;
  }

  /** The answers of one complete dialog, each stored trimmed. */
  function Answers7(name: string, email: string, position: string, company: string,
                    experience: string, jobSearch: string, knowG5: string): Answers
  {
    map[FullNameKey := Trim(name), EmailKey := Trim(email), PositionKey := Trim(position),
        CompanyKey := Trim(company), ExperienceKey := Trim(experience),
        JobSearchKey := Trim(jobSearch), KnowG5Key := Trim(knowG5)]
  }

  /**
   * A complete dialog, from `/start` in any conversation through seven valid
   * answers (with or without the "other" detour), commits exactly once, the
   * seven trimmed answers and nothing left over from before, and ends cleared.
   * The inputs are already routed: each answer is a text the command filter
   * did not take for `/start` (see `CompleteDialogFromTexts`).
   */
  lemma {:induction false} CompleteDialog(c: Conv, name: string, email: string, other: string,
      position: string, company: string, experience: string, jobSearch: string, knowG5: string,
      viaOther: bool)
    requires '@' in email
    requires viaOther ==> Trim(other) == OtherPosition
    requires !viaOther ==> Trim(position) != OtherPosition
    ensures var inputs :=
        [StartCommand, TextMessage(name), TextMessage(email)]
        + (if viaOther then [TextMessage(other)] else [])
        + [TextMessage(position), TextMessage(company), TextMessage(experience),
           TextMessage(jobSearch), TextMessage(knowG5)];
      Run(c, inputs) == Trace(Idle, [Answers7(name, email, position, company, experience, jobSearch, knowG5)])
  {
    var afterEmail := (if viaOther then [TextMessage(other)] else [])
        + [TextMessage(position), TextMessage(company), TextMessage(experience),
           TextMessage(jobSearch), TextMessage(knowG5)];
    var in2 := [TextMessage(email)] + afterEmail;
    var in1 := [TextMessage(name)] + in2;
    assert [StartCommand] + in1 == [StartCommand, TextMessage(name), TextMessage(email)]
        + (if viaOther then [TextMessage(other)] else [])
        + [TextMessage(position), TextMessage(company), TextMessage(experience),
           TextMessage(jobSearch), TextMessage(knowG5)];
    var d1 := c.data[FullNameKey := Trim(name)];
    var d2 := d1[EmailKey := Trim(email)];
    RunStep(c, StartCommand, in1);
    assert Handle(Conv(Some(FullName), c.data), TextMessage(name)).next == Conv(Some(Email), d1);
    RunStep(Conv(Some(FullName), c.data), TextMessage(name), in2);
    assert Handle(Conv(Some(Email), d1), TextMessage(email)).next == Conv(Some(Position), d2);
    RunStep(Conv(Some(Email), d1), TextMessage(email), afterEmail);
    RunFromPosition(d2, other, position, company, experience, jobSearch, knowG5, viaOther);
    OverwriteAll(c.data, name, email, position, company, experience, jobSearch, knowG5);
  }

  /**
   * The same dialog as the user types it: the `/start` text and the answer
   * texts go through the command filter first, and none of the answers is a
   * `/start` command.
   */
  lemma CompleteDialogFromTexts(c: Conv, botName: string, start: string, name: string, email: string,
      other: string, position: string, company: string, experience: string, jobSearch: string,
      knowG5: string, viaOther: bool)
    requires IsStartCommand(start, botName)
    requires !IsStartCommand(name, botName) && !IsStartCommand(email, botName)
    requires !IsStartCommand(position, botName) && !IsStartCommand(company, botName)
    requires !IsStartCommand(experience, botName) && !IsStartCommand(jobSearch, botName)
    requires !IsStartCommand(knowG5, botName)
    requires '@' in email
    requires viaOther ==> Trim(other) == OtherPosition
    requires !viaOther ==> Trim(position) != OtherPosition
    ensures var inputs :=
        [Classify(start, botName), Classify(name, botName), Classify(email, botName)]
        + (if viaOther then [Classify(other, botName)] else [])
        + [Classify(position, botName), Classify(company, botName), Classify(experience, botName),
           Classify(jobSearch, botName), Classify(knowG5, botName)];
      Run(c, inputs) == Trace(Idle, [Answers7(name, email, position, company, experience, jobSearch, knowG5)])
  {
    if viaOther {
      OtherIsNotStart(other, botName);
    }
    assert [Classify(start, botName), Classify(name, botName), Classify(email, botName)]
        == [StartCommand, TextMessage(name), TextMessage(email)];
    assert (if viaOther then [Classify(other, botName)] else [])
        == (if viaOther then [TextMessage(other)] else []);
    assert [Classify(position, botName), Classify(company, botName), Classify(experience, botName),
           Classify(jobSearch, botName), Classify(knowG5, botName)]
        == [TextMessage(position), TextMessage(company), TextMessage(experience),
           TextMessage(jobSearch), TextMessage(knowG5)];
    CompleteDialog(c, name, email, other, position, company, experience, jobSearch, knowG5, viaOther);
  }

  /** Answering all seven questions overwrites whatever the map held before. */
  lemma OverwriteAll(data: Answers, name: string, email: string, position: string,
      company: string, experience: string, jobSearch: string, knowG5: string)
    ensures data[FullNameKey := Trim(name)][EmailKey := Trim(email)][PositionKey := Trim(position)]
        [CompanyKey := Trim(company)][ExperienceKey := Trim(experience)]
        [JobSearchKey := Trim(jobSearch)][KnowG5Key := Trim(knowG5)]
      == Answers7(name, email, position, company, experience, jobSearch, knowG5)
  {
    var d := data[FullNameKey := Trim(name)][EmailKey := Trim(email)][PositionKey := Trim(position)]
        [CompanyKey := Trim(company)][ExperienceKey := Trim(experience)]
        [JobSearchKey := Trim(jobSearch)][KnowG5Key := Trim(knowG5)];
    var a := Answers7(name, email, position, company, experience, jobSearch, knowG5);
    EveryKeyIsKnown(d.Keys);
    EveryKeyIsKnown(a.Keys);
    forall k | k in d.Keys ensures d[k] == a[k] {
      match k
      case FullNameKey =>
      case EmailKey =>
      case PositionKey =>
      case CompanyKey =>
      case ExperienceKey =>
      case JobSearchKey =>
      case KnowG5Key =>
    }
  }

  /** From the position step, directly or through the "other" detour, to the end. */
  lemma {:induction false} RunFromPosition(d2: Answers, other: string, position: string,
      company: string, experience: string, jobSearch: string, knowG5: string, viaOther: bool)
    requires viaOther ==> Trim(other) == OtherPosition
    requires !viaOther ==> Trim(position) != OtherPosition
    ensures Run(Conv(Some(Position), d2),
                (if viaOther then [TextMessage(other)] else [])
                + [TextMessage(position), TextMessage(company), TextMessage(experience),
                   TextMessage(jobSearch), TextMessage(knowG5)])
      == Trace(Idle, [d2[PositionKey := Trim(position)][CompanyKey := Trim(company)]
                        [ExperienceKey := Trim(experience)][JobSearchKey := Trim(jobSearch)]
                        [KnowG5Key := Trim(knowG5)]])
  {
    var rest := [TextMessage(company), TextMessage(experience), TextMessage(jobSearch), TextMessage(knowG5)];
    var tail := [TextMessage(position)] + rest;
    assert tail == [TextMessage(position), TextMessage(company), TextMessage(experience),
                    TextMessage(jobSearch), TextMessage(knowG5)];
    var d3 := d2[PositionKey := Trim(position)];
    if viaOther {
      assert Handle(Conv(Some(Position), d2), TextMessage(other)).next == Conv(Some(CustomPosition), d2);
      RunStep(Conv(Some(Position), d2), TextMessage(other), tail);
      assert Handle(Conv(Some(CustomPosition), d2), TextMessage(position)).next == Conv(Some(Company), d3);
      RunStep(Conv(Some(CustomPosition), d2), TextMessage(position), rest);
    } else {
      assert [] + tail == tail;
      assert Handle(Conv(Some(Position), d2), TextMessage(position)).next == Conv(Some(Company), d3);
      RunStep(Conv(Some(Position), d2), TextMessage(position), rest);
    }
    RunTail(d3, company, experience, jobSearch, knowG5);
  }

  /** The last four answers, from the company step. */
  lemma {:induction false} RunTail(d3: Answers, company: string, experience: string,
      jobSearch: string, knowG5: string)
    ensures Run(Conv(Some(Company), d3),
                [TextMessage(company), TextMessage(experience), TextMessage(jobSearch), TextMessage(knowG5)])
      == Trace(Idle, [d3[CompanyKey := Trim(company)][ExperienceKey := Trim(experience)]
                        [JobSearchKey := Trim(jobSearch)][KnowG5Key := Trim(knowG5)]])
  {
    var in4 := [TextMessage(knowG5)];
    var in3 := [TextMessage(jobSearch)] + in4;
    var in2 := [TextMessage(experience)] + in3;
    assert [TextMessage(company)] + in2
        == [TextMessage(company), TextMessage(experience), TextMessage(jobSearch), TextMessage(knowG5)];
    var d4 := d3[CompanyKey := Trim(company)];
    var d5 := d4[ExperienceKey := Trim(experience)];
    var d6 := d5[JobSearchKey := Trim(jobSearch)];
    assert Handle(Conv(Some(Company), d3), TextMessage(company)) == Turn(Conv(Some(Experience), d4), Some(AskExperience), None);
    assert Handle(Conv(Some(Experience), d4), TextMessage(experience)) == Turn(Conv(Some(JobSearch), d5), Some(AskJobSearch), None);
    assert Handle(Conv(Some(JobSearch), d5), TextMessage(jobSearch)) == Turn(Conv(Some(KnowG5), d6), Some(AskKnowG5), None);
    assert Run(Conv(Some(Company), d3), [TextMessage(company)] + in2) == Run(Conv(Some(Experience), d4), in2) by {
      RunStep(Conv(Some(Company), d3), TextMessage(company), in2);
    }
    assert Run(Conv(Some(Experience), d4), in2) == Run(Conv(Some(JobSearch), d5), in3) by {
      RunStep(Conv(Some(Experience), d4), TextMessage(experience), in3);
    }
    assert Run(Conv(Some(JobSearch), d5), in3) == Run(Conv(Some(KnowG5), d6), in4) by {
      RunStep(Conv(Some(JobSearch), d5), TextMessage(jobSearch), in4);
    }
    assert Run(Conv(Some(KnowG5), d6), in4) == Trace(Idle, [d6[KnowG5Key := Trim(knowG5)]]) by {
      assert in4[1..] == [];
    }
  }
}
