/**
 * The bot as one object: the per-user dialogue sessions it keeps, the sheet
 * it writes at the end of a registration, and the attendance buttons that
 * write column J. The lemmas at the end follow a user from registration and
 * confirmation to the reminders that reach them.
 */
module Bot {
  import opened Wrappers
  import opened Text
  import opened Registration
  import opened RowStore
  import opened Reminders

  /** The sender of a message or a button press. */
  datatype User = User(id: int, username: Option<string>)

  /** The answer to a button press. */
  datatype Ack = Coming | Declined | RegisterFirst

  const ConfirmYes: string := "confirm_yes"
  const ConfirmNo: string := "confirm_no"

  /** Column B: `@username`, or "" for an account without one. */
  function HandleCell(user: User): (cell: string)
    ensures cell == "" <==> user.username.None? || user.username.value == ""
    ensures cell != "" ==> cell == "@" + user.username.value
  {
    match user.username
    case Some(name) => if name != "" then "@" + name else ""
    case None => ""
  }

  /** The answers in columns C to I, left to right. */
  const AnswerColumns: seq<Key> :=
    [FullNameKey, EmailKey, PositionKey, CompanyKey, ExperienceKey, JobSearchKey, KnowG5Key]

  /** The ten cells `finish` writes: id, handle, the seven answers (a missing one as ""), an empty confirmation. */
  function BuildRow(user: User, data: Answers): (row: seq<string>)
    ensures |row| == RowWidth
    ensures row[0] == DecimalString(user.id) && row[1] == HandleCell(user)
    ensures forall i :: 0 <= i < |AnswerColumns| ==> row[2 + i] == Get(data, AnswerColumns[i])
    ensures row[ConfirmedColumn - 1] == ""
  {
    [DecimalString(user.id), HandleCell(user)]
      + seq(|AnswerColumns|, i requires 0 <= i < |AnswerColumns| => Get(data, AnswerColumns[i]))
      + [""]
  }

  /** The confirmation a button writes into column J. */
  function ConfirmValue(payload: string): string {
    if payload == ConfirmNo then "no" else "yes"
  }

  /** A header row without repeats whose records take `user_id` from column A and `confirmed` from column J. */
  predicate StandardHeader(header: seq<string>) {
    && UniqueHeader(header)
    && LastIndexOf(header, UserIdHeader) == Some(0)
    && LastIndexOf(header, ConfirmedHeader) == Some(ConfirmedColumn - 1)
  }

  class MeetupBot {
    /** The registration sheet. */
    const sheet: Sheet
    /** The bot's own username, for `/start@name`. */
    const botName: string
    /** Each user's dialogue state and collected answers; a user without an entry is idle. */
    var sessions: map<int, Conv>

    /** Every session is one the dialogue can reach. */
    ghost predicate Valid()
      reads this
    {
      forall id :: id in sessions ==> Inv(sessions[id])
    }

    /** The session of user `id`. */
    function Session(id: int): Conv
      reads this
    {
      if id in sessions then sessions[id] else Idle
    }

    constructor (sheet: Sheet, botName: string)
      ensures Valid()
      ensures this.sheet == sheet && this.botName == botName && sessions == map[]
    {
      this.sheet := sheet;
      this.botName := botName;
      sessions := map[];
    }

    /**
     * A message from `user` (`text` is `None` for a message without text):
     * routed to `start` or to the handler of the user's state, and on the
     * last answer the user's row is written.
     */
    method OnMessage(user: User, text: Option<string>) returns (reply: Option<Prompt>)
      requires Valid()
      modifies this, sheet
      ensures Valid()
      ensures var input := if text.Some? then Classify(text.value, botName) else NonTextMessage;
        var t := Handle(old(Session(user.id)), input);
        && reply == t.reply
        && sessions == old(sessions)[user.id := t.next]
        && sheet.rows == match t.commit
                         case None => old(sheet.rows)
                         case Some(d) => Upserted(old(sheet.rows), DecimalString(user.id), BuildRow(user, d))
    {
      var input := if text.Some? then Classify(text.value, botName) else NonTextMessage;
      var c := Session(user.id);
      var t := Handle(c, input);
      HandleKeepsInv(c, input);
      if t.commit.Some? {
        sheet.Upsert(user.id, BuildRow(user, t.commit.value));
      }
      sessions := sessions[user.id := t.next];
      reply := t.reply;
    }

    /**
     * `confirm_attendance`: a button press with either confirmation payload
     * writes "no" or "yes" into the user's column J, or asks an unregistered
     * user to register; any other payload has no handler and changes nothing.
     */
    method OnCallback(user: User, payload: string) returns (ack: Option<Ack>)
      modifies sheet
      ensures payload != ConfirmYes && payload != ConfirmNo ==> ack == None && sheet.rows == old(sheet.rows)
      ensures payload == ConfirmYes || payload == ConfirmNo ==>
        var found := FindRow(old(sheet.rows), DecimalString(user.id));
        if found.None? then
          ack == Some(RegisterFirst) && sheet.rows == old(sheet.rows)
        else
          && ack == Some(if payload == ConfirmNo then Declined else Coming)
          && sheet.rows == SetCell(old(sheet.rows), found.value - 1, ConfirmedColumn - 1, ConfirmValue(payload))
    {
      if payload != ConfirmYes && payload != ConfirmNo {
        return None;
      }
      var ok := false;
      var msg;
      if payload == ConfirmNo {
        ok := sheet.UpdateConfirmed(user.id, "no");
        msg := Declined;
      } else {
        ok := sheet.UpdateConfirmed(user.id, "yes");
        msg := Coming;
      }
      if !ok {
        msg := RegisterFirst;
      }
      return Some(msg);
    }
  }

  // ---------------------------------------------------------------------------
  // From the sheet to the reminders

  /** A data row with the user's id in column A and `v` in column J reads back as that id and status. */
  lemma RowReadsBack(rows: Rows, r: nat, id: int, v: string)
    requires 1 <= r < |rows| && StandardHeader(rows[0])
    requires Cell(rows, r, 0) == DecimalString(id) && Cell(rows, r, ConfirmedColumn - 1) == v
    ensures UserIdOf(rows[0], rows[r]) == Some(id)
    ensures Status(rows[0], rows[r]) == Lower(Trim(v))
  {
    ParseDecimalRoundTrip(id);
  }

  /**
   * After the write in `finish` the user's row (the old one, or a new last
   * row) reads: the id, the handle, each answer under its column (a missing
   * one as ""), and an empty confirmation; the sheet grew only for a new user.
   */
  lemma RegisteredRowHoldsAnswers(rows: Rows, user: User, d: Answers)
    requires |rows| >= 1
    ensures var res := Upserted(rows, DecimalString(user.id), BuildRow(user, d));
      var found := FindRow(rows, DecimalString(user.id));
      var row := match found case None => |rows| + 1 case Some(r) => r;
      && FindRow(res, DecimalString(user.id)) == Some(row)
      && |res| == |rows| + (if found.None? then 1 else 0)
      && Cell(res, row - 1, 0) == DecimalString(user.id)
      && Cell(res, row - 1, 1) == HandleCell(user)
      && (forall i :: 0 <= i < |AnswerColumns| ==> Cell(res, row - 1, 2 + i) == Get(d, AnswerColumns[i]))
      && Cell(res, row - 1, ConfirmedColumn - 1) == ""
  {
    var values := BuildRow(user, d);
    UpsertFindsRow(rows, DecimalString(user.id), values);
  }

  /** The row of a fresh registration: the day-before reminder goes to the user, the day-of one does not. */
  lemma RegistrationGetsFirstReminderOnly(rows: Rows, user: User, d: Answers)
    requires |rows| >= 1 && StandardHeader(rows[0])
    ensures var res := Upserted(rows, DecimalString(user.id), BuildRow(user, d));
      var row := match FindRow(rows, DecimalString(user.id)) case None => |rows| + 1 case Some(r) => r;
      && Selects(DayBefore, res[0], res[row - 1])
      && !Selects(EventDay, res[0], res[row - 1])
      && user.id in Recipients(DayBefore, Header(res), Records(res))
  {
    var key := DecimalString(user.id);
    var values := BuildRow(user, d);
    var res := Upserted(rows, key, values);
    RegisteredRowHoldsAnswers(rows, user, d);
    var row := match FindRow(rows, key) case None => |rows| + 1 case Some(r) => r;
    assert Cell(res, 0, 0) == Cell(rows, 0, 0);
    assert res[0] == rows[0] by {
      if FindRow(rows, key).None? {
        assert res == rows + [values];
      }
    }
    assert Cell(res, row - 1, ConfirmedColumn - 1) == "";
    RowReadsBack(res, row - 1, user.id, "");
    assert Trim("") == "";
    assert Status(res[0], res[row - 1]) == "";
    RecipientsMembership(DayBefore, Header(res), Records(res), user.id);
    assert Records(res)[row - 2] == res[row - 1];
  }

  /** After "I'll come" the user's row gets both reminders. */
  lemma ConfirmedGetsBothReminders(rows: Rows, id: int)
    requires |rows| >= 1 && StandardHeader(rows[0])
    requires FindRow(rows, DecimalString(id)).Some?
    ensures var r := FindRow(rows, DecimalString(id)).value;
      var res := SetCell(rows, r - 1, ConfirmedColumn - 1, ConfirmValue(ConfirmYes));
      && id in Recipients(EventDay, Header(res), Records(res))
      && id in Recipients(DayBefore, Header(res), Records(res))
  {
    var r := FindRow(rows, DecimalString(id)).value;
    var res := SetCell(rows, r - 1, ConfirmedColumn - 1, "yes");
    assert res[0] == rows[0];
    RowReadsBack(res, r - 1, id, "yes");
    TrimFixpoint("yes");
    assert Lower("yes") == "yes";
    assert Selects(EventDay, res[0], res[r - 1]);
    RecipientsMembership(EventDay, Header(res), Records(res), id);
    assert Records(res)[r - 2] == res[r - 1];
    EventDayWithinDayBefore(Header(res), Records(res), id);
  }

  /** After "plans changed" the user's row gets neither reminder. */
  lemma DeclinedGetsNoReminder(rows: Rows, id: int, c: Campaign)
    requires |rows| >= 1 && StandardHeader(rows[0])
    requires FindRow(rows, DecimalString(id)).Some?
    ensures var r := FindRow(rows, DecimalString(id)).value;
      var res := SetCell(rows, r - 1, ConfirmedColumn - 1, ConfirmValue(ConfirmNo));
      !Selects(c, res[0], res[r - 1])
  {
    var r := FindRow(rows, DecimalString(id)).value;
    var res := SetCell(rows, r - 1, ConfirmedColumn - 1, "no");
    assert res[0] == rows[0];
    RowReadsBack(res, r - 1, id, "no");
    TrimFixpoint("no");
    assert Lower("no") == "no";
  }
}
