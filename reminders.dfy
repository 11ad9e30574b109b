/**
 * The two reminder broadcasts. Each reads the sheet as header-keyed records,
 * skips the records whose `user_id` does not parse as an integer or whose
 * confirmation excludes them, and sends one message per remaining record; a
 * failed send is skipped and the loop goes on.
 */
module Reminders {
  import opened Wrappers
  import opened Text
  import opened RowStore

  /** `reminder_1_confirm` (the day before) and `reminder_2_final` (the day of the meetup). */
  datatype Campaign = DayBefore | EventDay

  const UserIdHeader: string := "user_id"
  const ConfirmedHeader: string := "confirmed"

  /**
   * The column a record takes `name` from: the header cell spelling it (the
   * records are only read under a header without repeats, where that cell is
   * the only one).
   */
  function LastIndexOf(header: seq<string>, name: string): (r: Option<nat>)
    ensures r.Some? ==> r.value < |header| && header[r.value] == name
    ensures r.Some? ==> forall j :: r.value < j < |header| ==> header[j] != name
    ensures r.None? <==> name !in header
  {
    if header == [] then None
    else if header[|header| - 1] == name then Some(|header| - 1)
    else LastIndexOf(header[..|header| - 1], name)
  }

  /** `record.get(name)`: absent without such a header; a cell past the row's end reads "". */
  function Field(header: seq<string>, row: seq<string>, name: string): Option<string> {
    match LastIndexOf(header, name)
    case None => None
    case Some(i) => Some(if i < |row| then row[i] else "")
  }

  /** `int(record.get("user_id"))`, or `None` where that raises and the record is skipped. */
  function UserIdOf(header: seq<string>, row: seq<string>): Option<int> {
    match Field(header, row, UserIdHeader)
    case None => None
    case Some(v) => ParseInt(v)
  }

  /** `(record.get("confirmed") or "").strip().lower()`. */
  function Status(header: seq<string>, row: seq<string>): string {
    Lower(Trim(Field(header, row, ConfirmedHeader).GetOr("")))
  }

  /** Whether a campaign sends to a record: a parsable id, and not declined (day before) or confirmed (day of). */
  predicate Selects(c: Campaign, header: seq<string>, row: seq<string>) {
    && UserIdOf(header, row).Some?
    && match c
       case DayBefore => Status(header, row) != "no"
       case EventDay => Status(header, row) == "yes"
  }

  /** What a campaign does with one record: the id it messages, or `None` when it skips the record. */
  function Pick(c: Campaign, header: seq<string>, row: seq<string>): Option<int> {
    if Selects(c, header, row) then UserIdOf(header, row) else None
  }

  /** The ids among a sequence of verdicts, in order. */
  function Somes(vs: seq<Option<int>>): seq<int> {
    if vs == [] then []
    else
      var last := vs[|vs| - 1];
      Somes(vs[..|vs| - 1]) + (if last.Some? then [last.value] else [])
  }

  /** The ids a campaign sends to, in the order of the records. */
  function Recipients(c: Campaign, header: seq<string>, records: seq<seq<string>>): seq<int> {
    Somes(seq(|records|, i requires 0 <= i < |records| => Pick(c, header, records[i])))
  }

  /** The header row `get_all_records` keys the records by. */
  function Header(rows: Rows): seq<string> {
    if rows == [] then [] else rows[0]
  }

  /** No name appears twice in the header row. */
  predicate UniqueHeader(header: seq<string>) {
    forall i, j :: 0 <= i < j < |header| ==> header[i] != header[j]
  }

  /**
   * The rows `get_all_records` turns into records: every row below the
   * header. A header that repeats a name makes the read raise before the
   * loop starts, so that sheet yields no record at all.
   */
  function Records(rows: Rows): seq<seq<string>> {
    if rows == [] || !UniqueHeader(rows[0]) then [] else rows[1..]
  }

  /** The sends that went through, when the `k`-th attempt succeeds exactly if `sendOk(k)`. */
  function Delivered(attempted: seq<int>, sendOk: nat -> bool): seq<int> {
    if attempted == [] then []
    else
      var k := |attempted| - 1;
      Delivered(attempted[..k], sendOk) + (if sendOk(k) then [attempted[k]] else [])
  }

  /**
   * One broadcast over the sheet: every selected record is attempted in
   * order, and a failed send neither stops the loop nor is retried.
   */
  method Broadcast(sheet: Sheet, c: Campaign, sendOk: nat -> bool) returns (attempted: seq<int>, delivered: seq<int>)
    ensures attempted == Recipients(c, Header(sheet.rows), Records(sheet.rows))
    ensures delivered == Delivered(attempted, sendOk)
  {
    var header := Header(sheet.rows);
    var users := Records(sheet.rows);
    attempted, delivered := [], [];
    var i := 0;
    while i < |users|
      invariant 0 <= i <= |users|
      invariant attempted == Recipients(c, header, users[..i])
      invariant delivered == Delivered(attempted, sendOk)
    {
      var u := users[i];
      RecipientsStep(c, header, users, i);
      var uid := UserIdOf(header, u);
      if uid.None? {
        i := i + 1;
        continue;
      }
      var status := Status(header, u);
      if (c == DayBefore && status == "no") || (c == EventDay && status != "yes") {
        i := i + 1;
        continue;
      }
      DeliveredStep(attempted, uid.value, sendOk);
      var k := |attempted|;
      attempted := attempted + [uid.value];
      if sendOk(k) {
        delivered := delivered + [uid.value];
      }
      i := i + 1;
    }
    assert users[..i] == users;
  }

  // ---------------------------------------------------------------------------
  // Steps of the broadcast loop

  /** The recipients of one more record. */
  lemma RecipientsStep(c: Campaign, header: seq<string>, records: seq<seq<string>>, i: nat)
    requires i < |records|
    ensures Recipients(c, header, records[..i + 1])
         == Recipients(c, header, records[..i])
            + (if Selects(c, header, records[i]) then [UserIdOf(header, records[i]).value] else [])
  {
    var vs := seq(i + 1, j requires 0 <= j < i + 1 => Pick(c, header, records[..i + 1][j]));
    assert vs[..i] == seq(i, j requires 0 <= j < i => Pick(c, header, records[..i][j]));
  }

  /** The deliveries after one more attempt. */
  lemma DeliveredStep(attempted: seq<int>, u: int, sendOk: nat -> bool)
    ensures Delivered(attempted + [u], sendOk)
         == Delivered(attempted, sendOk) + (if sendOk(|attempted|) then [u] else [])
  {
    assert (attempted + [u])[..|attempted|] == attempted;
  }

  // ---------------------------------------------------------------------------
  // What the broadcasts promise

  /** An id is among the verdicts' ids exactly when some verdict names it. */
  lemma {:induction false} SomesMembership(vs: seq<Option<int>>, u: int)
    ensures u in Somes(vs) <==> Some(u) in vs
  {
    if vs != [] {
      var n := |vs| - 1;
      SomesMembership(vs[..n], u);
      assert vs == vs[..n] + [vs[n]];
    }
  }

  /** An id is messaged exactly when some record selected by the campaign carries it. */
  lemma RecipientsMembership(c: Campaign, header: seq<string>, records: seq<seq<string>>, u: int)
    ensures u in Recipients(c, header, records)
       <==> exists i :: 0 <= i < |records| && Selects(c, header, records[i]) && UserIdOf(header, records[i]) == Some(u)
  {
    var vs := seq(|records|, i requires 0 <= i < |records| => Pick(c, header, records[i]));
    SomesMembership(vs, u);
    if Some(u) in vs {
      var i :| 0 <= i < |vs| && vs[i] == Some(u);
      assert Selects(c, header, records[i]) && UserIdOf(header, records[i]) == Some(u);
    }
    if exists i :: 0 <= i < |records| && Selects(c, header, records[i]) && UserIdOf(header, records[i]) == Some(u) {
      var i :| 0 <= i < |records| && Selects(c, header, records[i]) && UserIdOf(header, records[i]) == Some(u);
      assert vs[i] == Some(u);
    }
  }

  /** A sheet whose header repeats a name gets no message from either campaign. */
  lemma RepeatedHeaderMessagesNobody(c: Campaign, rows: Rows)
    requires !UniqueHeader(Header(rows))
    ensures Recipients(c, Header(rows), Records(rows)) == []
  {
    assert Records(rows) == [];
  }

  /** Everyone who gets the day-of message was also sent the day-before one. */
  lemma EventDayWithinDayBefore(header: seq<string>, records: seq<seq<string>>, u: int)
    requires u in Recipients(EventDay, header, records)
    ensures u in Recipients(DayBefore, header, records)
  {
    RecipientsMembership(EventDay, header, records, u);
    RecipientsMembership(DayBefore, header, records, u);
    var i :| 0 <= i < |records| && Selects(EventDay, header, records[i]) && UserIdOf(header, records[i]) == Some(u);
    assert Selects(DayBefore, header, records[i]);
  }

  /** A send is delivered exactly when it was attempted and went through; one failure costs only its own message. */
  lemma {:induction false} DeliveredMembership(attempted: seq<int>, sendOk: nat -> bool, u: int)
    ensures u in Delivered(attempted, sendOk)
       <==> exists k :: 0 <= k < |attempted| && attempted[k] == u && sendOk(k)
    ensures |Delivered(attempted, sendOk)| <= |attempted|
  {
    if attempted != [] {
      var n := |attempted| - 1;
      var init := attempted[..n];
      DeliveredMembership(init, sendOk, u);
      if u in Delivered(attempted, sendOk) && u !in Delivered(init, sendOk) {
        assert attempted[n] == u && sendOk(n);
      }
      if exists k :: 0 <= k < |attempted| && attempted[k] == u && sendOk(k) {
        var k :| 0 <= k < |attempted| && attempted[k] == u && sendOk(k);
        if k < n {
          assert init[k] == attempted[k];
        }
      }
    }
  }

  /** With no failed send, everyone attempted is delivered, in order. */
  lemma {:induction false} AllDeliveredWithoutFailures(attempted: seq<int>, sendOk: nat -> bool)
    requires forall k: nat :: sendOk(k)
    ensures Delivered(attempted, sendOk) == attempted
  {
    if attempted != [] {
      var n := |attempted| - 1;
      AllDeliveredWithoutFailures(attempted[..n], sendOk);
      assert attempted[..n] + [attempted[n]] == attempted;
    }
  }
}
