/**
 * The append-only event store of database.py: six tables written by one
 * insert operation each, every row with an auto-incremented id, and two
 * read-only queries (per-table counts and the merged "recent events" view).
 *
 * The SQLite connection is replaced by sequences held in a `Database`
 * object. Whether the driver accepts a statement (disk errors, a closed
 * connection, ...) is outside the model's control: each insert chooses that
 * outcome itself, and its contract covers both outcomes. A failed insert is
 * rolled back: no table and no id counter changes.
 */
module Storage {
  import opened Wrappers

  /** A value of an event's `details` payload (serialised with json.dumps by the store). */
  datatype DetailValue = DStr(s: string) | DInt(i: int) | DNull

  type Details = map<string, DetailValue>

  /**
   * The dictionary handed to `insert_message`. `text` is `None` when the key
   * is missing from the dictionary. The `chat_type` entry of the source's
   * dictionary is not a column and is carried by the broadcast instead.
   * Dates are timestamps.
   */
  datatype MessageData = MessageData(
    messageId: int, chatId: int, chatTitle: Option<string>,
    senderId: Option<int>, senderUsername: Option<string>,
    senderFirstName: Option<string>, senderLastName: Option<string>,
    text: Option<string>,
    isOutgoing: bool, isEdited: bool, isDeleted: bool, isForwarded: bool,
    forwardFromId: Option<int>, mediaType: Option<string>, mediaPath: Option<string>,
    date: int)

  /** The dictionary handed to `insert_reaction`; `action` is `None` when the key is missing. */
  datatype ReactionData = ReactionData(
    messageId: int, chatId: int, userId: Option<int>, userUsername: Option<string>,
    reaction: string, action: Option<string>, date: int)

  /** The dictionary handed to `insert_event`; `details` is `None` when the key is missing. */
  datatype EventData = EventData(
    eventType: string, chatId: Option<int>, chatTitle: Option<string>,
    userId: Option<int>, userUsername: Option<string>, userFirstName: Option<string>,
    details: Option<Details>, date: int)

  /** The dictionary handed to `insert_media`. */
  datatype MediaData = MediaData(
    messageId: int, chatId: Option<int>, mediaType: string, fileName: string,
    filePath: string, fileSize: int, mimeType: Option<string>, date: int)

  /** The dictionary handed to `insert_contact`. */
  datatype ContactData = ContactData(
    userId: int, username: Option<string>, firstName: Option<string>,
    lastName: Option<string>, phone: Option<string>, action: Option<string>, date: int)

  /** The dictionary handed to `insert_group_event`; `details` is `None` when the key is missing. */
  datatype GroupData = GroupData(
    chatId: int, chatTitle: Option<string>, action: Option<string>,
    userId: Option<int>, userUsername: Option<string>, details: Option<Details>, date: int)

  /** A stored row: the generated id and the values written to the other columns. */
  datatype Row<T> = Row(id: int, value: T)

  // ---- the defaults the inserts apply through `data.get(key, default)`

  function StoredMessage(d: MessageData): (s: MessageData)
    ensures s.text == Some(d.text.GetOr(""))
    ensures s.(text := d.text) == d
    ensures d.text.Some? ==> s == d
  {
    d.(text := Some(d.text.GetOr("")))
  }

  function StoredReaction(d: ReactionData): (s: ReactionData)
    ensures s.action == Some(d.action.GetOr("added"))
    ensures s.(action := d.action) == d
    ensures d.action.Some? ==> s == d
  {
    d.(action := Some(d.action.GetOr("added")))
  }

  function StoredEvent(d: EventData): (s: EventData)
    ensures s.details == Some(d.details.GetOr(map[]))
    ensures s.(details := d.details) == d
  {
    d.(details := Some(d.details.GetOr(map[])))
  }

  function StoredGroup(d: GroupData): (s: GroupData)
    ensures s.details == Some(d.details.GetOr(map[]))
    ensures s.(details := d.details) == d
  {
    d.(details := Some(d.details.GetOr(map[])))
  }

  // ---- the parameter binding of insert_message

  /** A value bound to an SQL placeholder; Python booleans are bound as 0 and 1. */
  datatype SqlValue = SNull | SInt(i: int) | SText(t: string)

  function IntValue(x: Option<int>): SqlValue { if x.Some? then SInt(x.value) else SNull }
  function TextValue(x: Option<string>): SqlValue { if x.Some? then SText(x.value) else SNull }
  function BoolValue(b: bool): SqlValue { SInt(if b then 1 else 0) }

  /** The sixteen columns named by the INSERT statement of insert_message, in order. */
  const MessageColumns: seq<string> := [
    "message_id", "chat_id", "chat_title", "sender_id", "sender_username",
    "sender_first_name", "sender_last_name", "text", "is_outgoing",
    "is_edited", "is_deleted", "is_forwarded", "forward_from_id",
    "media_type", "media_path", "date"]

  /** The value each column of the messages table should receive for `d`. */
  function ColumnValue(d: MessageData, column: string): SqlValue {
    match column
    case "message_id" => SInt(d.messageId)
    case "chat_id" => SInt(d.chatId)
    case "chat_title" => TextValue(d.chatTitle)
    case "sender_id" => IntValue(d.senderId)
    case "sender_username" => TextValue(d.senderUsername)
    case "sender_first_name" => TextValue(d.senderFirstName)
    case "sender_last_name" => TextValue(d.senderLastName)
    case "text" => SText(d.text.GetOr(""))
    case "is_outgoing" => BoolValue(d.isOutgoing)
    case "is_edited" => BoolValue(d.isEdited)
    case "is_deleted" => BoolValue(d.isDeleted)
    case "is_forwarded" => BoolValue(d.isForwarded)
    case "forward_from_id" => IntValue(d.forwardFromId)
    case "media_type" => TextValue(d.mediaType)
    case "media_path" => TextValue(d.mediaPath)
    case "date" => SInt(d.date)
    case _ => SNull
  }

  /**
   * The tuple insert_message binds, as written: fifteen values, because
   * `is_deleted` is left out, so every value from `is_forwarded` on sits one
   * placeholder too early and the last placeholder has no value.
   */
  function MessageParamsAsWritten(d: MessageData): (ps: seq<SqlValue>)
    ensures |ps| == |MessageColumns| - 1
    ensures forall i :: 0 <= i < 10 ==> ps[i] == ColumnValue(d, MessageColumns[i])
    ensures forall i :: 10 <= i < |ps| ==> ps[i] == ColumnValue(d, MessageColumns[i + 1])
  {
    [SInt(d.messageId), SInt(d.chatId), TextValue(d.chatTitle), IntValue(d.senderId),
     TextValue(d.senderUsername), TextValue(d.senderFirstName), TextValue(d.senderLastName),
     SText(d.text.GetOr("")), BoolValue(d.isOutgoing), BoolValue(d.isEdited),
     BoolValue(d.isForwarded), IntValue(d.forwardFromId), TextValue(d.mediaType),
     TextValue(d.mediaPath), SInt(d.date)]
  }

  /** The corrected tuple: one value per named column, `is_deleted` included. */
  function MessageParams(d: MessageData): (ps: seq<SqlValue>)
    ensures |ps| == |MessageColumns|
    ensures forall i :: 0 <= i < |ps| ==> ps[i] == ColumnValue(d, MessageColumns[i])
  {
    MessageParamsAsWritten(d)[..10] + [BoolValue(d.isDeleted)] + MessageParamsAsWritten(d)[10..]
  }

  /**
   * The as-written binding cannot be executed for any message: the driver
   * receives fifteen values for sixteen placeholders.
   */
  lemma AsWrittenMessageBindingMismatch(d: MessageData)
    ensures |MessageParamsAsWritten(d)| != |MessageColumns|
    ensures MessageParamsAsWritten(d)[10] == ColumnValue(d, "is_forwarded")
  {
  }

  // ---- tables and their auto-increment ids

  /**
   * The ids an auto-increment table hands out: the last row's id is below
   * the next id to hand out, and the rows before it form a valid table whose
   * next id was the last row's.
   */
  ghost predicate ValidTable<T>(rows: seq<Row<T>>, next: int)
    decreases |rows|
  {
    1 <= next &&
    (rows == [] || (rows[|rows| - 1].id < next && ValidTable(rows[..|rows| - 1], rows[|rows| - 1].id)))
  }

  /** In a valid table the ids are positive, strictly increasing and below the next id. */
  lemma {:induction false} ValidTableIds<T>(rows: seq<Row<T>>, next: int)
    requires ValidTable(rows, next)
    ensures forall i :: 0 <= i < |rows| ==> 1 <= rows[i].id < next
    ensures forall i, j :: 0 <= i < j < |rows| ==> rows[i].id < rows[j].id
  {
    if rows != [] {
      var n := |rows| - 1;
      var front := rows[..n];
      ValidTableIds(front, rows[n].id);
      assert forall i :: 0 <= i < n ==> rows[i] == front[i];
    }
  }

  class Database {
    /** True: insert_message binds its values as the source does (and never stores anything). */
    const bugCompatible: bool

    var messages: seq<Row<MessageData>>
    var reactions: seq<Row<ReactionData>>
    var events: seq<Row<EventData>>
    var media: seq<Row<MediaData>>
    var contacts: seq<Row<ContactData>>
    var groups: seq<Row<GroupData>>

    var nextMessage: int
    var nextReaction: int
    var nextEvent: int
    var nextMedia: int
    var nextContact: int
    var nextGroup: int

    ghost predicate Valid()
      reads this
    {
      ValidTable(messages, nextMessage) && ValidTable(reactions, nextReaction) &&
      ValidTable(events, nextEvent) && ValidTable(media, nextMedia) &&
      ValidTable(contacts, nextContact) && ValidTable(groups, nextGroup)
    }

    /** A freshly created database file: six empty tables. */
    constructor (bugCompatible: bool)
      ensures Valid() && this.bugCompatible == bugCompatible
      ensures messages == [] && reactions == [] && events == []
      ensures media == [] && contacts == [] && groups == []
    {
      this.bugCompatible := bugCompatible;
      messages, reactions, events, media, contacts, groups := [], [], [], [], [], [];
      nextMessage, nextReaction, nextEvent, nextMedia, nextContact, nextGroup := 1, 1, 1, 1, 1, 1;
    }

    /**
     * insert_message. When the binding is the source's, the driver rejects the
     * statement, the transaction is rolled back and the result is `None`.
     * Otherwise `failed` stands for any other error the driver reports.
     */
    method InsertMessage(d: MessageData) returns (r: Option<int>)
      requires Valid()
      modifies this`messages, this`nextMessage
      ensures Valid()
      ensures bugCompatible ==> r == None
      ensures r.None? ==> messages == old(messages) && nextMessage == old(nextMessage)
      ensures r.Some? ==>
        r.value == old(nextMessage) && nextMessage == r.value + 1 &&
        messages == old(messages) + [Row(r.value, StoredMessage(d))]
    {
      var params := if bugCompatible then MessageParamsAsWritten(d) else MessageParams(d);
      if |params| != |MessageColumns| {
        // the driver refuses a statement whose placeholders and values differ in number
        return None;
      }
      var failed: bool :| true;
      if failed {
        return None;
      }
      AppendKeepsValid(messages, nextMessage, StoredMessage(d));
      messages := messages + [Row(nextMessage, StoredMessage(d))];
      r := Some(nextMessage);
      nextMessage := nextMessage + 1;
    }

    /** insert_reaction: a missing action is stored as `added`. */
    method InsertReaction(d: ReactionData) returns (r: Option<int>)
      requires Valid()
      modifies this`reactions, this`nextReaction
      ensures Valid()
      ensures r.None? ==> reactions == old(reactions) && nextReaction == old(nextReaction)
      ensures r.Some? ==>
        r.value == old(nextReaction) && nextReaction == r.value + 1 &&
        reactions == old(reactions) + [Row(r.value, StoredReaction(d))]
    {
      var failed: bool :| true;
      if failed {
        return None;
      }
      AppendKeepsValid(reactions, nextReaction, StoredReaction(d));
      reactions := reactions + [Row(nextReaction, StoredReaction(d))];
      r := Some(nextReaction);
      nextReaction := nextReaction + 1;
    }

    /** insert_event: missing details are stored as an empty JSON object. */
    method InsertEvent(d: EventData) returns (r: Option<int>)
      requires Valid()
      modifies this`events, this`nextEvent
      ensures Valid()
      ensures r.None? ==> events == old(events) && nextEvent == old(nextEvent)
      ensures r.Some? ==>
        r.value == old(nextEvent) && nextEvent == r.value + 1 &&
        events == old(events) + [Row(r.value, StoredEvent(d))]
    {
      var failed: bool :| true;
      if failed {
        return None;
      }
      AppendKeepsValid(events, nextEvent, StoredEvent(d));
      events := events + [Row(nextEvent, StoredEvent(d))];
      r := Some(nextEvent);
      nextEvent := nextEvent + 1;
    }

    /** insert_media. */
    method InsertMedia(d: MediaData) returns (r: Option<int>)
      requires Valid()
      modifies this`media, this`nextMedia
      ensures Valid()
      ensures r.None? ==> media == old(media) && nextMedia == old(nextMedia)
      ensures r.Some? ==>
        r.value == old(nextMedia) && nextMedia == r.value + 1 &&
        media == old(media) + [Row(r.value, d)]
    {
      var failed: bool :| true;
      if failed {
        return None;
      }
      AppendKeepsValid(media, nextMedia, d);
      media := media + [Row(nextMedia, d)];
      r := Some(nextMedia);
      nextMedia := nextMedia + 1;
    }

    /** insert_contact. */
    method InsertContact(d: ContactData) returns (r: Option<int>)
      requires Valid()
      modifies this`contacts, this`nextContact
      ensures Valid()
      ensures r.None? ==> contacts == old(contacts) && nextContact == old(nextContact)
      ensures r.Some? ==>
        r.value == old(nextContact) && nextContact == r.value + 1 &&
        contacts == old(contacts) + [Row(r.value, d)]
    {
      var failed: bool :| true;
      if failed {
        return None;
      }
      AppendKeepsValid(contacts, nextContact, d);
      contacts := contacts + [Row(nextContact, d)];
      r := Some(nextContact);
      nextContact := nextContact + 1;
    }

    /** insert_group_event: missing details are stored as an empty JSON object. */
    method InsertGroupEvent(d: GroupData) returns (r: Option<int>)
      requires Valid()
      modifies this`groups, this`nextGroup
      ensures Valid()
      ensures r.None? ==> groups == old(groups) && nextGroup == old(nextGroup)
      ensures r.Some? ==>
        r.value == old(nextGroup) && nextGroup == r.value + 1 &&
        groups == old(groups) + [Row(r.value, StoredGroup(d))]
    {
      var failed: bool :| true;
      if failed {
        return None;
      }
      AppendKeepsValid(groups, nextGroup, StoredGroup(d));
      groups := groups + [Row(nextGroup, StoredGroup(d))];
      r := Some(nextGroup);
      nextGroup := nextGroup + 1;
    }

    /** get_statistics; `failed` stands for a query the connection refuses. */
    method GetStatistics(failed: bool) returns (stats: map<string, int>)
      ensures stats == if failed then map[] else Statistics(messages, reactions, events, media)
    {
      stats := if failed then map[] else Statistics(messages, reactions, events, media);
    }

    /** get_recent_events; `failed` stands for a query the connection refuses. */
    method GetRecentEvents(limit: int, failed: bool) returns (rows: seq<RecentRow>)
      ensures rows == if failed then [] else RecentEvents(messages, reactions, events, limit)
    {
      rows := if failed then [] else RecentEvents(messages, reactions, events, limit);
    }
  }

  /** Appending a row with the next id, and moving the next id past it, keeps a table valid. */
  lemma AppendKeepsValid<T>(rows: seq<Row<T>>, next: int, v: T)
    requires ValidTable(rows, next)
    ensures ValidTable(rows + [Row(next, v)], next + 1)
  {
    assert (rows + [Row(next, v)])[..|rows|] == rows;
  }

  /** A successful insertion hands out an id larger than every id already in the table. */
  lemma NewIdIsLargest<T>(rows: seq<Row<T>>, next: int, v: T)
    requires ValidTable(rows, next)
    ensures forall i :: 0 <= i < |rows| ==> rows[i].id < next
  {
    ValidTableIds(rows, next);
  }

  // ---- get_statistics

  /** The counts get_statistics reports: messages, reactions, events and media, nothing else. */
  function Statistics(messages: seq<Row<MessageData>>, reactions: seq<Row<ReactionData>>,
                      events: seq<Row<EventData>>, media: seq<Row<MediaData>>): (stats: map<string, int>)
    ensures stats.Keys == {"messages", "reactions", "events", "media"}
    ensures stats["messages"] == |messages| && stats["reactions"] == |reactions|
    ensures stats["events"] == |events| && stats["media"] == |media|
    ensures "contacts" !in stats && "groups" !in stats
  {
    map["messages" := |messages|, "reactions" := |reactions|, "events" := |events|, "media" := |media|]
  }

  // ---- get_recent_events

  /**
   * One row of the merged view. The columns are named after the first SELECT
   * of the UNION, so the user name is `sender_username` for every kind.
   */
  datatype RecentRow = RecentRow(kind: string, date: int, chatTitle: Option<string>,
                                 senderUsername: Option<string>, content: Option<string>)

  function MessageView(rows: seq<Row<MessageData>>): (v: seq<RecentRow>)
    ensures |v| == |rows|
    ensures forall i :: 0 <= i < |rows| ==>
              && v[i].kind == "message" && v[i].date == rows[i].value.date
              && v[i].chatTitle == rows[i].value.chatTitle && v[i].senderUsername == rows[i].value.senderUsername
              && v[i].content == rows[i].value.text
  {
    seq(|rows|, i requires 0 <= i < |rows| =>
      var m := rows[i].value;
      RecentRow("message", m.date, m.chatTitle, m.senderUsername, m.text))
  }

  function ReactionView(rows: seq<Row<ReactionData>>): (v: seq<RecentRow>)
    ensures |v| == |rows|
    ensures forall i :: 0 <= i < |rows| ==>
              && v[i].kind == "reaction" && v[i].date == rows[i].value.date && v[i].chatTitle == Some("")
              && v[i].senderUsername == rows[i].value.userUsername && v[i].content == Some(rows[i].value.reaction)
  {
    seq(|rows|, i requires 0 <= i < |rows| =>
      var x := rows[i].value;
      RecentRow("reaction", x.date, Some(""), x.userUsername, Some(x.reaction)))
  }

  function EventView(rows: seq<Row<EventData>>): (v: seq<RecentRow>)
    ensures |v| == |rows|
    ensures forall i :: 0 <= i < |rows| ==>
              && v[i].kind == "event" && v[i].date == rows[i].value.date && v[i].chatTitle == rows[i].value.chatTitle
              && v[i].senderUsername == rows[i].value.userUsername && v[i].content == Some(rows[i].value.eventType)
  {
    seq(|rows|, i requires 0 <= i < |rows| =>
      var e := rows[i].value;
      RecentRow("event", e.date, e.chatTitle, e.userUsername, Some(e.eventType)))
  }

  ghost predicate SortedByDateDesc(s: seq<RecentRow>) {
    forall i, j :: 0 <= i < j < |s| ==> s[i].date >= s[j].date
  }

  /** Inserts `x` into a newest-first sequence after every row at least as recent. */
  function InsertByDate(x: RecentRow, s: seq<RecentRow>): (r: seq<RecentRow>)
    ensures multiset(r) == multiset(s) + multiset{x}
    ensures |r| == |s| + 1
    ensures r[0] == x || (s != [] && r[0] == s[0])
  {
    if s == [] then [x]
    else if s[0].date < x.date then [x] + s
    else
      assert s == [s[0]] + s[1..];
      [s[0]] + InsertByDate(x, s[1..])
  }

  lemma {:induction false} InsertByDateSorted(x: RecentRow, s: seq<RecentRow>)
    requires SortedByDateDesc(s)
    ensures SortedByDateDesc(InsertByDate(x, s))
  {
    if s != [] && s[0].date >= x.date {
      var t := InsertByDate(x, s[1..]);
      InsertByDateSorted(x, s[1..]);
      var r := [s[0]] + t;
      forall i, j | 0 <= i < j < |r| ensures r[i].date >= r[j].date {
        if i == 0 {
          assert r[j] == t[j - 1];
          assert s[0].date >= t[0].date;
        } else {
          assert r[i] == t[i - 1] && r[j] == t[j - 1];
        }
      }
    }
  }

  /** ORDER BY date DESC: newest first; rows with equal dates may come in any order. */
  function SortByDateDesc(s: seq<RecentRow>): (r: seq<RecentRow>)
    ensures SortedByDateDesc(r)
    ensures multiset(r) == multiset(s)
    ensures |r| == |s|
  {
    if s == [] then []
    else
      assert s == [s[0]] + s[1..];
      var t := SortByDateDesc(s[1..]);
      InsertByDateSorted(s[0], t);
      InsertByDate(s[0], t)
  }

  /** SQLite's LIMIT: a negative limit means no limit at all. */
  function LimitCount(limit: int, total: nat): (n: nat)
    ensures n <= total
    ensures limit < 0 ==> n == total
    ensures 0 <= limit ==> n == if limit < total then limit else total
  {
    if limit < 0 || limit >= total then total else limit
  }

  /** The rows get_recent_events can return: messages, reactions and events, nothing else. */
  function AllRecent(messages: seq<Row<MessageData>>, reactions: seq<Row<ReactionData>>,
                     events: seq<Row<EventData>>): seq<RecentRow>
  {
    MessageView(messages) + ReactionView(reactions) + EventView(events)
  }

  /** get_recent_events: the union of the three views, newest first, cut to `limit` rows. */
  function RecentEvents(messages: seq<Row<MessageData>>, reactions: seq<Row<ReactionData>>,
                        events: seq<Row<EventData>>, limit: int): (r: seq<RecentRow>)
    ensures |r| == LimitCount(limit, |messages| + |reactions| + |events|)
    ensures SortedByDateDesc(r)
  {
    var all := AllRecent(messages, reactions, events);
    SortByDateDesc(all)[..LimitCount(limit, |all|)]
  }

  /**
   * The recent view returns rows of the three tables only, every one of them
   * when the limit allows, and every row it leaves out is no newer than every
   * row it returns.
   */
  lemma RecentEventsSelectsNewest(messages: seq<Row<MessageData>>, reactions: seq<Row<ReactionData>>,
                                  events: seq<Row<EventData>>, limit: int)
    ensures var all := AllRecent(messages, reactions, events);
            var r := RecentEvents(messages, reactions, events, limit);
            && multiset(r) <= multiset(all)
            && (|r| == |all| ==> multiset(r) == multiset(all))
            && (forall x, y :: x in multiset(all) - multiset(r) && y in r ==> x.date <= y.date)
            && (forall x :: x in r ==> x.kind in {"message", "reaction", "event"})
  {
    var all := AllRecent(messages, reactions, events);
    var sorted := SortByDateDesc(all);
    var n := LimitCount(limit, |all|);
    TakeSortedSplit(sorted, n);
    KindsOfAll(messages, reactions, events);
    forall x | x in sorted[..n] ensures x.kind in {"message", "reaction", "event"} {
      assert x in multiset(sorted);
    }
  }

  /**
   * A row of the union is returned when the limit allows every row, and also
   * whenever it is strictly newer than some row that is returned.
   */
  lemma ReturnedWhenNewer(messages: seq<Row<MessageData>>, reactions: seq<Row<ReactionData>>,
                          events: seq<Row<EventData>>, limit: int, x: RecentRow)
    requires x in AllRecent(messages, reactions, events)
    ensures var r := RecentEvents(messages, reactions, events, limit);
            && (limit < 0 || limit >= |messages| + |reactions| + |events| ==> x in r)
            && (forall y :: y in r && y.date < x.date ==> x in r)
  {
    var all := AllRecent(messages, reactions, events);
    var r := RecentEvents(messages, reactions, events, limit);
    RecentEventsSelectsNewest(messages, reactions, events, limit);
    assert x in multiset(all);
    if x !in r {
      assert x in multiset(all) - multiset(r);
    }
  }

  /** A message just stored is read back by the recent view as a message row with its columns. */
  lemma MessageRoundTrip(messages: seq<Row<MessageData>>, reactions: seq<Row<ReactionData>>,
                         events: seq<Row<EventData>>, id: int, d: MessageData, limit: int)
    ensures var ms := messages + [Row(id, StoredMessage(d))];
            var x := RecentRow("message", d.date, d.chatTitle, d.senderUsername, Some(d.text.GetOr("")));
            var r := RecentEvents(ms, reactions, events, limit);
            && x in AllRecent(ms, reactions, events)
            && (limit < 0 || limit >= |ms| + |reactions| + |events| ==> x in r)
            && (forall y :: y in r && y.date < x.date ==> x in r)
  {
    var ms := messages + [Row(id, StoredMessage(d))];
    var x := RecentRow("message", d.date, d.chatTitle, d.senderUsername, Some(d.text.GetOr("")));
    assert MessageView(ms)[|messages|] == x;
    ReturnedWhenNewer(ms, reactions, events, limit, x);
  }

  /** A reaction just stored is read back by the recent view as a reaction row with its columns. */
  lemma ReactionRoundTrip(messages: seq<Row<MessageData>>, reactions: seq<Row<ReactionData>>,
                          events: seq<Row<EventData>>, id: int, d: ReactionData, limit: int)
    ensures var rs := reactions + [Row(id, StoredReaction(d))];
            var x := RecentRow("reaction", d.date, Some(""), d.userUsername, Some(d.reaction));
            var r := RecentEvents(messages, rs, events, limit);
            && x in AllRecent(messages, rs, events)
            && (limit < 0 || limit >= |messages| + |rs| + |events| ==> x in r)
            && (forall y :: y in r && y.date < x.date ==> x in r)
  {
    var rs := reactions + [Row(id, StoredReaction(d))];
    var x := RecentRow("reaction", d.date, Some(""), d.userUsername, Some(d.reaction));
    assert ReactionView(rs)[|reactions|] == x;
    assert x in AllRecent(messages, rs, events) by {
      assert AllRecent(messages, rs, events)[|messages| + |reactions|] == x;
    }
    ReturnedWhenNewer(messages, rs, events, limit, x);
  }

  /** An event just stored is read back by the recent view as an event row with its columns. */
  lemma EventRoundTrip(messages: seq<Row<MessageData>>, reactions: seq<Row<ReactionData>>,
                       events: seq<Row<EventData>>, id: int, d: EventData, limit: int)
    ensures var es := events + [Row(id, StoredEvent(d))];
            var x := RecentRow("event", d.date, d.chatTitle, d.userUsername, Some(d.eventType));
            var r := RecentEvents(messages, reactions, es, limit);
            && x in AllRecent(messages, reactions, es)
            && (limit < 0 || limit >= |messages| + |reactions| + |es| ==> x in r)
            && (forall y :: y in r && y.date < x.date ==> x in r)
  {
    var es := events + [Row(id, StoredEvent(d))];
    var x := RecentRow("event", d.date, d.chatTitle, d.userUsername, Some(d.eventType));
    assert EventView(es)[|events|] == x;
    assert x in AllRecent(messages, reactions, es) by {
      assert AllRecent(messages, reactions, es)[|messages| + |reactions| + |events|] == x;
    }
    ReturnedWhenNewer(messages, reactions, es, limit, x);
  }

  lemma {:induction false} TakeSortedSplit(s: seq<RecentRow>, n: nat)
    requires SortedByDateDesc(s) && n <= |s|
    ensures multiset(s[..n]) <= multiset(s)
    ensures n == |s| ==> s[..n] == s
    ensures multiset(s) - multiset(s[..n]) == multiset(s[n..])
    ensures forall x, y :: x in multiset(s[n..]) && y in s[..n] ==> x.date <= y.date
  {
    TakeSplit(s, n);
    forall x, y | x in multiset(s[n..]) && y in s[..n] ensures x.date <= y.date {
      assert x in s[n..];
      TakenNotOlder(s, n, x, y);
    }
  }

  /** Cutting a list in two splits its multiset in two. */
  lemma TakeSplit(s: seq<RecentRow>, n: nat)
    requires n <= |s|
    ensures multiset(s[..n]) <= multiset(s)
    ensures n == |s| ==> s[..n] == s
    ensures multiset(s) - multiset(s[..n]) == multiset(s[n..])
  {
    assert s == s[..n] + s[n..];
  }

  /** In a list sorted newest first, nothing after the cut is newer than anything before it. */
  lemma TakenNotOlder(s: seq<RecentRow>, n: nat, x: RecentRow, y: RecentRow)
    requires SortedByDateDesc(s) && n <= |s|
    requires x in s[n..] && y in s[..n]
    ensures x.date <= y.date
  {
    var i :| 0 <= i < n && s[i] == y;
    var j :| 0 <= j < |s| - n && s[n..][j] == x;
    assert s[n + j] == x;
  }

  lemma KindsOfAll(messages: seq<Row<MessageData>>, reactions: seq<Row<ReactionData>>, events: seq<Row<EventData>>)
    ensures forall x :: x in AllRecent(messages, reactions, events) ==> x.kind in {"message", "reaction", "event"}
  {
    var a, b, c := MessageView(messages), ReactionView(reactions), EventView(events);
    forall x: RecentRow | x in a + b + c ensures x.kind in {"message", "reaction", "event"} {
      if x in a {
        var i :| 0 <= i < |a| && a[i] == x;
      } else if x in b {
        var i :| 0 <= i < |b| && b[i] == x;
      } else {
        var i :| 0 <= i < |c| && c[i] == x;
      }
    }
  }
}
