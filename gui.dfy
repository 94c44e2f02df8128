// The presentation-side rules of gui.py: which monitor events the window shows and with which
// colour tag, the bounded log pane, the command history of the console and the console commands
// whose effect is on state this model keeps (filters, log, monitoring flag).

module Gui {
  import opened Wrappers
  import opened Text
  import Monitoring

  // ---- filters

  /** The filter flags of the window, in the order of the dictionary that holds them. */
  const FilterKeys: seq<string> := ["messages", "my_messages", "deleted", "edited", "reactions", "events",
                                    "status", "media", "private", "group", "supergroup", "channel"]

  const FilterKeySet: set<string> := set k | k in FilterKeys

  /** The filter state right after the window is built: every flag on. */
  function InitialFilters(): (f: map<string, bool>)
    ensures f.Keys == FilterKeySet
    ensures forall k :: k in f ==> f[k]
  {
    map k | k in FilterKeySet :: true
  }

  // ---- the event decision

  /**
   * An event handed over by the monitor, with the dictionary's defaults already applied:
   * a missing `type` is "info", a missing `display` is "", and a missing or null `chat_type`
   * is "" (both are falsy). `outgoing` is the truth value of `data.get('is_outgoing', False)`.
   */
  datatype EventData = EventData(eventType: string, display: string, chatType: string, outgoing: bool)

  /** The filter a chat kind is checked against: supergroups share the flag of groups. */
  function ChatFilterKey(chatType: string): (key: string)
    ensures chatType != "supergroup" ==> key == chatType
    ensures key != "supergroup"
  {
    if chatType == "supergroup" then "group" else chatType
  }

  /** The chat-kind check hides the event: a non-empty kind whose filter exists and is off. */
  predicate ChatHidden(chatType: string, filters: map<string, bool>) {
    chatType != "" && ChatFilterKey(chatType) in filters && !filters[ChatFilterKey(chatType)]
  }

  /** The tags the log pane knows; any other event type is logged as "info". */
  const LogTags: set<string> := {"message", "my_message", "deleted", "edited", "reaction", "event",
                                 "status", "media", "info", "error"}

  function LogTag(eventType: string): (tag: string)
    ensures tag in LogTags
    ensures tag == eventType <==> eventType in LogTags
  {
    if eventType in LogTags then eventType else "info"
  }

  /** The flag that gates one of the event types other than "message", and the tag it is shown with. */
  datatype Route = Route(eventType: string, key: string, tag: string)

  const Routes: seq<Route> := [
    Route("message_deleted", "deleted", "deleted"),
    Route("message_edited", "edited", "edited"),
    Route("reaction", "reactions", "reaction"),
    Route("chat_event", "events", "event"),
    Route("status", "status", "status"),
    Route("media", "media", "media")]

  function Gate(filters: map<string, bool>, key: string, tag: string): Option<string>
    requires key in filters
  {
    if filters[key] then Some(tag) else None
  }

  /**
   * The decision of `_on_event`: `None` when the event is filtered out, otherwise the tag it is
   * logged with.
   */
  function EventTag(e: EventData, filters: map<string, bool>): (tag: Option<string>)
    requires FilterKeySet <= filters.Keys
    ensures ChatHidden(e.chatType, filters) ==> tag == None
    ensures tag.Some? ==> tag.value in LogTags
  {
    if ChatHidden(e.chatType, filters) then None
    else if e.eventType == "message" then
      if !filters["messages"] then None
      else if e.outgoing then Gate(filters, "my_messages", "my_message")
      else Some("message")
    else if e.eventType == "message_deleted" then Gate(filters, "deleted", "deleted")
    else if e.eventType == "message_edited" then Gate(filters, "edited", "edited")
    else if e.eventType == "reaction" then Gate(filters, "reactions", "reaction")
    else if e.eventType == "chat_event" then Gate(filters, "events", "event")
    else if e.eventType == "status" then Gate(filters, "status", "status")
    else if e.eventType == "media" then Gate(filters, "media", "media")
    else Some("info")
  }

  /** A message event is shown iff messages are on and, for an outgoing one, own messages too. */
  lemma MessageEvents(e: EventData, filters: map<string, bool>)
    requires FilterKeySet <= filters.Keys
    requires e.eventType == "message"
    ensures EventTag(e, filters).Some? <==>
            !ChatHidden(e.chatType, filters) && filters["messages"] && (e.outgoing ==> filters["my_messages"])
    ensures EventTag(e, filters).Some? ==>
            EventTag(e, filters).value == (if e.outgoing then "my_message" else "message")
  {
  }

  /** Each routed event type is shown iff its chat passes and its flag is on, with the route's tag. */
  lemma RoutedEvents(e: EventData, filters: map<string, bool>, r: Route)
    requires FilterKeySet <= filters.Keys
    requires r in Routes && e.eventType == r.eventType
    ensures r.key in filters
    ensures EventTag(e, filters) == (if !ChatHidden(e.chatType, filters) && filters[r.key] then Some(r.tag) else None)
  {
  }

  /** Any other event type is shown with the "info" tag unless its chat is hidden. */
  lemma UnroutedEvents(e: EventData, filters: map<string, bool>)
    requires FilterKeySet <= filters.Keys
    requires e.eventType != "message" && forall r :: r in Routes ==> r.eventType != e.eventType
    ensures EventTag(e, filters) == (if ChatHidden(e.chatType, filters) then None else Some("info"))
  {
    assert Routes[0] in Routes && Routes[1] in Routes && Routes[2] in Routes;
    assert Routes[3] in Routes && Routes[4] in Routes && Routes[5] in Routes;
  }

  /** The "supergroup" flag takes part in no decision. */
  lemma SupergroupFlagIgnored(e: EventData, filters: map<string, bool>, b: bool)
    requires FilterKeySet <= filters.Keys
    ensures EventTag(e, filters["supergroup" := b]) == EventTag(e, filters)
  {
    var g := filters["supergroup" := b];
    assert ChatFilterKey(e.chatType) != "supergroup";
    assert ChatHidden(e.chatType, g) == ChatHidden(e.chatType, filters);
  }

  /** An empty chat kind, or one without a filter (such as "unknown"), never hides an event. */
  lemma UnfilteredKindsPass(chatType: string, filters: map<string, bool>)
    requires filters.Keys == FilterKeySet
    requires chatType == "" || ChatFilterKey(chatType) !in FilterKeySet
    ensures !ChatHidden(chatType, filters)
  {
  }

  /** The event the window receives for one of the monitor's notifications (display text aside). */
  function EventOf(b: Monitoring.Broadcast, display: string): (e: EventData)
    ensures e.eventType == Monitoring.CategoryName(b.category)
    ensures e.chatType == Monitoring.ChatKindName(b.chatType)
  {
    EventData(Monitoring.CategoryName(b.category), display, Monitoring.ChatKindName(b.chatType),
              b.data.MessagePayload? && b.data.message.isOutgoing)
  }

  /** The filter flag that a conversation kind of the monitor is checked against. */
  function KindKey(kind: Monitoring.ChatKind): Option<string> {
    match kind
    case PrivateChat => Some("private")
    case GroupChat => Some("group")
    case SupergroupChat => Some("group")
    case ChannelChat => Some("channel")
    case UnknownChat => None
  }

  /**
   * How the window treats each notification of the monitor: hidden when the kind's flag is off,
   * otherwise gated by the category's own flag and tagged by category (and, for new messages,
   * by direction).
   */
  lemma {:induction false} NotificationShown(b: Monitoring.Broadcast, display: string, filters: map<string, bool>)
    requires filters.Keys == FilterKeySet
    ensures var e := EventOf(b, display);
            ChatHidden(e.chatType, filters) <==> KindKey(b.chatType).Some? && !filters[KindKey(b.chatType).value]
    ensures var t := EventTag(EventOf(b, display), filters);
            t.Some? ==> t.value == match b.category
                                   case NewMessage => if b.data.MessagePayload? && b.data.message.isOutgoing then "my_message" else "message"
                                   case EditedMessage => "edited"
                                   case DeletedMessage => "deleted"
                                   case NewReaction => "reaction"
  {
    var e := EventOf(b, display);
    match b.chatType
    case PrivateChat => assert e.chatType == "private";
    case GroupChat => assert e.chatType == "group";
    case SupergroupChat => assert e.chatType == "supergroup";
    case ChannelChat => assert e.chatType == "channel";
    case UnknownChat => assert e.chatType == "unknown"; assert "unknown" !in FilterKeySet;
  }

  // ---- the log pane

  /** One line of the log pane's text, with the tag it was inserted under. */
  datatype LogLine = LogLine(text: string, tag: string)

  /** The lines of a text, as `s.split('\n')` gives them. */
  function SplitLines(s: string): (ls: seq<string>)
    ensures |ls| >= 1
    ensures forall k :: 0 <= k < |ls| ==> '\n' !in ls[k]
    ensures '\n' !in s ==> ls == [s]
  {
    if s == [] then [""]
    else
      var rest := SplitLines(s[1..]);
      if s[0] == '\n' then [""] + rest
      else
        assert s == [s[0]] + s[1..];
        [[s[0]] + rest[0]] + rest[1..]
  }

  /** `'\n'.join(ls)` */
  function JoinLines(ls: seq<string>): string
    requires |ls| >= 1
  {
    if |ls| == 1 then ls[0] else ls[0] + "\n" + JoinLines(ls[1..])
  }

  /** Splitting at newlines and joining back gives the text again. */
  lemma {:induction false} JoinSplitLines(s: string)
    ensures JoinLines(SplitLines(s)) == s
  {
    if s != [] {
      JoinSplitLines(s[1..]);
      var rest := SplitLines(s[1..]);
      if s[0] == '\n' {
        assert ([""] + rest)[1..] == rest;
      } else {
        var ls := [[s[0]] + rest[0]] + rest[1..];
        if |rest| == 1 {
          assert ls == [[s[0]] + rest[0]];
        } else {
          assert ls[1..] == rest[1..];
          assert JoinLines(rest) == rest[0] + "\n" + JoinLines(rest[1..]);
        }
      }
    }
  }

  function Tagged(pieces: seq<string>, tag: string): (ls: seq<LogLine>)
    ensures |ls| == |pieces|
    ensures forall k :: 0 <= k < |pieces| ==> ls[k] == LogLine(pieces[k], tag)
  {
    seq(|pieces|, k requires 0 <= k < |pieces| => LogLine(pieces[k], tag))
  }

  /** Once the pane holds 2000 lines (Tk counts one more, the empty line after the last newline). */
  const MaxLogLines: nat := 2000
  /** Deleting from "1.0" to "200.0" removes the first 199 lines. */
  const DroppedLines: nat := 199

  /** The lines `_log` inserts for one message: "[<stamp>] <message>", split at its newlines. */
  function LogEntry(stamp: string, message: string, eventType: string): (ls: seq<LogLine>)
    ensures |ls| >= 1
    ensures forall k :: 0 <= k < |ls| ==> ls[k].tag == LogTag(eventType)
  {
    Tagged(SplitLines("[" + stamp + "] " + message), LogTag(eventType))
  }

  /** The texts of some lines of the pane, without their tags. */
  function LineTexts(lines: seq<LogLine>): (ts: seq<string>)
    ensures |ts| == |lines|
    ensures forall k :: 0 <= k < |lines| ==> ts[k] == lines[k].text
  {
    seq(|lines|, k requires 0 <= k < |lines| => lines[k].text)
  }

  /** Read back with newlines between them, the lines of an entry spell "[<stamp>] <message>". */
  lemma LogEntryText(stamp: string, message: string, eventType: string)
    ensures |LineTexts(LogEntry(stamp, message, eventType))| >= 1
    ensures JoinLines(LineTexts(LogEntry(stamp, message, eventType))) == "[" + stamp + "] " + message
  {
    var s := "[" + stamp + "] " + message;
    assert LineTexts(LogEntry(stamp, message, eventType)) == SplitLines(s);
    JoinSplitLines(s);
  }

  /**
   * The pane after `_log`: the entry goes at the end; when the pane then holds at least
   * `MaxLogLines` complete lines, its first `DroppedLines` lines are deleted.
   */
  function AppendLog(lines: seq<LogLine>, stamp: string, message: string, eventType: string): (r: seq<LogLine>)
    ensures var all := lines + LogEntry(stamp, message, eventType);
            |all| < MaxLogLines ==> r == all
    ensures var all := lines + LogEntry(stamp, message, eventType);
            |all| >= MaxLogLines ==> |r| == |all| - DroppedLines && r == all[DroppedLines..]
  {
    var all := lines + LogEntry(stamp, message, eventType);
    if |all| + 1 > MaxLogLines then all[DroppedLines..] else all
  }

  /** A pane kept below the cap stays below it when each message is a single line, which goes last. */
  lemma LogStaysBelowCap(lines: seq<LogLine>, stamp: string, message: string, eventType: string)
    requires |lines| < MaxLogLines
    requires '\n' !in stamp && '\n' !in message
    ensures |AppendLog(lines, stamp, message, eventType)| < MaxLogLines
    ensures AppendLog(lines, stamp, message, eventType)[|AppendLog(lines, stamp, message, eventType)| - 1] ==
            LogLine("[" + stamp + "] " + message, LogTag(eventType))
  {
    NoNewlineIn("[", stamp);
    NoNewlineIn("[" + stamp, "] ");
    NoNewlineIn("[" + stamp + "] ", message);
    LastLogLine(lines, stamp, message, eventType);
  }

  datatype Reply = Reply(message: string, tag: string)

  /** Several `_log` calls in a row. */
  function LogAll(lines: seq<LogLine>, stamp: string, replies: seq<Reply>): seq<LogLine>
    decreases |replies|
  {
    if replies == [] then lines
    else LogAll(AppendLog(lines, stamp, replies[0].message, replies[0].tag), stamp, replies[1..])
  }

  // ---- searching the log

  predicate StartsWith(s: string, p: string) {
    |p| <= |s| && s[..|p|] == p
  }

  /** `p in s` for strings. */
  predicate Contains(s: string, p: string)
    decreases |s|
  {
    StartsWith(s, p) || (s != [] && Contains(s[1..], p))
  }

  lemma {:induction false} ContainsSuffix(a: string, b: string)
    ensures Contains(a + b, b)
    decreases |a|
  {
    if a == [] {
      assert a + b == b;
    } else {
      assert (a + b)[1..] == a[1..] + b;
      ContainsSuffix(a[1..], b);
    }
  }

  /** `content.split('\n')` for `content = log_text.get('1.0', END)`: the lines, then two empty strings. */
  function ContentLines(lines: seq<LogLine>): (ss: seq<string>)
    ensures |ss| == |lines| + 2
    ensures forall k :: 0 <= k < |lines| ==> ss[k] == lines[k].text
  {
    LineTexts(lines) + ["", ""]
  }

  /** How many lines contain the needle, ignoring case. */
  function CountMatches(ss: seq<string>, needle: string): (n: nat)
    ensures n <= |ss|
  {
    if ss == [] then 0
    else CountMatches(ss[..|ss| - 1], needle) + (if Contains(Lower(ss[|ss| - 1]), Lower(needle)) then 1 else 0)
  }

  /** No match is counted exactly when no line contains the needle. */
  lemma {:induction false} CountMatchesZeroIff(ss: seq<string>, needle: string)
    ensures CountMatches(ss, needle) == 0 <==> forall k :: 0 <= k < |ss| ==> !Contains(Lower(ss[k]), Lower(needle))
    decreases |ss|
  {
    if ss != [] {
      var init := ss[..|ss| - 1];
      CountMatchesZeroIff(init, needle);
      assert forall k :: 0 <= k < |init| ==> init[k] == ss[k];
    }
  }

  function JoinWords(ws: seq<string>): string
    requires |ws| >= 1
  {
    if |ws| == 1 then ws[0] else ws[0] + " " + JoinWords(ws[1..])
  }

  function SearchReply(lines: seq<LogLine>, needle: string): (r: Reply)
    ensures r.tag == "info"
  {
    var n := CountMatches(ContentLines(lines), needle);
    if n > 0 then Reply("Найдено совпадений: " + NatToDecimal(n), "info")
    else Reply("Совпадений не найдено: '" + needle + "'", "info")
  }

  /** The two replies of a search: the count when some line matches, the needle quoted back otherwise. */
  lemma SearchReplyMessages(lines: seq<LogLine>, needle: string)
    ensures var ss := ContentLines(lines);
            (forall k :: 0 <= k < |ss| ==> !Contains(Lower(ss[k]), Lower(needle))) ==>
              SearchReply(lines, needle) == Reply("Совпадений не найдено: '" + needle + "'", "info")
    ensures var ss := ContentLines(lines);
            (exists k :: 0 <= k < |ss| && Contains(Lower(ss[k]), Lower(needle))) ==>
              CountMatches(ss, needle) >= 1 &&
              SearchReply(lines, needle) == Reply("Найдено совпадений: " + NatToDecimal(CountMatches(ss, needle)), "info")
  {
    CountMatchesZeroIff(ContentLines(lines), needle);
  }

  /**
   * The echo "> search <needle>" is logged before the search runs, so a needle without newlines
   * always finds at least that line.
   */
  lemma {:induction false} SearchFindsItsEcho(lines: seq<LogLine>, stamp: string, needle: string)
    requires '\n' !in stamp && '\n' !in needle
    ensures var echoed := AppendLog(lines, stamp, "> search " + needle, "info");
            CountMatches(ContentLines(echoed), needle) >= 1
  {
    var prefix := "[" + stamp + "] > search ";
    NoNewlineIn("[", stamp);
    NoNewlineIn("[" + stamp, "] > search ");
    NoNewlineIn(prefix, needle);
    assert "[" + stamp + "] " + ("> search " + needle) == prefix + needle;
    LastLogLine(lines, stamp, "> search " + needle, "info");
    var echoed := AppendLog(lines, stamp, "> search " + needle, "info");
    LowerAppend(prefix, needle);
    ContainsSuffix(Lower(prefix), Lower(needle));
    MatchBelow(ContentLines(echoed), needle, |echoed| - 1);
  }

  lemma NoNewlineIn(a: string, b: string)
    requires '\n' !in a && '\n' !in b
    ensures '\n' !in a + b
  {
    assert forall k :: 0 <= k < |a + b| ==> (a + b)[k] in a || (a + b)[k] in b;
  }

  lemma LowerAppend(a: string, b: string)
    ensures Lower(a + b) == Lower(a) + Lower(b)
  {
  }

  /** A single-line entry ends up as the last line of the pane. */
  lemma LastLogLine(lines: seq<LogLine>, stamp: string, message: string, eventType: string)
    requires '\n' !in "[" + stamp + "] " + message
    ensures var r := AppendLog(lines, stamp, message, eventType);
            |r| >= 1 && r[|r| - 1] == LogLine("[" + stamp + "] " + message, LogTag(eventType))
  {
    assert LogEntry(stamp, message, eventType) == [LogLine("[" + stamp + "] " + message, LogTag(eventType))];
  }

  lemma {:induction false} MatchBelow(ss: seq<string>, needle: string, k: nat)
    requires k < |ss| && Contains(Lower(ss[k]), Lower(needle))
    ensures CountMatches(ss, needle) >= 1
    decreases |ss|
  {
    if k < |ss| - 1 {
      assert ss[..|ss| - 1][k] == ss[k];
      MatchBelow(ss[..|ss| - 1], needle, k);
    }
  }

  // ---- the command history

  const MaxHistory: nat := 50

  /** The history never exceeds its cap and never holds the same command twice in a row. */
  ghost predicate HistoryValid(h: seq<string>) {
    |h| <= MaxHistory && forall i :: 0 <= i < |h| - 1 ==> h[i] != h[i + 1]
  }

  /** A command goes in only if it differs from the last one; past the cap the oldest is dropped. */
  function Pushed(h: seq<string>, command: string): (r: seq<string>)
    ensures |r| >= 1 && r[|r| - 1] == command
    ensures h != [] && h[|h| - 1] == command ==> r == h
    ensures (h == [] || h[|h| - 1] != command) && |h| < MaxHistory ==> r == h + [command]
    ensures (h == [] || h[|h| - 1] != command) && |h| >= MaxHistory ==> r == (h + [command])[1..]
    ensures HistoryValid(h) ==> HistoryValid(r)
  {
    if h != [] && h[|h| - 1] == command then h
    else
      var added := h + [command];
      if |added| > MaxHistory then added[1..] else added
  }

  // ---- console commands

  /** The console commands, after the first word is matched (aliases already merged). */
  datatype Command =
    | Help | Clear | Stats | Filter(args: seq<string>) | Export | Stop | Start | Status
    | Search(args: seq<string>) | LoginRequests(args: seq<string>) | Unknown(word: string)

  const CommandWords: set<string> := {"help", "?", "clear", "cls", "stats", "stat", "filter", "export",
                                      "stop", "pause", "start", "resume", "status", "search", "spamtg"}

  /** The dispatch on the lower-cased first word. */
  function Dispatch(word: string, args: seq<string>): (c: Command)
    ensures c.Unknown? ==> c.word == word
    ensures c.Filter? || c.Search? || c.LoginRequests? ==> c.args == args
  {
    if word == "help" || word == "?" then Help
    else if word == "clear" || word == "cls" then Clear
    else if word == "stats" || word == "stat" then Stats
    else if word == "filter" then Filter(args)
    else if word == "export" then Export
    else if word == "stop" || word == "pause" then Stop
    else if word == "start" || word == "resume" then Start
    else if word == "status" then Status
    else if word == "search" then Search(args)
    else if word == "spamtg" then LoginRequests(args)
    else Unknown(word)
  }

  /** Exactly the fifteen command words are recognised. */
  lemma KnownWords(word: string, args: seq<string>)
    ensures Dispatch(word, args).Unknown? <==> word !in CommandWords
  {
  }

  /** Aliases dispatch identically. */
  lemma Aliases(args: seq<string>)
    ensures Dispatch("?", args) == Dispatch("help", args) == Help
    ensures Dispatch("cls", args) == Dispatch("clear", args) == Clear
    ensures Dispatch("stat", args) == Dispatch("stats", args) == Stats
    ensures Dispatch("pause", args) == Dispatch("stop", args) == Stop
    ensures Dispatch("resume", args) == Dispatch("start", args) == Start
  {
  }

  /** `parts = command.split()`; nothing when there are no words, else the command the words name. */
  function ParseCommand(command: string): (c: Option<Command>)
    ensures c.None? <==> Words(command) == []
    ensures c.Some? ==> c.value == Dispatch(Lower(Words(command)[0]), Words(command)[1..])
  {
    var parts := Words(command);
    if parts == [] then None else Some(Dispatch(Lower(parts[0]), parts[1..]))
  }

  /** The first word is matched without regard to ASCII case. */
  lemma {:induction false} CommandWordIgnoresCase(command: string)
    requires Words(command) != []
    ensures ParseCommand(command).value ==
            Dispatch(Lower(Lower(Words(command)[0])), Words(command)[1..])
  {
    var w := Words(command)[0];
    assert Lower(Lower(w)) == Lower(w) by {
      forall i | 0 <= i < |w| ensures Lower(Lower(w))[i] == Lower(w)[i] {
        assert LowerChar(LowerChar(w[i])) == LowerChar(w[i]);
      }
    }
  }

  /** A line that is not only white space always has a first word. */
  lemma {:induction false} NonBlankHasWords(s: string)
    requires exists i :: 0 <= i < |s| && !IsSpace(s[i])
    ensures Words(s) != []
    decreases |s|
  {
    if IsSpace(s[0]) {
      var i :| 0 <= i < |s| && !IsSpace(s[i]);
      assert s[1..][i - 1] == s[i];
      NonBlankHasWords(s[1..]);
    }
  }

  // ---- the filter command

  /** The filter state after `filter <args>`. */
  function FilterUpdate(f: map<string, bool>, args: seq<string>): map<string, bool> {
    if |args| < 2 then f
    else
      var key := Lower(args[0]);
      var action := Lower(args[1]);
      if action != "on" && action != "off" then f
      else if key == "all" then map k | k in f :: action == "on"
      else if key in f then f[key := action == "on"]
      else f
  }

  /**
   * The filter command keeps the set of flags; it changes nothing with fewer than two
   * arguments, an action other than on/off, or an unknown key; "all" sets every flag; a known
   * key sets exactly that flag.
   */
  lemma FilterCommandEffect(f: map<string, bool>, args: seq<string>)
    ensures FilterUpdate(f, args).Keys == f.Keys
    ensures |args| < 2 ==> FilterUpdate(f, args) == f
    ensures |args| >= 2 && Lower(args[1]) != "on" && Lower(args[1]) != "off" ==> FilterUpdate(f, args) == f
    ensures |args| >= 2 && Lower(args[1]) in {"on", "off"} && Lower(args[0]) == "all" ==>
              forall k :: k in f ==> FilterUpdate(f, args)[k] == (Lower(args[1]) == "on")
    ensures |args| >= 2 && Lower(args[1]) in {"on", "off"} && Lower(args[0]) != "all" ==>
              forall k :: k in f && k != Lower(args[0]) ==> FilterUpdate(f, args)[k] == f[k]
    ensures |args| >= 2 && Lower(args[1]) in {"on", "off"} && Lower(args[0]) != "all" && Lower(args[0]) in f ==>
              FilterUpdate(f, args)[Lower(args[0])] == (Lower(args[1]) == "on")
    ensures |args| >= 2 && Lower(args[0]) !in f && Lower(args[0]) != "all" ==> FilterUpdate(f, args) == f
  {
  }

  const FilterUsage := "Использование: filter <тип> <on/off>"
  const FilterTypes := "Типы: messages, my_messages, deleted, edited, reactions, events, status, media, private, group, supergroup, channel, all"

  /** What `filter <args>` writes to the log. */
  function FilterReplies(args: seq<string>): (rs: seq<Reply>)
    ensures |rs| >= 1
    ensures rs[0].tag == "error" <==> |args| < 2 || Lower(args[1]) !in {"on", "off"} ||
                                      (Lower(args[0]) != "all" && Lower(args[0]) !in FilterKeySet)
  {
    if |args| < 2 then [Reply(FilterUsage, "error"), Reply(FilterTypes, "info")]
    else
      var key := Lower(args[0]);
      var action := Lower(args[1]);
      if action != "on" && action != "off" then [Reply("Действие должно быть 'on' или 'off'", "error")]
      else if key == "all" then [Reply("Все фильтры " + (if action == "on" then "включены" else "выключены"), "info")]
      else if key in FilterKeySet then
        [Reply("Фильтр '" + key + "' " + (if action == "on" then "включен" else "выключен"), "info")]
      else [Reply("Неизвестный тип фильтра: " + key, "error")]
  }

  // ---- the monitoring commands

  const StartedLine := "🚀 Мониторинг запущен! Все события будут отображаться здесь."
  const StoppedLine := "⏸️ Мониторинг остановлен"

  /** What `stop` writes to the log. */
  function StopReplies(monitoring: bool): seq<Reply> {
    if monitoring then [Reply(StoppedLine, "info"), Reply("Мониторинг остановлен командой", "info")]
    else [Reply("Мониторинг не запущен", "info")]
  }

  /** What `start` writes to the log. */
  function StartReplies(monitoring: bool, connected: bool): seq<Reply> {
    if !monitoring && connected then
      [Reply(StartedLine, "info"), Reply(seq(80, _ => '='), "info"), Reply("Мониторинг запущен командой", "info")]
    else [Reply("Мониторинг уже запущен или не подключен", "info")]
  }

  /** What `search <args>` writes to the log. */
  function SearchReplies(lines: seq<LogLine>, args: seq<string>): seq<Reply> {
    if args == [] then [Reply("Использование: search <текст>", "error")]
    else [SearchReply(lines, JoinWords(args))]
  }

  /** What an unknown command writes to the log. */
  function UnknownReplies(word: string): seq<Reply> {
    [Reply("Неизвестная команда: " + word + ". Введите 'help' для списка команд", "error")]
  }

  /** What a console command writes to the log after the echo, and the monitoring flag after it. */
  function CommandReplies(c: Command, monitoring: bool, connected: bool, lines: seq<LogLine>): seq<Reply> {
    match c
    case Filter(args) => FilterReplies(args)
    case Stop => StopReplies(monitoring)
    case Start => StartReplies(monitoring, connected)
    case Search(args) => SearchReplies(lines, args)
    case Unknown(word) => UnknownReplies(word)
    case _ => []
  }

  function MonitoringAfter(c: Command, monitoring: bool, connected: bool): (m: bool)
    ensures !c.Stop? && !c.Start? ==> m == monitoring
    ensures c.Stop? ==> !m
    ensures c.Start? ==> (m <==> monitoring || connected)
  {
    match c
    case Stop => false
    case Start => monitoring || connected
    case _ => monitoring
  }

  // ---- submitting a console line

  /** What pressing Enter in the console comes to: nothing, an AttributeError, or a command that runs. */
  datatype Submission = Ignored | Raised | Ran(command: Command)

  /**
   * The outcome of `_execute_command` for the entry field's text. A blank line returns at once.
   * Any other line reads `command_history`; when the window never assigned it, that read raises
   * before the line is recorded, echoed or dispatched.
   */
  function SubmissionOf(historyInitialised: bool, line: string): (s: Submission)
    ensures s.Ignored? <==> Strip(line) == ""
    ensures s.Raised? <==> !historyInitialised && Strip(line) != ""
    ensures s.Ran? ==> ParseCommand(Strip(line)) == Some(s.command)
  {
    var text := Strip(line);
    if text == "" then Ignored
    else if !historyInitialised then Raised
    else
      NonBlankHasWords(text);
      Ran(ParseCommand(text).value)
  }

  /** As written, no console line ever reaches a command: `help` raises instead of running. */
  lemma AsWrittenNoCommandRuns(line: string)
    ensures !SubmissionOf(false, line).Ran?
    ensures line == "help" ==> SubmissionOf(false, line) == Raised
  {
    if line == "help" {
      assert line[0] == 'h' && line[3] == 'p';
      StripKeepsUnpadded(line);
    }
  }

  /** With the history initialised, every non-blank line runs the command its first word names. */
  lemma InitialisedNonBlankRuns(line: string)
    requires Strip(line) != ""
    ensures SubmissionOf(true, line).Ran?
    ensures Some(SubmissionOf(true, line).command) == ParseCommand(Strip(line))
  {
  }

  // ---- the window

  /**
   * The state of the monitor window that its console and event handler work on. `connected`
   * stands for the monitor object being present (it is set by connecting, which is not modelled).
   */
  class MonitorWindow {
    const connected: bool
    /** Whether `command_history` and `command_history_index` exist; the program never assigns them. */
    const historyInitialised: bool
    var filters: map<string, bool>
    var lines: seq<LogLine>
    var history: seq<string>
    var historyIndex: int
    var entry: string
    var monitoring: bool

    ghost predicate Valid()
      reads this
    {
      filters.Keys == FilterKeySet && HistoryValid(history) && 0 <= historyIndex <= |history|
    }

    /** The window as built: all filters on, an empty log, and an empty history at index 0. */
    constructor(connected: bool, historyInitialised: bool)
      ensures Valid()
      ensures this.connected == connected && this.historyInitialised == historyInitialised
      ensures filters == InitialFilters() && lines == [] && history == [] && historyIndex == 0
      ensures entry == "" && !monitoring
    {
      this.connected := connected;
      this.historyInitialised := historyInitialised;
      filters := InitialFilters();
      lines := [];
      history := [];
      historyIndex := 0;
      entry := "";
      monitoring := false;
    }

    /** `_log`: inserts the message's lines, then trims the pane once it reaches the cap. */
    method Log(message: string, stamp: string, eventType: string)
      modifies this`lines
      ensures lines == AppendLog(old(lines), stamp, message, eventType)
    {
      lines := lines + LogEntry(stamp, message, eventType);
      if |lines| + 1 > MaxLogLines {
        lines := lines[DroppedLines..];
      }
    }

    method LogReplies(stamp: string, replies: seq<Reply>)
      modifies this`lines
      ensures lines == LogAll(old(lines), stamp, replies)
    {
      var i := 0;
      while i < |replies|
        invariant 0 <= i <= |replies|
        invariant LogAll(old(lines), stamp, replies) == LogAll(lines, stamp, replies[i..])
      {
        assert replies[i..][1..] == replies[i + 1..];
        Log(replies[i].message, stamp, replies[i].tag);
        i := i + 1;
      }
    }

    /** `_on_event`: a shown event is logged under its tag; a hidden one changes nothing. */
    method OnEvent(e: EventData, stamp: string) returns (shown: bool)
      requires Valid()
      modifies this`lines
      ensures shown <==> EventTag(e, filters).Some?
      ensures shown ==> lines == AppendLog(old(lines), stamp, e.display, EventTag(e, filters).value)
      ensures !shown ==> lines == old(lines)
    {
      var tag := EventTag(e, filters);
      if tag.None? {
        return false;
      }
      Log(e.display, stamp, tag.value);
      shown := true;
    }

    /** The history update of `_execute_command` for a non-empty stripped command. */
    method PushHistory(command: string)
      requires Valid()
      modifies this`history, this`historyIndex
      ensures Valid()
      ensures history == Pushed(old(history), command)
      ensures historyIndex == |history|
    {
      if history == [] || history[|history| - 1] != command {
        history := history + [command];
        if |history| > MaxHistory {
          history := history[1..];
        }
      }
      historyIndex := |history|;
    }

    /** `_command_history_up`: one entry back, if there is one before the current index. */
    method HistoryUp() returns (raised: bool)
      requires Valid()
      modifies this`historyIndex, this`entry
      ensures Valid()
      ensures raised <==> !historyInitialised
      ensures raised ==> historyIndex == old(historyIndex) && entry == old(entry)
      ensures !raised && history != [] && old(historyIndex) > 0 ==>
                historyIndex == old(historyIndex) - 1 && entry == history[historyIndex]
      ensures !raised && !(history != [] && old(historyIndex) > 0) ==>
                historyIndex == old(historyIndex) && entry == old(entry)
    {
      raised := !historyInitialised;
      if raised {
        return;
      }
      if history != [] && historyIndex > 0 {
        historyIndex := historyIndex - 1;
        entry := history[historyIndex];
      }
    }

    /**
     * `_command_history_down`: one entry forward while below the last one; otherwise past the end,
     * with the entry field cleared.
     */
    method HistoryDown() returns (raised: bool)
      requires Valid()
      modifies this`historyIndex, this`entry
      ensures Valid()
      ensures raised <==> !historyInitialised
      ensures raised ==> historyIndex == old(historyIndex) && entry == old(entry)
      ensures !raised && history == [] ==> historyIndex == old(historyIndex) && entry == old(entry)
      ensures !raised && history != [] && old(historyIndex) < |history| - 1 ==>
                historyIndex == old(historyIndex) + 1 && entry == history[historyIndex]
      ensures !raised && history != [] && old(historyIndex) >= |history| - 1 ==>
                historyIndex == |history| && entry == ""
    {
      raised := !historyInitialised;
      if raised {
        return;
      }
      if history != [] {
        if historyIndex < |history| - 1 {
          historyIndex := historyIndex + 1;
          entry := history[historyIndex];
        } else {
          historyIndex := |history|;
          entry := "";
        }
      }
    }

    /** `for key in self.filters: self.filters[key].set(value)` */
    method SetAllFilters(value: bool)
      requires Valid()
      modifies this`filters
      ensures Valid()
      ensures filters == map k | k in old(filters) :: value
    {
      var i := 0;
      while i < |FilterKeys|
        invariant 0 <= i <= |FilterKeys|
        invariant filters.Keys == FilterKeySet
        invariant forall k :: k in filters && k in FilterKeys[..i] ==> filters[k] == value
      {
        filters := filters[FilterKeys[i] := value];
        i := i + 1;
      }
      assert FilterKeys[..i] == FilterKeys;
    }

    /** `_handle_filter_command` */
    method HandleFilterCommand(args: seq<string>, stamp: string)
      requires Valid()
      modifies this`filters, this`lines
      ensures Valid()
      ensures filters == FilterUpdate(old(filters), args)
      ensures lines == LogAll(old(lines), stamp, FilterReplies(args))
    {
      if |args| >= 2 {
        var key := Lower(args[0]);
        var action := Lower(args[1]);
        if action == "on" || action == "off" {
          if key == "all" {
            SetAllFilters(action == "on");
          } else if key in filters {
            filters := filters[key := action == "on"];
          }
        }
      }
      LogReplies(stamp, FilterReplies(args));
    }

    /** The part of `_execute_command` after the echo: what the command does to the window. */
    method RunCommand(c: Command, stamp: string)
      requires Valid()
      modifies this`lines, this`filters, this`monitoring
      ensures Valid()
      ensures c.Clear? ==> lines == AppendLog([], stamp, "Логи очищены", "info")
      ensures !c.Clear? ==> lines == LogAll(old(lines), stamp, CommandReplies(c, old(monitoring), connected, old(lines)))
      ensures monitoring == MonitoringAfter(c, old(monitoring), connected)
      ensures c.Filter? ==> filters == FilterUpdate(old(filters), c.args)
      ensures !c.Filter? ==> filters == old(filters)
    {
      match c {
        case Clear =>
          lines := [];
          Log("Логи очищены", stamp, "info");
        case Filter(args) =>
          HandleFilterCommand(args, stamp);
        case _ =>
          RunOtherCommand(c, stamp);
      }
    }

    /** The commands other than clear and filter: the monitoring flag, then the replies. */
    method RunOtherCommand(c: Command, stamp: string)
      requires !c.Clear? && !c.Filter?
      modifies this`lines, this`monitoring
      ensures lines == LogAll(old(lines), stamp, CommandReplies(c, old(monitoring), connected, old(lines)))
      ensures monitoring == MonitoringAfter(c, old(monitoring), connected)
    {
      var replies := CommandReplies(c, monitoring, connected, lines);
      if c.Stop? && monitoring {
        monitoring := false;
      } else if c.Start? && !monitoring && connected {
        monitoring := true;
      }
      LogReplies(stamp, replies);
    }

    /**
     * `_execute_command` on the entry field's text: a blank line does nothing, and so does any
     * line while the history was never initialised, since reading it raises first. Otherwise the
     * command enters the history, the field is cleared, the command is echoed, and the command
     * its first word names runs. Help, statistics, export, status and the login-request sender
     * are returned to the caller; their output is not modelled.
     */
    method ExecuteCommand(stamp: string) returns (s: Submission)
      requires Valid()
      modifies this`history, this`historyIndex, this`entry, this`lines, this`filters, this`monitoring
      ensures Valid()
      ensures s == SubmissionOf(historyInitialised, old(entry))
      ensures !s.Ran? ==>
                history == old(history) && historyIndex == old(historyIndex) &&
                entry == old(entry) && lines == old(lines) && filters == old(filters) && monitoring == old(monitoring)
      ensures s.Ran? ==>
                history == Pushed(old(history), Strip(old(entry))) && historyIndex == |history| && entry == ""
      ensures s == Ran(Clear) ==> lines == AppendLog([], stamp, "Логи очищены", "info")
      ensures s.Ran? && !s.command.Clear? ==>
                var echoed := AppendLog(old(lines), stamp, "> " + Strip(old(entry)), "info");
                lines == LogAll(echoed, stamp, CommandReplies(s.command, old(monitoring), connected, echoed))
      ensures s.Ran? ==> monitoring == MonitoringAfter(s.command, old(monitoring), connected)
      ensures s.Ran? && s.command.Filter? ==> filters == FilterUpdate(old(filters), s.command.args)
      ensures s.Ran? && !s.command.Filter? ==> filters == old(filters)
    {
      var text := Strip(entry);
      if text == "" {
        return Ignored;
      }
      if !historyInitialised {
        return Raised;
      }
      var c := Execute(text, stamp);
      s := Ran(c);
    }

    /** `_execute_command` once the stripped line is known to be non-blank. */
    method Execute(text: string, stamp: string) returns (c: Command)
      requires Valid() && text != "" && !IsSpace(text[0])
      modifies this`history, this`historyIndex, this`entry, this`lines, this`filters, this`monitoring
      ensures Valid()
      ensures history == Pushed(old(history), text) && historyIndex == |history| && entry == ""
      ensures ParseCommand(text) == Some(c)
      ensures c.Clear? ==> lines == AppendLog([], stamp, "Логи очищены", "info")
      ensures !c.Clear? ==>
                var echoed := AppendLog(old(lines), stamp, "> " + text, "info");
                lines == LogAll(echoed, stamp, CommandReplies(c, old(monitoring), connected, echoed))
      ensures monitoring == MonitoringAfter(c, old(monitoring), connected)
      ensures c.Filter? ==> filters == FilterUpdate(old(filters), c.args)
      ensures !c.Filter? ==> filters == old(filters)
    {
      Submit(text, stamp);
      NonBlankHasWords(text);
      c := ParseCommand(text).value;
      RunCommand(c, stamp);
    }

    /** The start of `_execute_command` for a non-blank line: history, cleared field, echo. */
    method Submit(text: string, stamp: string)
      requires Valid() && text != ""
      modifies this`history, this`historyIndex, this`entry, this`lines
      ensures Valid()
      ensures history == Pushed(old(history), text) && historyIndex == |history| && entry == ""
      ensures lines == AppendLog(old(lines), stamp, "> " + text, "info")
    {
      PushHistory(text);
      entry := "";
      Log("> " + text, stamp, "info");
    }
  }
}
