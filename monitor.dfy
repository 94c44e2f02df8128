/**
 * The event classifier and statistics of monitor.py.
 *
 * Telethon's objects become the datatypes below; what Telethon looks up at
 * run time (the chat of an event, its sender, a user by id, the result of a
 * download, the size of the stored file, the clock) is handed to each
 * handler as a parameter. The pure functions turn an event into the
 * dictionaries the store receives; the `Monitor` class holds the six
 * counters, the store and the list of notifications sent to the GUI
 * callback, and its handlers update them.
 */
module Monitoring {
  import opened Wrappers
  import opened Text
  import opened Storage

  // ---- raw events

  /** A `peer_id`: which of the attributes channel_id, user_id and chat_id it carries. */
  datatype PeerRef = PeerRef(channelId: Option<int>, userId: Option<int>, chatId: Option<int>)

  /** A conversation or account as `get_chat`, `get_sender` and `get_user` return it. */
  datatype Peer =
    | User(id: int, username: Option<string>, firstName: Option<string>,
           lastName: Option<string>, phone: Option<string>)
    | Chat(id: int, title: string)
    | Channel(id: int, title: string, username: Option<string>, broadcast: bool)
    | OtherPeer(id: int, maybeTitle: Option<string>)

  datatype Document = Document(mimeType: Option<string>)

  /** `message.media`: a photo, a document (whose `document` may be missing), or anything else. */
  datatype Media = Photo | DocumentMedia(document: Option<Document>) | OtherMedia

  /** `message.fwd_from`; `fromId` is its `from_id`. */
  datatype ForwardHeader = ForwardHeader(fromId: Option<PeerRef>)

  /** A new or edited message: `text` is `message.message`, `out` the outgoing flag. */
  datatype RawMessage = RawMessage(
    id: int, text: Option<string>, out: bool, media: Option<Media>,
    fwdFrom: Option<ForwardHeader>, peerId: PeerRef, date: int)

  /** A reaction: its emoticon, or any other reaction and the text `str()` gives for it. */
  datatype Reaction = Emoticon(emoticon: string) | OtherReaction(text: string)

  /** One entry of `recent_reactions`. */
  datatype Reactor = Reactor(peerId: PeerRef)

  /** One entry of `message.reactions.results`. */
  datatype ReactionCount = ReactionCount(reaction: Reaction, recentReactions: Option<seq<Reactor>>)

  /** The flags and values of a chat-action event that the handler inspects. */
  datatype RawChatAction = RawChatAction(
    userJoined: bool, userLeft: bool, userAdded: bool, userKicked: bool, userBanned: bool,
    chatTitleChanged: bool, chatPhotoChanged: bool,
    newTitle: Option<string>, pinnedMessage: Option<int>)

  /** The outcome of Python code that may raise: a value, or an exception. */
  datatype Attempt<T> = Done(value: T) | Raised

  // ---- pure classification

  /** The conversation kinds `chat_type` takes. */
  datatype ChatKind = PrivateChat | GroupChat | ChannelChat | SupergroupChat | UnknownChat

  /** The conversation kind, decided by the class of the chat object. */
  function ClassifyChat(chat: Peer): (kind: ChatKind)
    ensures kind == PrivateChat <==> chat.User?
    ensures kind == GroupChat <==> chat.Chat?
    ensures kind == ChannelChat <==> chat.Channel? && chat.broadcast
    ensures kind == SupergroupChat <==> chat.Channel? && !chat.broadcast
  {
    match chat
    case User(_, _, _, _, _) => PrivateChat
    case Chat(_, _) => GroupChat
    case Channel(_, _, _, broadcast) => if broadcast then ChannelChat else SupergroupChat
    case OtherPeer(_, _) => UnknownChat
  }

  /** The `chat_type` string of a kind. */
  function ChatKindName(kind: ChatKind): (name: string)
    ensures name in {"private", "group", "channel", "supergroup", "unknown"}
    ensures ChatKindOfName(name) == Some(kind)
  {
    match kind
    case PrivateChat => "private"
    case GroupChat => "group"
    case ChannelChat => "channel"
    case SupergroupChat => "supergroup"
    case UnknownChat => "unknown"
  }

  /** The kind a `chat_type` string names, if any: distinct kinds have distinct names. */
  function ChatKindOfName(name: string): Option<ChatKind> {
    if name == "private" then Some(PrivateChat)
    else if name == "group" then Some(GroupChat)
    else if name == "channel" then Some(ChannelChat)
    else if name == "supergroup" then Some(SupergroupChat)
    else if name == "unknown" then Some(UnknownChat)
    else None
  }

  /** The `type` field of a notification the handlers send. */
  datatype Category = NewMessage | EditedMessage | DeletedMessage | NewReaction

  function CategoryName(c: Category): (name: string)
    ensures name in {"message", "message_edited", "message_deleted", "reaction"}
  {
    match c
    case NewMessage => "message"
    case EditedMessage => "message_edited"
    case DeletedMessage => "message_deleted"
    case NewReaction => "reaction"
  }

  /**
   * `getattr(chat, 'title', None) or getattr(chat, 'first_name', 'Unknown')`:
   * a user has no title, so its first name (possibly none) is used; the other
   * kinds have no first name, so an empty or missing title becomes 'Unknown'.
   */
  function ChatTitle(chat: Peer): (title: Option<string>)
    ensures !chat.User? ==> title.Some? && title.value != ""
    ensures chat.User? ==> title == chat.firstName
  {
    match chat
    case User(_, _, firstName, _, _) => firstName
    case Chat(_, title) => if title != "" then Some(title) else Some("Unknown")
    case Channel(_, title, _, _) => if title != "" then Some(title) else Some("Unknown")
    case OtherPeer(_, title) => if title.Some? && title.value != "" then title else Some("Unknown")
  }

  /** `getattr(p, 'username', None)`: users and channels have one, basic groups do not. */
  function PeerUsername(p: Peer): Option<string> {
    match p
    case User(_, username, _, _, _) => username
    case Channel(_, _, username, _) => username
    case _ => None
  }

  /** `getattr(p, 'first_name', None)`: only users have one. */
  function PeerFirstName(p: Peer): Option<string> { if p.User? then p.firstName else None }

  /** `getattr(p, 'last_name', None)`: only users have one. */
  function PeerLastName(p: Peer): Option<string> { if p.User? then p.lastName else None }

  /** `getattr(p, 'phone', None)`: only users have one. */
  function PeerPhone(p: Peer): Option<string> { if p.User? then p.phone else None }

  /** The media type of a document, from the prefix of its MIME type. */
  function ClassifyMime(mime: string): (t: string)
    ensures t in {"video", "audio", "image", "document"}
    ensures t == "video" <==> "video/" <= mime
    ensures t == "audio" <==> !("video/" <= mime) && "audio/" <= mime
    ensures t == "image" <==> !("video/" <= mime) && !("audio/" <= mime) && "image/" <= mime
  {
    if "video/" <= mime then "video"
    else if "audio/" <= mime then "audio"
    else if "image/" <= mime then "image"
    else "document"
  }

  /** The media type recorded for a message: none without media, for other media, or for a document-less document. */
  function MediaType(media: Option<Media>): (t: Option<string>)
    ensures t == Some("photo") <==> media == Some(Photo)
    ensures t.Some? <==> media.Some? && (media.value.Photo? || (media.value.DocumentMedia? && media.value.document.Some?))
    ensures t.Some? && t != Some("photo") ==>
              t.value == ClassifyMime(media.value.document.value.mimeType.GetOr(""))
  {
    match media
    case None => None
    case Some(Photo) => Some("photo")
    case Some(DocumentMedia(doc)) =>
      if doc.Some? then Some(ClassifyMime(doc.value.mimeType.GetOr(""))) else None
    case Some(OtherMedia) => None
  }

  /**
   * `forward_from_id`: none unless the message is forwarded with a `from_id`;
   * reading `user_id` of a `from_id` that is not a user raises.
   */
  function ForwardFromId(fwd: Option<ForwardHeader>): (r: Attempt<Option<int>>)
    ensures r.Raised? <==> fwd.Some? && fwd.value.fromId.Some? && fwd.value.fromId.value.userId.None?
    ensures fwd.None? || fwd.value.fromId.None? ==> r == Done(None)
    ensures fwd.Some? && fwd.value.fromId.Some? && fwd.value.fromId.value.userId.Some? ==>
              r == Done(fwd.value.fromId.value.userId)
  {
    if fwd.None? || fwd.value.fromId.None? then Done(None)
    else if fwd.value.fromId.value.userId.Some? then Done(fwd.value.fromId.value.userId)
    else Raised
  }

  function SenderId(sender: Option<Peer>): Option<int> { if sender.Some? then Some(sender.value.id) else None }
  function SenderUsername(sender: Option<Peer>): Option<string> { if sender.Some? then PeerUsername(sender.value) else None }
  function SenderFirstName(sender: Option<Peer>): Option<string> { if sender.Some? then PeerFirstName(sender.value) else None }
  function SenderLastName(sender: Option<Peer>): Option<string> { if sender.Some? then PeerLastName(sender.value) else None }

  /** The dictionary `_handle_message` builds, or the exception raised while building it. */
  function NewMessageRecord(msg: RawMessage, chat: Peer, sender: Option<Peer>,
                            mediaType: Option<string>, mediaPath: Option<string>): (r: Attempt<MessageData>)
    ensures r.Raised? <==> ForwardFromId(msg.fwdFrom).Raised?
    ensures r.Done? ==>
      && r.value.messageId == msg.id && r.value.chatId == chat.id
      && r.value.text == Some(msg.text.GetOr(""))
      && r.value.isOutgoing == msg.out
      && !r.value.isEdited && !r.value.isDeleted
      && (r.value.isForwarded <==> msg.fwdFrom.Some?)
      && r.value.forwardFromId == ForwardFromId(msg.fwdFrom).value
      && (r.value.forwardFromId.Some? ==> r.value.isForwarded)
      && r.value.chatTitle == ChatTitle(chat)
      && r.value.mediaType == mediaType && r.value.mediaPath == mediaPath
      && r.value.senderId == SenderId(sender) && r.value.senderUsername == SenderUsername(sender)
      && r.value.senderFirstName == SenderFirstName(sender) && r.value.senderLastName == SenderLastName(sender)
      && r.value.date == msg.date
  {
    match ForwardFromId(msg.fwdFrom)
    case Raised => Raised
    case Done(forwardFromId) =>
      Done(MessageData(
        msg.id, chat.id, ChatTitle(chat),
        SenderId(sender), SenderUsername(sender), SenderFirstName(sender), SenderLastName(sender),
        Some(msg.text.GetOr("")), msg.out, false, false, msg.fwdFrom.Some?,
        forwardFromId, mediaType, mediaPath, msg.date))
  }

  /** The dictionary `_handle_edited_message` builds: an edit never carries media or a forward source. */
  function EditedMessageRecord(msg: RawMessage, chat: Peer, sender: Option<Peer>): (r: MessageData)
    ensures r.isEdited && !r.isDeleted
    ensures r.mediaType.None? && r.mediaPath.None? && r.forwardFromId.None?
    ensures r.isForwarded <==> msg.fwdFrom.Some?
    ensures r.messageId == msg.id && r.chatId == chat.id && r.text == Some(msg.text.GetOr(""))
    ensures r.isOutgoing == msg.out && r.date == msg.date
    ensures r.chatTitle == ChatTitle(chat)
    ensures r.senderId == SenderId(sender) && r.senderUsername == SenderUsername(sender)
    ensures r.senderFirstName == SenderFirstName(sender) && r.senderLastName == SenderLastName(sender)
  {
    MessageData(
      msg.id, chat.id, ChatTitle(chat),
      SenderId(sender), SenderUsername(sender), SenderFirstName(sender), SenderLastName(sender),
      Some(msg.text.GetOr("")), msg.out, true, false, msg.fwdFrom.Some?,
      None, None, None, msg.date)
  }

  /** The placeholder text of a deleted message. */
  function TombstoneText(id: int): string {
    "[УДАЛЕНО - ID: " + IntToDecimal(id) + "]"
  }

  /** The dictionary `_handle_deleted_message` builds for one deleted id. */
  function Tombstone(id: int, chat: Peer, now: int): (r: MessageData)
    ensures r.messageId == id && r.chatId == chat.id && r.isDeleted && !r.isEdited && !r.isOutgoing
    ensures r.senderId.None? && r.senderUsername.None? && r.senderFirstName.None? && r.senderLastName.None?
    ensures r.text == Some(TombstoneText(id))
    ensures r.mediaType.None? && r.mediaPath.None? && !r.isForwarded && r.forwardFromId.None?
    ensures r.chatTitle == ChatTitle(chat) && r.date == now
  {
    MessageData(id, chat.id, ChatTitle(chat), None, None, None, None,
                Some(TombstoneText(id)), false, false, true, false, None, None, None, now)
  }

  /** One tombstone per deleted id, in the order of the batch. */
  function Tombstones(ids: seq<int>, chat: Peer, now: int): (r: seq<MessageData>)
    ensures |r| == |ids|
  {
    if ids == [] then [] else Tombstones(ids[..|ids| - 1], chat, now) + [Tombstone(ids[|ids| - 1], chat, now)]
  }

  /** Tombstone `k` is the one of deleted id `k`. */
  lemma {:induction false} TombstonesAt(ids: seq<int>, chat: Peer, now: int, k: nat)
    requires k < |ids|
    ensures Tombstones(ids, chat, now)[k] == Tombstone(ids[k], chat, now)
  {
    var n := |ids| - 1;
    if k < n {
      TombstonesAt(ids[..n], chat, now, k);
    }
  }

  /** `reaction.reaction.emoticon` when there is one, `str(reaction.reaction)` otherwise. */
  function ReactionText(r: Reaction): string {
    match r
    case Emoticon(e) => e
    case OtherReaction(t) => t
  }

  /**
   * The username of a reacting user: looked up only for a non-zero user id;
   * a lookup that fails (an id absent from `directory`) gives no username.
   */
  function ReactorUsername(userId: Option<int>, directory: map<int, Option<string>>): (u: Option<string>)
    ensures u.Some? ==> userId.Some? && userId.value != 0 && userId.value in directory
    ensures userId.Some? && userId.value != 0 && userId.value in directory ==> u == directory[userId.value]
  {
    if userId.Some? && userId.value != 0 && userId.value in directory then directory[userId.value] else None
  }

  function ReactionRecord(messageId: int, chatId: int, reaction: Reaction, reactor: Reactor,
                          directory: map<int, Option<string>>, now: int): (r: ReactionData)
    ensures r.messageId == messageId && r.chatId == chatId && r.action == Some("added")
    ensures r.userId == reactor.peerId.userId && r.userUsername == ReactorUsername(reactor.peerId.userId, directory)
    ensures r.reaction == ReactionText(reaction) && r.date == now
  {
    ReactionData(messageId, chatId, reactor.peerId.userId,
                 ReactorUsername(reactor.peerId.userId, directory), ReactionText(reaction), Some("added"), now)
  }

  function Recent(c: ReactionCount): seq<Reactor> { c.recentReactions.GetOr([]) }

  /** The records of one reaction result: one per recent reactor, in order. */
  function ReactorRecords(messageId: int, chatId: int, reaction: Reaction, reactors: seq<Reactor>,
                          directory: map<int, Option<string>>, now: int): (r: seq<ReactionData>)
    ensures |r| == |reactors|
  {
    if reactors == [] then []
    else ReactorRecords(messageId, chatId, reaction, reactors[..|reactors| - 1], directory, now)
         + [ReactionRecord(messageId, chatId, reaction, reactors[|reactors| - 1], directory, now)]
  }

  /** Record `j` is the one of reactor `j`. */
  lemma {:induction false} ReactorRecordsAt(messageId: int, chatId: int, reaction: Reaction, reactors: seq<Reactor>,
                                            directory: map<int, Option<string>>, now: int, j: nat)
    requires j < |reactors|
    ensures ReactorRecords(messageId, chatId, reaction, reactors, directory, now)[j] ==
            ReactionRecord(messageId, chatId, reaction, reactors[j], directory, now)
  {
    var n := |reactors| - 1;
    if j < n {
      ReactorRecordsAt(messageId, chatId, reaction, reactors[..n], directory, now, j);
    }
  }

  /** The number of (result, recent reactor) pairs. */
  function PairCount(results: seq<ReactionCount>): nat {
    if results == [] then 0 else PairCount(results[..|results| - 1]) + |Recent(results[|results| - 1])|
  }

  /** The records `_handle_reactions` builds, result by result and reactor by reactor. */
  function ReactionRecords(messageId: int, chatId: int, results: seq<ReactionCount>,
                           directory: map<int, Option<string>>, now: int): (r: seq<ReactionData>)
    ensures |r| == PairCount(results)
  {
    if results == [] then []
    else ReactionRecords(messageId, chatId, results[..|results| - 1], directory, now)
         + ReactorRecords(messageId, chatId, results[|results| - 1].reaction, Recent(results[|results| - 1]), directory, now)
  }

  /** Every record of `_handle_reactions` is an `added` one for the message and chat at hand. */
  lemma {:induction false} ReactionRecordsFields(messageId: int, chatId: int, results: seq<ReactionCount>,
                                                 directory: map<int, Option<string>>, now: int, k: nat)
    requires k < |ReactionRecords(messageId, chatId, results, directory, now)|
    ensures var r := ReactionRecords(messageId, chatId, results, directory, now)[k];
            r.action == Some("added") && r.messageId == messageId && r.chatId == chatId && r.date == now
  {
    var n := |results| - 1;
    var a := ReactionRecords(messageId, chatId, results[..n], directory, now);
    if k < |a| {
      ReactionRecordsFields(messageId, chatId, results[..n], directory, now, k);
    } else {
      ReactorRecordsAt(messageId, chatId, results[n].reaction, Recent(results[n]), directory, now, k - |a|);
    }
  }

  /** The records of the first `i + 1` results: those of the first `i`, then those of result `i`. */
  lemma ReactionRecordsStep(messageId: int, chatId: int, results: seq<ReactionCount>,
                            directory: map<int, Option<string>>, now: int, i: nat)
    requires i < |results|
    ensures ReactionRecords(messageId, chatId, results[..i + 1], directory, now) ==
            ReactionRecords(messageId, chatId, results[..i], directory, now) +
            ReactorRecords(messageId, chatId, results[i].reaction, Recent(results[i]), directory, now)
  {
    assert results[..i + 1][..i] == results[..i];
  }

  /** The records of the first `j + 1` reactors: those of the first `j`, then that of reactor `j`. */
  lemma ReactorRecordsStep(messageId: int, chatId: int, reaction: Reaction, reactors: seq<Reactor>,
                           directory: map<int, Option<string>>, now: int, j: nat)
    requires j < |reactors|
    ensures ReactorRecords(messageId, chatId, reaction, reactors[..j + 1], directory, now) ==
            ReactorRecords(messageId, chatId, reaction, reactors[..j], directory, now) +
            [ReactionRecord(messageId, chatId, reaction, reactors[j], directory, now)]
  {
    assert reactors[..j + 1][..j] == reactors[..j];
  }

  /**
   * Exactly one record per (result, recent reactor) pair, in order: the
   * record of reactor `j` of result `i` sits right after the records of the
   * results before `i` and of the reactors before `j`.
   */
  lemma {:induction false} ReactionRecordAt(messageId: int, chatId: int, results: seq<ReactionCount>,
                                            directory: map<int, Option<string>>, now: int, i: nat, j: nat)
    requires i < |results| && j < |Recent(results[i])|
    ensures var r := ReactionRecords(messageId, chatId, results, directory, now);
      && PairCount(results[..i]) + j < |r|
      && r[PairCount(results[..i]) + j] ==
           ReactionRecord(messageId, chatId, results[i].reaction, Recent(results[i])[j], directory, now)
  {
    var n := |results| - 1;
    var front := results[..n];
    var a := ReactionRecords(messageId, chatId, front, directory, now);
    var b := ReactorRecords(messageId, chatId, results[n].reaction, Recent(results[n]), directory, now);
    assert ReactionRecords(messageId, chatId, results, directory, now) == a + b;
    if i < n {
      assert results[..i] == front[..i];
      ReactionRecordAt(messageId, chatId, front, directory, now, i, j);
    } else {
      assert results[..i] == front;
      ReactorRecordsAt(messageId, chatId, results[n].reaction, Recent(results[n]), directory, now, j);
    }
  }

  /** A result whose recent-reactor list is missing contributes no records. */
  lemma MissingReactorsContributeNothing(results: seq<ReactionCount>)
    requires forall i :: 0 <= i < |results| ==> results[i].recentReactions.None?
    ensures PairCount(results) == 0
  {
    if results != [] {
      MissingReactorsContributeNothing(results[..|results| - 1]);
    }
  }

  /** The eight chat-action flags, in the order the handler tests them. */
  function ActionFlags(a: RawChatAction): (flags: seq<bool>)
    ensures |flags| == |ActionNames|
  {
    [a.userJoined, a.userLeft, a.userAdded, a.userKicked, a.userBanned,
     a.chatTitleChanged, a.chatPhotoChanged, a.pinnedMessage.Some?]
  }

  const ActionNames: seq<string> := [
    "user_joined", "user_left", "user_added", "user_kicked", "user_banned",
    "chat_title_changed", "chat_photo_changed", "message_pinned"]

  /** The position of the first true flag, if any. */
  function FirstTrue(flags: seq<bool>): (k: Option<nat>)
    ensures k.Some? ==> k.value < |flags| && flags[k.value] && forall j :: 0 <= j < k.value ==> !flags[j]
    ensures k.None? ==> forall j :: 0 <= j < |flags| ==> !flags[j]
  {
    if flags == [] then None
    else if flags[0] then Some(0)
    else
      var k := FirstTrue(flags[1..]);
      if k.Some? then Some(k.value + 1) else None
  }

  /** The event type of a chat action: the if/elif chain of `_handle_chat_action`. */
  function ChatActionType(a: RawChatAction): Option<string> {
    if a.userJoined then Some("user_joined")
    else if a.userLeft then Some("user_left")
    else if a.userAdded then Some("user_added")
    else if a.userKicked then Some("user_kicked")
    else if a.userBanned then Some("user_banned")
    else if a.chatTitleChanged then Some("chat_title_changed")
    else if a.chatPhotoChanged then Some("chat_photo_changed")
    else if a.pinnedMessage.Some? then Some("message_pinned")
    else None
  }

  /** The first true flag decides the event type; with no flag set there is none. */
  lemma ChatActionTypeIsFirstFlag(a: RawChatAction)
    ensures var k := FirstTrue(ActionFlags(a));
            ChatActionType(a) == if k.Some? then Some(ActionNames[k.value]) else None
  {
    var flags := ActionFlags(a);
    if a.userJoined || a.userLeft || a.userAdded || a.userKicked {
      MemberActionIsFirstFlag(a);
    } else if a.userBanned { FirstTrueAt(flags, 4); }
    else if a.chatTitleChanged { FirstTrueAt(flags, 5); }
    else if a.chatPhotoChanged { FirstTrueAt(flags, 6); }
    else if a.pinnedMessage.Some? { FirstTrueAt(flags, 7); }
    else { assert forall j :: 0 <= j < |flags| ==> !flags[j]; }
  }

  /** The first four flags, about members joining and leaving. */
  lemma MemberActionIsFirstFlag(a: RawChatAction)
    requires a.userJoined || a.userLeft || a.userAdded || a.userKicked
    ensures var k := FirstTrue(ActionFlags(a));
            k.Some? && k.value < 4 && ChatActionType(a) == Some(ActionNames[k.value])
  {
    var flags := ActionFlags(a);
    if a.userJoined { FirstTrueAt(flags, 0); }
    else if a.userLeft { FirstTrueAt(flags, 1); }
    else if a.userAdded { FirstTrueAt(flags, 2); }
    else { FirstTrueAt(flags, 3); }
  }

  /** A true flag with only false flags before it is the first true flag. */
  lemma FirstTrueAt(flags: seq<bool>, i: nat)
    requires i < |flags| && flags[i] && forall j :: 0 <= j < i ==> !flags[j]
    ensures FirstTrue(flags) == Some(i)
  {
  }

  function TextDetail(x: Option<string>): DetailValue { if x.Some? then DStr(x.value) else DNull }

  /** The details of a chat action: the new title, the pinned message's id, or nothing. */
  function ChatActionDetails(a: RawChatAction): (d: Details)
    ensures ChatActionType(a) == Some("chat_title_changed") ==> d == map["new_title" := TextDetail(a.newTitle)]
    ensures ChatActionType(a) == Some("message_pinned") ==> d == map["message_id" := DInt(a.pinnedMessage.value)]
    ensures ChatActionType(a) != Some("chat_title_changed") && ChatActionType(a) != Some("message_pinned") ==> d == map[]
  {
    match ChatActionType(a)
    case Some("chat_title_changed") => map["new_title" := TextDetail(a.newTitle)]
    case Some("message_pinned") => map["message_id" := DInt(a.pinnedMessage.value)]
    case _ => map[]
  }

  /** The dictionary `_handle_chat_action` builds, when some flag is set. */
  function ChatActionRecord(a: RawChatAction, chat: Peer, user: Option<Peer>, now: int): (r: Option<EventData>)
    ensures r.Some? <==> exists j :: 0 <= j < |ActionFlags(a)| && ActionFlags(a)[j]
    ensures r.Some? ==> Some(r.value.eventType) == ChatActionType(a) && r.value.chatId == Some(chat.id)
    ensures r.Some? ==> r.value.details == Some(ChatActionDetails(a)) && r.value.userId == SenderId(user)
    ensures r.Some? ==> r.value.chatTitle == ChatTitle(chat) && r.value.date == now
    ensures r.Some? ==> r.value.userUsername == SenderUsername(user) && r.value.userFirstName == SenderFirstName(user)
  {
    ChatActionTypeIsFirstFlag(a);
    var t := ChatActionType(a);
    if t.None? then None
    else Some(EventData(t.value, Some(chat.id), ChatTitle(chat), SenderId(user), SenderUsername(user),
                        SenderFirstName(user), Some(ChatActionDetails(a)), now))
  }

  /** The dictionary `_handle_user_update` builds: always `user_updated`, with four detail keys and no chat. */
  function UserUpdateRecord(user: Peer, now: int): (r: EventData)
    ensures r.eventType == "user_updated" && r.chatId.None? && r.chatTitle.None?
    ensures r.userId == Some(user.id) && r.userUsername == PeerUsername(user)
    ensures r.details.Some? && r.details.value.Keys == {"username", "first_name", "last_name", "phone"}
    ensures r.details.value["phone"] == TextDetail(PeerPhone(user))
    ensures r.details.value["username"] == TextDetail(PeerUsername(user))
    ensures r.details.value["first_name"] == TextDetail(PeerFirstName(user))
    ensures r.details.value["last_name"] == TextDetail(PeerLastName(user))
    ensures r.userFirstName == PeerFirstName(user) && r.date == now
  {
    var details := map[
      "username" := TextDetail(PeerUsername(user)),
      "first_name" := TextDetail(PeerFirstName(user)),
      "last_name" := TextDetail(PeerLastName(user)),
      "phone" := TextDetail(PeerPhone(user))];
    EventData("user_updated", None, None, Some(user.id), PeerUsername(user), PeerFirstName(user),
              Some(details), now)
  }

  // ---- media capture

  /** `<id>_<type>_<stamp>`, with `.jpg` only for photos. */
  function MediaFileName(messageId: int, mediaType: string, stamp: string): string {
    IntToDecimal(messageId) + ("_" + (mediaType + ("_" + (stamp + MediaExtension(mediaType)))))
  }

  function MediaExtension(mediaType: string): string {
    if mediaType == "photo" then ".jpg" else ""
  }

  /** The media types `_handle_message` passes to `_save_media`. */
  predicate IsMediaType(t: string) { t in {"photo", "video", "audio", "image", "document"} }

  /**
   * Two captures made within the same second get different file names unless
   * they belong to the same message and media type.
   */
  lemma MediaFileNameInjective(id1: int, t1: string, id2: int, t2: string, stamp: string)
    requires IsMediaType(t1) && IsMediaType(t2)
    requires MediaFileName(id1, t1, stamp) == MediaFileName(id2, t2, stamp)
    ensures id1 == id2 && t1 == t2
  {
    NoUnderscoreInDecimal(id1);
    NoUnderscoreInDecimal(id2);
    SplitAtUnderscore(IntToDecimal(id1), t1 + ("_" + (stamp + MediaExtension(t1))),
                      IntToDecimal(id2), t2 + ("_" + (stamp + MediaExtension(t2))));
    IntToDecimalInjective(id1, id2);
    SplitAtUnderscore(t1, stamp + MediaExtension(t1), t2, stamp + MediaExtension(t2));
  }

  lemma NoUnderscoreInDecimal(i: int)
    ensures '_' !in IntToDecimal(i)
  {
    var s := IntToDecimal(i);
    if i < 0 {
      var digits := NatToDecimal(-i);
      NatToDecimalDigits(-i);
      assert s == "-" + digits;
      forall k | 0 <= k < |s| ensures s[k] != '_' {
        if k > 0 {
          assert s[k] == digits[k - 1];
        }
      }
    } else {
      NatToDecimalDigits(i);
      forall k | 0 <= k < |s| ensures s[k] != '_' {
        assert IsDigit(s[k]);
      }
    }
  }

  lemma {:induction false} SplitAtUnderscore(a: string, b: string, c: string, d: string)
    requires '_' !in a && '_' !in c
    requires a + ("_" + b) == c + ("_" + d)
    ensures a == c && b == d
  {
    var s := a + ("_" + b);
    assert s[|a|] == '_';
    assert s == c + ("_" + d);
    assert s[|c|] == '_';
    assert forall k :: 0 <= k < |a| ==> s[k] == a[k];
    assert forall k :: 0 <= k < |c| ==> s[k] == c[k];
    assert |a| == |c|;
    assert a == s[..|a|] && c == s[..|c|];
    assert b == s[|a| + 1..] && d == s[|c| + 1..];
  }

  lemma IntToDecimalInjective(i: int, j: int)
    requires IntToDecimal(i) == IntToDecimal(j)
    ensures i == j
  {
    if i < 0 && j < 0 {
      var s := IntToDecimal(i);
      assert s == "-" + NatToDecimal(-i) && s == "-" + NatToDecimal(-j);
      assert NatToDecimal(-i) == s[1..] == NatToDecimal(-j);
      ParseNatToDecimal(-i);
      ParseNatToDecimal(-j);
    } else if i >= 0 && j >= 0 {
      ParseNatToDecimal(i);
      ParseNatToDecimal(j);
    } else {
      IntToDecimalDigits(i);
      IntToDecimalDigits(j);
    }
  }

  /** The chat id stored with a media file: channel id, else user id, else chat id of `peer_id`. */
  function MediaChatId(p: PeerRef): (id: Option<int>)
    ensures p.channelId.Some? ==> id == p.channelId
    ensures p.channelId.None? && p.userId.Some? ==> id == p.userId
    ensures p.channelId.None? && p.userId.None? ==> id == p.chatId
  {
    if p.channelId.Some? then p.channelId else if p.userId.Some? then p.userId else p.chatId
  }

  function MediaPath(mediaDir: string, name: string): string { mediaDir + "/" + name }

  /** The media row `_save_media` writes; a missing file has size 0 and the MIME type is never known. */
  function MediaRecord(msg: RawMessage, mediaType: string, mediaDir: string, stamp: string, fileSize: Option<int>): (r: MediaData)
    ensures r.messageId == msg.id && r.mediaType == mediaType && r.chatId == MediaChatId(msg.peerId)
    ensures r.fileName == MediaFileName(msg.id, mediaType, stamp) && r.filePath == MediaPath(mediaDir, r.fileName)
    ensures r.mimeType.None? && (fileSize.None? ==> r.fileSize == 0)
    ensures fileSize.Some? ==> r.fileSize == fileSize.value
    ensures r.date == msg.date
  {
    var name := MediaFileName(msg.id, mediaType, stamp);
    MediaData(msg.id, MediaChatId(msg.peerId), mediaType, name, MediaPath(mediaDir, name),
              fileSize.GetOr(0), None, msg.date)
  }

  /** The text preview of a notification: the first 50 characters, or a placeholder for an empty text. */
  function TextPreview(text: string): (p: string)
    ensures text != "" ==> p <= text && |p| == (if |text| < 50 then |text| else 50)
    ensures text == "" ==> p == "[без текста]"
  {
    if text == "" then "[без текста]" else if |text| <= 50 then text else text[..50]
  }

  // ---- notifications and counters

  datatype Payload = MessagePayload(message: MessageData) | ReactionPayload(reaction: ReactionData)

  /** What the handlers pass to the GUI callback (the display line is not modelled). */
  datatype Broadcast = Broadcast(category: Category, data: Payload, chatType: ChatKind)

  /** The notifications of a run of message records of one category. */
  function MessageBroadcasts(category: Category, records: seq<MessageData>, kind: ChatKind): (bs: seq<Broadcast>)
    ensures |bs| == |records|
  {
    if records == [] then []
    else MessageBroadcasts(category, records[..|records| - 1], kind) +
         [Broadcast(category, MessagePayload(records[|records| - 1]), kind)]
  }

  /** Notification `k` carries record `k`. */
  lemma {:induction false} MessageBroadcastsAt(category: Category, records: seq<MessageData>, kind: ChatKind, k: nat)
    requires k < |records|
    ensures MessageBroadcasts(category, records, kind)[k] == Broadcast(category, MessagePayload(records[k]), kind)
  {
    var n := |records| - 1;
    if k < n {
      MessageBroadcastsAt(category, records[..n], kind, k);
    }
  }

  lemma MessageBroadcastsSnoc(category: Category, records: seq<MessageData>, record: MessageData, kind: ChatKind)
    ensures MessageBroadcasts(category, records + [record], kind) ==
            MessageBroadcasts(category, records, kind) + [Broadcast(category, MessagePayload(record), kind)]
  {
    assert (records + [record])[..|records|] == records;
  }

  /** The tombstones of the first `i + 1` deleted ids. */
  lemma TombstonesStep(ids: seq<int>, chat: Peer, now: int, i: nat)
    requires i < |ids|
    ensures Tombstones(ids[..i + 1], chat, now) == Tombstones(ids[..i], chat, now) + [Tombstone(ids[i], chat, now)]
  {
    assert ids[..i + 1][..i] == ids[..i];
  }

  function ReactionBroadcasts(records: seq<ReactionData>, kind: ChatKind): (bs: seq<Broadcast>)
    ensures |bs| == |records|
  {
    if records == [] then []
    else ReactionBroadcasts(records[..|records| - 1], kind) + [Broadcast(NewReaction, ReactionPayload(records[|records| - 1]), kind)]
  }

  /** Notification `k` carries reaction record `k`. */
  lemma {:induction false} ReactionBroadcastsAt(records: seq<ReactionData>, kind: ChatKind, k: nat)
    requires k < |records|
    ensures ReactionBroadcasts(records, kind)[k] == Broadcast(NewReaction, ReactionPayload(records[k]), kind)
  {
    var n := |records| - 1;
    if k < n {
      ReactionBroadcastsAt(records[..n], kind, k);
    }
  }

  /** The values the rows of a table hold, in row order. */
  function Values<T>(rows: seq<Row<T>>): (vs: seq<T>)
    ensures |vs| == |rows|
  {
    if rows == [] then [] else Values(rows[..|rows| - 1]) + [rows[|rows| - 1].value]
  }

  lemma ValuesAt<T>(rows: seq<Row<T>>, k: nat)
    requires k < |rows|
    ensures Values(rows)[k] == rows[k].value
  {
    if k < |rows| - 1 {
      assert rows[..|rows| - 1][k] == rows[k];
      ValuesAt(rows[..|rows| - 1], k);
    }
  }

  lemma {:induction false} ValuesAppend<T>(a: seq<Row<T>>, b: seq<Row<T>>)
    ensures Values(a + b) == Values(a) + Values(b)
  {
    if b != [] {
      var n := |b| - 1;
      assert (a + b)[..|a| + n] == a + b[..n];
      ValuesAppend(a, b[..n]);
    } else {
      assert a + b == a;
    }
  }

  /** The elements of `xs` whose flag in `mask` is set, in order. */
  function Filter<T>(xs: seq<T>, mask: seq<bool>): (r: seq<T>)
    requires |mask| == |xs|
    ensures |r| <= |xs|
  {
    if xs == [] then []
    else Filter(xs[..|xs| - 1], mask[..|mask| - 1]) + (if mask[|mask| - 1] then [xs[|xs| - 1]] else [])
  }

  /** With every flag set, nothing is left out. */
  lemma {:induction false} FilterAll<T>(xs: seq<T>, mask: seq<bool>)
    requires |mask| == |xs| && forall k :: 0 <= k < |mask| ==> mask[k]
    ensures Filter(xs, mask) == xs
  {
    if xs != [] {
      FilterAll(xs[..|xs| - 1], mask[..|mask| - 1]);
    }
  }

  lemma FilterSnoc<T>(xs: seq<T>, mask: seq<bool>, x: T, b: bool)
    requires |mask| == |xs|
    ensures Filter(xs + [x], mask + [b]) == Filter(xs, mask) + (if b then [x] else [])
  {
    assert (xs + [x])[..|xs|] == xs;
    assert (mask + [b])[..|mask|] == mask;
  }

  lemma {:induction false} FilterAppend<T>(xs: seq<T>, mask: seq<bool>, ys: seq<T>, mask': seq<bool>)
    requires |mask| == |xs| && |mask'| == |ys|
    ensures Filter(xs + ys, mask + mask') == Filter(xs, mask) + Filter(ys, mask')
    decreases |ys|
  {
    if ys == [] {
      assert xs + ys == xs && mask + mask' == mask;
    } else {
      var n := |ys| - 1;
      assert xs + ys == (xs + ys[..n]) + [ys[n]];
      assert mask + mask' == (mask + mask'[..n]) + [mask'[n]];
      FilterSnoc(xs + ys[..n], mask + mask'[..n], ys[n], mask'[n]);
      FilterAppend(xs, mask, ys[..n], mask'[..n]);
      FilterSnoc(ys[..n], mask'[..n], ys[n], mask'[n]);
      assert ys == ys[..n] + [ys[n]] && mask' == mask'[..n] + [mask'[n]];
    }
  }

  /** One more row, or none, after the rows of a table. */
  lemma ValuesStep<T>(rows: seq<Row<T>>, b: bool, row: Row<T>)
    ensures Values(rows + (if b then [row] else [])) == Values(rows) + (if b then [row.value] else [])
  {
    if b {
      assert (rows + [row])[..|rows|] == rows;
    } else {
      assert rows + [] == rows;
    }
  }

  lemma AppendAssoc<T>(a: seq<T>, b: seq<T>, c: seq<T>)
    ensures a + (b + c) == (a + b) + c
  {
  }

  lemma ReactionBroadcastsSnoc(records: seq<ReactionData>, record: ReactionData, kind: ChatKind)
    ensures ReactionBroadcasts(records + [record], kind) ==
            ReactionBroadcasts(records, kind) + [Broadcast(NewReaction, ReactionPayload(record), kind)]
  {
    assert (records + [record])[..|records|] == records;
  }

  lemma {:induction false} ReactionBroadcastsAppend(a: seq<ReactionData>, b: seq<ReactionData>, kind: ChatKind)
    ensures ReactionBroadcasts(a + b, kind) == ReactionBroadcasts(a, kind) + ReactionBroadcasts(b, kind)
  {
    if b == [] {
      assert a + b == a;
    } else {
      var n := |b| - 1;
      assert (a + b)[..|a + b| - 1] == a + b[..n];
      ReactionBroadcastsAppend(a, b[..n], kind);
    }
  }

  datatype Stats = Stats(messages: nat, reactions: nat, events: nat, media: nat, contacts: nat, groups: nat)

  class Monitor {
    const db: Database
    /** Whether an event callback (the GUI) was given. */
    const hasCallback: bool
    /** `config.save_media and config.monitor_media`. */
    const saveMedia: bool
    const mediaDir: string
    /** The `monitor_*` settings the registered handlers test before delegating. */
    const monitorMessages: bool
    const monitorReactions: bool
    const monitorEvents: bool
    const monitorContacts: bool

    var messages: nat
    var reactions: nat
    var events: nat
    var media: nat
    var contacts: nat
    var groups: nat
    var running: bool
    /** Every notification passed to the callback, oldest first. */
    var broadcasts: seq<Broadcast>

    /** The number of rows each table held when monitoring began. */
    ghost var base: Stats

    /**
     * The counters never fall behind the rows written since monitoring
     * began (they may run ahead: they count attempts), and contacts and
     * groups are never written or counted.
     */
    ghost predicate Valid()
      reads this, db
    {
      && db.Valid()
      && |db.messages| <= base.messages + messages
      && |db.reactions| <= base.reactions + reactions
      && |db.events| <= base.events + events
      && |db.media| <= base.media + media
      && |db.contacts| == base.contacts && |db.groups| == base.groups
      && contacts == 0 && groups == 0
      && (db.bugCompatible ==> |db.messages| == base.messages)
    }

    ghost function Counters(): Stats
      reads this
    {
      Stats(messages, reactions, events, media, contacts, groups)
    }

    constructor (db: Database, hasCallback: bool, saveMedia: bool, mediaDir: string,
                 monitorMessages: bool, monitorReactions: bool, monitorEvents: bool, monitorContacts: bool)
      requires db.Valid()
      ensures Valid() && !running && broadcasts == []
      ensures Counters() == Stats(0, 0, 0, 0, 0, 0)
      ensures this.db == db && this.hasCallback == hasCallback && this.saveMedia == saveMedia && this.mediaDir == mediaDir
      ensures this.monitorMessages == monitorMessages && this.monitorReactions == monitorReactions
      ensures this.monitorEvents == monitorEvents && this.monitorContacts == monitorContacts
    {
      this.db := db;
      this.hasCallback := hasCallback;
      this.saveMedia := saveMedia;
      this.mediaDir := mediaDir;
      this.monitorMessages := monitorMessages;
      this.monitorReactions := monitorReactions;
      this.monitorEvents := monitorEvents;
      this.monitorContacts := monitorContacts;
      messages, reactions, events, media, contacts, groups := 0, 0, 0, 0, 0, 0;
      running := false;
      broadcasts := [];
      base := Stats(|db.messages|, |db.reactions|, |db.events|, |db.media|, |db.contacts|, |db.groups|);
    }

    /** `get_stats`: a snapshot of the six counters. */
    method GetStats() returns (s: Stats)
      ensures s == Counters()
    {
      s := Stats(messages, reactions, events, media, contacts, groups);
    }

    /** `start`: sets the running flag (greeting the account and registering handlers are not modelled). */
    method Start()
      modifies this`running
      ensures running
    {
      running := true;
    }

    /** `stop`: clears the running flag and nothing else. The handlers do not read the flag. */
    method Stop()
      modifies this`running
      ensures !running
    {
      running := false;
    }

    /**
     * `_save_media`: names the file, downloads it (a failed download ends the
     * capture with no path), writes the media row and counts it whether or
     * not the row was stored.
     */
    method SaveMedia(msg: RawMessage, mediaType: string, stamp: string, downloadOk: bool, fileSize: Option<int>)
      returns (path: Option<string>)
      requires Valid()
      modifies this`media, db`media, db`nextMedia
      ensures Valid()
      ensures !downloadOk ==> path.None? && media == old(media) && db.media == old(db.media) && db.nextMedia == old(db.nextMedia)
      ensures downloadOk ==>
        && path == Some(MediaPath(mediaDir, MediaFileName(msg.id, mediaType, stamp)))
        && media == old(media) + 1
        && (db.media == old(db.media) ||
            db.media == old(db.media) + [Row(old(db.nextMedia), MediaRecord(msg, mediaType, mediaDir, stamp, fileSize))])
    {
      if !downloadOk {
        return None;
      }
      var record := MediaRecord(msg, mediaType, mediaDir, stamp, fileSize);
      var _ := db.InsertMedia(record);
      media := media + 1;
      path := Some(record.filePath);
    }

    /**
     * The steps every message handler ends with: insert the record, count it
     * whatever the insert returned, and pass it to the callback if there is one.
     */
    method RecordMessage(record: MessageData, category: Category, kind: ChatKind) returns (ghost stored: bool)
      requires Valid()
      modifies this`messages, this`broadcasts, db`messages, db`nextMessage
      ensures Valid()
      ensures messages == old(messages) + 1
      ensures db.messages == old(db.messages) + (if stored then [Row(old(db.nextMessage), StoredMessage(record))] else [])
      ensures broadcasts == old(broadcasts) + (if hasCallback then [Broadcast(category, MessagePayload(record), kind)] else [])
    {
      var r := db.InsertMessage(record);
      stored := r.Some?;
      messages := messages + 1;
      if hasCallback {
        broadcasts := broadcasts + [Broadcast(category, MessagePayload(record), kind)];
      }
    }

    /** The same steps for one reaction record. */
    method RecordReaction(record: ReactionData, kind: ChatKind) returns (ghost stored: bool)
      requires Valid()
      modifies this`reactions, this`broadcasts, db`reactions, db`nextReaction
      ensures Valid()
      ensures reactions == old(reactions) + 1
      ensures db.reactions == old(db.reactions) + (if stored then [Row(old(db.nextReaction), StoredReaction(record))] else [])
      ensures broadcasts == old(broadcasts) + (if hasCallback then [Broadcast(NewReaction, ReactionPayload(record), kind)] else [])
    {
      var r := db.InsertReaction(record);
      stored := r.Some?;
      reactions := reactions + 1;
      if hasCallback {
        broadcasts := broadcasts + [Broadcast(NewReaction, ReactionPayload(record), kind)];
      }
    }

    /**
     * `_handle_message`. Media are captured first; building the record may
     * then raise (a forward whose origin is not a user), which ends the
     * handler with the media row kept and no message counted. Otherwise the
     * message is inserted, counted whatever the insert returned, and passed
     * to the callback.
     */
    method HandleMessage(msg: RawMessage, chat: Option<Peer>, sender: Option<Peer>,
                         stamp: string, downloadOk: bool, fileSize: Option<int>)
      requires Valid()
      modifies this`messages, this`media, this`broadcasts, db`messages, db`nextMessage, db`media, db`nextMedia
      ensures Valid()
      ensures !monitorMessages || chat.None? ==>
        && messages == old(messages) && media == old(media) && broadcasts == old(broadcasts)
        && db.messages == old(db.messages) && db.nextMessage == old(db.nextMessage)
        && db.media == old(db.media) && db.nextMedia == old(db.nextMedia)
      ensures monitorMessages && chat.Some? ==>
        var mediaType := MediaType(msg.media);
        var captured := saveMedia && mediaType.Some? && downloadOk;
        var path := if captured then Some(MediaPath(mediaDir, MediaFileName(msg.id, mediaType.value, stamp))) else None;
        var record := NewMessageRecord(msg, chat.value, sender, mediaType, path);
        && media == old(media) + (if captured then 1 else 0)
        && (!captured ==> db.media == old(db.media) && db.nextMedia == old(db.nextMedia))
        && (captured ==>
              db.media == old(db.media) ||
              db.media == old(db.media) + [Row(old(db.nextMedia), MediaRecord(msg, mediaType.value, mediaDir, stamp, fileSize))])
        && (record.Raised? ==>
              messages == old(messages) && broadcasts == old(broadcasts) &&
              db.messages == old(db.messages) && db.nextMessage == old(db.nextMessage))
        && (record.Done? ==>
              && messages == old(messages) + 1
              && (db.messages == old(db.messages) ||
                  db.messages == old(db.messages) + [Row(old(db.nextMessage), StoredMessage(record.value))])
              && broadcasts == old(broadcasts) +
                   (if hasCallback then [Broadcast(NewMessage, MessagePayload(record.value), ClassifyChat(chat.value))] else []))
    {
      if !monitorMessages || chat.None? {
        return;
      }
      CaptureAndRecord(msg, chat.value, sender, stamp, downloadOk, fileSize);
    }

    /** The body of `_handle_message` once the handler is on and the chat is known. */
    method CaptureAndRecord(msg: RawMessage, c: Peer, sender: Option<Peer>,
                            stamp: string, downloadOk: bool, fileSize: Option<int>)
      requires Valid()
      modifies this`messages, this`media, this`broadcasts, db`messages, db`nextMessage, db`media, db`nextMedia
      ensures Valid()
      ensures
        var mediaType := MediaType(msg.media);
        var captured := saveMedia && mediaType.Some? && downloadOk;
        var path := if captured then Some(MediaPath(mediaDir, MediaFileName(msg.id, mediaType.value, stamp))) else None;
        var record := NewMessageRecord(msg, c, sender, mediaType, path);
        && media == old(media) + (if captured then 1 else 0)
        && (!captured ==> db.media == old(db.media) && db.nextMedia == old(db.nextMedia))
        && (captured ==>
              db.media == old(db.media) ||
              db.media == old(db.media) + [Row(old(db.nextMedia), MediaRecord(msg, mediaType.value, mediaDir, stamp, fileSize))])
        && (record.Raised? ==>
              messages == old(messages) && broadcasts == old(broadcasts) &&
              db.messages == old(db.messages) && db.nextMessage == old(db.nextMessage))
        && (record.Done? ==>
              && messages == old(messages) + 1
              && (db.messages == old(db.messages) ||
                  db.messages == old(db.messages) + [Row(old(db.nextMessage), StoredMessage(record.value))])
              && broadcasts == old(broadcasts) +
                   (if hasCallback then [Broadcast(NewMessage, MessagePayload(record.value), ClassifyChat(c))] else []))
    {
      var mediaType := MediaType(msg.media);
      var path: Option<string> := None;
      if mediaType.Some? && saveMedia {
        path := SaveMedia(msg, mediaType.value, stamp, downloadOk, fileSize);
      }
      var record := NewMessageRecord(msg, c, sender, mediaType, path);
      if record.Raised? {
        return;
      }
      ghost var _ := RecordMessage(record.value, NewMessage, ClassifyChat(c));
    }

    /** `_handle_edited_message`: one edited record, inserted, counted and passed on. */
    method HandleEditedMessage(msg: RawMessage, chat: Option<Peer>, sender: Option<Peer>)
      requires Valid()
      modifies this`messages, this`broadcasts, db`messages, db`nextMessage
      ensures Valid()
      ensures !monitorMessages || chat.None? ==>
        messages == old(messages) && broadcasts == old(broadcasts) &&
        db.messages == old(db.messages) && db.nextMessage == old(db.nextMessage)
      ensures monitorMessages && chat.Some? ==>
        var record := EditedMessageRecord(msg, chat.value, sender);
        && messages == old(messages) + 1
        && (db.messages == old(db.messages) ||
            db.messages == old(db.messages) + [Row(old(db.nextMessage), StoredMessage(record))])
        && broadcasts == old(broadcasts) +
             (if hasCallback then [Broadcast(EditedMessage, MessagePayload(record), ClassifyChat(chat.value))] else [])
    {
      if !monitorMessages || chat.None? {
        return;
      }
      var record := EditedMessageRecord(msg, chat.value, sender);
      ghost var _ := RecordMessage(record, EditedMessage, ClassifyChat(chat.value));
    }

    /**
     * `_handle_deleted_message`: one tombstone per deleted id, in batch order,
     * each inserted, counted and passed on. The new rows hold exactly the
     * tombstones whose insert succeeded (`inserted`), in order.
     */
    method HandleDeletedMessage(ids: seq<int>, chat: Option<Peer>, now: int) returns (ghost inserted: seq<bool>)
      requires Valid()
      modifies this`messages, this`broadcasts, db`messages, db`nextMessage
      ensures Valid()
      ensures !monitorMessages || chat.None? ==>
        messages == old(messages) && broadcasts == old(broadcasts) &&
        db.messages == old(db.messages) && db.nextMessage == old(db.nextMessage)
      ensures monitorMessages && chat.Some? ==>
        var tombstones := Tombstones(ids, chat.value, now);
        && messages == old(messages) + |ids|
        && |old(db.messages)| <= |db.messages| && db.messages[..|old(db.messages)|] == old(db.messages)
        && |inserted| == |ids| && Values(db.messages[|old(db.messages)|..]) == Filter(tombstones, inserted)
        && broadcasts == old(broadcasts) +
             (if hasCallback then MessageBroadcasts(DeletedMessage, tombstones, ClassifyChat(chat.value)) else [])
    {
      inserted := [];
      if !monitorMessages || chat.None? {
        return;
      }
      var c := chat.value;
      ghost var m0, b0 := db.messages, broadcasts;
      ghost var added: seq<Row<MessageData>> := [];
      ghost var seen: seq<MessageData> := [];
      var i: nat := 0;
      while i < |ids|
        invariant i <= |ids|
        invariant seen == Tombstones(ids[..i], c, now)
        invariant messages == old(messages) + i
        invariant MessageProgress(m0, b0, added, seen, inserted, DeletedMessage, ClassifyChat(c))
      {
        var record := Tombstone(ids[i], c, now);
        added, seen, inserted := StoreMessage(record, DeletedMessage, ClassifyChat(c), m0, b0, added, seen, inserted);
        TombstonesStep(ids, c, now, i);
        i := i + 1;
        assert seen == Tombstones(ids[..i], c, now);
      }
      assert ids[..i] == ids;
      assert db.messages[|m0|..] == added;
    }

    /**
     * What the message rows and notifications since `m0` and `b0` say about
     * the records handled so far (`seen`): the rows hold the records whose
     * flag in `inserted` is set, and every record was passed to the callback
     * if there is one.
     */
    ghost predicate MessageProgress(m0: seq<Row<MessageData>>, b0: seq<Broadcast>, added: seq<Row<MessageData>>,
                                    seen: seq<MessageData>, inserted: seq<bool>, category: Category, kind: ChatKind)
      reads this, db
    {
      && Valid()
      && db.messages == m0 + added
      && |inserted| == |seen| && Values(added) == Filter(seen, inserted)
      && (hasCallback ==> broadcasts == b0 + MessageBroadcasts(category, seen, kind))
      && (!hasCallback ==> broadcasts == b0)
    }

    /** One step of a loop of message records: `RecordMessage` and the bookkeeping of `MessageProgress`. */
    method StoreMessage(record: MessageData, category: Category, kind: ChatKind,
                        ghost m0: seq<Row<MessageData>>, ghost b0: seq<Broadcast>,
                        ghost added: seq<Row<MessageData>>, ghost seen: seq<MessageData>, ghost inserted: seq<bool>)
      returns (ghost added': seq<Row<MessageData>>, ghost seen': seq<MessageData>, ghost inserted': seq<bool>)
      requires record.text.Some? && MessageProgress(m0, b0, added, seen, inserted, category, kind)
      modifies this`messages, this`broadcasts, db`messages, db`nextMessage
      ensures MessageProgress(m0, b0, added', seen', inserted', category, kind)
      ensures seen' == seen + [record] && messages == old(messages) + 1
    {
      ghost var nextId := db.nextMessage;
      ghost var stored := RecordMessage(record, category, kind);
      ghost var row := if stored then [Row(nextId, record)] else [];
      ValuesStep(added, stored, Row(nextId, record));
      FilterSnoc(seen, inserted, record, stored);
      AppendAssoc(m0, added, row);
      if hasCallback {
        MessageBroadcastsSnoc(category, seen, record, kind);
        AppendAssoc(b0, MessageBroadcasts(category, seen, kind), [Broadcast(category, MessagePayload(record), kind)]);
      }
      added', seen', inserted' := added + row, seen + [record], inserted + [stored];
    }

    /**
     * `_handle_reactions`: for every result and every one of its recent
     * reactors, one record, inserted, counted and passed on. The new rows
     * hold exactly the records whose insert succeeded (`inserted`), in order.
     */
    method HandleReactions(messageId: int, chat: Option<Peer>, results: Option<seq<ReactionCount>>,
                           directory: map<int, Option<string>>, now: int)
      returns (ghost inserted: seq<bool>)
      requires Valid()
      modifies this`reactions, this`broadcasts, db`reactions, db`nextReaction
      ensures Valid()
      ensures !monitorReactions || chat.None? || results.None? ==>
        reactions == old(reactions) && broadcasts == old(broadcasts) &&
        db.reactions == old(db.reactions) && db.nextReaction == old(db.nextReaction)
      ensures monitorReactions && chat.Some? && results.Some? ==>
        var records := ReactionRecords(messageId, chat.value.id, results.value, directory, now);
        && reactions == old(reactions) + PairCount(results.value)
        && |old(db.reactions)| <= |db.reactions| && db.reactions[..|old(db.reactions)|] == old(db.reactions)
        && |inserted| == |records|
        && Values(db.reactions[|old(db.reactions)|..]) == Filter(records, inserted)
        && broadcasts == old(broadcasts) +
             (if hasCallback then ReactionBroadcasts(records, ClassifyChat(chat.value)) else [])
    {
      inserted := [];
      if !monitorReactions || chat.None? || results.None? {
        return;
      }
      inserted := RecordResults(messageId, chat.value, results.value, directory, now);
    }

    /** The loop of `_handle_reactions` over the results, once the handler is on and the chat known. */
    method RecordResults(messageId: int, c: Peer, rs: seq<ReactionCount>,
                         directory: map<int, Option<string>>, now: int)
      returns (ghost inserted: seq<bool>)
      requires Valid()
      modifies this`reactions, this`broadcasts, db`reactions, db`nextReaction
      ensures Valid()
      ensures
        var records := ReactionRecords(messageId, c.id, rs, directory, now);
        && reactions == old(reactions) + PairCount(rs)
        && |old(db.reactions)| <= |db.reactions| && db.reactions[..|old(db.reactions)|] == old(db.reactions)
        && |inserted| == |records|
        && Values(db.reactions[|old(db.reactions)|..]) == Filter(records, inserted)
        && broadcasts == old(broadcasts) +
             (if hasCallback then ReactionBroadcasts(records, ClassifyChat(c)) else [])
    {
      inserted := [];
      var kind := ClassifyChat(c);
      ghost var r0, b0 := db.reactions, broadcasts;
      ghost var added: seq<Row<ReactionData>> := [];
      ghost var done: seq<ReactionData> := [];
      var i: nat := 0;
      while i < |rs|
        invariant i <= |rs| && Valid()
        invariant ResultsProgress(messageId, c.id, rs, i, directory, now, kind, old(reactions), r0, b0, done, added, inserted)
      {
        done, added, inserted := RecordResult(messageId, c.id, rs, i, directory, now, kind, old(reactions), r0, b0, done, added, inserted);
        i := i + 1;
      }
      assert rs[..i] == rs;
      assert db.reactions[|r0|..] == added;
    }

    /**
     * What the loop over the results has done after the first `i` of them: `done` are their
     * records, `added` the rows inserted for them and `inserted` which inserts succeeded.
     */
    ghost predicate ResultsProgress(messageId: int, chatId: int, rs: seq<ReactionCount>, i: nat,
                                    directory: map<int, Option<string>>, now: int, kind: ChatKind,
                                    count0: int, r0: seq<Row<ReactionData>>, b0: seq<Broadcast>,
                                    done: seq<ReactionData>, added: seq<Row<ReactionData>>, inserted: seq<bool>)
      reads this, db
    {
      && i <= |rs|
      && done == ReactionRecords(messageId, chatId, rs[..i], directory, now)
      && reactions == count0 + |done|
      && db.reactions == r0 + added
      && |inserted| == |done| && Values(added) == Filter(done, inserted)
      && broadcasts == b0 + (if hasCallback then ReactionBroadcasts(done, kind) else [])
    }

    /** One pass of the loop over the results: the reactors of result `i`. */
    method RecordResult(messageId: int, chatId: int, rs: seq<ReactionCount>, i: nat,
                        directory: map<int, Option<string>>, now: int, kind: ChatKind,
                        ghost count0: int, ghost r0: seq<Row<ReactionData>>, ghost b0: seq<Broadcast>,
                        ghost done: seq<ReactionData>, ghost added: seq<Row<ReactionData>>, ghost inserted: seq<bool>)
      returns (ghost done': seq<ReactionData>, ghost added': seq<Row<ReactionData>>, ghost inserted': seq<bool>)
      requires Valid() && i < |rs|
      requires ResultsProgress(messageId, chatId, rs, i, directory, now, kind, count0, r0, b0, done, added, inserted)
      modifies this`reactions, this`broadcasts, db`reactions, db`nextReaction
      ensures Valid()
      ensures ResultsProgress(messageId, chatId, rs, i + 1, directory, now, kind, count0, r0, b0, done', added', inserted')
    {
      ghost var records := ReactorRecords(messageId, chatId, rs[i].reaction, Recent(rs[i]), directory, now);
      ghost var more, moreInserted := RecordReactors(messageId, chatId, rs[i].reaction, Recent(rs[i]), directory, now, kind);
      FilterAppend(done, inserted, records, moreInserted);
      ValuesAppend(added, more);
      ReactionRecordsStep(messageId, chatId, rs, directory, now, i);
      AppendAssoc(r0, added, more);
      if hasCallback {
        ReactionBroadcastsAppend(done, records, kind);
        AppendAssoc(b0, ReactionBroadcasts(done, kind), ReactionBroadcasts(records, kind));
      }
      done', added', inserted' := done + records, added + more, inserted + moreInserted;
    }

    /**
     * The inner loop of `_handle_reactions`: one record per recent reactor
     * of one result, each inserted, counted and passed on.
     */
    method RecordReactors(messageId: int, chatId: int, reaction: Reaction, reactors: seq<Reactor>,
                          directory: map<int, Option<string>>, now: int, kind: ChatKind)
      returns (ghost added: seq<Row<ReactionData>>, ghost inserted: seq<bool>)
      requires Valid()
      modifies this`reactions, this`broadcasts, db`reactions, db`nextReaction
      ensures Valid()
      ensures var records := ReactorRecords(messageId, chatId, reaction, reactors, directory, now);
        && reactions == old(reactions) + |reactors|
        && db.reactions == old(db.reactions) + added
        && |inserted| == |records| && Values(added) == Filter(records, inserted)
        && broadcasts == old(broadcasts) + (if hasCallback then ReactionBroadcasts(records, kind) else [])
    {
      ghost var r0, b0 := db.reactions, broadcasts;
      ghost var seen: seq<ReactionData> := [];
      added, inserted := [], [];
      var j: nat := 0;
      while j < |reactors|
        invariant j <= |reactors|
        invariant seen == ReactorRecords(messageId, chatId, reaction, reactors[..j], directory, now)
        invariant reactions == old(reactions) + j
        invariant ReactionProgress(r0, b0, added, seen, inserted, kind)
      {
        var record := ReactionRecord(messageId, chatId, reaction, reactors[j], directory, now);
        added, seen, inserted := StoreReaction(record, kind, r0, b0, added, seen, inserted);
        ReactorRecordsStep(messageId, chatId, reaction, reactors, directory, now, j);
        j := j + 1;
        assert seen == ReactorRecords(messageId, chatId, reaction, reactors[..j], directory, now);
      }
      assert reactors[..j] == reactors;
    }

    /**
     * What the reaction rows and notifications since `r0` and `b0` say about
     * the records seen so far: the rows hold the records whose flag in
     * `inserted` is set, and every record was passed to the callback if there is one.
     */
    ghost predicate ReactionProgress(r0: seq<Row<ReactionData>>, b0: seq<Broadcast>, added: seq<Row<ReactionData>>,
                                     seen: seq<ReactionData>, inserted: seq<bool>, kind: ChatKind)
      reads this, db
    {
      && Valid()
      && db.reactions == r0 + added
      && |inserted| == |seen| && Values(added) == Filter(seen, inserted)
      && (hasCallback ==> broadcasts == b0 + ReactionBroadcasts(seen, kind))
      && (!hasCallback ==> broadcasts == b0)
    }

    /** One step of the inner loop of `_handle_reactions`: `RecordReaction` and the bookkeeping of `ReactionProgress`. */
    method StoreReaction(record: ReactionData, kind: ChatKind, ghost r0: seq<Row<ReactionData>>, ghost b0: seq<Broadcast>,
                         ghost added: seq<Row<ReactionData>>, ghost seen: seq<ReactionData>, ghost inserted: seq<bool>)
      returns (ghost added': seq<Row<ReactionData>>, ghost seen': seq<ReactionData>, ghost inserted': seq<bool>)
      requires record.action.Some? && ReactionProgress(r0, b0, added, seen, inserted, kind)
      modifies this`reactions, this`broadcasts, db`reactions, db`nextReaction
      ensures ReactionProgress(r0, b0, added', seen', inserted', kind)
      ensures seen' == seen + [record] && reactions == old(reactions) + 1
    {
      ghost var nextId := db.nextReaction;
      ghost var stored := RecordReaction(record, kind);
      ghost var row := if stored then [Row(nextId, record)] else [];
      ValuesStep(added, stored, Row(nextId, record));
      FilterSnoc(seen, inserted, record, stored);
      AppendAssoc(r0, added, row);
      if hasCallback {
        ReactionBroadcastsSnoc(seen, record, kind);
        AppendAssoc(b0, ReactionBroadcasts(seen, kind), [Broadcast(NewReaction, ReactionPayload(record), kind)]);
      }
      added', seen', inserted' := added + row, seen + [record], inserted + [stored];
    }

    /**
     * `_handle_chat_action`: with some flag set, one event is inserted and
     * counted. No notification is ever sent: the handler reads a `chat_type`
     * it never defined, and the resulting exception is swallowed.
     */
    method HandleChatAction(action: RawChatAction, chat: Option<Peer>, user: Option<Peer>, now: int)
      requires Valid()
      modifies this`events, db`events, db`nextEvent
      ensures Valid()
      ensures !monitorEvents || chat.None? || ChatActionType(action).None? ==>
        events == old(events) && db.events == old(db.events) && db.nextEvent == old(db.nextEvent)
      ensures monitorEvents && chat.Some? && ChatActionType(action).Some? ==>
        var record := ChatActionRecord(action, chat.value, user, now);
        && record.Some?
        && events == old(events) + 1
        && (db.events == old(db.events) ||
            db.events == old(db.events) + [Row(old(db.nextEvent), StoredEvent(record.value))])
    {
      if !monitorEvents || chat.None? {
        return;
      }
      var record := ChatActionRecord(action, chat.value, user, now);
      if record.Some? {
        var _ := db.InsertEvent(record.value);
        events := events + 1;
        // The notification would need `chat_type`, which this handler never defines:
        // the NameError is caught by the handler's own except clause.
      }
    }

    /** `_handle_user_update`: a `user_updated` event, counted as an event (never as a contact). */
    method HandleUserUpdate(user: Option<Peer>, now: int)
      requires Valid()
      modifies this`events, db`events, db`nextEvent
      ensures Valid()
      ensures !monitorContacts || user.None? ==>
        events == old(events) && db.events == old(db.events) && db.nextEvent == old(db.nextEvent)
      ensures monitorContacts && user.Some? ==>
        && events == old(events) + 1
        && (db.events == old(db.events) ||
            db.events == old(db.events) + [Row(old(db.nextEvent), StoredEvent(UserUpdateRecord(user.value, now)))])
    {
      if !monitorContacts || user.None? {
        return;
      }
      var _ := db.InsertEvent(UserUpdateRecord(user.value, now));
      events := events + 1;
    }
  }
}
