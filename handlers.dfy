/**
  The decision logic of handlers.py with the chat transport taken out.
  Every call a handler makes on the outside world (the classifier, sending,
  answering, deleting, restricting, banning, editing) is recorded, in
  order, in the sequence of `Call`s a handler returns. Which transport
  calls raise is an input: a call fails exactly when it is a key of the
  `failures` map, whose value is the text of the exception it raises.
 */
module Handlers {
  import opened Text
  import opened Warnings

  datatype ChatType = Private | Group | Supergroup | Channel

  /** `from_user`; `username` is "" when the account has none. */
  datatype Sender = Sender(id: int, username: string)

  /**
    An incoming message: its chat, its id, the id of `sender_chat` when it
    was posted on behalf of a chat, its text and its sender.
   */
  datatype Message = Message(
    chatId: int,
    chatType: ChatType,
    messageId: int,
    senderChat: Option<int>,
    text: Option<string>,
    sender: Option<Sender>)

  /** The configuration the handlers read: ADMINS, CHANNELS, WARNINGS_ENABLED and the reply texts. */
  datatype Config = Config(
    admins: seq<int>,
    channels: seq<int>,
    warningsEnabled: bool,
    chatRules: string,
    notAdminText: string,
    noLogsText: string,
    privateSpamText: string,
    privateCleanText: string,
    groupSpamText: string,
    groupSpamWarnText: string,
    groupSpamBanText: string)

  /** One call on a collaborator, as the handler issues it. */
  datatype Call =
    | Predict(text: string)                                        // detector.predict
    | SendMessage(chatId: int, text: string, replyTo: Option<int>) // bot.send_message
    | Answer(chatId: int, text: string)                            // message.answer
    | DeleteMessage(chatId: int, messageId: int)                   // message.delete
    | RestrictMember(chatId: int, userId: int)                     // bot.restrict_chat_member, nothing may be sent
    | BanMember(chatId: int, userId: int)                          // bot.ban_chat_member
    | UnbanMember(chatId: int, userId: int)                        // bot.unban_chat_member
    | EditText(text: string)                                       // callback.message.edit_text
    | AnswerCallback(notice: Option<string>)                       // callback.answer

  // ---------------------------------------------------------------------------
  // Channel posts
  // ---------------------------------------------------------------------------

  /** `handle_channel_post`: a post in a whitelisted channel gets the rules as a reply; any other gets nothing. */
  function HandleChannelPost(cfg: Config, post: Message): (calls: seq<Call>)
    ensures post.chatId in cfg.channels <==> calls != []
    ensures calls != [] ==> calls == [SendMessage(post.chatId, cfg.chatRules, Some(post.messageId))]
  {
    if post.chatId in cfg.channels then [SendMessage(post.chatId, cfg.chatRules, Some(post.messageId))] else []
  }

  // ---------------------------------------------------------------------------
  // Moderation of ordinary messages
  // ---------------------------------------------------------------------------

  /** The message is posted by a user (not on behalf of a chat), has text and has a sender: it is classified. */
  predicate Classified(msg: Message) {
    msg.senderChat.None? && msg.text.Some? && msg.text.value != "" && msg.sender.Some?
  }

  predicate InGroup(t: ChatType) {
    t == Group || t == Supergroup
  }

  /** `from_user.username or "unknown"`. */
  function SenderName(msg: Message): string
    requires msg.sender.Some?
  {
    NameOrUnknown(msg.sender.value.username)
  }

  function WarnText(cfg: Config, username: string, count: int, maxWarnings: int): string {
    "@" + username + ", " + cfg.groupSpamText + " " + cfg.groupSpamWarnText + " "
    + IntToString(count) + "/" + IntToString(maxWarnings) + "."
  }

  function BanText(cfg: Config, username: string): string {
    "@" + username + " " + cfg.groupSpamBanText
  }

  function AdminNotice(username: string, userId: int, text: string): string {
    "🚫 Пользователь @" + username + " (ID: " + IntToString(userId) + ") был ограничен за спам.\nСообщение:\n" + text
  }

  /** One notice to each admin, in the order of ADMINS. */
  function AdminNotices(admins: seq<int>, notice: string): (calls: seq<Call>)
    ensures |calls| == |admins|
    ensures forall i :: 0 <= i < |admins| ==> calls[i] == SendMessage(admins[i], notice, None)
  {
    if admins == [] then []
    else AdminNotices(admins[..|admins| - 1], notice) + [SendMessage(admins[|admins| - 1], notice, None)]
  }

  /** `for admin_id in ADMINS`: one notice per admin, whether or not an earlier one failed. */
  method NotifyAdmins(admins: seq<int>, notice: string) returns (calls: seq<Call>)
    ensures calls == AdminNotices(admins, notice)
  {
    calls := [];
    var i := 0;
    while i < |admins|
      invariant 0 <= i <= |admins|
      invariant calls == AdminNotices(admins[..i], notice)
    {
      // a failed notice is logged and the loop goes on to the next admin
      calls := calls + [SendMessage(admins[i], notice, None)];
      assert admins[..i + 1][..i] == admins[..i];
      i := i + 1;
    }
    assert admins[..i] == admins;
  }

  /** What a handler leaves in the store's records, and the calls it made. */
  datatype Outcome = Outcome(records: map<string, UserRecord>, calls: seq<Call>)

  /**
    The group path of `filter_messages`, for spam from a user not marked
    banned: the violation is logged; below the threshold, with warnings
    enabled, the user is warned and the message deleted; otherwise the user
    is restricted, marked banned, announced, and every admin is notified.
    An exception stops the path at the call that raised it.
   */
  function GroupSpamOutcome(cfg: Config, records: map<string, UserRecord>, standardCount: int,
                            msg: Message, failures: map<Call, string>): (o: Outcome)
    requires Classified(msg)
    ensures var uid := msg.sender.value.id;
      var key := Key(uid);
      var before := Lookup(records, key, standardCount);
      && o.records.Keys == records.Keys + {key}
      && (forall k :: k in records && k != key ==> o.records[k] == records[k])
      && o.records[key].count == before.count + 1
      && o.records[key].messages == before.messages + [msg.text.value]
      && o.records[key].username == SenderName(msg)
      && o.records[key].maxWarnings == before.maxWarnings
      && |o.calls| >= 1
    // below the threshold: a warning showing count/threshold, then the deletion unless the warning failed
    ensures var uid := msg.sender.value.id;
      var before := Lookup(records, Key(uid), standardCount);
      cfg.warningsEnabled && before.count + 1 < before.maxWarnings ==>
        && o.calls[0] == Answer(msg.chatId, WarnText(cfg, SenderName(msg), before.count + 1, before.maxWarnings))
        && o.calls[1..] == (if o.calls[0] in failures then [] else [DeleteMessage(msg.chatId, msg.messageId)])
        && o.records[Key(uid)].banned == before.banned
    // at the threshold or with warnings off: restrict; only a restriction that went through marks the user banned
    ensures var uid := msg.sender.value.id;
      var before := Lookup(records, Key(uid), standardCount);
      !(cfg.warningsEnabled && before.count + 1 < before.maxWarnings) ==>
        && o.calls[0] == RestrictMember(msg.chatId, uid)
        && (o.records[Key(uid)].banned <==> before.banned || o.calls[0] !in failures)
        && (o.calls[0] in failures ==> |o.calls| == 1)
        && (o.calls[0] !in failures ==>
              && |o.calls| >= 2 && o.calls[1] == Answer(msg.chatId, BanText(cfg, SenderName(msg)))
              && o.calls[2..] == (if o.calls[1] in failures then []
                                  else AdminNotices(cfg.admins, AdminNotice(SenderName(msg), uid, msg.text.value))))
  {
    var uid := msg.sender.value.id;
    var key := Key(uid);
    var name := SenderName(msg);
    var text := msg.text.value;
    var logged := WithViolation(records, key, name, text, standardCount);
    var count := logged[key].count;
    var limit := logged[key].maxWarnings;
    if cfg.warningsEnabled && count < limit then
      var warn := Answer(msg.chatId, WarnText(cfg, name, count, limit));
      Outcome(logged, [warn] + if warn in failures then [] else [DeleteMessage(msg.chatId, msg.messageId)])
    else Restriction(cfg, logged, msg, failures)
  }

  /**
    The last stage of the group path, on records where the violation is
    already logged: restrict the user; once that went through, mark the
    user banned, announce it and, unless the announcement failed, notify
    every admin.
   */
  function Restriction(cfg: Config, logged: map<string, UserRecord>, msg: Message,
                       failures: map<Call, string>): (o: Outcome)
    requires Classified(msg) && Key(msg.sender.value.id) in logged
    ensures |o.calls| > 0 && o.calls[0] == RestrictMember(msg.chatId, msg.sender.value.id)
    // a failed restriction: nothing else, the record keeps its flag
    ensures o.calls[0] in failures ==> o.records == logged && |o.calls| == 1
    // otherwise: banned, announced, and the admins notified unless the announcement raised
    ensures o.calls[0] !in failures ==>
      && o.records == WithBanFlag(logged, Key(msg.sender.value.id), true)
      && |o.calls| >= 2
      && o.calls[1] == Answer(msg.chatId, BanText(cfg, SenderName(msg)))
      && o.calls[2..] == if o.calls[1] in failures then []
                         else AdminNotices(cfg.admins, AdminNotice(SenderName(msg), msg.sender.value.id, msg.text.value))
  {
    var uid := msg.sender.value.id;
    var name := SenderName(msg);
    var restrict := RestrictMember(msg.chatId, uid);
    if restrict in failures then Outcome(logged, [restrict])
    else
      var notice := Answer(msg.chatId, BanText(cfg, name));
      Outcome(WithBanFlag(logged, Key(uid), true),
              [restrict, notice] + if notice in failures then [] else AdminNotices(cfg.admins, AdminNotice(name, uid, msg.text.value)))
  }

  /**
    `filter_messages`, given the classifier's verdict `isSpam` on the text:
    the records it leaves and the calls it makes.
   */
  function Moderate(cfg: Config, records: map<string, UserRecord>, standardCount: int, msg: Message,
                    isSpam: bool, failures: map<Call, string>): (o: Outcome)
    // posted on behalf of a chat: nothing, or the rules when the chat is whitelisted; no classification
    ensures msg.senderChat.Some? ==>
      && o.records == records
      && o.calls == if msg.senderChat.value in cfg.channels
                    then [SendMessage(msg.chatId, cfg.chatRules, Some(msg.messageId))] else []
    // no text or no sender: nothing at all
    ensures msg.senderChat.None? && !Classified(msg) ==> o.records == records && o.calls == []
    // anything else is classified first
    ensures Classified(msg) ==> |o.calls| >= 1 && o.calls[0] == Predict(msg.text.value)
    // a private chat gets the reply the verdict selects and nothing else
    ensures Classified(msg) && msg.chatType == Private ==>
      && o.records == records
      && o.calls[1..] == [Answer(msg.chatId, if isSpam then cfg.privateSpamText else cfg.privateCleanText)]
    // clean text, a sender already marked banned, or a chat that is not a group: classified, nothing more
    ensures Classified(msg) && msg.chatType != Private
            && (!isSpam || Lookup(records, Key(msg.sender.value.id), standardCount).banned || !InGroup(msg.chatType)) ==>
      o.records == records && o.calls == [Predict(msg.text.value)]
    // spam in a group from a user not marked banned
    ensures Classified(msg) && InGroup(msg.chatType) && isSpam
            && !Lookup(records, Key(msg.sender.value.id), standardCount).banned ==>
      var g := GroupSpamOutcome(cfg, records, standardCount, msg, failures);
      o.records == g.records && o.calls[1..] == g.calls
    // only group spam changes the store
    ensures o.records != records ==> Classified(msg) && InGroup(msg.chatType) && isSpam
  {
    if msg.senderChat.Some? then
      if msg.senderChat.value in cfg.channels
      then Outcome(records, [SendMessage(msg.chatId, cfg.chatRules, Some(msg.messageId))])
      else Outcome(records, [])
    else if !Classified(msg) then Outcome(records, [])
    else
      var classify := Predict(msg.text.value);
      if msg.chatType == Private then
        Outcome(records, [classify, Answer(msg.chatId, if isSpam then cfg.privateSpamText else cfg.privateCleanText)])
      else if isSpam && !Lookup(records, Key(msg.sender.value.id), standardCount).banned && InGroup(msg.chatType) then
        var g := GroupSpamOutcome(cfg, records, standardCount, msg, failures);
        Outcome(g.records, [classify] + g.calls)
      else Outcome(records, [classify])
  }

  /** The group path of `filter_messages`, on the store. */
  method EnforceGroupSpam(cfg: Config, store: WarningManager, msg: Message, failures: map<Call, string>)
    returns (calls: seq<Call>)
    requires store.Valid() && Classified(msg)
    modifies store
    ensures store.Valid()
    ensures var o := GroupSpamOutcome(cfg, old(store.records), store.standardCount, msg, failures);
      store.records == o.records && calls == o.calls
    ensures var key := Key(msg.sender.value.id);
      store.order == if key in old(store.records) then old(store.order) else old(store.order) + [key]
  {
    var uid := msg.sender.value.id;
    var name := SenderName(msg);
    var text := msg.text.value;
    ghost var o := GroupSpamOutcome(cfg, store.records, store.standardCount, msg, failures);
    ghost var logged := WithViolation(store.records, Key(uid), name, text, store.standardCount);
    var count := store.LogViolation(uid, name, text);
    var limit := store.GetUser(uid).maxWarnings;
    assert store.records == logged && count == logged[Key(uid)].count && limit == logged[Key(uid)].maxWarnings;
    if cfg.warningsEnabled && count < limit {
      var warn := Answer(msg.chatId, WarnText(cfg, name, count, limit));
      calls := [warn];
      if warn !in failures {
        calls := calls + [DeleteMessage(msg.chatId, msg.messageId)];
      }
      assert calls == o.calls;
      return;
    }
    calls := RestrictSpammer(cfg, store, msg, failures);
  }

  /** The restriction stage of the group path, on the store. */
  method RestrictSpammer(cfg: Config, store: WarningManager, msg: Message, failures: map<Call, string>)
    returns (calls: seq<Call>)
    requires store.Valid() && Classified(msg) && Key(msg.sender.value.id) in store.records
    modifies store
    ensures store.Valid() && store.order == old(store.order)
    ensures var o := Restriction(cfg, old(store.records), msg, failures);
      store.records == o.records && calls == o.calls
  {
    var uid := msg.sender.value.id;
    var restrict := RestrictMember(msg.chatId, uid);
    calls := [restrict];
    if restrict in failures {
      return;
    }
    store.BanUser(uid);
    var notice := Answer(msg.chatId, BanText(cfg, SenderName(msg)));
    calls := [restrict, notice];
    if notice in failures {
      return;
    }
    var notified := NotifyAdmins(cfg.admins, AdminNotice(SenderName(msg), uid, msg.text.value));
    calls := calls + notified;
  }

  /** `filter_messages`, on the store. */
  method FilterMessages(cfg: Config, store: WarningManager, msg: Message, isSpam: bool, failures: map<Call, string>)
    returns (calls: seq<Call>)
    requires store.Valid()
    modifies store
    ensures store.Valid()
    ensures var o := Moderate(cfg, old(store.records), store.standardCount, msg, isSpam, failures);
      store.records == o.records && calls == o.calls
    ensures store.records.Keys == old(store.records).Keys ==> store.order == old(store.order)
    ensures store.records.Keys != old(store.records).Keys ==>
      Classified(msg) && store.order == old(store.order) + [Key(msg.sender.value.id)]
  {
    calls := [];
    if msg.senderChat.Some? && msg.senderChat.value !in cfg.channels {
      return;
    }
    if msg.senderChat.Some? {
      // a failure to send the rules is logged
      calls := [SendMessage(msg.chatId, cfg.chatRules, Some(msg.messageId))];
      return;
    }
    if msg.text.None? || msg.text.value == "" || msg.sender.None? {
      return;
    }
    var classify := Predict(msg.text.value);
    if msg.chatType == Private {
      calls := [classify, Answer(msg.chatId, if isSpam then cfg.privateSpamText else cfg.privateCleanText)];
      return;
    }
    if isSpam && !store.IsBanned(msg.sender.value.id) && InGroup(msg.chatType) {
      var enforced := EnforceGroupSpam(cfg, store, msg, failures);
      calls := [classify] + enforced;
    } else {
      calls := [classify];
    }
  }

  /**
    Warn and delete: group spam from a user not marked banned, with warnings
    on and the new count still below the threshold, when no call fails.
   */
  lemma WarnAndDelete(cfg: Config, records: map<string, UserRecord>, standardCount: int, msg: Message)
    requires Classified(msg) && InGroup(msg.chatType) && cfg.warningsEnabled
    requires var before := Lookup(records, Key(msg.sender.value.id), standardCount);
      !before.banned && before.count + 1 < before.maxWarnings
    ensures var uid := msg.sender.value.id;
      var before := Lookup(records, Key(uid), standardCount);
      Moderate(cfg, records, standardCount, msg, true, map[])
      == Outcome(WithViolation(records, Key(uid), SenderName(msg), msg.text.value, standardCount),
                 [Predict(msg.text.value),
                  Answer(msg.chatId, WarnText(cfg, SenderName(msg), before.count + 1, before.maxWarnings)),
                  DeleteMessage(msg.chatId, msg.messageId)])
  {
    var o := Moderate(cfg, records, standardCount, msg, true, map[]);
    var g := GroupSpamOutcome(cfg, records, standardCount, msg, map[]);
    assert o.calls == [o.calls[0]] + g.calls;
  }

  /**
    Restrict and ban: group spam from a user not marked banned that reaches
    the threshold (or arrives with warnings off), when no call fails.
   */
  lemma RestrictAndBan(cfg: Config, records: map<string, UserRecord>, standardCount: int, msg: Message)
    requires Classified(msg) && InGroup(msg.chatType)
    requires var before := Lookup(records, Key(msg.sender.value.id), standardCount);
      !before.banned && !(cfg.warningsEnabled && before.count + 1 < before.maxWarnings)
    ensures var uid := msg.sender.value.id;
      var name := SenderName(msg);
      var text := msg.text.value;
      Moderate(cfg, records, standardCount, msg, true, map[])
      == Outcome(WithBanFlag(WithViolation(records, Key(uid), name, text, standardCount), Key(uid), true),
                 [Predict(text), RestrictMember(msg.chatId, uid), Answer(msg.chatId, BanText(cfg, name))]
                 + AdminNotices(cfg.admins, AdminNotice(name, uid, text)))
  {
    var uid := msg.sender.value.id;
    var name := SenderName(msg);
    var text := msg.text.value;
    var logged := WithViolation(records, Key(uid), name, text, standardCount);
    var restrict := RestrictMember(msg.chatId, uid);
    var notice := Answer(msg.chatId, BanText(cfg, name));
    var notices := AdminNotices(cfg.admins, AdminNotice(name, uid, text));
    assert GroupSpamOutcome(cfg, records, standardCount, msg, map[]) == Restriction(cfg, logged, msg, map[]);
    assert Restriction(cfg, logged, msg, map[]) == Outcome(WithBanFlag(logged, Key(uid), true), [restrict, notice] + notices);
    assert [Predict(text)] + ([restrict, notice] + notices) == [Predict(text), restrict, notice] + notices;
  }

  /**
    The escalation with a threshold of three on a fresh store, no failing
    call and warnings enabled: two warnings, then a restriction with one
    notice per admin, then silence for the now banned user.
   */
  method ThreeStrikes(cfg: Config, msg: Message)
    returns (first: seq<Call>, second: seq<Call>, third: seq<Call>, fourth: seq<Call>)
    requires cfg.warningsEnabled && Classified(msg) && InGroup(msg.chatType)
    ensures var uid := msg.sender.value.id;
      var name := SenderName(msg);
      var text := msg.text.value;
      && first == [Predict(text), Answer(msg.chatId, WarnText(cfg, name, 1, 3)), DeleteMessage(msg.chatId, msg.messageId)]
      && second == [Predict(text), Answer(msg.chatId, WarnText(cfg, name, 2, 3)), DeleteMessage(msg.chatId, msg.messageId)]
      && third == [Predict(text), RestrictMember(msg.chatId, uid), Answer(msg.chatId, BanText(cfg, name))]
                  + AdminNotices(cfg.admins, AdminNotice(name, uid, text))
      && fourth == [Predict(text)]
  {
    var store := new WarningManager(None, 3);
    ghost var key := Key(msg.sender.value.id);
    ghost var name := SenderName(msg);
    ghost var text := msg.text.value;
    WarnAndDelete(cfg, store.records, 3, msg);
    first := FilterMessages(cfg, store, msg, true, map[]);
    assert store.records[key].count == 1 && store.records[key].maxWarnings == 3 && !store.records[key].banned;
    WarnAndDelete(cfg, store.records, 3, msg);
    second := FilterMessages(cfg, store, msg, true, map[]);
    assert store.records[key].count == 2 && store.records[key].maxWarnings == 3 && !store.records[key].banned;
    RestrictAndBan(cfg, store.records, 3, msg);
    third := FilterMessages(cfg, store, msg, true, map[]);
    assert store.records[key].banned;
    fourth := FilterMessages(cfg, store, msg, true, map[]);
  }

  // ---------------------------------------------------------------------------
  // Logs export (the "logs" button of the admin panel)
  // ---------------------------------------------------------------------------

  const LogsHeader: string := "Логи:\n"
  const Bullet: string := "\n  - "
  /** Longest text a chat message may carry; the export is cut there. */
  const MessageLimit: nat := 4096

  function StatusText(banned: bool): string {
    if banned then "Забанен" else "Активен"
  }

  /** The first line of a record's export: `ID uid (@username): count/max | status`. */
  function EntryHead(uid: string, r: UserRecord): string {
    "ID " + uid + " (@" + r.username + "): " + IntToString(r.count) + "/" + IntToString(r.maxWarnings)
    + " | " + StatusText(r.banned)
  }

  /**
    One record of the export: its first line, then every message as an item
    of a bulleted list, in order; a record without messages still shows one
    empty item.
   */
  function Entry(uid: string, r: UserRecord): (e: string)
    ensures r.messages != [] ==> e == EntryHead(uid, r) + Concat(Prefixed(r.messages, Bullet)) + "\n\n"
    ensures r.messages == [] ==> e == EntryHead(uid, r) + Bullet + "\n\n"
  {
    EntryHead(uid, r) + Bullet + Join(r.messages, Bullet) + "\n\n"
  }

  ghost predicate AllIn(keys: seq<string>, records: map<string, UserRecord>) {
    forall i :: 0 <= i < |keys| ==> keys[i] in records
  }

  /** The entries of the export, one per key, in insertion order. */
  function EntryList(logs: Snapshot): (r: seq<string>)
    requires AllIn(logs.order, logs.records)
    ensures |r| == |logs.order|
    ensures forall i :: 0 <= i < |r| ==> r[i] == Entry(logs.order[i], logs.records[logs.order[i]])
  {
    seq(|logs.order|, i requires 0 <= i < |logs.order| => Entry(logs.order[i], logs.records[logs.order[i]]))
  }

  /** The export of the store before it is cut. */
  function LogsText(logs: Snapshot): string
    requires AllIn(logs.order, logs.records)
  {
    LogsHeader + Concat(EntryList(logs))
  }

  /** Every record appears in the export, in insertion order, between the entries before and after it. */
  lemma EntryInLogs(logs: Snapshot, i: nat)
    requires AllIn(logs.order, logs.records) && i < |logs.order|
    ensures var entries := EntryList(logs);
      LogsText(logs) == LogsHeader + Concat(entries[..i]) + Entry(logs.order[i], logs.records[logs.order[i]])
                        + Concat(entries[i + 1..])
  {
    ConcatAround(LogsHeader, EntryList(logs), i);
  }

  /** The loop of `process_callback` that accumulates the export. */
  method RenderLogs(logs: Snapshot) returns (text: string)
    requires AllIn(logs.order, logs.records)
    ensures text == LogsText(logs)
  {
    ghost var entries := EntryList(logs);
    text := LogsHeader;
    var i := 0;
    while i < |logs.order|
      invariant 0 <= i <= |logs.order|
      invariant text == LogsHeader + Concat(entries[..i])
    {
      var uid := logs.order[i];
      var entry := Entry(uid, logs.records[uid]);
      ConcatPrefixStep(LogsHeader, entries, i);
      text := text + entry;
      i := i + 1;
    }
    assert entries[..i] == entries;
  }

  /** The text an admin is shown for the "logs" button. */
  function LogsReply(cfg: Config, logs: Snapshot): (r: string)
    requires AllIn(logs.order, logs.records)
    ensures logs.records == map[] ==> r == cfg.noLogsText
    ensures logs.records != map[] ==>
      && |r| <= MessageLimit && |r| <= |LogsText(logs)|
      && r == LogsText(logs)[..|r|]
      && (|LogsText(logs)| <= MessageLimit ==> r == LogsText(logs))
    ensures logs.records != map[] ==>
      |r| == if |LogsText(logs)| <= MessageLimit then |LogsText(logs)| else MessageLimit
  {
    if logs.records == map[] then cfg.noLogsText else Truncate(LogsText(logs), MessageLimit)
  }

  /**
    `process_callback`: anyone not in ADMINS is turned away before the
    store is read; the "logs" button shows an admin `LogsReply`, and the
    callback is answered unless showing it raised.
   */
  method ProcessCallback(cfg: Config, store: WarningManager, fromUserId: int, data: string, failures: map<Call, string>)
    returns (calls: seq<Call>)
    requires store.Valid()
    ensures fromUserId !in cfg.admins ==> calls == [AnswerCallback(Some(cfg.notAdminText))]
    ensures fromUserId in cfg.admins && data != "logs" ==> calls == [AnswerCallback(None)]
    ensures fromUserId in cfg.admins && data == "logs" ==>
      && AllIn(store.order, store.records)
      && var edit := EditText(LogsReply(cfg, Snapshot(store.order, store.records)));
         calls == [edit] + (if edit in failures then [] else [AnswerCallback(None)])
  {
    if fromUserId !in cfg.admins {
      calls := [AnswerCallback(Some(cfg.notAdminText))];
      return;
    }
    calls := [];
    if data == "logs" {
      var logs := store.GetLogs();
      assert AllIn(logs.order, logs.records);
      var edit: Call;
      if logs.records == map[] {
        edit := EditText(cfg.noLogsText);
      } else {
        var text := RenderLogs(logs);
        edit := EditText(Truncate(text, MessageLimit));
      }
      calls := [edit];
      if edit in failures {
        // the exception leaves the handler before the callback is answered
        return;
      }
    }
    calls := calls + [AnswerCallback(None)];
  }

  // ---------------------------------------------------------------------------
  // Admin ban and unban by typed target
  // ---------------------------------------------------------------------------

  /** The admin's conversation: waiting for a ban target, for an unban target, or neither. */
  datatype AdminState = Idle | AwaitingBan | AwaitingUnban

  /**
    The first key, in insertion order, whose record has username `name`,
    as its position in the order.
   */
  function FindByUsername(order: seq<string>, records: map<string, UserRecord>, name: string): (r: Option<nat>)
    requires AllIn(order, records)
    ensures r.Some? ==> r.value < |order| && records[order[r.value]].username == name
    ensures r.Some? ==> forall j :: 0 <= j < r.value ==> records[order[j]].username != name
    ensures r.None? ==> forall j :: 0 <= j < |order| ==> records[order[j]].username != name
  {
    if order == [] then None
    else if records[order[0]].username == name then Some(0)
    else
      match FindByUsername(order[1..], records, name)
      case None => None
      case Some(i) => Some(i + 1)
  }

  /**
    The key a stripped admin input names: "@name" names the first record
    with that username, any other text is a key as written. `None` when the
    candidate is missing, empty or has no record ("not found").
   */
  function ResolveTarget(logs: Snapshot, input: string): (r: Option<string>)
    requires AllIn(logs.order, logs.records)
    ensures r.Some? ==> r.value != "" && r.value in logs.records
    ensures (input == "" || input[0] != '@') ==> r == (if input != "" && input in logs.records then Some(input) else None)
    ensures input != "" && input[0] == '@' && r.Some? ==>
      && logs.records[r.value].username == input[1..]
      && exists i :: 0 <= i < |logs.order| && logs.order[i] == r.value
                     && forall j :: 0 <= j < i ==> logs.records[logs.order[j]].username != input[1..]
    ensures input != "" && input[0] == '@'
            && (forall j :: 0 <= j < |logs.order| ==> logs.records[logs.order[j]].username != input[1..]) ==>
      r.None?
    ensures input != "" && input[0] == '@' ==>
      forall i :: 0 <= i < |logs.order| && logs.records[logs.order[i]].username == input[1..]
                  && (forall j :: 0 <= j < i ==> logs.records[logs.order[j]].username != input[1..]) ==>
        r == (if logs.order[i] != "" then Some(logs.order[i]) else None)
  {
    var candidate :=
      if input != "" && input[0] == '@' then
        match FindByUsername(logs.order, logs.records, input[1..])
        case None => None
        case Some(i) => Some(logs.order[i])
      else Some(input);
    if candidate.Some? && candidate.value != "" && candidate.value in logs.records then candidate else None
  }

  /**
    In a store whose keys are all `str(user_id)`, a digit string with a
    leading zero such as "0123" is not found, even when "123" is a key.
   */
  lemma LeadingZeroNeverResolves(logs: Snapshot, input: string)
    requires AllIn(logs.order, logs.records)
    requires forall k :: k in logs.records ==> Canonical(k)
    requires |input| > 1 && input[0] == '0'
    ensures ResolveTarget(logs, input).None?
  {
    LeadingZeroNotCanonical(input);
  }

  function NotFoundText(input: string): string {
    "Пользователь " + input + " не найден."
  }

  function ErrorText(error: string): string {
    "Ошибка: " + error
  }

  /** The message of the `ValueError` that `int(key)` raises. */
  function ValueErrorText(key: string): string {
    "invalid literal for int() with base 10: '" + key + "'"
  }

  /** The message of the `KeyError` that indexing a missing key raises. */
  function KeyErrorText(key: string): string {
    "'" + key + "'"
  }

  function ConfirmText(username: string, unban: bool): string {
    "@" + username + (if unban then " разбанен." else " забанен.")
  }

  function PlatformCall(chatId: int, userId: int, unban: bool): Call {
    if unban then UnbanMember(chatId, userId) else BanMember(chatId, userId)
  }

  /**
    The `try` block of `_process_ban_action` for a resolved `key`, with its
    `except`: convert the key to an integer, make the platform call, then
    change the store and confirm; any exception is reported to the admin.
   */
  function TryBanAction(records: map<string, UserRecord>, chatId: int, key: string, unban: bool,
                        failures: map<Call, string>): (o: Outcome)
    requires key in records
    ensures o.records.Keys == records.Keys
    ensures forall k :: k in records ==> o.records[k].(banned := records[k].banned) == records[k]
    ensures |o.calls| >= 1
    // the store changes only after a platform call that went through
    ensures o.records != records ==>
      ParseInt(key).Some? && |o.calls| >= 2 && o.calls[0] == PlatformCall(chatId, ParseInt(key).value, unban) && o.calls[0] !in failures
  {
    match ParseInt(key)
    case None => Outcome(records, [Answer(chatId, ErrorText(ValueErrorText(key)))])
    case Some(userId) =>
      var platform := PlatformCall(chatId, userId, unban);
      if platform in failures then
        Outcome(records, [platform, Answer(chatId, ErrorText(failures[platform]))])
      else if !unban && Key(userId) !in records then
        // ban_user indexes a key that is not there
        Outcome(records, [platform, Answer(chatId, ErrorText(KeyErrorText(Key(userId))))])
      else
        var after := if Key(userId) in records then WithBanFlag(records, Key(userId), !unban) else records;
        // ban flags leave usernames alone, so the name read is the one resolved
        var confirm := Answer(chatId, ConfirmText(records[key].username, unban));
        Outcome(after, [platform, confirm] + if confirm in failures then [Answer(chatId, ErrorText(failures[confirm]))] else [])
  }

  /**
    The paths of the `try` block: a key `int()` rejects and a failed
    platform call are reported and change nothing; for a key the program
    wrote itself, a platform call that went through flips that record's
    flag and is confirmed with its username.
   */
  lemma TryBanActionCases(records: map<string, UserRecord>, chatId: int, key: string, unban: bool,
                          failures: map<Call, string>)
    requires key in records
    ensures var o := TryBanAction(records, chatId, key, unban, failures);
      ParseInt(key).None? ==> o == Outcome(records, [Answer(chatId, ErrorText(ValueErrorText(key)))])
    ensures var o := TryBanAction(records, chatId, key, unban, failures);
      ParseInt(key).Some? ==>
        var platform := PlatformCall(chatId, ParseInt(key).value, unban);
        && o.calls[0] == platform
        && (platform in failures ==> o == Outcome(records, [platform, Answer(chatId, ErrorText(failures[platform]))]))
    ensures var o := TryBanAction(records, chatId, key, unban, failures);
      Canonical(key) && PlatformCall(chatId, ParseInt(key).value, unban) !in failures ==>
        var confirm := Answer(chatId, ConfirmText(records[key].username, unban));
        && o.records == WithBanFlag(records, key, !unban)
        && o.calls[1..] == [confirm] + (if confirm in failures then [Answer(chatId, ErrorText(failures[confirm]))] else [])
  {
    var o := TryBanAction(records, chatId, key, unban, failures);
    if Canonical(key) && PlatformCall(chatId, ParseInt(key).value, unban) !in failures {
      assert Key(ParseInt(key).value) == key;
      assert o.calls == [o.calls[0]] + o.calls[1..];
    }
  }

  /** What `_process_ban_action` leaves: the records, the calls made and the conversation state. */
  datatype AdminOutcome = AdminOutcome(records: map<string, UserRecord>, calls: seq<Call>, next: AdminState)

  /**
    What `_process_ban_action` does with the stripped input: "not found"
    when it names no record, otherwise the `try` block on the key it names.
   */
  function TargetAction(logs: Snapshot, chatId: int, input: string, unban: bool,
                        failures: map<Call, string>): (o: Outcome)
    requires AllIn(logs.order, logs.records)
    ensures |o.calls| > 0
    ensures o.records.Keys == logs.records.Keys
    ensures o.records != logs.records ==>
      (o.calls[0].BanMember? || o.calls[0].UnbanMember?) && o.calls[0] !in failures
  {
    match ResolveTarget(logs, input)
    case None => Outcome(logs.records, [Answer(chatId, NotFoundText(input))])
    case Some(key) => TryBanAction(logs.records, chatId, key, unban, failures)
  }

  /**
    `state.clear()` is the handler's last statement: the conversation goes
    back to idle unless an exception left the handler first, either before
    any call (no text to strip) or from its last call.
   */
  function NextState(state: AdminState, calls: seq<Call>, failures: map<Call, string>): (next: AdminState)
    ensures next == Idle || next == state
    ensures next != state ==> |calls| > 0 && calls[|calls| - 1] !in failures
    ensures state != Idle ==> (next == Idle <==> |calls| > 0 && calls[|calls| - 1] !in failures)
  {
    if |calls| == 0 || calls[|calls| - 1] in failures then state else Idle
  }

  /**
    `_process_ban_action`, reached from `process_ban` (state AwaitingBan)
    and `process_unban` (state AwaitingUnban).
   */
  function BanAction(logs: Snapshot, chatId: int, text: Option<string>, state: AdminState,
                     failures: map<Call, string>): (o: AdminOutcome)
    requires AllIn(logs.order, logs.records) && state != Idle
    // the session is cleared unless the handler raised: no text, or a reply that failed
    ensures text.None? <==> |o.calls| == 0
    ensures o.next == NextState(state, o.calls, failures)
    ensures o.records.Keys == logs.records.Keys
    // the store changes only after a platform ban or unban that went through
    ensures o.records != logs.records ==>
      |o.calls| > 0 && (o.calls[0].BanMember? || o.calls[0].UnbanMember?) && o.calls[0] !in failures
  {
    if text.None? then AdminOutcome(logs.records, [], state)
    else
      var r := TargetAction(logs, chatId, Strip(text.value), state == AwaitingUnban, failures);
      AdminOutcome(r.records, r.calls, NextState(state, r.calls, failures))
  }

  /**
    The paths of `_process_ban_action`: no text does nothing, an input that
    names no record gets "not found", and a resolved key runs the `try` block.
   */
  lemma BanActionCases(logs: Snapshot, chatId: int, text: Option<string>, state: AdminState,
                       failures: map<Call, string>)
    requires AllIn(logs.order, logs.records) && state != Idle
    ensures text.None? ==> BanAction(logs, chatId, text, state, failures) == AdminOutcome(logs.records, [], state)
    ensures var o := BanAction(logs, chatId, text, state, failures);
      text.Some? && ResolveTarget(logs, Strip(text.value)).None? ==>
        o.records == logs.records && o.calls == [Answer(chatId, NotFoundText(Strip(text.value)))]
    ensures var o := BanAction(logs, chatId, text, state, failures);
      text.Some? && ResolveTarget(logs, Strip(text.value)).Some? ==>
        var key := ResolveTarget(logs, Strip(text.value)).value;
        Outcome(o.records, o.calls) == TryBanAction(logs.records, chatId, key, state == AwaitingUnban, failures)
  {
  }


  /** The `try` block of `_process_ban_action` and its `except`, on the store. */
  method TryBan(store: WarningManager, chatId: int, key: string, unban: bool, failures: map<Call, string>)
    returns (calls: seq<Call>)
    requires store.Valid() && key in store.records
    modifies store
    ensures store.Valid() && store.order == old(store.order)
    ensures var o := TryBanAction(old(store.records), chatId, key, unban, failures);
      store.records == o.records && calls == o.calls
  {
    ghost var o := TryBanAction(store.records, chatId, key, unban, failures);
    // the username is read from the live dictionary after the change; ban flags leave it alone
    var username := store.records[key].username;
    var parsed := ParseInt(key);
    if parsed.None? {
      calls := [Answer(chatId, ErrorText(ValueErrorText(key)))];
      return;
    }
    var userId := parsed.value;
    var platform := PlatformCall(chatId, userId, unban);
    if platform in failures {
      calls := [platform, Answer(chatId, ErrorText(failures[platform]))];
      return;
    }
    if !unban && Key(userId) !in store.records {
      calls := [platform, Answer(chatId, ErrorText(KeyErrorText(Key(userId))))];
      return;
    }
    if unban {
      store.UnbanUser(userId);
    } else {
      store.BanUser(userId);
    }
    var confirm := Answer(chatId, ConfirmText(username, unban));
    calls := [platform, confirm];
    if confirm in failures {
      calls := calls + [Answer(chatId, ErrorText(failures[confirm]))];
    }
    assert calls == o.calls;
  }

  /** Resolution of the stripped input and the `try` block, on the store. */
  method ActOnTarget(store: WarningManager, chatId: int, input: string, unban: bool, failures: map<Call, string>)
    returns (calls: seq<Call>)
    requires store.Valid()
    modifies store
    ensures store.Valid() && store.order == old(store.order)
    ensures var o := TargetAction(Snapshot(old(store.order), old(store.records)), chatId, input, unban, failures);
      store.records == o.records && calls == o.calls
  {
    var logs := store.GetLogs();
    assert AllIn(logs.order, logs.records);
    var target := ResolveTarget(logs, input);
    if target.None? {
      calls := [Answer(chatId, NotFoundText(input))];
    } else {
      calls := TryBan(store, chatId, target.value, unban, failures);
    }
  }

  /** `_process_ban_action`, on the store. */
  method ProcessBanAction(store: WarningManager, chatId: int, text: Option<string>, state: AdminState,
                          failures: map<Call, string>)
    returns (calls: seq<Call>, next: AdminState)
    requires store.Valid() && state != Idle
    modifies store
    ensures store.Valid() && store.order == old(store.order)
    ensures var o := BanAction(Snapshot(old(store.order), old(store.records)), chatId, text, state, failures);
      store.records == o.records && calls == o.calls && next == o.next
  {
    if text.None? {
      // `None.strip()` raises before anything else happens
      calls, next := [], state;
      return;
    }
    calls := ActOnTarget(store, chatId, Strip(text.value), state == AwaitingUnban, failures);
    next := NextState(state, calls, failures);
  }

}
