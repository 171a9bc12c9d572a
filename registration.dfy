/**
 * Registration through the bot (bot.py:103-177, bot.py:201-355): the menu
 * callbacks, the text router, `/register`, and the re-registration
 * confirmation. The state is the store plus each chat's `user_data`
 * session: the `awaiting_subgroup` flag and the two pending slots a
 * re-registration waits in.
 *
 * Each handler is a method on `Bot` whose effect is the transition
 * function of the same name beginning with `On`; the lemmas below are
 * about those functions.
 */
module Registration {
  import opened Wrappers
  import opened Text
  import opened Subgroup
  import opened Store
  import opened Resolver

  /** A chat's `user_data`; a key it does not hold reads as false or None. */
  datatype Session = Session(awaiting: bool, pendingSubgroup: Option<string>, pendingGroupId: Option<string>)

  const Blank := Session(false, None, None)

  /** The replies of the handlers, without their wording or keyboards. */
  datatype Reply =
    | Prompt                                        // asked for a subgroup (menu_register)
    | BackToMenu                                    // menu_back
    | NotRegistered                                 // no row for this chat
    | ShowSubgroup(sg: string)                      // the stored subgroup
    | NoSubgroup                                    // a row without a subgroup
    | Next(answer: Option<Answer>)                  // what `/next` replies
    | AskConfirm(current: string, proposed: string) // re-registration asks first
    | Assigned(sg: string)                          // saved at once
    | Changed(sg: string)                           // saved after confirmation
    | NothingToSave                                 // confirmation without pending slots
    | KeptAsIs                                      // re-registration cancelled
    | UnknownAction                                 // unrecognised callback data
    | UseMenu                                       // text while not awaiting a subgroup
    | EmptyMessage                                  // blank text while awaiting
    | BadFormat                                     // not a subgroup
    | RegisterHelp                                  // `/register` without arguments

  /** The store, the chat's session and the reply after one handler. */
  datatype Outcome = Outcome(users: map<int, User>, session: Session, reply: Reply)

  /** The pending slots are set and cleared together, and hold a canonical key and its group id. */
  predicate SessionOk(s: Session) {
    (s.pendingSubgroup.Some? <==> s.pendingGroupId.Some?) &&
    (s.pendingSubgroup.Some? ==> Canonical(s.pendingSubgroup.value) &&
                                 s.pendingGroupId == Some(GroupIdOf(s.pendingSubgroup.value)))
  }

  /** Every stored subgroup is canonical, verified, and stored with its group id. */
  predicate Registered(users: map<int, User>) {
    forall c | c in users && users[c].subgroup.Some? ::
      Canonical(users[c].subgroup.value) && users[c].groupId == Some(GroupIdOf(users[c].subgroup.value)) &&
      users[c].verified == 1
  }

  /** `user and user.get("subgroup")`: a row with a non-empty subgroup. */
  predicate HasSubgroup(users: map<int, User>, chatId: int) {
    chatId in users && users[chatId].subgroup.GetOr("") != ""
  }

  /** The row `save_user_hashed` writes for a registration (bot.py:159-167, bot.py:257-265). */
  function Row(chatId: int, username: string, groupId: string, sg: string): User {
    User(chatId, Some(username), None, None, Some(groupId), Some(sg), 1)
  }

  function Cleared(s: Session): Session {
    s.(pendingSubgroup := None, pendingGroupId := None)
  }

  /** `_register_or_ask_confirm` (bot.py:103-177) with a canonical key `c`. */
  function OnRegister(users: map<int, User>, s: Session, chatId: int, username: string, c: string): Outcome {
    if HasSubgroup(users, chatId) then
      Outcome(users, s.(pendingSubgroup := Some(c), pendingGroupId := Some(GroupIdOf(c))),
              AskConfirm(Strip(users[chatId].subgroup.value), c))
    else
      Outcome(users[chatId := Row(chatId, username, GroupIdOf(c), c)], s, Assigned(c))
  }

  /** `confirm_rereg_yes` (bot.py:244-277). */
  function OnConfirm(users: map<int, User>, s: Session, chatId: int, username: string): Outcome {
    if s.pendingSubgroup.GetOr("") == "" || s.pendingGroupId.GetOr("") == "" then
      Outcome(users, s, NothingToSave)
    else
      Outcome(users[chatId := Row(chatId, username, s.pendingGroupId.value, s.pendingSubgroup.value)],
              Cleared(s), Changed(s.pendingSubgroup.value))
  }

  /** `confirm_rereg_no` (bot.py:279-287). */
  function OnCancel(users: map<int, User>, s: Session): Outcome {
    Outcome(users, Cleared(s), KeptAsIs)
  }

  /** `getgroup_cmd` (bot.py:361-370) and the `menu_getgroup` branch (bot.py:225-234). */
  function GroupReply(users: map<int, User>, chatId: int): (r: Reply)
    ensures r == NotRegistered <==> chatId !in users
    ensures r.ShowSubgroup? <==> HasSubgroup(users, chatId)
    ensures r.ShowSubgroup? ==> Some(r.sg) == users[chatId].subgroup
    ensures r.NotRegistered? || r.ShowSubgroup? || r.NoSubgroup?
  {
    if chatId !in users then NotRegistered
    else if HasSubgroup(users, chatId) then ShowSubgroup(users[chatId].subgroup.value)
    else NoSubgroup
  }

  /** `subgroup_message` (bot.py:309-326). */
  function OnSubgroupText(users: map<int, User>, s: Session, chatId: int, username: string, text: Option<string>): Outcome {
    var t := Strip(text.GetOr(""));
    if t == "" then Outcome(users, s, EmptyMessage)
    else match FormatSubgroup(t)
      case None => Outcome(users, s, BadFormat)
      case Some(c) => OnRegister(users, s, chatId, username, c)
  }

  /** `text_router` (bot.py:295-303). */
  function OnText(users: map<int, User>, s: Session, chatId: int, username: string, text: Option<string>): Outcome {
    if s.awaiting then OnSubgroupText(users, s.(awaiting := false), chatId, username, text)
    else Outcome(users, s, UseMenu)
  }

  /** `" ".join(args)` with an arbitrary separator. */
  function Join(args: seq<string>, sep: string): string {
    if args == [] then ""
    else if |args| == 1 then args[0]
    else args[0] + sep + Join(args[1..], sep)
  }

  /** `register_cmd` (bot.py:332-355). */
  function OnRegisterCmd(users: map<int, User>, s: Session, chatId: int, username: string, args: seq<string>): Outcome {
    if args == [] then Outcome(users, s, RegisterHelp)
    else match FormatSubgroup(Strip(Join(args, " ")))
      case None => Outcome(users, s, BadFormat)
      case Some(c) => OnRegister(users, s, chatId, username, c)
  }

  /** `menu_callback` (bot.py:201-289); `next` is what `next_cmd` replies for `menu_next`. */
  function OnMenu(users: map<int, User>, s: Session, chatId: int, username: string, data: string,
                  next: Option<Answer>): Outcome {
    if data == "menu_register" then Outcome(users, s.(awaiting := true), Prompt)
    else if data == "menu_back" then Outcome(users, s.(awaiting := false), BackToMenu)
    else if data == "menu_getgroup" then Outcome(users, s, GroupReply(users, chatId))
    else if data == "menu_next" then Outcome(users, s, Next(next))
    else if data == "confirm_rereg_yes" then OnConfirm(users, s, chatId, username)
    else if data == "confirm_rereg_no" then OnCancel(users, s)
    else Outcome(users, s, UnknownAction)
  }

  // ---------------------------------------------------------------------
  // What the handlers promise
  // ---------------------------------------------------------------------

  /**
   * A chat without a subgroup is saved at once with the key, its group id
   * and `verified = 1`, and from then on is a subscriber of that subgroup;
   * every other row and the session stay as they were.
   */
  lemma RegisterFresh(users: map<int, User>, s: Session, chatId: int, username: string, c: string)
    requires !HasSubgroup(users, chatId)
    ensures var o := OnRegister(users, s, chatId, username, c);
      o.reply == Assigned(c) && o.session == s &&
      chatId in o.users && o.users[chatId].subgroup == Some(c) &&
      o.users[chatId].groupId == Some(GroupIdOf(c)) && o.users[chatId].address == None &&
      chatId in SubscriberSet(o.users, c) &&
      forall other | other != chatId :: (other in o.users <==> other in users) &&
        (other in users ==> o.users[other] == users[other])
  {
  }

  /**
   * A chat that has a subgroup is asked to confirm: the store is left alone
   * and the new key waits in the pending slots with its group id.
   */
  lemma RegisterAsks(users: map<int, User>, s: Session, chatId: int, username: string, c: string)
    requires HasSubgroup(users, chatId) && Canonical(c)
    ensures var o := OnRegister(users, s, chatId, username, c);
      o.users == users && o.reply.AskConfirm? && o.reply.proposed == c &&
      o.session.pendingSubgroup == Some(c) && o.session.pendingGroupId == Some(GroupIdOf(c)) &&
      o.session.awaiting == s.awaiting && SessionOk(o.session)
  {
  }

  /** Asking and then confirming saves the new key, subscribes the chat and clears the slots. */
  lemma AskThenConfirm(users: map<int, User>, s: Session, chatId: int, username: string, c: string)
    requires HasSubgroup(users, chatId) && Canonical(c)
    ensures var asked := OnRegister(users, s, chatId, username, c);
      var o := OnConfirm(asked.users, asked.session, chatId, username);
      o.users == users[chatId := Row(chatId, username, GroupIdOf(c), c)] &&
      o.session == Cleared(s) && o.reply == Changed(c) &&
      chatId in SubscriberSet(o.users, c)
  {
    CanonicalGroupId(c);
    var g, rest := GroupIdOfFormat(c);
  }

  /** Asking and then cancelling leaves the store as it was and the slots empty. */
  lemma AskThenCancel(users: map<int, User>, s: Session, chatId: int, username: string, c: string)
    requires HasSubgroup(users, chatId)
    ensures var asked := OnRegister(users, s, chatId, username, c);
      var o := OnCancel(asked.users, asked.session);
      o.users == users && o.session == Cleared(s) && o.reply == KeptAsIs
  {
  }

  /** A confirmation with a slot missing or empty changes nothing. */
  lemma ConfirmWithoutPending(users: map<int, User>, s: Session, chatId: int, username: string)
    requires s.pendingSubgroup.GetOr("") == "" || s.pendingGroupId.GetOr("") == ""
    ensures OnConfirm(users, s, chatId, username) == Outcome(users, s, NothingToSave)
  {
  }

  /** Whatever the text and whatever becomes of it, the router leaves the chat not awaiting. */
  lemma TextClearsAwaiting(users: map<int, User>, s: Session, chatId: int, username: string, text: Option<string>)
    ensures !OnText(users, s, chatId, username, text).session.awaiting
    ensures !s.awaiting ==> OnText(users, s, chatId, username, text) == Outcome(users, s, UseMenu)
  {
  }

  /** Text that is not a subgroup changes no row. */
  lemma BadTextKeepsStore(users: map<int, User>, s: Session, chatId: int, username: string, text: Option<string>)
    requires FormatSubgroup(Strip(text.GetOr(""))).None?
    ensures OnSubgroupText(users, s, chatId, username, text).users == users
    ensures OnSubgroupText(users, s, chatId, username, text).session == s
  {
  }

  /** Registration only ever writes a row whose subgroup is the canonical form of what was typed. */
  lemma RegisterOk(users: map<int, User>, s: Session, chatId: int, username: string, c: string)
    requires SessionOk(s) && Registered(users) && Canonical(c)
    ensures SessionOk(OnRegister(users, s, chatId, username, c).session)
    ensures Registered(OnRegister(users, s, chatId, username, c).users)
  {
    CanonicalGroupId(c);
  }

  lemma ConfirmOk(users: map<int, User>, s: Session, chatId: int, username: string)
    requires SessionOk(s) && Registered(users)
    ensures SessionOk(OnConfirm(users, s, chatId, username).session)
    ensures Registered(OnConfirm(users, s, chatId, username).users)
  {
  }

  /** A typed subgroup goes through the canonicaliser, whose results are canonical. */
  lemma SubgroupTextOk(users: map<int, User>, s: Session, chatId: int, username: string, text: Option<string>)
    requires SessionOk(s) && Registered(users)
    ensures SessionOk(OnSubgroupText(users, s, chatId, username, text).session)
    ensures Registered(OnSubgroupText(users, s, chatId, username, text).users)
  {
    var t := Strip(text.GetOr(""));
    if t != "" && FormatSubgroup(t).Some? {
      FormatIdempotent(t);
      RegisterOk(users, s, chatId, username, FormatSubgroup(t).value);
    }
  }

  /** Every handler keeps the pending slots consistent and every stored subgroup canonical. */
  lemma MenuOk(users: map<int, User>, s: Session, chatId: int, username: string, data: string, next: Option<Answer>)
    requires SessionOk(s) && Registered(users)
    ensures SessionOk(OnMenu(users, s, chatId, username, data, next).session)
    ensures Registered(OnMenu(users, s, chatId, username, data, next).users)
  {
    if data == "confirm_rereg_yes" {
      ConfirmOk(users, s, chatId, username);
    }
  }

  lemma TextOk(users: map<int, User>, s: Session, chatId: int, username: string, text: Option<string>)
    requires SessionOk(s) && Registered(users)
    ensures SessionOk(OnText(users, s, chatId, username, text).session)
    ensures Registered(OnText(users, s, chatId, username, text).users)
  {
    if s.awaiting {
      SubgroupTextOk(users, s.(awaiting := false), chatId, username, text);
    }
  }

  lemma RegisterCmdOk(users: map<int, User>, s: Session, chatId: int, username: string, args: seq<string>)
    requires SessionOk(s) && Registered(users)
    ensures SessionOk(OnRegisterCmd(users, s, chatId, username, args).session)
    ensures Registered(OnRegisterCmd(users, s, chatId, username, args).users)
  {
    if args != [] {
      var t := Strip(Join(args, " "));
      if FormatSubgroup(t).Some? {
        FormatIdempotent(t);
        RegisterOk(users, s, chatId, username, FormatSubgroup(t).value);
      }
    }
  }

  /** `/register 2 . 3` joins its arguments and registers the key "2.3". */
  lemma RegisterCmdSpaced(users: map<int, User>, s: Session, chatId: int, username: string)
    requires !HasSubgroup(users, chatId)
    ensures OnRegisterCmd(users, s, chatId, username, ["2", ".", "3"]).reply == Assigned("2.3")
  {
    JoinSpaced();
    SpacedKey();
  }

  lemma JoinSpaced()
    ensures Join(["2", ".", "3"], " ") == "2 . 3"
  {
    assert ["2", ".", "3"][1..] == [".", "3"];
    assert [".", "3"][1..] == ["3"];
  }

  /** The text ` 2 . 3 ` and its stripped form both canonicalise to "2.3". */
  lemma SpacedKey()
    ensures Strip("2 . 3") == "2 . 3" && Strip(" 2 . 3 ") == "2 . 3"
    ensures FormatSubgroup("2 . 3") == Some("2.3")
  {
    StripSpaced();
    ExampleSpaced();
  }

  lemma StripSpaced()
    ensures Strip("2 . 3") == "2 . 3" && Strip(" 2 . 3 ") == "2 . 3"
  {
    var x := "2 . 3";
    assert !IsSpace(x[0]) && !IsSpace(x[|x| - 1]);
    StripWord(x);
    StripPadded(" ", x, " ");
    assert " " + x + " " == " 2 . 3 ";
  }

  /** Pressing "register" and typing ` 2 . 3 ` makes a new chat a subscriber of 2.3. */
  lemma MenuThenText(users: map<int, User>, s: Session, chatId: int, username: string, next: Option<Answer>)
    requires !HasSubgroup(users, chatId)
    ensures var pressed := OnMenu(users, s, chatId, username, "menu_register", next);
      var typed := OnText(pressed.users, pressed.session, chatId, username, Some(" 2 . 3 "));
      typed.reply == Assigned("2.3") && chatId in SubscriberSet(typed.users, "2.3") && !typed.session.awaiting
  {
    SpacedKey();
  }

  // ---------------------------------------------------------------------
  // The handlers
  // ---------------------------------------------------------------------

  class Bot {
    const db: Database
    var sessions: map<int, Session>

    predicate Valid()
      reads this, db
    {
      db.Valid()
    }

    constructor(store: Database)
      requires store.Valid()
      ensures Valid() && db == store && sessions == map[]
    {
      db := store;
      sessions := map[];
    }

    function SessionOf(chatId: int): Session
      reads this
    {
      if chatId in sessions then sessions[chatId] else Blank
    }

    /** The outcome `o` for chat `chatId` was applied, and nothing else of the store changed. */
    twostate predicate Applied(chatId: int, o: Outcome)
      reads this, db
    {
      db.users == o.users && sessions == old(sessions)[chatId := o.session] &&
      db.notified == old(db.notified) && db.addrMap == old(db.addrMap) && db.lastAddrId == old(db.lastAddrId)
    }

    method RegisterOrAskConfirm(chatId: int, username: string, canonical: string) returns (reply: Reply)
      requires Valid() && Canonical(canonical)
      modifies this, db
      ensures Valid()
      ensures var o := OnRegister(old(db.users), old(SessionOf(chatId)), chatId, username, canonical);
        Applied(chatId, o) && reply == o.reply
    {
      var user := db.GetUserByChat(chatId);
      var gid := GroupIdOf(canonical);
      var s := SessionOf(chatId);
      if user.Some? && user.value.subgroup.GetOr("") != "" {
        assert OnRegister(db.users, s, chatId, username, canonical).session ==
          s.(pendingSubgroup := Some(canonical), pendingGroupId := Some(gid));
        sessions := sessions[chatId := s.(pendingSubgroup := Some(canonical), pendingGroupId := Some(gid))];
        reply := AskConfirm(Strip(user.value.subgroup.value), canonical);
      } else {
        assert OnRegister(db.users, s, chatId, username, canonical).users ==
          db.users[chatId := Row(chatId, username, gid, canonical)];
        db.SaveUserHashed(chatId, Some(username), None, None, Some(gid), Some(canonical), 1);
        sessions := sessions[chatId := s];
        reply := Assigned(canonical);
      }
    }

    method ConfirmYes(chatId: int, username: string) returns (reply: Reply)
      requires Valid()
      modifies this, db
      ensures Valid()
      ensures var o := OnConfirm(old(db.users), old(SessionOf(chatId)), chatId, username);
        Applied(chatId, o) && reply == o.reply
    {
      var s := SessionOf(chatId);
      var newSubgroup := s.pendingSubgroup;
      var newGroupId := s.pendingGroupId;
      if newSubgroup.GetOr("") == "" || newGroupId.GetOr("") == "" {
        sessions := sessions[chatId := s];
        return NothingToSave;
      }
      db.SaveUserHashed(chatId, Some(username), None, None, newGroupId, newSubgroup, 1);
      sessions := sessions[chatId := Cleared(s)];
      reply := Changed(newSubgroup.value);
    }

    method ConfirmNo(chatId: int) returns (reply: Reply)
      requires Valid()
      modifies this
      ensures Valid()
      ensures var o := OnCancel(old(db.users), old(SessionOf(chatId)));
        Applied(chatId, o) && reply == o.reply
    {
      sessions := sessions[chatId := Cleared(SessionOf(chatId))];
      reply := KeptAsIs;
    }

    method SubgroupMessage(chatId: int, username: string, text: Option<string>) returns (reply: Reply)
      requires Valid()
      modifies this, db
      ensures Valid()
      ensures var o := OnSubgroupText(old(db.users), old(SessionOf(chatId)), chatId, username, text);
        Applied(chatId, o) && reply == o.reply
    {
      var t := Strip(text.GetOr(""));
      if t == "" {
        sessions := sessions[chatId := SessionOf(chatId)];
        return EmptyMessage;
      }
      var canonical := FormatSubgroup(t);
      if canonical.None? {
        sessions := sessions[chatId := SessionOf(chatId)];
        return BadFormat;
      }
      FormatIdempotent(t);
      reply := RegisterOrAskConfirm(chatId, username, canonical.value);
    }

    method TextRouter(chatId: int, username: string, text: Option<string>) returns (reply: Reply)
      requires Valid()
      modifies this, db
      ensures Valid()
      ensures var o := OnText(old(db.users), old(SessionOf(chatId)), chatId, username, text);
        Applied(chatId, o) && reply == o.reply
    {
      var s := SessionOf(chatId);
      if s.awaiting {
        ghost var before := sessions;
        ghost var o := OnSubgroupText(db.users, s.(awaiting := false), chatId, username, text);
        assert o == OnText(db.users, s, chatId, username, text);
        sessions := sessions[chatId := s.(awaiting := false)];
        reply := SubgroupMessage(chatId, username, text);
        assert sessions == before[chatId := s.(awaiting := false)][chatId := o.session];
        assert sessions == before[chatId := o.session];
      } else {
        sessions := sessions[chatId := s];
        reply := UseMenu;
      }
    }

    method RegisterCommand(chatId: int, username: string, args: seq<string>) returns (reply: Reply)
      requires Valid()
      modifies this, db
      ensures Valid()
      ensures var o := OnRegisterCmd(old(db.users), old(SessionOf(chatId)), chatId, username, args);
        Applied(chatId, o) && reply == o.reply
    {
      if args == [] {
        sessions := sessions[chatId := SessionOf(chatId)];
        return RegisterHelp;
      }
      var input := Strip(Join(args, " "));
      var canonical := FormatSubgroup(input);
      if canonical.None? {
        sessions := sessions[chatId := SessionOf(chatId)];
        return BadFormat;
      }
      FormatIdempotent(input);
      reply := RegisterOrAskConfirm(chatId, username, canonical.value);
    }

    method MenuCallback(chatId: int, username: string, data: string, url: string, page: Option<string>)
      returns (reply: Reply)
      requires Valid()
      modifies this, db
      ensures Valid()
      ensures var o := OnMenu(old(db.users), old(SessionOf(chatId)), chatId, username, data,
                              NextReply(old(db.users), Some(chatId), url, page));
        Applied(chatId, o) && reply == o.reply
    {
      var s := SessionOf(chatId);
      if data == "menu_register" {
        sessions := sessions[chatId := s.(awaiting := true)];
        reply := Prompt;
      } else if data == "menu_back" {
        sessions := sessions[chatId := s.(awaiting := false)];
        reply := BackToMenu;
      } else if data == "menu_getgroup" {
        sessions := sessions[chatId := s];
        reply := GroupReply(db.users, chatId);
      } else if data == "menu_next" {
        sessions := sessions[chatId := s];
        var answer := NextCmd(db, Some(chatId), url, page);
        reply := Next(answer);
      } else if data == "confirm_rereg_yes" {
        assert OnMenu(db.users, s, chatId, username, data, NextReply(db.users, Some(chatId), url, page)) ==
          OnConfirm(db.users, s, chatId, username);
        reply := ConfirmYes(chatId, username);
      } else if data == "confirm_rereg_no" {
        assert OnMenu(db.users, s, chatId, username, data, NextReply(db.users, Some(chatId), url, page)) ==
          OnCancel(db.users, s);
        reply := ConfirmNo(chatId);
      } else {
        sessions := sessions[chatId := s];
        reply := UnknownAction;
      }
    }
  }
}
