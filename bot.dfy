/** The bot's handlers over one operator's session, `context.user_data`:
    staging forwarded messages (main.py:46-62) and the button actions of
    `handle_callback` (main.py:80-159). */
module Bot {
  import opened Wrappers
  import opened Text
  import opened Channels
  import opened Selection
  import opened Dispatch

  /** A Telegram user id. */
  type UserId = int

  const UnauthorizedText: string := "🚫 You are not authorized to use this bot."
  const SavedText: string := "📥 Message saved.\nClick below to select channels and post:"
  const NotAuthorizedAlert: string := "Not authorized"
  const SelectedHeader: string := "🔘 Selected channels:\n"
  const AllSelectedText: string := "✅ All channels selected."
  const AllUnselectedText: string := "❌ All channels unselected."
  const SelectChannelText: string := "⚠️ Please select at least one channel."
  const NoMessagesText: string := "⚠️ No messages to post."

  /** The exceptions a handler lets escape. */
  datatype HandlerError =
    | BadChannelNumber(segment: string)   // reading the toggle data's id as an integer
    | UnknownChannel(channel: ChannelId)  // looking up a selected id in FIXED_CHANNELS

  /** What a handler shows the operator. `keyboard` says whether the channel
      selection keyboard is attached. */
  datatype Response =
    | Reply(text: string, keyboard: bool)   // `update.message.reply_text`
    | Edit(text: string, keyboard: bool)    // `query.edit_message_text`
    | Alert(text: string)                   // `query.answer(text)`
    | NoResponse
    | Raised(error: HandlerError)

  /** The edit after a toggle (main.py:100-105), or the ValueError that
      `FIXED_CHANNELS.index` raises for the first unknown selected id. */
  function ToggleResponse(selected: seq<ChannelId>): Response {
    match ToggleStatus(FixedChannels, selected)
    case Ok(status) => Edit(SelectedHeader + status, true)
    case Err(c) => Raised(UnknownChannel(c))
  }

  /** The `post_now` branch (main.py:121-159) as a relation between the lists
      before, the response, the sends made and the lists after: the two checks
      in order leave everything as it was; past them every pair is attempted
      and both lists are emptied, whatever failed. */
  ghost predicate PostTransition(msgs: seq<Message>, sel: seq<ChannelId>, send: Transport,
                                 r: Response, attempts: seq<Attempt>,
                                 msgs': seq<Message>, sel': seq<ChannelId>)
  {
    if sel == [] then
      r == Edit(SelectChannelText, true) && attempts == [] && msgs' == msgs && sel' == sel
    else if msgs == [] then
      r == Edit(NoMessagesText, true) && attempts == [] && msgs' == msgs && sel' == sel
    else
      && attempts == Pairs(msgs, sel)
      && msgs' == [] && sel' == []
      && r == Edit(PostReport(ErrorLog(attempts, send)), false)
  }

  /** One operator's session: the two lists kept in `context.user_data`. A
      missing key reads as an empty list everywhere in the bot, so the
      session starts with both empty. */
  class Session {
    const owner: UserId
    var forwarded: seq<Message>
    var selected: seq<ChannelId>

    /** The selection never holds a channel twice. */
    ghost predicate Valid()
      reads this
    {
      NoDup(selected)
    }

    constructor (owner: UserId)
      ensures Valid()
      ensures this.owner == owner && forwarded == [] && selected == []
    {
      this.owner := owner;
      forwarded := [];
      selected := [];
    }

    /** `handle_forwarded`: the owner's message is appended to the staged
        list; anyone else is turned away and nothing changes. */
    method HandleForwarded(caller: UserId, m: Message) returns (r: Response)
      requires Valid()
      modifies this
      ensures Valid()
      ensures selected == old(selected)
      ensures caller == owner ==> forwarded == old(forwarded) + [m] && r == Reply(SavedText, true)
      ensures caller != owner ==> forwarded == old(forwarded) && r == Reply(UnauthorizedText, false)
    {
      if caller != owner {
        return Reply(UnauthorizedText, false);
      }
      forwarded := forwarded + [m];
      r := Reply(SavedText, true);
    }

    /** The toggle branch: flip the channel's membership, then show the status
        (or raise on an id missing from FIXED_CHANNELS, after the update). */
    method ToggleChannel(c: ChannelId) returns (r: Response)
      requires Valid()
      modifies this
      ensures Valid()
      ensures selected == Toggled(old(selected), c) && forwarded == old(forwarded)
      ensures r == ToggleResponse(selected)
    {
      ToggleKeepsNoDup(selected, c);
      if c in selected {
        selected := RemoveFirst(selected, c);
      } else {
        selected := selected + [c];
      }
      r := ToggleResponse(selected);
    }

    /** The select-all branch: the selection becomes a copy of FIXED_CHANNELS. */
    method SelectAllChannels() returns (r: Response)
      requires Valid()
      modifies this
      ensures Valid()
      ensures selected == FixedChannels && forwarded == old(forwarded)
      ensures r == Edit(AllSelectedText, true)
    {
      selected := FixedChannels;
      r := Edit(AllSelectedText, true);
    }

    /** The unselect-all branch: the selection becomes empty. */
    method UnselectAllChannels() returns (r: Response)
      requires Valid()
      modifies this
      ensures Valid()
      ensures selected == [] && forwarded == old(forwarded)
      ensures r == Edit(AllUnselectedText, true)
    {
      selected := [];
      r := Edit(AllUnselectedText, true);
    }

    /** The post branch: the two checks, the send loop, the reset, the report. */
    method PostStaged(send: Transport) returns (r: Response, attempts: seq<Attempt>)
      requires Valid()
      modifies this
      ensures Valid()
      ensures PostTransition(old(forwarded), old(selected), send, r, attempts, forwarded, selected)
    {
      if selected == [] {
        return Edit(SelectChannelText, true), [];
      }
      if forwarded == [] {
        return Edit(NoMessagesText, true), [];
      }
      var errors;
      errors, attempts := SendAll(forwarded, selected, send);
      forwarded := [];
      selected := [];
      r := Edit(PostReport(errors), false);
    }

    /** `handle_callback`: the owner check, then the branch the callback data
        selects; data matching no branch changes nothing and edits nothing. */
    method HandleCallback(caller: UserId, data: string, send: Transport)
      returns (r: Response, attempts: seq<Attempt>)
      requires Valid()
      modifies this
      ensures Valid()
      ensures caller != owner ==>
        r == Alert(NotAuthorizedAlert) && attempts == []
        && forwarded == old(forwarded) && selected == old(selected)
      ensures caller == owner ==>
        match ParseCallback(data)
        case Toggle(c) =>
          selected == Toggled(old(selected), c) && forwarded == old(forwarded)
          && r == ToggleResponse(selected) && attempts == []
        case BadToggle(segment) =>
          selected == old(selected) && forwarded == old(forwarded)
          && r == Raised(BadChannelNumber(segment)) && attempts == []
        case SelectAll =>
          selected == FixedChannels && forwarded == old(forwarded)
          && r == Edit(AllSelectedText, true) && attempts == []
        case UnselectAll =>
          selected == [] && forwarded == old(forwarded)
          && r == Edit(AllUnselectedText, true) && attempts == []
        case PostNow =>
          PostTransition(old(forwarded), old(selected), send, r, attempts, forwarded, selected)
        case Unrecognised =>
          selected == old(selected) && forwarded == old(forwarded)
          && r == NoResponse && attempts == []
    {
      if caller != owner {
        return Alert(NotAuthorizedAlert), [];
      }
      attempts := [];
      match ParseCallback(data)
      case Toggle(c) =>
        r := ToggleChannel(c);
      case BadToggle(segment) =>
        r := Raised(BadChannelNumber(segment));
      case SelectAll =>
        r := SelectAllChannels();
      case UnselectAll =>
        r := UnselectAllChannels();
      case PostNow =>
        r, attempts := PostStaged(send);
      case Unrecognised =>
        r := NoResponse;
    }
  }

  /** Once a post has gone past its checks the session is empty, so pressing
      POST again stops at the first check, "select at least one channel",
      and sends nothing. */
  method PostTwice(s: Session, send: Transport)
    returns (first: Response, second: Response, secondAttempts: seq<Attempt>)
    requires s.Valid() && s.selected != [] && s.forwarded != []
    modifies s
    ensures s.Valid() && s.forwarded == [] && s.selected == []
    ensures second == Edit(SelectChannelText, true) && secondAttempts == []
  {
    var firstAttempts;
    first, firstAttempts := s.PostStaged(send);
    second, secondAttempts := s.PostStaged(send);
  }
}
