/** The fixed broadcast destinations, the inline keyboard that offers them, and
    the callback data its buttons carry (main.py:19-22, 65-77, 92-93, 107-121). */
module Channels {
  import opened Wrappers
  import opened Text

  /** A Telegram chat id of a destination channel. */
  type ChannelId = int

  /** FIXED_CHANNELS, in configuration order. */
  const FixedChannels: seq<ChannelId> := [-1002504723776, -1002489624380]

  /** Python's `list.index`: the position of the first occurrence, None where
      Python raises ValueError. */
  function IndexOf(s: seq<ChannelId>, c: ChannelId): (r: Option<nat>)
    ensures r.Some? <==> c in s
    ensures r.Some? ==> r.value < |s| && s[r.value] == c && c !in s[..r.value]
  {
    if s == [] then None
    else if s[0] == c then Some(0)
    else match IndexOf(s[1..], c)
      case None => None
      case Some(i) =>
        assert s[..i + 1] == [s[0]] + s[1..][..i];
        Some(i + 1)
  }

  /** The name a channel is shown under: its 1-based position, never its id. */
  function ChannelLabel(position: nat): string {
    "Channel " + NatToString(position)
  }

  datatype Button = Button(text: string, data: string)

  const TogglePrefix: string := "toggle_"
  const SelectAllData: string := "select_all"
  const UnselectAllData: string := "unselect_all"
  const PostNowData: string := "post_now"

  /** The callback data of a channel's toggle button: the toggle prefix, then
      the channel id in decimal. */
  function ToggleData(c: ChannelId): string {
    TogglePrefix + IntToString(c)
  }

  /** The keyboard over a list of channels: one row per channel, then the
      select-all / unselect-all row, then the post row. */
  function KeyboardFor(channels: seq<ChannelId>): (rows: seq<seq<Button>>)
    ensures |rows| == |channels| + 2
  {
    seq(|channels|, i requires 0 <= i < |channels| =>
          [Button(ChannelLabel(i + 1), ToggleData(channels[i]))])
    + [[Button("✅ Select All", SelectAllData), Button("❌ Unselect All", UnselectAllData)],
       [Button("🚀 POST", PostNowData)]]
  }

  /** `channel_selection_keyboard`, built over FIXED_CHANNELS. */
  function ChannelSelectionKeyboard(): seq<seq<Button>> {
    KeyboardFor(FixedChannels)
  }

  /** What `handle_callback` makes of a button press. */
  datatype Action =
    | Toggle(channel: ChannelId)
    | BadToggle(segment: string)   // `int(...)` raised ValueError
    | SelectAll
    | UnselectAll
    | PostNow
    | Unrecognised                  // no branch of the if/elif chain matches

  predicate StartsWith(s: string, prefix: string) {
    |prefix| <= |s| && s[..|prefix|] == prefix
  }

  /** The branch chain of `handle_callback`, in order: data that starts with
      the toggle prefix is cut at underscores and its second piece read as an
      integer; the other three compare the whole data for equality. */
  function ParseCallback(data: string): Action {
    if StartsWith(data, TogglePrefix) then
      assert data[6] == '_';
      var segment := Split(data, '_')[1];
      match ParseInt(segment)
      case Some(id) => Toggle(id)
      case None => BadToggle(segment)
    else if data == SelectAllData then SelectAll
    else if data == UnselectAllData then UnselectAll
    else if data == PostNowData then PostNow
    else Unrecognised
  }

  /** Decoding the data of a toggle button gives back the very channel it was
      made for, for every integer id. */
  lemma ParseToggleData(c: ChannelId)
    ensures ParseCallback(ToggleData(c)) == Toggle(c)
  {
    var digits := IntToString(c);
    var data := ToggleData(c);
    assert data[..|TogglePrefix|] == TogglePrefix;
    if c < 0 {
      assert digits == "-" + NatToString(-c);
    }
    assert '_' !in digits;
    assert data == "toggle" + ['_'] + digits;
    SplitAfterPrefix("toggle", '_', digits);
    SplitNoSeparator(digits, '_');
    ParseIntToString(c);
  }

  /** The other direction: callback data made of the toggle prefix and a
      canonical decimal id, with no further underscore, decodes to a toggle
      whose own toggle data is that very string. */
  lemma ToggleDataOfCanonical(data: string)
    requires StartsWith(data, TogglePrefix)
    requires '_' !in data[|TogglePrefix|..] && Canonical(data[|TogglePrefix|..])
    ensures ParseCallback(data).Toggle? && ToggleData(ParseCallback(data).channel) == data
  {
    var digits := data[|TogglePrefix|..];
    assert data == "toggle" + ['_'] + digits;
    SplitAfterPrefix("toggle", '_', digits);
    SplitNoSeparator(digits, '_');
    IntToStringOfParse(digits);
  }

  /** The three fixed buttons' data decode to their own actions: none of them
      starts with the toggle prefix. */
  lemma ParseActionData()
    ensures ParseCallback(SelectAllData) == SelectAll
    ensures ParseCallback(UnselectAllData) == UnselectAll
    ensures ParseCallback(PostNowData) == PostNow
  {
    assert SelectAllData[0] != TogglePrefix[0];
    assert UnselectAllData[0] != TogglePrefix[0];
    assert PostNowData[0] != TogglePrefix[0];
  }

  /** Row i of the keyboard is the single toggle button of channels[i]. */
  lemma KeyboardChannelRow(channels: seq<ChannelId>, i: nat)
    requires i < |channels|
    ensures KeyboardFor(channels)[i] == [Button(ChannelLabel(i + 1), ToggleData(channels[i]))]
  {
  }

  /** Every button of the keyboard decodes to the action it is labelled with:
      row i toggles channels[i] and is labelled with position i + 1. */
  lemma KeyboardDecodes(channels: seq<ChannelId>)
    ensures var rows := KeyboardFor(channels);
      && (forall i :: 0 <= i < |channels| ==>
            |rows[i]| == 1
            && rows[i][0].text == ChannelLabel(i + 1)
            && ParseCallback(rows[i][0].data) == Toggle(channels[i]))
      && ParseCallback(rows[|channels|][0].data) == SelectAll
      && ParseCallback(rows[|channels|][1].data) == UnselectAll
      && ParseCallback(rows[|channels| + 1][0].data) == PostNow
  {
    var rows: seq<seq<Button>> := KeyboardFor(channels);
    var n := |channels|;
    forall i | 0 <= i < n
      ensures |rows[i]| == 1 && rows[i][0].text == ChannelLabel(i + 1)
      ensures ParseCallback(rows[i][0].data) == Toggle(channels[i])
    {
      KeyboardChannelRow(channels, i);
      ParseToggleData(channels[i]);
    }
    assert rows[n][0].data == SelectAllData && rows[n][1].data == UnselectAllData;
    assert rows[n + 1][0].data == PostNowData;
    ParseActionData();
  }

  /** The bot's own keyboard over FIXED_CHANNELS: "Channel 1" toggles the first
      configured channel, "Channel 2" the second, and the action buttons decode
      to their actions. */
  lemma ChannelSelectionKeyboardDecodes()
    ensures var rows := ChannelSelectionKeyboard();
      && |rows| == 4
      && (forall i :: 0 <= i < 2 ==>
            |rows[i]| == 1
            && rows[i][0].text == ChannelLabel(i + 1)
            && ParseCallback(rows[i][0].data) == Toggle(FixedChannels[i]))
      && ParseCallback(rows[2][0].data) == SelectAll
      && ParseCallback(rows[2][1].data) == UnselectAll
      && ParseCallback(rows[3][0].data) == PostNow
  {
    KeyboardDecodes(FixedChannels);
  }
}
