/** The `selected_channels` list: the toggle, select-all and unselect-all
    updates of `handle_callback`, and the status text shown after a toggle
    (main.py:92-119). */
module Selection {
  import opened Wrappers
  import opened Text
  import opened Channels

  /** No channel appears twice. */
  predicate NoDup(s: seq<ChannelId>) {
    forall i, j :: 0 <= i < j < |s| ==> s[i] != s[j]
  }

  /** The list without its element at position i; the others keep their order. */
  function RemoveAt(s: seq<ChannelId>, i: nat): (r: seq<ChannelId>)
    requires i < |s|
    ensures |r| == |s| - 1
    ensures forall p :: 0 <= p < |r| ==> r[p] == s[if p < i then p else p + 1]
    ensures multiset(r) == multiset(s) - multiset{s[i]}
  {
    assert s == s[..i] + [s[i]] + s[i + 1..];
    s[..i] + s[i + 1..]
  }

  /** Python's `list.remove(c)`: cuts out the element at `index(c)`, the
      first occurrence, and keeps everything before and after it in order. */
  function RemoveFirst(s: seq<ChannelId>, c: ChannelId): (r: seq<ChannelId>)
    requires c in s
    ensures multiset(r) == multiset(s) - multiset{c}
    ensures |r| == |s| - 1
    ensures forall p :: 0 <= p < |r| ==> r[p] == s[if p < IndexOf(s, c).value then p else p + 1]
  {
    RemoveAt(s, IndexOf(s, c).value)
  }

  /** The toggle branch (main.py:94-97): remove the channel when it is
      selected, otherwise append it at the end. */
  function Toggled(s: seq<ChannelId>, c: ChannelId): seq<ChannelId> {
    if c in s then RemoveFirst(s, c) else s + [c]
  }

  /** Removing from a duplicate-free list leaves a duplicate-free list that no
      longer holds the channel. */
  lemma RemoveFirstNoDup(s: seq<ChannelId>, c: ChannelId)
    requires NoDup(s) && c in s
    ensures NoDup(RemoveFirst(s, c)) && c !in RemoveFirst(s, c)
  {
    var i := IndexOf(s, c).value;
    var r := RemoveFirst(s, c);
    forall p, q | 0 <= p < q < |r| ensures r[p] != r[q] {
      assert r[p] == s[if p < i then p else p + 1];
      assert r[q] == s[if q < i then q else q + 1];
    }
    forall p | 0 <= p < |r| ensures r[p] != c {
      assert r[p] == s[if p < i then p else p + 1];
    }
  }

  /** Removing a channel that was just appended to a list without it gives the
      list back. */
  lemma RemoveFirstAppended(s: seq<ChannelId>, c: ChannelId)
    requires c !in s
    ensures RemoveFirst(s + [c], c) == s
  {
    var t := s + [c];
    assert forall k :: 0 <= k < |s| ==> t[k] != c;
    assert IndexOf(t, c).value == |s|;
    assert t[..|s|] == s;
  }

  /** Toggling flips the membership of c and of nothing else. */
  lemma ToggleMembership(s: seq<ChannelId>, c: ChannelId, x: ChannelId)
    requires NoDup(s)
    ensures x in Toggled(s, c) <==> (if x == c then c !in s else x in s)
  {
    if c in s {
      RemoveFirstNoDup(s, c);
      if x != c {
        assert multiset(Toggled(s, c))[x] == multiset(s)[x];
      }
    }
  }

  /** Toggling keeps the selection free of duplicates. */
  lemma ToggleKeepsNoDup(s: seq<ChannelId>, c: ChannelId)
    requires NoDup(s)
    ensures NoDup(Toggled(s, c))
  {
    if c in s {
      RemoveFirstNoDup(s, c);
    } else {
      var r := s + [c];
      forall i, j | 0 <= i < j < |r| ensures r[i] != r[j] {
        assert r[i] == s[i];
        if j < |s| { assert r[j] == s[j]; }
      }
    }
  }

  /** Toggling the same channel twice restores the selection as a collection;
      a channel that was absent leaves no trace at all, one that was present
      comes back at the end of the list. */
  lemma ToggleTwice(s: seq<ChannelId>, c: ChannelId)
    requires NoDup(s)
    ensures multiset(Toggled(Toggled(s, c), c)) == multiset(s)
    ensures c !in s ==> Toggled(Toggled(s, c), c) == s
    ensures c in s ==> Toggled(Toggled(s, c), c) == RemoveFirst(s, c) + [c]
  {
    ToggleMembership(s, c, c);
    if c !in s {
      RemoveFirstAppended(s, c);
    } else {
      assert multiset(RemoveFirst(s, c) + [c]) == multiset(RemoveFirst(s, c)) + multiset{c};
    }
  }

  /** A toggle takes one copy of the channel out of the selection or adds one. */
  lemma ToggledMultiset(s: seq<ChannelId>, c: ChannelId)
    ensures multiset(Toggled(s, c)) == if c in s then multiset(s) - multiset{c} else multiset(s) + multiset{c}
  {
  }

  /** How often x occurs after toggling c: once less or once more when x is c,
      as often as before otherwise. */
  lemma ToggledCount(s: seq<ChannelId>, c: ChannelId, x: ChannelId)
    ensures multiset(Toggled(s, c))[x] ==
              if x != c then multiset(s)[x] else if c in s then multiset(s)[x] - 1 else multiset(s)[x] + 1
  {
    ToggledMultiset(s, c);
  }

  /** Toggles of two different channels commute on the selection as a
      collection (only the order of the list can differ). */
  lemma DisjointTogglesCommute(s: seq<ChannelId>, c: ChannelId, d: ChannelId)
    requires c != d
    ensures multiset(Toggled(Toggled(s, c), d)) == multiset(Toggled(Toggled(s, d), c))
  {
    var sc, sd := Toggled(s, c), Toggled(s, d);
    ToggledCount(s, c, d);
    ToggledCount(s, d, c);
    forall x ensures multiset(Toggled(sc, d))[x] == multiset(Toggled(sd, c))[x] {
      ToggledCount(s, c, x);
      ToggledCount(s, d, x);
      ToggledCount(sc, d, x);
      ToggledCount(sd, c, x);
    }
  }

  /** One line of the toggle status: a check mark and the channel's label. */
  function StatusLine(position: nat): string {
    "✅ " + ChannelLabel(position)
  }

  /** The comprehension of main.py:100 over `selected`, in selection order:
      Err(cid) for the first selected channel that `channels.index` cannot
      find (Python raises ValueError there), otherwise one line per channel
      naming its 1-based position in `channels`. */
  function StatusLines(channels: seq<ChannelId>, selected: seq<ChannelId>): (r: Result<seq<string>, ChannelId>)
    ensures r.Err? <==> exists c :: c in selected && c !in channels
    ensures r.Err? ==> r.error !in channels && IndexOf(selected, r.error).Some?
                       && forall j :: 0 <= j < IndexOf(selected, r.error).value ==> selected[j] in channels
    ensures r.Ok? ==> |r.value| == |selected|
    ensures r.Ok? ==> forall k :: 0 <= k < |selected| ==>
              IndexOf(channels, selected[k]).Some?
              && r.value[k] == StatusLine(IndexOf(channels, selected[k]).value + 1)
  {
    if selected == [] then Ok([])
    else match IndexOf(channels, selected[0])
      case None => Err(selected[0])
      case Some(i) =>
        var tail := selected[1..];
        assert forall k :: 1 <= k < |selected| ==> selected[k] == tail[k - 1];
        match StatusLines(channels, tail)
        case Err(c) =>
          assert IndexOf(selected, c).value == IndexOf(tail, c).value + 1;
          Err(c)
        case Ok(rest) =>
          Ok([StatusLine(i + 1)] + rest)
  }

  /** While every selected id is one of `channels`, toggling one of
      `channels` keeps it so, and the status can always be rendered. */
  lemma ToggleKnownRenders(channels: seq<ChannelId>, s: seq<ChannelId>, c: ChannelId)
    requires forall x :: x in s ==> x in channels
    requires c in channels
    ensures forall x :: x in Toggled(s, c) ==> x in channels
    ensures StatusLines(channels, Toggled(s, c)).Ok?
  {
    forall x | x in Toggled(s, c) ensures x in channels {
      if c in s {
        assert multiset(Toggled(s, c))[x] <= multiset(s)[x];
      }
    }
  }

  /** The status text: the lines joined by newlines, or "None" when the join
      is empty (Python's `or`). */
  function ToggleStatus(channels: seq<ChannelId>, selected: seq<ChannelId>): Result<string, ChannelId> {
    match StatusLines(channels, selected)
    case Err(c) => Err(c)
    case Ok(lines) =>
      var joined := Join(lines, '\n');
      Ok(if joined == "" then "None" else joined)
  }

  /** A status line starts with the check mark. */
  lemma StatusLineStart(position: nat)
    ensures |StatusLine(position)| > 0 && StatusLine(position)[0] == '✅'
  {
  }

  /** The status reads "None" exactly when nothing is selected; otherwise it
      is the status lines, one per selected channel. */
  lemma ToggleStatusNone(channels: seq<ChannelId>, selected: seq<ChannelId>)
    requires forall c :: c in selected ==> c in channels
    ensures ToggleStatus(channels, selected).Ok?
    ensures ToggleStatus(channels, selected).value == "None" <==> selected == []
    ensures selected != [] ==>
              ToggleStatus(channels, selected).value == Join(StatusLines(channels, selected).value, '\n')
  {
    if selected != [] {
      var lines := StatusLines(channels, selected).value;
      StatusLineStart(IndexOf(channels, selected[0]).value + 1);
      JoinFirstChar(lines, '\n');
    }
  }
}
