/** The body of the `post_now` branch once its two checks have passed: send
    every staged message to every selected channel, record each failure and
    carry on, then build the report shown to the operator (main.py:139-159). */
module Dispatch {
  import opened Text
  import opened Channels

  /** A message the operator forwarded to the bot, kept as a reference to
      re-send (the chat it was received in and its id there). */
  datatype Message = Message(chatId: int, messageId: int)

  /** What copying a message to a channel did: returned, or raised an
      exception whose text is `detail`. */
  datatype SendResult = Sent | Failed(detail: string)

  /** The transport, seen as an oracle: the outcome of copying a message to a
      channel. */
  type Transport = (Message, ChannelId) -> SendResult

  /** One send attempt, a (message, channel) pair. */
  datatype Attempt = Attempt(msg: Message, channel: ChannelId)

  /** One entry of `errors`: the channel a send failed for, and the text of
      the exception it raised. */
  datatype ErrorEntry = ErrorEntry(channel: ChannelId, detail: string)

  /** The attempts of one message, in channel order. */
  function Row(m: Message, chans: seq<ChannelId>): (r: seq<Attempt>)
    ensures |r| == |chans|
    ensures forall j :: 0 <= j < |chans| ==> r[j] == Attempt(m, chans[j])
  {
    seq(|chans|, j requires 0 <= j < |chans| => Attempt(m, chans[j]))
  }

  /** The order of the nested loop: messages outer, channels inner. */
  function Pairs(msgs: seq<Message>, chans: seq<ChannelId>): seq<Attempt> {
    if msgs == [] then []
    else Pairs(msgs[..|msgs| - 1], chans) + Row(msgs[|msgs| - 1], chans)
  }

  /** The loop makes one attempt for every message and every channel, and no
      other attempt. */
  lemma {:induction false} PairsCover(msgs: seq<Message>, chans: seq<ChannelId>)
    ensures |Pairs(msgs, chans)| == |msgs| * |chans|
    ensures forall a :: a in Pairs(msgs, chans) <==> a.msg in msgs && a.channel in chans
  {
    if msgs != [] {
      var front := msgs[..|msgs| - 1];
      var last := msgs[|msgs| - 1];
      PairsCover(front, chans);
      assert msgs == front + [last];
      forall a ensures a in Pairs(msgs, chans) <==> a.msg in msgs && a.channel in chans {
        if a in Row(last, chans) {
          var j :| 0 <= j < |chans| && Row(last, chans)[j] == a;
        }
        if a.msg == last && a.channel in chans {
          var j :| 0 <= j < |chans| && chans[j] == a.channel;
          assert Row(last, chans)[j] == a;
        }
      }
      assert |msgs| * |chans| == |front| * |chans| + |chans|;
    }
  }

  /** The attempts that raised, in the order they were made. */
  function FailedAttempts(attempts: seq<Attempt>, send: Transport): (r: seq<Attempt>)
    ensures forall a :: multiset(r)[a] == if send(a.msg, a.channel).Failed? then multiset(attempts)[a] else 0
  {
    if attempts == [] then []
    else
      var front := attempts[..|attempts| - 1];
      var last := attempts[|attempts| - 1];
      assert attempts == front + [last];
      FailedAttempts(front, send)
        + if send(last.msg, last.channel).Failed? then [last] else []
  }

  /** `errors` after the loop has made `attempts`: one entry per attempt that
      raised, in order. */
  function ErrorLog(attempts: seq<Attempt>, send: Transport): seq<ErrorEntry> {
    if attempts == [] then []
    else
      var last := attempts[|attempts| - 1];
      ErrorLog(attempts[..|attempts| - 1], send)
        + match send(last.msg, last.channel)
          case Sent => []
          case Failed(detail) => [ErrorEntry(last.channel, detail)]
  }

  /** Entry k of the log names the channel of the k-th failed attempt and
      carries that attempt's exception text, so there are exactly as many
      entries as failed attempts. */
  lemma {:induction false} ErrorLogNamesFailures(attempts: seq<Attempt>, send: Transport)
    ensures |ErrorLog(attempts, send)| == |FailedAttempts(attempts, send)|
    ensures forall k :: 0 <= k < |ErrorLog(attempts, send)| ==>
              var a := FailedAttempts(attempts, send)[k];
              ErrorLog(attempts, send)[k] == ErrorEntry(a.channel, send(a.msg, a.channel).detail)
  {
    if attempts != [] {
      var front := attempts[..|attempts| - 1];
      var last := attempts[|attempts| - 1];
      ErrorLogNamesFailures(front, send);
      var log, failed := ErrorLog(front, send), FailedAttempts(front, send);
      if send(last.msg, last.channel).Failed? {
        assert ErrorLog(attempts, send) == log + [ErrorEntry(last.channel, send(last.msg, last.channel).detail)];
        assert FailedAttempts(attempts, send) == failed + [last];
      } else {
        assert ErrorLog(attempts, send) == log;
        assert FailedAttempts(attempts, send) == failed;
      }
    }
  }

  /** The log is empty exactly when every attempt was delivered. */
  lemma {:induction false} NoErrorsIffAllSent(attempts: seq<Attempt>, send: Transport)
    ensures ErrorLog(attempts, send) == [] <==> forall a :: a in attempts ==> send(a.msg, a.channel) == Sent
  {
    if attempts != [] {
      var front := attempts[..|attempts| - 1];
      var last := attempts[|attempts| - 1];
      NoErrorsIffAllSent(front, send);
      assert attempts == front + [last];
      if send(last.msg, last.channel).Failed? {
        assert |ErrorLog(attempts, send)| == |ErrorLog(front, send)| + 1;
      } else {
        assert ErrorLog(attempts, send) == ErrorLog(front, send);
      }
    }
  }

  lemma ErrorLogSnoc(attempts: seq<Attempt>, a: Attempt, send: Transport)
    ensures ErrorLog(attempts + [a], send) == ErrorLog(attempts, send)
      + match send(a.msg, a.channel)
        case Sent => []
        case Failed(detail) => [ErrorEntry(a.channel, detail)]
  {
    assert (attempts + [a])[..|attempts|] == attempts;
  }

  lemma RowSnoc(m: Message, chans: seq<ChannelId>, j: nat)
    requires j < |chans|
    ensures Row(m, chans[..j + 1]) == Row(m, chans[..j]) + [Attempt(m, chans[j])]
  {
  }

  lemma PairsSnoc(msgs: seq<Message>, chans: seq<ChannelId>, i: nat)
    requires i < |msgs|
    ensures Pairs(msgs[..i + 1], chans) == Pairs(msgs[..i], chans) + Row(msgs[i], chans)
  {
    assert msgs[..i + 1][..i] == msgs[..i];
  }

  /** The nested loop of main.py:140-146: every message, then every selected
      channel; a raising send is logged and the loop carries on. `attempts`
      is the sequence of calls made on the transport. */
  method SendAll(msgs: seq<Message>, chans: seq<ChannelId>, send: Transport)
    returns (errors: seq<ErrorEntry>, attempts: seq<Attempt>)
    ensures attempts == Pairs(msgs, chans)
    ensures errors == ErrorLog(attempts, send)
  {
    errors, attempts := [], [];
    var i := 0;
    while i < |msgs|
      invariant 0 <= i <= |msgs|
      invariant attempts == Pairs(msgs[..i], chans)
      invariant errors == ErrorLog(attempts, send)
    {
      var m := msgs[i];
      var j := 0;
      while j < |chans|
        invariant 0 <= j <= |chans|
        invariant attempts == Pairs(msgs[..i], chans) + Row(m, chans[..j])
        invariant errors == ErrorLog(attempts, send)
      {
        var c := chans[j];
        ErrorLogSnoc(attempts, Attempt(m, c), send);
        RowSnoc(m, chans, j);
        match send(m, c) {
          case Sent =>
          case Failed(detail) =>
            errors := errors + [ErrorEntry(c, detail)];
        }
        attempts := attempts + [Attempt(m, c)];
        j := j + 1;
      }
      PairsSnoc(msgs, chans, i);
      assert chans[..|chans|] == chans;
      i := i + 1;
    }
    assert msgs[..|msgs|] == msgs;
  }

  /** The report shows at most this many error entries. */
  const MaxShownErrors: nat := 5

  const FailureHeader: string := "❌ Some messages failed to post:"
  const AllPostedText: string := "✅ All messages posted successfully!"

  function EntryText(e: ErrorEntry): string {
    "Failed to post to " + IntToString(e.channel) + ": " + e.detail
  }

  function EntryTexts(errors: seq<ErrorEntry>): (r: seq<string>)
    ensures |r| == |errors|
    ensures forall k :: 0 <= k < |errors| ==> r[k] == EntryText(errors[k])
  {
    seq(|errors|, k requires 0 <= k < |errors| => EntryText(errors[k]))
  }

  function Min(a: nat, b: nat): nat {
    if a < b then a else b
  }

  /** The trailer line that counts the entries left out of the report. */
  function MoreErrorsLine(hidden: nat): string {
    "... and " + NatToString(hidden) + " more errors."
  }

  /** The failure report exactly as main.py:154-156 builds it: the header
      and the first five entries, then the trailer appended when more failed. */
  function ErrorReport(errors: seq<ErrorEntry>): string
    requires errors != []
  {
    var shown := errors[..Min(|errors|, MaxShownErrors)];
    var text := FailureHeader + "\n" + Join(EntryTexts(shown), '\n');
    if |errors| > MaxShownErrors then text + "\n" + MoreErrorsLine(|errors| - MaxShownErrors) else text
  }

  /** The text of the final edit: the success message when nothing failed,
      the failure report otherwise. */
  function PostReport(errors: seq<ErrorEntry>): string {
    if errors == [] then AllPostedText else ErrorReport(errors)
  }

  /** What the failure report is made of, line by line: the header, then the
      first min(n, 5) entries in order, then the trailer exactly when n > 5. */
  ghost predicate ReportLayout(errors: seq<ErrorEntry>, lines: seq<string>) {
    var n := |errors|;
    var shown := Min(n, MaxShownErrors);
    && |lines| == 1 + shown + (if n > MaxShownErrors then 1 else 0)
    && lines[0] == FailureHeader
    && (forall k :: 0 <= k < shown ==> lines[1 + k] == EntryText(errors[k]))
    && (n > MaxShownErrors ==> lines[|lines| - 1] == MoreErrorsLine(n - MaxShownErrors))
  }

  /** The lines in the order the report text puts them. */
  function ReportLines(errors: seq<ErrorEntry>): seq<string> {
    var n := |errors|;
    [FailureHeader] + EntryTexts(errors[..Min(n, MaxShownErrors)])
      + if n > MaxShownErrors then [MoreErrorsLine(n - MaxShownErrors)] else []
  }

  lemma ReportLinesLayout(errors: seq<ErrorEntry>)
    ensures ReportLayout(errors, ReportLines(errors))
  {
    var n := |errors|;
    var shownErrors := errors[..Min(n, MaxShownErrors)];
    var lines := ReportLines(errors);
    forall k | 0 <= k < Min(n, MaxShownErrors) ensures lines[1 + k] == EntryText(errors[k]) {
      assert lines[1 + k] == EntryTexts(shownErrors)[k] && shownErrors[k] == errors[k];
    }
  }

  lemma ReportLinesJoin(errors: seq<ErrorEntry>)
    requires errors != []
    ensures ErrorReport(errors) == Join(ReportLines(errors), '\n')
  {
    var n := |errors|;
    var entries := EntryTexts(errors[..Min(n, MaxShownErrors)]);
    var head := [FailureHeader] + entries;
    var text := FailureHeader + "\n" + Join(entries, '\n');
    JoinAppend([FailureHeader], entries, '\n');
    assert Join(head, '\n') == text;
    if n > MaxShownErrors {
      var trailer := MoreErrorsLine(n - MaxShownErrors);
      assert ReportLines(errors) == head + [trailer];
      JoinAppend(head, [trailer], '\n');
      assert Join(head + [trailer], '\n') == text + "\n" + trailer;
      assert ErrorReport(errors) == text + "\n" + trailer;
    } else {
      assert ReportLines(errors) == head;
      assert ErrorReport(errors) == text;
    }
  }

  /** The failure report is those lines joined by newlines. */
  lemma ErrorReportLines(errors: seq<ErrorEntry>)
    requires errors != []
    ensures exists lines :: ReportLayout(errors, lines) && ErrorReport(errors) == Join(lines, '\n')
  {
    ReportLinesLayout(errors);
    ReportLinesJoin(errors);
  }

  /** Two staged messages, two selected channels, and a transport that fails
      only for the first message on the second channel: the log holds exactly
      one entry, naming that channel. */
  lemma OneFailedPair(m1: Message, m2: Message, c1: ChannelId, c2: ChannelId, send: Transport, detail: string)
    requires send(m1, c2) == Failed(detail)
    requires send(m1, c1) == Sent && send(m2, c1) == Sent && send(m2, c2) == Sent
    ensures ErrorLog(Pairs([m1, m2], [c1, c2]), send) == [ErrorEntry(c2, detail)]
  {
    var a1, a2, a3, a4 := Attempt(m1, c1), Attempt(m1, c2), Attempt(m2, c1), Attempt(m2, c2);
    assert Row(m1, [c1, c2]) == [a1, a2];
    assert Row(m2, [c1, c2]) == [a3, a4];
    PairsSnoc([m1, m2], [c1, c2], 0);
    PairsSnoc([m1, m2], [c1, c2], 1);
    assert [m1, m2][..0] == [] && [m1, m2][..2] == [m1, m2];
    assert Pairs([m1, m2], [c1, c2]) == [a1, a2, a3, a4];
    ErrorLogSnoc([], a1, send);
    ErrorLogSnoc([a1], a2, send);
    ErrorLogSnoc([a1, a2], a3, send);
    ErrorLogSnoc([a1, a2, a3], a4, send);
    assert [] + [a1] == [a1] && [a1] + [a2] == [a1, a2];
    assert [a1, a2] + [a3] == [a1, a2, a3] && [a1, a2, a3] + [a4] == [a1, a2, a3, a4];
  }

  /** The trailer for two hidden entries, spelled out. */
  lemma TwoMoreErrors()
    ensures MoreErrorsLine(2) == "... and 2 more errors."
  {
    assert NatToString(2) == [DigitChar(2)];
  }

  /** Seven failures: the report shows five entries and then
      "... and 2 more errors.". */
  lemma SevenFailuresReport(errors: seq<ErrorEntry>)
    requires |errors| == 7
    ensures exists lines :: ReportLayout(errors, lines) && ErrorReport(errors) == Join(lines, '\n')
              && |lines| == 7 && lines[6] == "... and 2 more errors."
  {
    var lines := ReportLines(errors);
    ReportLinesLayout(errors);
    ReportLinesJoin(errors);
    TwoMoreErrors();
    assert |lines| == 7 && lines[6] == MoreErrorsLine(2);
  }
}
