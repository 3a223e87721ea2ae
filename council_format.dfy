/** The text assembly of the council orchestrator (backend/council.py):
    pseudonyms, the anonymised transcript shown to the other models, the compact
    chat-history block, and the clean-up of code-fenced model output. */
module CouncilFormat {
  import opened Wrappers
  import opened Text

  /** `chr(1040 + i)` is the Cyrillic capital letter that labels model `i`. */
  const PseudonymBase: nat := 1040

  /** Indices whose letter is a Unicode scalar value below the surrogate block. */
  const PseudonymLimit: nat := 0xD800 - 1040

  const LabelPrefix: string := "Модель "

  /** `_anonymize_model_name(i)`: "Модель " followed by the character with code 1040 + i. */
  function AnonymizeModelName(index: nat): (pseudonym: string)
    requires index < PseudonymLimit
    ensures |pseudonym| == |LabelPrefix| + 1 && pseudonym[..|LabelPrefix|] == LabelPrefix
    ensures pseudonym[|LabelPrefix|] as int == PseudonymBase + index
  {
    LabelPrefix + [(PseudonymBase + index) as char]
  }

  /** Distinct indices get distinct pseudonyms. */
  lemma AnonymizeInjective(i: nat, j: nat)
    requires i < PseudonymLimit && j < PseudonymLimit && i != j
    ensures AnonymizeModelName(i) != AnonymizeModelName(j)
  {
    assert AnonymizeModelName(i)[|LabelPrefix|] != AnonymizeModelName(j)[|LabelPrefix|];
  }

  /** The first three labels use the Cyrillic letters А, Б, В (U+0410 to U+0412). */
  lemma FirstPseudonyms()
    ensures AnonymizeModelName(0) == "Модель \U{410}"
    ensures AnonymizeModelName(1) == "Модель \U{411}"
    ensures AnonymizeModelName(2) == "Модель \U{412}"
  {
  }

  /** The block `_format_responses_for_discussion` emits for entry `index`. */
  function DiscussionBlock(index: nat, response: string): string
    requires index < PseudonymLimit
  {
    "=== " + AnonymizeModelName(index) + " ===\n" + response + "\n"
  }

  /** The blocks of the transcript: one per entry, in input order, skipping
      the entry at `exclude`; each keeps the label of its own index. */
  function DiscussionBlocks(responses: seq<string>, exclude: Option<nat>): seq<string>
    requires |responses| <= PseudonymLimit
  {
    if responses == [] then []
    else
      var n := |responses| - 1;
      DiscussionBlocks(responses[..n], exclude)
      + (if exclude == Some(n) then [] else [DiscussionBlock(n, responses[n])])
  }

  /** Position in the input of the `k`-th block when `exclude` is skipped. */
  function SourceIndex(k: nat, exclude: Option<nat>): nat {
    if exclude.Some? && k >= exclude.value then k + 1 else k
  }

  /** Exactly the excluded entry is missing. */
  lemma {:induction false} DiscussionBlocksCount(responses: seq<string>, exclude: Option<nat>)
    requires |responses| <= PseudonymLimit
    ensures |DiscussionBlocks(responses, exclude)|
            == |responses| - (if exclude.Some? && exclude.value < |responses| then 1 else 0)
  {
    if responses != [] {
      DiscussionBlocksCount(responses[..|responses| - 1], exclude);
    }
  }

  /** The `k`-th block is the block of entry SourceIndex(k), which is never the
      excluded entry and keeps its own label (no re-lettering). */
  lemma {:induction false} DiscussionBlockAt(responses: seq<string>, exclude: Option<nat>, k: nat)
    requires |responses| <= PseudonymLimit
    requires k < |DiscussionBlocks(responses, exclude)|
    ensures SourceIndex(k, exclude) < |responses|
    ensures exclude != Some(SourceIndex(k, exclude))
    ensures DiscussionBlocks(responses, exclude)[k]
            == DiscussionBlock(SourceIndex(k, exclude), responses[SourceIndex(k, exclude)])
  {
    var n := |responses| - 1;
    var front := responses[..n];
    DiscussionBlocksCount(front, exclude);
    if k < |DiscussionBlocks(front, exclude)| {
      DiscussionBlockAt(front, exclude, k);
    }
  }

  /** `_format_responses_for_discussion(responses, exclude_index)`. */
  method FormatResponsesForDiscussion(responses: seq<string>, exclude: Option<nat>) returns (text: string)
    requires |responses| <= PseudonymLimit
    ensures text == Join(DiscussionBlocks(responses, exclude), "\n")
  {
    var formatted: seq<string> := [];
    var i := 0;
    while i < |responses|
      invariant 0 <= i <= |responses|
      invariant formatted == DiscussionBlocks(responses[..i], exclude)
    {
      assert responses[..i + 1][..i] == responses[..i];
      if exclude != Some(i) {
        formatted := formatted + [DiscussionBlock(i, responses[i])];
      }
      i := i + 1;
    }
    assert responses[..i] == responses;
    text := Join(formatted, "\n");
  }

  /** One entry of the chat history as the request flow passes it: a dict whose
      "role" and "content" keys may be missing. */
  datatype HistoryMessage = HistoryMessage(role: Option<string>, content: Option<string>)

  const HistoryHeader: string := "=== История чата ==="
  const HistoryOmitted: string := "[... ранние сообщения опущены ...]"
  const HistoryMessageLimit: nat := 500
  const HistoryCutMarker: string := "[...]"

  /** The default `max_chars` of `_format_chat_history_toon`. */
  const HistoryBudget: int := 3000

  predicate IsUserMessage(m: HistoryMessage) {
    m.role.GetOr("user") == "user"
  }

  /** The line one message becomes: "[U] " for a user message (a missing role
      counts as user) and "[A] " otherwise, then the content with newlines made
      spaces and stripped, cut to 500 characters plus "[...]" when longer. */
  function HistoryLine(m: HistoryMessage): string {
    var content := Strip(ReplaceChar(m.content.GetOr(""), '\n', ' '));
    var shown := if |content| > HistoryMessageLimit then content[..HistoryMessageLimit] + HistoryCutMarker else content;
    (if IsUserMessage(m) then "[U]" else "[A]") + " " + shown
  }

  /** Every history line carries its role tag, stays on one line and is at most
      4 + 500 + 5 characters long. */
  lemma HistoryLineShape(m: HistoryMessage)
    ensures StartsWith(HistoryLine(m), if IsUserMessage(m) then "[U] " else "[A] ")
    ensures '\n' !in HistoryLine(m)
    ensures |HistoryLine(m)| <= 4 + HistoryMessageLimit + |HistoryCutMarker|
  {
    var flat := ReplaceChar(m.content.GetOr(""), '\n', ' ');
    var content := Strip(flat);
    assert '\n' !in content by {
      if '\n' in content {
        StripKeepsCharacters(flat, '\n');
      }
    }
    var shown := if |content| > HistoryMessageLimit then content[..HistoryMessageLimit] + HistoryCutMarker else content;
    assert '\n' !in shown;
    var head := (if IsUserMessage(m) then "[U]" else "[A]") + " ";
    assert HistoryLine(m) == head + shown;
    assert (head + shown)[..|head|] == head;
  }

  function HistoryLines(history: seq<HistoryMessage>): seq<string> {
    seq(|history|, i requires 0 <= i < |history| => HistoryLine(history[i]))
  }

  /** What a budgeted loop keeps, and whether it stopped early. */
  datatype Budgeted = Budgeted(kept: seq<string>, cut: bool)

  /** The lines kept by a loop over `lines[i..]` that adds each line's length to
      a running total starting at `total` and stops at the first line that would
      take the total past `maxChars`. */
  function KeepFrom(lines: seq<string>, i: nat, total: int, maxChars: int): Budgeted
    requires i <= |lines|
    decreases |lines| - i
  {
    if i == |lines| then Budgeted([], false)
    else if total + |lines[i]| > maxChars then Budgeted([], true)
    else
      var rest := KeepFrom(lines, i + 1, total + |lines[i]|, maxChars);
      Budgeted([lines[i]] + rest.kept, rest.cut)
  }

  /** From position `i`, the kept lines are the next lines of the input and fit
      the budget; the loop stops early exactly when a line is left, and then
      that next line does not fit. */
  lemma {:induction false} KeepFromBudget(lines: seq<string>, i: nat, total: int, maxChars: int)
    requires i <= |lines|
    decreases |lines| - i
    ensures var b := KeepFrom(lines, i, total, maxChars);
      && i + |b.kept| <= |lines| && b.kept == lines[i..i + |b.kept|]
      && (b.kept == [] || total + TotalLength(b.kept) <= maxChars)
      && (b.cut <==> i + |b.kept| < |lines|)
      && (b.cut ==> total + TotalLength(b.kept) + |lines[i + |b.kept|]| > maxChars)
  {
    if i < |lines| && total + |lines[i]| <= maxChars {
      KeepFromBudget(lines, i + 1, total + |lines[i]|, maxChars);
      KeepFromStep(lines, i, total, maxChars);
    } else {
      assert KeepFrom(lines, i, total, maxChars) == Budgeted([], i < |lines|);
    }
  }

  /** A line that fits is kept in front of the lines kept after it. */
  lemma KeepFromStep(lines: seq<string>, i: nat, total: int, maxChars: int)
    requires i < |lines| && total + |lines[i]| <= maxChars
    ensures var rest := KeepFrom(lines, i + 1, total + |lines[i]|, maxChars);
      var b := KeepFrom(lines, i, total, maxChars);
      && b == Budgeted([lines[i]] + rest.kept, rest.cut)
      && TotalLength(b.kept) == |lines[i]| + TotalLength(rest.kept)
      && (i + 1 + |rest.kept| <= |lines| && rest.kept == lines[i + 1..i + 1 + |rest.kept|] ==>
            b.kept == lines[i..i + |b.kept|])
  {
    var rest := KeepFrom(lines, i + 1, total + |lines[i]|, maxChars);
    var kept := [lines[i]] + rest.kept;
    assert kept[1..] == rest.kept;
    if i + 1 + |rest.kept| <= |lines| {
      assert lines[i..i + |kept|] == [lines[i]] + lines[i + 1..i + 1 + |rest.kept|];
    }
  }

  /** The history block: "" for an empty history, otherwise the header, the
      kept lines, and the omission marker when a line did not fit. */
  function HistoryToon(history: seq<HistoryMessage>, maxChars: int): string {
    if history == [] then ""
    else
      var b := KeepFrom(HistoryLines(history), 0, 0, maxChars);
      Join([HistoryHeader] + b.kept + (if b.cut then [HistoryOmitted] else []), "\n")
  }

  /** The emitted message lines are the first lines of the history, in order,
      whose summed length stays within `maxChars`; the first line that would
      overflow and every later one are dropped. */
  lemma HistoryToonBudget(history: seq<HistoryMessage>, maxChars: int)
    requires history != []
    ensures var b := KeepFrom(HistoryLines(history), 0, 0, maxChars);
      && |b.kept| <= |history|
      && (forall i :: 0 <= i < |b.kept| ==> b.kept[i] == HistoryLine(history[i]))
      && (b.kept == [] || TotalLength(b.kept) <= maxChars)
      && (b.cut <==> |b.kept| < |history|)
      && (b.cut ==> TotalLength(b.kept) + |HistoryLine(history[|b.kept|])| > maxChars)
      && HistoryToon(history, maxChars)
         == Join([HistoryHeader] + b.kept + (if b.cut then [HistoryOmitted] else []), "\n")
  {
    KeepFromBudget(HistoryLines(history), 0, 0, maxChars);
  }

  /** The loop of `_format_chat_history_toon`: the header, then each line while
      the running total of line lengths stays within `maxChars`, and the
      omission marker at the first line that does not fit. */
  method BudgetHistoryLines(all: seq<string>, maxChars: int) returns (lines: seq<string>)
    ensures var b := KeepFrom(all, 0, 0, maxChars);
      lines == [HistoryHeader] + b.kept + (if b.cut then [HistoryOmitted] else [])
  {
    ghost var spec := KeepFrom(all, 0, 0, maxChars);
    ghost var kept: seq<string> := [];
    lines := [HistoryHeader];
    var total := 0;
    var i := 0;
    while i < |all|
      invariant 0 <= i <= |all|
      invariant lines == [HistoryHeader] + kept
      invariant spec == Budgeted(kept + KeepFrom(all, i, total, maxChars).kept, KeepFrom(all, i, total, maxChars).cut)
    {
      var line := all[i];
      if total + |line| > maxChars {
        assert kept + [] == kept;
        lines := lines + [HistoryOmitted];
        return;
      }
      ghost var rest := KeepFrom(all, i + 1, total + |line|, maxChars).kept;
      assert kept + ([line] + rest) == (kept + [line]) + rest;
      kept := kept + [line];
      lines := lines + [line];
      total := total + |line|;
      i := i + 1;
    }
    assert kept + [] == kept;
  }

  /** `_format_chat_history_toon(chat_history, max_chars)`. The lines are built
      before the budget loop rather than inside it; building a line has no effect. */
  method FormatChatHistoryToon(history: seq<HistoryMessage>, maxChars: int) returns (text: string)
    ensures text == HistoryToon(history, maxChars)
    ensures history == [] ==> text == ""
  {
    if history == [] {
      return "";
    }
    var lines := BudgetHistoryLines(HistoryLines(history), maxChars);
    text := Join(lines, "\n");
  }

  const Fence: string := "```"

  /** The clean-up of a discussion reply before JSON decoding: strip; when the
      result starts with ```, drop everything up to the first newline and then a
      trailing ```. None where `split("\n", 1)[1]` raises IndexError: the
      stripped reply starts with ``` and has no newline. */
  function CleanReply(raw: string): (r: Option<string>)
    ensures r.None? <==> StartsWith(Strip(raw), Fence) && '\n' !in Strip(raw)
    ensures !StartsWith(Strip(raw), Fence) ==> r == Some(Strip(raw))
  {
    var s := Strip(raw);
    if !StartsWith(s, Fence) then Some(s)
    else
      match AfterFirst(s, '\n')
      case None => None
      case Some(rest) => Some(if EndsWith(rest, Fence) then rest[..|rest| - |Fence|] else rest)
  }

  /** Text that opens and closes with a fence has no white space to strip. */
  lemma FencedIsStripped(s: string)
    requires StartsWith(s, Fence) && EndsWith(s, Fence)
    ensures Strip(s) == s
  {
    assert s[0] == s[..3][0] == '`';
    assert s[|s| - 1] == s[|s| - 3..][2] == '`';
    StripUnchanged(s);
  }

  /** An opening fence line without its newline holds no newline. */
  lemma FenceLineHasNoNewline(tag: string)
    requires '\n' !in tag
    ensures '\n' !in Fence + tag
  {
    var head := Fence + tag;
    assert forall k :: 3 <= k < |head| ==> head[k] == tag[k - 3];
  }

  /** A payload wrapped in a fenced block with a language tag comes back out. */
  lemma CleanFencedReply(tag: string, payload: string)
    requires '\n' !in tag
    ensures CleanReply(Fence + tag + "\n" + payload + Fence) == Some(payload)
  {
    var head := Fence + tag;
    var rest := payload + Fence;
    var raw := head + ['\n'] + rest;
    assert raw == Fence + tag + "\n" + payload + Fence;
    assert raw[..3] == Fence;
    assert raw[|raw| - 3..] == Fence;
    FencedIsStripped(raw);
    FenceLineHasNoNewline(tag);
    AfterFirstAt(head, rest, '\n');
    assert rest[|rest| - 3..] == Fence;
    assert rest[..|rest| - 3] == payload;
  }

  /** The chairman's answer: stripped, and when it both starts and ends with ```
      its first and last lines are removed and the rest stripped again. */
  function FinalAnswer(text: string): (answer: string)
    ensures answer == [] || (!IsSpace(answer[0]) && !IsSpace(answer[|answer| - 1]))
    ensures !(StartsWith(Strip(text), Fence) && EndsWith(Strip(text), Fence)) ==> answer == Strip(text)
  {
    var s := Strip(text);
    if StartsWith(s, Fence) && EndsWith(s, Fence) then
      Strip(Join(InnerLines(Split(s, '\n')), "\n"))
    else s
  }

  /** Python's `lines[1:-1]`: all but the first and the last line. */
  function InnerLines(lines: seq<string>): seq<string> {
    if |lines| >= 2 then lines[1..|lines| - 1] else []
  }

  /** The inner lines of a fenced block are the lines of its body. */
  lemma FencedLines(head: string, body: string)
    requires '\n' !in head
    ensures InnerLines(Split(head + ['\n'] + body + ['\n'] + Fence, '\n')) == Split(body, '\n')
  {
    var tail := body + ['\n'] + Fence;
    assert head + ['\n'] + body + ['\n'] + Fence == head + ['\n'] + tail;
    SplitAround(head, tail, '\n');
    SplitAround(body, Fence, '\n');
    SplitWithoutSeparator(head, '\n');
    SplitWithoutSeparator(Fence, '\n');
    var inner := Split(body, '\n');
    assert Split(tail, '\n') == inner + [Fence];
    MiddleOf(head, inner, Fence);
  }

  /** Dropping the first and the last element of `[first] + middle + [last]`. */
  lemma MiddleOf<T>(first: T, middle: seq<T>, last: T)
    ensures var s := [first] + (middle + [last]); s[1..|s| - 1] == middle
  {
    var s := [first] + (middle + [last]);
    assert s[1..] == middle + [last];
  }

  /** A fence line, a newline, a body, a newline and a closing fence: text
      that FinalAnswer unwraps, with no white space to strip. */
  lemma FencedFrame(head: string, body: string)
    requires StartsWith(head, Fence)
    ensures var s := head + ['\n'] + body + ['\n'] + Fence;
      Strip(s) == s && StartsWith(s, Fence) && EndsWith(s, Fence)
  {
    var s := head + ['\n'] + body + ['\n'] + Fence;
    assert s[..3] == head[..3];
    assert s[|s| - 3..] == Fence;
    FencedIsStripped(s);
  }

  /** Text with no white space to strip that opens and closes with a fence
      loses its first and last lines. */
  lemma FinalAnswerOfFenced(s: string)
    requires Strip(s) == s && StartsWith(s, Fence) && EndsWith(s, Fence)
    ensures FinalAnswer(s) == Strip(Join(InnerLines(Split(s, '\n')), "\n"))
  {
  }

  /** A stripped body between a fence line and a closing fence is the answer. */
  lemma FencedAnswer(head: string, body: string)
    requires '\n' !in head && StartsWith(head, Fence)
    requires Strip(body) == body
    ensures FinalAnswer(head + ['\n'] + body + ['\n'] + Fence) == body
  {
    var s := head + ['\n'] + body + ['\n'] + Fence;
    FencedFrame(head, body);
    FinalAnswerOfFenced(s);
    FencedLines(head, body);
    JoinSplit(body, '\n');
  }

  /** A stripped answer wrapped in a fenced block is recovered exactly. */
  lemma FinalAnswerUnwrapsFence(tag: string, body: string)
    requires '\n' !in tag
    requires Strip(body) == body
    ensures FinalAnswer(Fence + tag + "\n" + body + "\n" + Fence) == body
  {
    var head := Fence + tag;
    assert head[..3] == Fence;
    FenceLineHasNoNewline(tag);
    assert Fence + tag + "\n" + body + "\n" + Fence == head + ['\n'] + body + ['\n'] + Fence;
    FencedAnswer(head, body);
  }

  /** A reply of just a fence is an empty answer. */
  lemma BareFenceIsEmpty()
    ensures FinalAnswer(Fence) == ""
  {
    StripUnchanged(Fence);
    SplitWithoutSeparator(Fence, '\n');
  }
}
