/**
 * The transcript formatter: renders the conversation's items as plain text,
 * one "User: …" / "Assistant: …" line per dialogue item, and names the file
 * the transcript is saved under from a session label and the clock reading.
 * Both are pure functions: the same inputs always give the same output.
 */
module TranscriptFormatter {
  import opened Wrappers
  import opened Text

  /** The role of a transcript item; any role string other than the three known ones is `OtherRole`. */
  datatype Role = User | Assistant | Breadcrumb | OtherRole(name: string)

  /** The fields of a transcript item the formatter reads; an absent text is `None`. */
  datatype TranscriptItem = TranscriptItem(role: Role, text: Option<string>)

  /** User and assistant messages are dialogue; breadcrumbs and unknown roles are not. */
  predicate IsDialogue(item: TranscriptItem) {
    item.role.User? || item.role.Assistant?
  }

  /** The line prefix of a dialogue role. */
  function Label(role: Role): string
    requires role.User? || role.Assistant?
  {
    if role.User? then "User:" else "Assistant:"
  }

  /** The map callback: the line an item becomes, or `None` (the source's `null`) when it is left out. */
  function LineOf(item: TranscriptItem): Option<string>
  {
    match item.role
    case User => Some(Label(User) + " " + Trim(item.text.GetOr("")))
    case Assistant => Some(Label(Assistant) + " " + Trim(item.text.GetOr("")))
    case Breadcrumb => None
    case OtherRole(_) => None
  }

  /** `items.map(LineOf).filter(line => line !== null)`. */
  function Lines(items: seq<TranscriptItem>): seq<string>
  {
    if items == [] then []
    else
      var last := LineOf(items[|items| - 1]);
      Lines(items[..|items| - 1]) + (if last.Some? then [last.value] else [])
  }

  /** `formatTranscriptAsPlainText`: an absent or empty list gives "", otherwise the lines joined by "\n". */
  function FormatTranscriptAsPlainText(items: Option<seq<TranscriptItem>>): (r: string)
    ensures r == "" <==> items.None? || Dialogue(items.value) == []
  {
    if items.None? || |items.value| == 0 then ""
    else
      LinesAreRenderedDialogue(items.value);
      LinesNonEmpty(items.value);
      JoinEmptyIff(Lines(items.value), '\n');
      Join(Lines(items.value), '\n')
  }

  /** No line is empty: each starts with its label. */
  lemma LinesNonEmpty(items: seq<TranscriptItem>)
    ensures forall k :: 0 <= k < |Lines(items)| ==> Lines(items)[k] != ""
  {
    LinesAreRenderedDialogue(items);
    forall k | 0 <= k < |Lines(items)| ensures Lines(items)[k] != "" {
      var item := Dialogue(items)[k];
      assert |Render(item)| >= |Label(item.role)| > 0;
    }
  }

  // ---------------------------------------------------------------------------
  // An independent description of the lines: keep the dialogue items, then
  // render each one.

  /** The dialogue items, in input order. */
  function Dialogue(items: seq<TranscriptItem>): (d: seq<TranscriptItem>)
    ensures |d| <= |items|
    ensures forall k :: 0 <= k < |d| ==> IsDialogue(d[k])
  {
    if items == [] then []
    else
      var last := items[|items| - 1];
      Dialogue(items[..|items| - 1]) + (if IsDialogue(last) then [last] else [])
  }

  /** How a dialogue item reads in the transcript: its label, one space, its trimmed text. */
  function Render(item: TranscriptItem): string
    requires IsDialogue(item)
  {
    Label(item.role) + " " + Trim(item.text.GetOr(""))
  }

  /**
   * The formatter's lines are exactly the dialogue items rendered one by one:
   * as many lines as user/assistant items, each `Render` of the matching item.
   */
  lemma {:induction false} LinesAreRenderedDialogue(items: seq<TranscriptItem>)
    ensures |Lines(items)| == |Dialogue(items)|
    ensures forall k :: 0 <= k < |Lines(items)| ==> Lines(items)[k] == Render(Dialogue(items)[k])
  {
    if items != [] {
      var last := items[|items| - 1];
      LineOfRenders(last);
      LinesAreRenderedDialogue(items[..|items| - 1]);
    }
  }

  /** The map callback keeps exactly the dialogue items, and renders each of them. */
  lemma LineOfRenders(item: TranscriptItem)
    ensures LineOf(item).Some? <==> IsDialogue(item)
    ensures IsDialogue(item) ==> LineOf(item).value == Render(item)
  {
  }

  /** Formatting keeps input order: the lines of two lists are the lines of each, one after the other. */
  lemma {:induction false} LinesOfConcat(a: seq<TranscriptItem>, b: seq<TranscriptItem>)
    ensures Lines(a + b) == Lines(a) + Lines(b)
  {
    if b != [] {
      assert (a + b)[..|a + b| - 1] == a + b[..|b| - 1];
      assert (a + b)[|a + b| - 1] == b[|b| - 1];
      LinesOfConcat(a, b[..|b| - 1]);
    } else {
      assert a + b == a;
    }
  }

  /** Every line begins with "User: " or "Assistant: ". */
  lemma LinesArePrefixed(items: seq<TranscriptItem>, k: nat)
    requires k < |Lines(items)|
    ensures var line := Lines(items)[k];
      || (|line| >= 6 && line[..6] == "User: ")
      || (|line| >= 11 && line[..11] == "Assistant: ")
  {
    LinesAreRenderedDialogue(items);
  }

  /** A list without any user or assistant item formats to the empty string. */
  lemma NoDialogueFormatsEmpty(items: seq<TranscriptItem>)
    requires forall k :: 0 <= k < |items| ==> !IsDialogue(items[k])
    ensures FormatTranscriptAsPlainText(Some(items)) == ""
  {
    DialogueEmpty(items);
    LinesAreRenderedDialogue(items);
  }

  lemma {:induction false} DialogueEmpty(items: seq<TranscriptItem>)
    requires forall k :: 0 <= k < |items| ==> !IsDialogue(items[k])
    ensures Dialogue(items) == []
  {
    if items != [] {
      DialogueEmpty(items[..|items| - 1]);
    }
  }

  /**
   * The text splits back into its lines at "\n" when there is at least one
   * dialogue item and no trimmed message text contains a line break: the
   * lines are separated by exactly one "\n".
   */
  lemma FormatSplitsIntoLines(items: seq<TranscriptItem>)
    requires |Dialogue(items)| >= 1
    requires forall k :: 0 <= k < |items| ==> '\n' !in Trim(items[k].text.GetOr(""))
    ensures Split(FormatTranscriptAsPlainText(Some(items)), '\n') == Lines(items)
  {
    var lines := Lines(items);
    LinesAreRenderedDialogue(items);
    forall k | 0 <= k < |lines| ensures '\n' !in lines[k] {
      DialogueTextsFromItems(items, k);
      var j :| 0 <= j < |items| && items[j] == Dialogue(items)[k];
      RenderHasNoBreak(items[j]);
    }
    assert FormatTranscriptAsPlainText(Some(items)) == Join(lines, '\n');
    SplitJoin(lines, '\n');
  }

  lemma RenderHasNoBreak(item: TranscriptItem)
    requires IsDialogue(item)
    requires '\n' !in Trim(item.text.GetOr(""))
    ensures '\n' !in Render(item)
  {
    var t := Trim(item.text.GetOr(""));
    assert Render(item) == Label(item.role) + " " + t;
    assert '\n' !in Label(item.role) + " ";
  }

  /** Each dialogue item's text is the text of some input item. */
  lemma {:induction false} DialogueTextsFromItems(items: seq<TranscriptItem>, k: nat)
    requires k < |Dialogue(items)|
    ensures exists j :: 0 <= j < |items| && items[j] == Dialogue(items)[k]
  {
    var front := items[..|items| - 1];
    if k < |Dialogue(front)| {
      DialogueTextsFromItems(front, k);
      var j :| 0 <= j < |front| && front[j] == Dialogue(front)[k];
      assert items[j] == front[j];
    } else {
      assert Dialogue(items)[k] == items[|items| - 1];
    }
  }

  // ---------------------------------------------------------------------------
  // File names

  /** `:` and `.` become `-`; every other character is kept. */
  function SanitizeChar(c: char): char {
    if c == ':' || c == '.' then '-' else c
  }

  /** `iso.replace(/[:.]/g, "-")`. */
  function SanitizeTimestamp(iso: string): (r: string)
    ensures |r| == |iso|
    ensures forall i :: 0 <= i < |iso| ==> r[i] == (if iso[i] == ':' || iso[i] == '.' then '-' else iso[i])
    ensures ':' !in r && '.' !in r
  {
    if iso == [] then []
    else SanitizeTimestamp(iso[..|iso| - 1]) + [SanitizeChar(iso[|iso| - 1])]
  }

  /** The session label the name carries: a present, non-empty id (JavaScript truthiness). */
  function SessionLabel(sessionId: Option<string>): Option<string>
  {
    if sessionId.Some? && sessionId.value != "" then sessionId else None
  }

  /**
   * `generateTranscriptFilename(sessionId)` at the clock reading whose ISO text is `isoNow`:
   * "transcript_<session>_<ts>.txt" with a session, "transcript_<ts>.txt" without.
   */
  function GenerateTranscriptFilename(sessionId: Option<string>, isoNow: string): string
  {
    var ts := SanitizeTimestamp(isoNow);
    var session := SessionLabel(sessionId);
    if session.Some? then "transcript_" + session.value + "_" + ts + ".txt"
    else "transcript_" + ts + ".txt"
  }

  /**
   * The name starts with "transcript_", then the session id and "_" when one
   * is given, and ends with the sanitised timestamp and ".txt".
   */
  lemma FilenameShape(sessionId: Option<string>, isoNow: string)
    ensures var name := GenerateTranscriptFilename(sessionId, isoNow);
      var ts := SanitizeTimestamp(isoNow);
      var n := |name|;
      && n >= 11 + |ts| + 4
      && name[..11] == "transcript_"
      && name[n - 4..] == ".txt"
      && name[n - 4 - |ts|..n - 4] == ts
      && (SessionLabel(sessionId).Some? ==>
            var id := SessionLabel(sessionId).value;
            n == 11 + |id| + 1 + |ts| + 4 && name[11..11 + |id|] == id && name[11 + |id|] == '_')
      && (SessionLabel(sessionId).None? ==> n == 11 + |ts| + 4)
  {
    var ts := SanitizeTimestamp(isoNow);
    var session := SessionLabel(sessionId);
    if session.Some? {
      var id := session.value;
      var head := "transcript_" + id + "_";
      var name := head + ts + ".txt";
      assert GenerateTranscriptFilename(sessionId, isoNow) == name;
      assert name[..11] == head[..11] == "transcript_";
      assert name[11..11 + |id|] == head[11..11 + |id|] == id;
      assert name[11 + |id|] == head[11 + |id|] == '_';
      assert name[|name| - 4..] == ".txt";
      assert name[|name| - 4 - |ts|..|name| - 4] == ts;
    } else {
      var name := "transcript_" + ts + ".txt";
      assert GenerateTranscriptFilename(sessionId, isoNow) == name;
      assert name[..11] == "transcript_";
      assert name[|name| - 4..] == ".txt";
      assert name[|name| - 4 - |ts|..|name| - 4] == ts;
    }
  }

  /**
   * At one clock reading the file name determines the session label: two
   * calls give the same name only with the same label (and a missing or empty
   * id never collides with a given one).
   */
  lemma FilenameDeterminesSession(a: Option<string>, b: Option<string>, isoNow: string)
    requires GenerateTranscriptFilename(a, isoNow) == GenerateTranscriptFilename(b, isoNow)
    ensures SessionLabel(a) == SessionLabel(b)
  {
    var name := GenerateTranscriptFilename(a, isoNow);
    FilenameShape(a, isoNow);
    FilenameShape(b, isoNow);
    if SessionLabel(a).Some? && SessionLabel(b).Some? {
      var x, y := SessionLabel(a).value, SessionLabel(b).value;
      assert |x| == |y|;
      assert x == name[11..11 + |x|] == y;
    }
  }

  /** Sanitising an already sanitised timestamp changes nothing. */
  lemma SanitizeIdempotent(iso: string)
    ensures SanitizeTimestamp(SanitizeTimestamp(iso)) == SanitizeTimestamp(iso)
  {
    var once := SanitizeTimestamp(iso);
    var twice := SanitizeTimestamp(once);
    assert forall i :: 0 <= i < |once| ==> twice[i] == once[i];
  }
}
