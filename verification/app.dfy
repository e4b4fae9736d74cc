/**
 * The pure helpers of the root component: the instructions sent at
 * connect time, the label of the state badge, the per-message mappings of
 * the three transcript exports and the zero padding of the file stamp.
 * Clocks and locale formatting are parameters (`iso`, `time`).
 */
module App {
  import opened Wrappers
  import opened Text
  import opened Transcript
  import opened Protocol

  /** The fallback instructions; the first and last pieces are split off so their characters can be read. */
  const DefaultPrompt := "You" + " are a helpful assistant. Respond in a natural, human-like" + " tone."
  const ResumeHeader := "\n\nRESUME:\n"

  /** The prompt part of `buildPrompt`: the trimmed system prompt, or the default when it is blank. */
  function PromptPart(systemPrompt: string): string {
    Or(Some(Trim(systemPrompt)), DefaultPrompt)
  }

  /** `buildPrompt`: the prompt, followed by the trimmed resume under a header when there is one. */
  function BuildPrompt(systemPrompt: string, resumeText: string): string {
    var prompt := PromptPart(systemPrompt);
    if Trim(resumeText) == "" then prompt else prompt + ResumeHeader + Trim(resumeText)
  }

  /** The prompt part never starts or ends with white space, so it is never blank. */
  lemma PromptPartUnpadded(systemPrompt: string)
    ensures var p := PromptPart(systemPrompt);
            p != [] && !IsJsSpace(p[0]) && !IsJsSpace(p[|p| - 1])
    ensures Trim(systemPrompt) != "" ==> PromptPart(systemPrompt) == Trim(systemPrompt)
    ensures Trim(systemPrompt) == "" ==> PromptPart(systemPrompt) == DefaultPrompt
  {
    TrimShape(systemPrompt);
    if Trim(systemPrompt) == "" {
      var d := DefaultPrompt;
      assert d[0] == 'Y';
      assert d[|d| - 1] == '.';
    }
  }

  /**
   * The built instructions always start with the prompt part, equal it
   * exactly when the resume is blank, and otherwise continue with the
   * header and the trimmed resume.
   */
  lemma BuildPromptShape(systemPrompt: string, resumeText: string)
    ensures var p := PromptPart(systemPrompt);
            var r := BuildPrompt(systemPrompt, resumeText);
            StartsWith(r, p)
            && (r == p <==> Trim(resumeText) == "")
            && (Trim(resumeText) != "" ==> r[|p|..] == ResumeHeader + Trim(resumeText))
  {
    var p := PromptPart(systemPrompt);
    var r := BuildPrompt(systemPrompt, resumeText);
    if Trim(resumeText) == "" {
      assert r[..|p|] == p;
    } else {
      assert r == p + (ResumeHeader + Trim(resumeText));
      assert r[..|p|] == p;
      assert |r| > |p|;
    }
  }

  /** The built instructions are never blank and are their own trim. */
  lemma {:induction false} BuildPromptIsTrimmed(systemPrompt: string, resumeText: string)
    ensures Trim(BuildPrompt(systemPrompt, resumeText)) == BuildPrompt(systemPrompt, resumeText)
    ensures Trim(BuildPrompt(systemPrompt, resumeText)) != ""
  {
    var p := PromptPart(systemPrompt);
    var r := BuildPrompt(systemPrompt, resumeText);
    PromptPartUnpadded(systemPrompt);
    if Trim(resumeText) != "" {
      var t := Trim(resumeText);
      TrimShape(resumeText);
      assert r == p + ResumeHeader + t;
      assert r[0] == p[0];
      assert r[|r| - 1] == t[|t| - 1];
    }
    TrimOfUnpadded(r);
  }

  /** Building from the built instructions with no resume gives them back unchanged. */
  lemma BuildPromptStable(systemPrompt: string, resumeText: string)
    ensures BuildPrompt(BuildPrompt(systemPrompt, resumeText), "") == BuildPrompt(systemPrompt, resumeText)
  {
    var r := BuildPrompt(systemPrompt, resumeText);
    BuildPromptIsTrimmed(systemPrompt, resumeText);
    assert TrimStart("") == "";
    assert Trim("") == "";
  }

  /** `stateLabel(s)`: `None` stands for `null` and `undefined`. */
  function StateLabel(s: Option<string>): string {
    if s == Some("connecting") then "Connecting..."
    else if s == Some("listening") then "Listening"
    else if s == Some("thinking") then "Thinking..."
    else if s == Some("responding") then "Responding..."
    else if s == Some("reconnecting") then "Reconnecting..."
    else if s == Some("error") then "Error"
    else if s == Some("disconnected") then "Disconnected"
    else "Idle"
  }

  /**
   * The badge shows `Idle` exactly for `idle` and for what is not a state
   * name, and different labels for any two other states.
   */
  lemma StateLabelOfState(a: RtState, b: RtState)
    ensures StateLabel(Some(StateName(a))) == "Idle" <==> a == Idle
    ensures a != Idle && b != Idle ==>
              (StateLabel(Some(StateName(a))) == StateLabel(Some(StateName(b))) <==> a == b)
  {
  }

  /** Anything that is not one of the seven other state names, `null` included, reads `Idle`. */
  lemma StateLabelDefault(s: Option<string>)
    ensures StateLabel(s) == "Idle" <==>
            (s.None? || s.value !in {"connecting", "listening", "thinking", "responding", "reconnecting", "error", "disconnected"})
  {
  }

  /** The speaker shown in the text exports. */
  function Who(r: Role): string {
    if r == User then "You" else "Assistant"
  }

  /** The role as it appears in the JSON export. */
  function RoleName(r: Role): string {
    if r == User then "user" else "assistant"
  }

  /** One record of the JSON export; `iso` renders a timestamp. */
  datatype ExportedMsg = ExportedMsg(ts: int, iso: string, role: string, text: string)

  function ExportRecord(m: ChatMsg, iso: int -> string): ExportedMsg {
    ExportedMsg(m.ts, iso(m.ts), RoleName(m.role), StripDraft(m.text))
  }

  /** The records `exportJson` serialises, one per message, in order. */
  function ExportJson(msgs: seq<ChatMsg>, iso: int -> string): (r: seq<ExportedMsg>)
    ensures |r| == |msgs|
    ensures forall i :: 0 <= i < |msgs| ==> r[i] == ExportRecord(msgs[i], iso)
  {
    if msgs == [] then [] else ExportJson(msgs[..|msgs| - 1], iso) + [ExportRecord(msgs[|msgs| - 1], iso)]
  }

  /**
   * The exported text drops one draft marker: a message that was not a
   * draft is exported as it is, and an export still starts with the marker
   * only when the message began with two.
   */
  lemma ExportedTextOfMessage(m: ChatMsg, iso: int -> string)
    ensures !StartsWith(m.text, DraftTag) ==> ExportRecord(m, iso).text == m.text
    ensures StartsWith(m.text, DraftTag) ==> DraftTag + ExportRecord(m, iso).text == m.text
    ensures StartsWith(ExportRecord(m, iso).text, DraftTag) <==> StartsWith(m.text, DraftTag + DraftTag)
  {
    StripDraftKeepsMarkerIff(m.text);
  }

  /** `parts.join(sep)`. */
  function Join(parts: seq<string>, sep: string): string {
    if parts == [] then ""
    else if |parts| == 1 then parts[0]
    else Join(parts[..|parts| - 1], sep) + sep + parts[|parts| - 1]
  }

  /** One entry of `exportTxt`; `time` renders a timestamp in the local format. */
  function TxtEntry(m: ChatMsg, time: int -> string): string {
    "[" + time(m.ts) + "] " + Who(m.role) + ":\n" + StripDraft(m.text) + "\n"
  }

  function TxtEntries(msgs: seq<ChatMsg>, time: int -> string): (r: seq<string>)
    ensures |r| == |msgs|
    ensures forall i :: 0 <= i < |msgs| ==> r[i] == TxtEntry(msgs[i], time)
  {
    if msgs == [] then [] else TxtEntries(msgs[..|msgs| - 1], time) + [TxtEntry(msgs[|msgs| - 1], time)]
  }

  /** The text file `exportTxt` writes: the entries joined by blank lines. */
  function ExportTxt(msgs: seq<ChatMsg>, time: int -> string): string {
    Join(TxtEntries(msgs, time), "\n")
  }

  /** One line of `copyTranscript`. */
  function CopyLine(m: ChatMsg): string {
    Who(m.role) + ": " + StripDraft(m.text)
  }

  function CopyLines(msgs: seq<ChatMsg>): (r: seq<string>)
    ensures |r| == |msgs|
    ensures forall i :: 0 <= i < |msgs| ==> r[i] == CopyLine(msgs[i])
  {
    if msgs == [] then [] else CopyLines(msgs[..|msgs| - 1]) + [CopyLine(msgs[|msgs| - 1])]
  }

  /** The text `copyTranscript` puts on the clipboard. */
  function CopyTranscript(msgs: seq<ChatMsg>): string {
    Join(CopyLines(msgs), "\n\n")
  }

  /** Joining one more part adds the separator and the part at the end, and nothing else. */
  lemma JoinSnoc(parts: seq<string>, p: string, sep: string)
    ensures Join(parts + [p], sep) == if parts == [] then p else Join(parts, sep) + sep + p
  {
    assert (parts + [p])[..|parts|] == parts;
  }

  /**
   * The clipboard text grows message by message: each new message adds a
   * blank line and its own line at the end, so the lines appear in order.
   */
  lemma CopyTranscriptSnoc(msgs: seq<ChatMsg>, m: ChatMsg)
    ensures CopyTranscript(msgs + [m]) ==
            if msgs == [] then CopyLine(m) else CopyTranscript(msgs) + "\n\n" + CopyLine(m)
  {
    assert CopyLines(msgs + [m]) == CopyLines(msgs) + [CopyLine(m)];
    JoinSnoc(CopyLines(msgs), CopyLine(m), "\n\n");
  }

  /** The text export grows the same way, with one empty line between entries. */
  lemma ExportTxtSnoc(msgs: seq<ChatMsg>, m: ChatMsg, time: int -> string)
    ensures ExportTxt(msgs + [m], time) ==
            if msgs == [] then TxtEntry(m, time) else ExportTxt(msgs, time) + "\n" + TxtEntry(m, time)
  {
    assert TxtEntries(msgs + [m], time) == TxtEntries(msgs, time) + [TxtEntry(m, time)];
    JoinSnoc(TxtEntries(msgs, time), TxtEntry(m, time), "\n");
  }

  /** `s.padStart(len, c)` for a one-character pad string. */
  function PadStart(s: string, len: nat, c: char): string
    decreases len - |s|
  {
    if |s| >= len then s else PadStart([c] + s, len, c)
  }

  /** `pad(n)`: the decimal digits of `n`, at least two of them. */
  function Pad(n: nat): string {
    PadStart(NatToString(n), 2, '0')
  }

  /**
   * `pad(n)` has two digits below 100 and the digits of `String(n)` from
   * there, adds a zero only in front of a single digit, and always reads
   * back as `n`.
   */
  lemma PadShape(n: nat)
    ensures IsDigits(Pad(n)) && DecimalValue(Pad(n)) == n
    ensures n < 10 ==> Pad(n) == ['0'] + NatToString(n)
    ensures n >= 10 ==> Pad(n) == NatToString(n)
    ensures n < 100 <==> |Pad(n)| == 2
  {
    var s := NatToString(n);
    NatToStringShape(n);
    DecimalRoundTrip(n);
    if n < 10 {
      assert PadStart(['0'] + s, 2, '0') == ['0'] + s;
      LeadingZero(s);
    } else {
      NatToStringShape(n / 10);
      assert n < 100 <==> |s| == 2;
    }
  }

  /**
   * `fileStamp()` for the given calendar fields: `month0` counts from 0,
   * as `getMonth()` does. The result has the form `YYYY-MM-DD_hhmmss`.
   */
  function FileStamp(year: nat, month0: nat, day: nat, hours: nat, minutes: nat, seconds: nat): string {
    NatToString(year) + StampTail(Pad(month0 + 1), Pad(day), Pad(hours), Pad(minutes), Pad(seconds))
  }

  /** For in-range fields every field sits at a fixed offset after the year and reads back. */
  lemma FileStampFields(year: nat, month0: nat, day: nat, hours: nat, minutes: nat, seconds: nat)
    requires month0 < 12 && 1 <= day <= 31 && hours < 24 && minutes < 60 && seconds < 60
    ensures var y := NatToString(year);
            var r := FileStamp(year, month0, day, hours, minutes, seconds);
            var k := |y|;
            |r| == k + 13
            && r[..k] == y && r[k] == '-' && r[k + 3] == '-' && r[k + 6] == '_'
            && r[k + 1..k + 3] == Pad(month0 + 1) && r[k + 4..k + 6] == Pad(day)
            && r[k + 7..k + 9] == Pad(hours) && r[k + 9..k + 11] == Pad(minutes) && r[k + 11..] == Pad(seconds)
  {
    PadLength(month0 + 1);
    PadLength(day);
    PadLength(hours);
    PadLength(minutes);
    PadLength(seconds);
    StampFields(NatToString(year), Pad(month0 + 1), Pad(day), Pad(hours), Pad(minutes), Pad(seconds));
  }

  /** Any year followed by five two-character fields has them at fixed offsets. */
  lemma StampFields(y: string, mo: string, d: string, h: string, mi: string, s: string)
    requires |mo| == 2 && |d| == 2 && |h| == 2 && |mi| == 2 && |s| == 2
    ensures var r := y + StampTail(mo, d, h, mi, s);
            var k := |y|;
            |r| == k + 13
            && r[..k] == y && r[k] == '-' && r[k + 3] == '-' && r[k + 6] == '_'
            && r[k + 1..k + 3] == mo && r[k + 4..k + 6] == d
            && r[k + 7..k + 9] == h && r[k + 9..k + 11] == mi && r[k + 11..] == s
  {
    var t := StampTail(mo, d, h, mi, s);
    StampTailFields(mo, d, h, mi, s);
    assert (y + t)[..|y|] == y;
    SliceOfConcat(y, t, 0, 1);
    SliceOfConcat(y, t, 3, 4);
    SliceOfConcat(y, t, 6, 7);
    SliceOfConcat(y, t, 1, 3);
    SliceOfConcat(y, t, 4, 6);
    SliceOfConcat(y, t, 7, 9);
    SliceOfConcat(y, t, 9, 11);
    SliceOfConcat(y, t, 11, 13);
    assert t[11..13] == t[11..];
  }

  /** A two-digit field stays two characters long. */
  lemma PadLength(n: nat)
    requires n < 100
    ensures |Pad(n)| == 2
  {
    PadShape(n);
  }

  lemma SliceOfConcat(a: string, b: string, i: nat, j: nat)
    requires i <= j <= |b|
    ensures (a + b)[|a| + i..|a| + j] == b[i..j]
    ensures i < |b| ==> (a + b)[|a| + i] == b[i]
  {
  }

  /** The part of the stamp after the year. */
  function StampTail(mo: string, d: string, h: string, mi: string, s: string): string {
    "-" + mo + "-" + d + "_" + h + mi + s
  }

  lemma StampTailFields(mo: string, d: string, h: string, mi: string, s: string)
    requires |mo| == 2 && |d| == 2 && |h| == 2 && |mi| == 2 && |s| == 2
    ensures var t := StampTail(mo, d, h, mi, s);
            |t| == 13 && t[0] == '-' && t[3] == '-' && t[6] == '_'
            && t[1..3] == mo && t[4..6] == d && t[7..9] == h && t[9..11] == mi && t[11..] == s
  {
    var t := StampTail(mo, d, h, mi, s);
    assert t == ("-" + mo) + ("-" + d) + ("_" + h) + (mi + s);
  }
}
