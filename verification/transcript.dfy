/**
 * The conversation transcript: a list of chat messages in which a draft is
 * not a separate field but a message whose text starts with the marker
 * `[draft]`. The three list edits of the service (`upsertDraft`,
 * `finalizeDraft`, `markAssistantInterrupted`) are written here as functions
 * of the old list; the service's methods are proved to compute them.
 */
module Transcript {
  import opened Text

  datatype Role = User | Assistant

  /** A chat message; `ts` is the epoch time in milliseconds. */
  datatype ChatMsg = ChatMsg(role: Role, text: string, ts: int)

  const DraftTag := "[draft]"

  const InterruptedNote := "(interrupted)"

  predicate IsDraft(m: ChatMsg) {
    StartsWith(m.text, DraftTag)
  }

  /** The test both edits start with: the last message is a draft of `role`. */
  predicate EndsWithDraft(msgs: seq<ChatMsg>, role: Role) {
    |msgs| > 0 && msgs[|msgs| - 1].role == role && IsDraft(msgs[|msgs| - 1])
  }

  /** `text.replace(/^\[draft\]/, '')`: removes one leading marker, if present. */
  function StripDraft(t: string): (r: string)
    ensures StartsWith(t, DraftTag) ==> DraftTag + r == t
    ensures !StartsWith(t, DraftTag) ==> r == t
  {
    if StartsWith(t, DraftTag) then t[|DraftTag|..] else t
  }

  /** Stripping leaves a marker in front exactly when the text began with two. */
  lemma StripDraftKeepsMarkerIff(t: string)
    ensures StartsWith(StripDraft(t), DraftTag) <==> StartsWith(t, DraftTag + DraftTag)
  {
    var n := |DraftTag|;
    if StartsWith(t, DraftTag) {
      var rest := t[n..];
      if |t| >= 2 * n {
        assert t[..2 * n] == t[..n] + rest[..n];
      }
    } else if |t| >= 2 * n {
      assert t[..2 * n][..n] == t[..n];
    }
  }

  /** The marker followed by a text always strips back to that text. */
  lemma StripDraftOfTagged(text: string)
    ensures StartsWith(DraftTag + text, DraftTag)
    ensures StripDraft(DraftTag + text) == text
  {
    assert (DraftTag + text)[..|DraftTag|] == DraftTag;
  }

  /**
   * `upsertDraft(role, text)`: a trailing draft of the same role is
   * overwritten in place and keeps its timestamp; otherwise a new draft,
   * stamped `now`, is appended. No earlier message is touched.
   */
  function Upserted(msgs: seq<ChatMsg>, role: Role, text: string, now: int): seq<ChatMsg> {
    if EndsWithDraft(msgs, role) then
      var last := msgs[|msgs| - 1];
      msgs[|msgs| - 1 := last.(text := DraftTag + text)]
    else
      msgs + [ChatMsg(role, DraftTag + text, now)]
  }

  /**
   * The upsert rule: the list grows only when there is no trailing draft of
   * the role; earlier messages are kept; the last one is a draft of the role
   * that strips back to `text`, stamped `now` only when it is new.
   */
  lemma UpsertedShape(msgs: seq<ChatMsg>, role: Role, text: string, now: int)
    ensures var r := Upserted(msgs, role, text, now);
            && |r| == (if EndsWithDraft(msgs, role) then |msgs| else |msgs| + 1)
            && (forall i :: 0 <= i < |r| - 1 ==> r[i] == msgs[i])
            && r[|r| - 1].role == role && IsDraft(r[|r| - 1])
            && StripDraft(r[|r| - 1].text) == text
            && r[|r| - 1].ts == (if EndsWithDraft(msgs, role) then msgs[|msgs| - 1].ts else now)
  {
    StripDraftOfTagged(text);
  }

  /**
   * `finalizeDraft(role, finalText)`: the same position rule as `Upserted`,
   * but the text is stored as given, without the marker.
   */
  function Finalized(msgs: seq<ChatMsg>, role: Role, finalText: string, now: int): seq<ChatMsg> {
    if EndsWithDraft(msgs, role) then
      var last := msgs[|msgs| - 1];
      msgs[|msgs| - 1 := last.(text := finalText)]
    else
      msgs + [ChatMsg(role, finalText, now)]
  }

  /** The finalize rule: as for `Upserted`, with the text stored verbatim. */
  lemma FinalizedShape(msgs: seq<ChatMsg>, role: Role, finalText: string, now: int)
    ensures var r := Finalized(msgs, role, finalText, now);
            && |r| == (if EndsWithDraft(msgs, role) then |msgs| else |msgs| + 1)
            && (forall i :: 0 <= i < |r| - 1 ==> r[i] == msgs[i])
            && r[|r| - 1].role == role && r[|r| - 1].text == finalText
            && r[|r| - 1].ts == (if EndsWithDraft(msgs, role) then msgs[|msgs| - 1].ts else now)
  {
  }

  /** Upserting over a trailing draft of the role rewrites its text and keeps its timestamp. */
  lemma UpsertedOverDraft(prefix: seq<ChatMsg>, role: Role, oldText: string, ts: int, text: string, now: int)
    ensures Upserted(prefix + [ChatMsg(role, DraftTag + oldText, ts)], role, text, now)
            == prefix + [ChatMsg(role, DraftTag + text, ts)]
  {
    StripDraftOfTagged(oldText);
  }

  /** Without a trailing draft of the role, upserting appends a new draft stamped `now`. */
  lemma UpsertedAppends(msgs: seq<ChatMsg>, role: Role, text: string, now: int)
    requires !EndsWithDraft(msgs, role)
    ensures Upserted(msgs, role, text, now) == msgs + [ChatMsg(role, DraftTag + text, now)]
  {
  }

  /** Finalizing over a trailing draft of the role stores the text and keeps the timestamp. */
  lemma FinalizedOverDraft(prefix: seq<ChatMsg>, role: Role, oldText: string, ts: int, finalText: string, now: int)
    ensures Finalized(prefix + [ChatMsg(role, DraftTag + oldText, ts)], role, finalText, now)
            == prefix + [ChatMsg(role, finalText, ts)]
  {
    StripDraftOfTagged(oldText);
  }

  /** Upserting the empty text leaves a trailing user entry that is exactly the marker. */
  lemma EmptyUserDraft(msgs: seq<ChatMsg>, now: int)
    ensures var r := Upserted(msgs, User, "", now);
            r != [] && r[|r| - 1].role == User && r[|r| - 1].text == DraftTag
  {
    assert DraftTag + "" == DraftTag;
  }

  /**
   * A user turn from a transcript without a trailing user draft: two deltas
   * accumulate into one draft and the completion turns it into one entry,
   * stamped at the first delta, with everything before it untouched.
   */
  lemma UserTurnAddsOneEntry(msgs: seq<ChatMsg>, a: string, b: string, final: string, t1: int, t2: int, t3: int)
    requires !EndsWithDraft(msgs, User)
    ensures Finalized(Upserted(Upserted(msgs, User, a, t1), User, a + b, t2), User, final, t3)
            == msgs + [ChatMsg(User, final, t1)]
  {
    UpsertedAppends(msgs, User, a, t1);
    UpsertedOverDraft(msgs, User, a, t1, a + b, t2);
    FinalizedOverDraft(msgs, User, a + b, t1, final, t3);
  }

  /**
   * A whole user turn as the service runs it: speech start upserts an empty
   * user draft, two deltas extend it, the completion finalizes it. The turn
   * leaves one user entry, stamped when the draft was first made: at speech
   * start, or earlier when an unfinished user draft was already there, in
   * which case that draft is what the entry replaces.
   */
  lemma UserTurnFromSpeechStart(msgs: seq<ChatMsg>, a: string, b: string, final: string, t0: int, t1: int, t2: int, t3: int)
    ensures var pending := EndsWithDraft(msgs, User);
            var base := if pending then msgs[..|msgs| - 1] else msgs;
            var ts := if pending then msgs[|msgs| - 1].ts else t0;
            Finalized(Upserted(Upserted(Upserted(msgs, User, "", t0), User, a, t1), User, a + b, t2), User, final, t3)
            == base + [ChatMsg(User, final, ts)]
  {
    var pending := EndsWithDraft(msgs, User);
    var base := if pending then msgs[..|msgs| - 1] else msgs;
    var ts := if pending then msgs[|msgs| - 1].ts else t0;
    assert DraftTag + "" == DraftTag;
    assert Upserted(msgs, User, "", t0) == base + [ChatMsg(User, DraftTag + "", ts)];
    UpsertedOverDraft(base, User, "", ts, a, t1);
    UpsertedOverDraft(base, User, a, ts, a + b, t2);
    FinalizedOverDraft(base, User, a + b, ts, final, t3);
  }

  /**
   * Barge-in over an assistant draft: the user's speech start appends a user
   * draft after it, the interruption mark then finds a user message last and
   * rewrites nothing, and once the user entry is final the next response
   * starts a second assistant draft. The first one stays a draft for good,
   * two entries before the live one.
   */
  lemma BargeInLeavesStaleDraft(prefix: seq<ChatMsg>, x: string, ts: int, said: string, y: string, t1: int, t2: int, t3: int, t4: int)
    ensures var msgs := prefix + [ChatMsg(Assistant, DraftTag + x, ts)];
            var r := Upserted(Finalized(Interrupted(Upserted(msgs, User, "", t1), t2), User, said, t3), Assistant, y, t4);
            && r == msgs + [ChatMsg(User, said, t1), ChatMsg(Assistant, DraftTag + y, t4)]
            && IsDraft(r[|r| - 3]) && IsDraft(r[|r| - 1]) && r[|r| - 3].role == r[|r| - 1].role == Assistant
  {
    var msgs := prefix + [ChatMsg(Assistant, DraftTag + x, ts)];
    var u := msgs + [ChatMsg(User, DraftTag + "", t1)];
    assert Upserted(msgs, User, "", t1) == u;
    InterruptAfterUserDraftIsNoop(msgs, "", t1, t2);
    FinalizedOverDraft(msgs, User, "", t1, said, t3);
    var f := msgs + [ChatMsg(User, said, t1)];
    UpsertedAppends(f, Assistant, y, t4);
    StripDraftOfTagged(x);
    StripDraftOfTagged(y);
  }

  /** The text an interrupted assistant draft is finalized with. */
  function InterruptedText(draftText: string): string {
    var t := Trim(StripDraft(draftText));
    if t != "" then t + " " + InterruptedNote else InterruptedNote
  }

  /**
   * `markAssistantInterrupted()`: only a trailing assistant draft is
   * rewritten (with a fresh timestamp); any other list is left as it is.
   */
  function Interrupted(msgs: seq<ChatMsg>, now: int): seq<ChatMsg> {
    if EndsWithDraft(msgs, Assistant) then
      msgs[|msgs| - 1 := ChatMsg(Assistant, InterruptedText(msgs[|msgs| - 1].text), now)]
    else
      msgs
  }

  /** Only a trailing assistant draft is rewritten, in place; everything else is kept. */
  lemma InterruptedShape(msgs: seq<ChatMsg>, now: int)
    ensures var r := Interrupted(msgs, now);
            && |r| == |msgs|
            && (!EndsWithDraft(msgs, Assistant) ==> r == msgs)
            && (EndsWithDraft(msgs, Assistant) ==>
                  r[..|r| - 1] == msgs[..|msgs| - 1] &&
                  r[|r| - 1] == ChatMsg(Assistant, InterruptedText(msgs[|msgs| - 1].text), now))
  {
  }

  /** The interrupted text always ends with the note; an empty draft gives the note alone. */
  lemma InterruptedTextEndsWithNote(draftText: string)
    ensures var r := InterruptedText(draftText);
            |r| >= |InterruptedNote| && r[|r| - |InterruptedNote|..] == InterruptedNote
    ensures Trim(StripDraft(draftText)) == "" ==> InterruptedText(draftText) == InterruptedNote
  {
  }

  /** A draft whose text has no outer white space is finalized as that text plus the note. */
  lemma InterruptedTextOfDraft(t: string)
    requires t != [] && !IsJsSpace(t[0]) && !IsJsSpace(t[|t| - 1])
    ensures InterruptedText(DraftTag + t) == t + " " + InterruptedNote
  {
    StripDraftOfTagged(t);
    TrimOfUnpadded(t);
  }

  /**
   * On barge-in the service appends or refreshes a user draft before it asks
   * for the interruption mark, so the mark never rewrites anything.
   */
  lemma InterruptAfterUserDraftIsNoop(msgs: seq<ChatMsg>, text: string, t1: int, t2: int)
    ensures Interrupted(Upserted(msgs, User, text, t1), t2) == Upserted(msgs, User, text, t1)
  {
    UpsertedShape(msgs, User, text, t1);
    InterruptIgnoresUser(Upserted(msgs, User, text, t1), t2);
  }

  /** A transcript that ends with a user message is never marked interrupted. */
  lemma InterruptIgnoresUser(msgs: seq<ChatMsg>, now: int)
    requires msgs != [] && msgs[|msgs| - 1].role == User
    ensures Interrupted(msgs, now) == msgs
  {
  }

  /** Two neighbours that are drafts of the same role. */
  predicate DraftPair(a: ChatMsg, b: ChatMsg) {
    a.role == b.role && IsDraft(a) && IsDraft(b)
  }

  /**
   * The transcript invariant every service operation keeps: no two
   * neighbouring messages are drafts of the same role, so a role's draft
   * is always extended rather than duplicated.
   */
  predicate NoAdjacentDrafts(msgs: seq<ChatMsg>) {
    forall i, j :: 0 <= i < |msgs| && 0 <= j < |msgs| && j == i + 1 ==> !DraftPair(msgs[i], msgs[j])
  }

  lemma {:induction false} UpsertedKeepsInvariant(msgs: seq<ChatMsg>, role: Role, text: string, now: int)
    requires NoAdjacentDrafts(msgs)
    ensures NoAdjacentDrafts(Upserted(msgs, role, text, now))
  {
    var r := Upserted(msgs, role, text, now);
    UpsertedShape(msgs, role, text, now);
    forall i, j | 0 <= i && j == i + 1 && j < |r| ensures !DraftPair(r[i], r[j]) {
      if i + 1 < |r| - 1 {
        assert r[i] == msgs[i] && r[i + 1] == msgs[i + 1];
      } else if !EndsWithDraft(msgs, role) {
        assert r[i] == msgs[|msgs| - 1];
      } else {
        assert r[i] == msgs[i] && msgs[i + 1].role == role;
        assert !DraftPair(msgs[i], msgs[i + 1]);
      }
    }
  }

  lemma {:induction false} FinalizedKeepsInvariant(msgs: seq<ChatMsg>, role: Role, text: string, now: int)
    requires NoAdjacentDrafts(msgs)
    ensures NoAdjacentDrafts(Finalized(msgs, role, text, now))
  {
    var r := Finalized(msgs, role, text, now);
    FinalizedShape(msgs, role, text, now);
    forall i, j | 0 <= i && j == i + 1 && j < |r| ensures !DraftPair(r[i], r[j]) {
      if i + 1 < |r| - 1 {
        assert r[i] == msgs[i] && r[i + 1] == msgs[i + 1];
      } else if !EndsWithDraft(msgs, role) {
        assert r[i] == msgs[|msgs| - 1];
      } else {
        assert r[i] == msgs[i] && msgs[i + 1].role == role;
        assert !DraftPair(msgs[i], msgs[i + 1]);
      }
    }
  }

  lemma {:induction false} InterruptedKeepsInvariant(msgs: seq<ChatMsg>, now: int)
    requires NoAdjacentDrafts(msgs)
    ensures NoAdjacentDrafts(Interrupted(msgs, now))
  {
    var r := Interrupted(msgs, now);
    InterruptedShape(msgs, now);
    if EndsWithDraft(msgs, Assistant) {
      forall i, j | 0 <= i && j == i + 1 && j < |r| ensures !DraftPair(r[i], r[j]) {
        if i + 1 < |r| - 1 {
          assert r[i] == msgs[i] && r[i + 1] == msgs[i + 1];
        } else {
          assert r[i] == msgs[i];
          assert !DraftPair(msgs[i], msgs[i + 1]);
        }
      }
    }
  }

  /** Appending a message that is not a draft (a notice or an error) keeps the invariant. */
  lemma {:induction false} AppendFinalKeepsInvariant(msgs: seq<ChatMsg>, m: ChatMsg)
    requires NoAdjacentDrafts(msgs) && !IsDraft(m)
    ensures NoAdjacentDrafts(msgs + [m])
  {
    var r := msgs + [m];
    forall i, j | 0 <= i && j == i + 1 && j < |r| ensures !DraftPair(r[i], r[j]) {
      if i + 1 < |msgs| {
        assert r[i] == msgs[i] && r[i + 1] == msgs[i + 1];
      }
    }
  }
}
