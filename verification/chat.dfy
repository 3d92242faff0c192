/** The chat view's handlers (`components/ChatInterface.tsx`). Sending is two
    transitions: `Send` appends the user message at once and hands back what
    the delayed reply will use; `Deliver` appends the reply later, to whatever
    the store is by then, built from the snapshot `Send` took. */
module Chat {
  import opened Options
  import opened Seqs
  import Text
  import opened Store

  // ---------------------------------------------------------------------------
  // What the view shows
  // ---------------------------------------------------------------------------

  /** The three states of the chat pane. */
  datatype Mode = NoProvider | Disabled(provider: Provider) | Ready(provider: Provider)

  function ModeOf(s: State): Mode {
    match SelectedProvider(s)
    case None => NoProvider
    case Some(p) => if p.enabled then Ready(p) else Disabled(p)
  }

  /** The pane shows the first provider carrying the selected id. */
  lemma ModeOfFirst(s: State, k: nat)
    requires k < |s.providers| && s.selected == Some(s.providers[k].id)
    requires forall j :: 0 <= j < k ==> s.providers[j].id != s.providers[k].id
    ensures ModeOf(s) == if s.providers[k].enabled then Ready(s.providers[k]) else Disabled(s.providers[k])
  {
    assert FindProvider(s.providers, s.providers[k].id) == Some(k);
  }

  /** The filter of the message list: messages addressed to the selection. */
  function ForSelection(sel: Option<string>): ChatMessage -> bool {
    (m: ChatMessage) => sel == Some(m.providerId)
  }

  /** The messages on screen: the history restricted to the selected provider
      id, in history order; nothing while no provider is selected. */
  function ProviderMessages(s: State): (r: seq<ChatMessage>)
    ensures forall i :: 0 <= i < |r| ==> r[i] in s.chatHistory && Some(r[i].providerId) == s.selected
    ensures forall i :: 0 <= i < |s.chatHistory| && Some(s.chatHistory[i].providerId) == s.selected ==>
              s.chatHistory[i] in r
  {
    FilterMembers(s.chatHistory, ForSelection(s.selected));
    Filter(s.chatHistory, ForSelection(s.selected))
  }

  // ---------------------------------------------------------------------------
  // Sending
  // ---------------------------------------------------------------------------

  /** The guard of `handleSend`: a message goes out only when the trimmed
      input is non-empty and the selected provider exists and is enabled. */
  predicate CanSend(s: State, input: string) {
    Text.Trim(input) != "" && SelectedProvider(s).Some? && SelectedProvider(s).value.enabled
  }

  /** What the delayed reply closes over: the provider record and the
      knowledge of the render in which the user pressed send, and the trimmed
      message. */
  datatype Pending = Pending(provider: Provider, userMessage: string, knowledge: seq<KnowledgeEntry>)

  datatype SendResult = Ignored | Sent(store: State, pending: Pending)

  /** `handleSend` up to the timer: either nothing happens, or exactly one user
      message carrying the trimmed input is appended for the selected
      provider. */
  function Send(s: State, input: string, idTick: nat, stamp: int): (r: SendResult)
    ensures r.Ignored? <==>
              Text.Trim(input) == "" || SelectedProvider(s).None? || !SelectedProvider(s).value.enabled
    ensures r.Sent? ==> s.selected.Some?
    ensures r.Sent? ==>
              r.store.chatHistory == s.chatHistory + [ChatMessage(NewId(idTick), s.selected.value, Text.Trim(input), stamp, User)]
    ensures r.Sent? ==>
              r.store.providers == s.providers && r.store.knowledge == s.knowledge && r.store.selected == s.selected
    ensures r.Sent? ==>
              r.pending == Pending(SelectedProvider(s).value, Text.Trim(input), s.knowledge)
  {
    if !CanSend(s, input) then Ignored
    else
      var p := SelectedProvider(s).value;
      var msg := Text.Trim(input);
      var t := AddMessage(s, MessageDraft(p.id, msg, User), idTick, stamp);
      assert t.chatHistory == t.chatHistory[..|s.chatHistory|] + [t.chatHistory[|s.chatHistory|]];
      Sent(t, Pending(p, msg, s.knowledge))
  }

  // ---------------------------------------------------------------------------
  // The knowledge context of a reply
  // ---------------------------------------------------------------------------

  /** The contents of some entries, in order. */
  function Contents(ks: seq<KnowledgeEntry>): (r: seq<string>)
    ensures |r| == |ks|
    ensures forall i :: 0 <= i < |ks| ==> r[i] == ks[i].content
  {
    seq(|ks|, i requires 0 <= i < |ks| => ks[i].content)
  }

  /** The entries whose contents go into the context: the last three locked
      ones, oldest first. */
  function ContextEntries(ks: seq<KnowledgeEntry>): seq<KnowledgeEntry> {
    TakeLast(Filter(ks, IsLocked), 3)
  }

  /** `relevantKnowledge`: those contents joined with newlines. */
  function LockedContext(ks: seq<KnowledgeEntry>): string {
    Join(Contents(ContextEntries(ks)), "\n")
  }

  /** The context is empty exactly when no entry is locked, or when exactly one
      is and its content is empty. */
  lemma ContextEmpty(ks: seq<KnowledgeEntry>)
    ensures LockedContext(ks) == "" <==>
              |Filter(ks, IsLocked)| == 0 || (|Filter(ks, IsLocked)| == 1 && Filter(ks, IsLocked)[0].content == "")
  {
    JoinEmpty(Contents(ContextEntries(ks)), "\n");
  }

  /** When every locked entry has some content, the context is non-empty
      exactly when some entry is locked. */
  lemma ContextPresentIffLocked(ks: seq<KnowledgeEntry>)
    requires forall i :: 0 <= i < |ks| && ks[i].locked ==> ks[i].content != ""
    ensures LockedContext(ks) != "" <==> exists i :: 0 <= i < |ks| && ks[i].locked
  {
    ContextEmpty(ks);
    var l := Filter(ks, IsLocked);
    FilterMembers(ks, IsLocked);
    if exists i :: 0 <= i < |ks| && ks[i].locked {
      var i :| 0 <= i < |ks| && ks[i].locked;
      assert IsLocked(ks[i]);
      assert ks[i] in l;
    }
    if |l| == 1 {
      assert l[0] in ks && l[0].locked;
    }
  }

  /** With three or more locked entries the context is the contents of the
      three most recent of them, oldest first, one per line. */
  lemma ContextLastThree(ks: seq<KnowledgeEntry>)
    requires |Filter(ks, IsLocked)| >= 3
    ensures var l := Filter(ks, IsLocked);
            var n := |l|;
            LockedContext(ks) == l[n - 3].content + "\n" + l[n - 2].content + "\n" + l[n - 1].content
  {
    var l := Filter(ks, IsLocked);
    var n := |l|;
    var a, b, c := l[n - 3], l[n - 2], l[n - 1];
    TakeLastThree(l);
    assert Contents([a, b, c]) == [a.content, b.content, c.content];
    JoinThree(a.content, b.content, c.content, "\n");
  }

  /** Entries that are not locked never reach the context: inserting one
      anywhere leaves the context of a reply unchanged. */
  lemma ContextIgnoresUnlocked(front: seq<KnowledgeEntry>, k: KnowledgeEntry, back: seq<KnowledgeEntry>)
    requires !k.locked
    ensures LockedContext(front + [k] + back) == LockedContext(front + back)
  {
    FilterAppend(front + [k], back, IsLocked);
    FilterAppend(front, [k], IsLocked);
    FilterAppend(front, back, IsLocked);
    assert Filter([k], IsLocked) == [];
    assert Filter(front + [k] + back, IsLocked) == Filter(front + back, IsLocked);
    assert ContextEntries(front + [k] + back) == ContextEntries(front + back);
  }

  // ---------------------------------------------------------------------------
  // The reply
  // ---------------------------------------------------------------------------

  // The fixed wording of the reply; the note and the notice are split just
  // after their third character, where they differ.
  const Greeting := "I'm "
  const Intro := ". I received your message: "
  const Quote := "\""
  const NoteHead := "\n\n["
  const NoteRest := "Using locked knowledge from previous conversations]"
  const KnowledgeNote := NoteHead + NoteRest
  const NoticeHead := "\n\nT"
  const NoticeRest := "his is a demo response. In a production environment, this would connect to the actual "
  const Closing := " API using your configured API key and include context from your locked knowledge base."

  /** The reply template as consecutive pieces: the greeting with the name,
      the quoted message, the note when the context is non-empty
      (`relevantKnowledge ? ... : ''`), and the notice naming the type. */
  function ReplyParts(p: Provider, msg: string, context: string): seq<string> {
    [Greeting, p.name, Intro, Quote, msg, Quote,
     if context != "" then KnowledgeNote else "",
     NoticeHead, NoticeRest, p.kind.Tag(), Closing]
  }

  function ReplyText(p: Provider, msg: string, context: string): string {
    Concat(ReplyParts(p, msg, context))
  }

  /** Where the knowledge note would start in a reply: just after the quoted
      user message. */
  function NoteOffset(p: Provider, msg: string): nat {
    |Greeting| + |p.name| + |Intro| + |msg| + 2 * |Quote|
  }

  /** The reply introduces itself with the provider's name. */
  lemma ReplyNamesProvider(p: Provider, msg: string, context: string)
    ensures Contains(ReplyText(p, msg, context), p.name)
  {
    var parts := ReplyParts(p, msg, context);
    PiecesOccur(parts, 1, 2);
    assert parts[1..2] == [p.name];
    ConcatOne(p.name);
  }

  /** The reply quotes the user message between double quotes. */
  lemma ReplyQuotesMessage(p: Provider, msg: string, context: string)
    ensures Contains(ReplyText(p, msg, context), "\"" + msg + "\"")
  {
    var parts := ReplyParts(p, msg, context);
    PiecesOccur(parts, 3, 6);
    assert parts[3..6] == [Quote, msg, Quote];
    ConcatThree(Quote, msg, Quote);
  }

  /** The reply names the provider's type. */
  lemma ReplyNamesType(p: Provider, msg: string, context: string)
    ensures Contains(ReplyText(p, msg, context), p.kind.Tag())
  {
    var parts := ReplyParts(p, msg, context);
    PiecesOccur(parts, 9, 10);
    assert parts[9..10] == [p.kind.Tag()];
    ConcatOne(p.kind.Tag());
  }

  /** The reply splits just after the quoted message, at `NoteOffset`. */
  lemma ReplySplitsAtNote(p: Provider, msg: string, context: string)
    ensures var parts := ReplyParts(p, msg, context);
            && ReplyText(p, msg, context) == Concat(parts[..6]) + Concat(parts[6..])
            && |Concat(parts[..6])| == NoteOffset(p, msg)
  {
    var parts := ReplyParts(p, msg, context);
    QuoteEndsAtNote(p, msg, context);
    assert parts == parts[..6] + parts[6..];
    ConcatAppend(parts[..6], parts[6..]);
  }

  /** The greeting, name, intro and quoted message together are
      `NoteOffset` characters long. */
  lemma QuoteEndsAtNote(p: Provider, msg: string, context: string)
    ensures |Concat(ReplyParts(p, msg, context)[..6])| == NoteOffset(p, msg)
  {
    var before := ReplyParts(p, msg, context)[..6];
    assert before == [Greeting, p.name, Intro] + [Quote, msg, Quote];
    ConcatAppend([Greeting, p.name, Intro], [Quote, msg, Quote]);
    ConcatThree(Greeting, p.name, Intro);
    ConcatThree(Quote, msg, Quote);
  }

  /** With a non-empty context the note follows the quoted message. */
  lemma NotePresent(p: Provider, msg: string, context: string)
    requires context != ""
    ensures OccursAt(ReplyText(p, msg, context), KnowledgeNote, NoteOffset(p, msg))
  {
    var parts := ReplyParts(p, msg, context);
    var r := ReplyText(p, msg, context);
    var after := parts[6..];
    ReplySplitsAtNote(p, msg, context);
    assert Concat(after) == KnowledgeNote + Concat(after[1..]);
    assert r == Concat(parts[..6]) + KnowledgeNote + Concat(after[1..]);
  }

  /** With an empty context the demo notice follows the quoted message
      directly, so its "T" sits where the note's "[" would. */
  lemma NoticeFollowsQuote(p: Provider, msg: string)
    ensures NoteOffset(p, msg) + 2 < |ReplyText(p, msg, "")|
    ensures ReplyText(p, msg, "")[NoteOffset(p, msg) + 2] == 'T'
  {
    var parts := ReplyParts(p, msg, "");
    var r := ReplyText(p, msg, "");
    var off := NoteOffset(p, msg);
    QuoteEndsAtNote(p, msg, "");
    assert parts[..7] == parts[..6] + [""];
    ConcatAppend(parts[..6], [""]);
    ConcatOne("");
    PiecesOccur(parts, 7, 8);
    assert parts[7..8] == [NoticeHead];
    ConcatOne(NoticeHead);
    assert r[off..off + 3] == NoticeHead;
    assert r[off + 2] == r[off..off + 3][2];
  }

  /** With an empty context the note does not follow the quoted message. */
  lemma NoteAbsent(p: Provider, msg: string)
    ensures !OccursAt(ReplyText(p, msg, ""), KnowledgeNote, NoteOffset(p, msg))
  {
    var r := ReplyText(p, msg, "");
    var off := NoteOffset(p, msg);
    NoticeFollowsQuote(p, msg);
    assert KnowledgeNote[2] == '[';
  }

  /** Right after the quoted message the reply carries the knowledge note
      exactly when the context is non-empty. */
  lemma ReplyNoteIffContext(p: Provider, msg: string, context: string)
    ensures OccursAt(ReplyText(p, msg, context), KnowledgeNote, NoteOffset(p, msg)) <==> context != ""
  {
    if context != "" {
      NotePresent(p, msg, context);
    } else {
      NoteAbsent(p, msg);
    }
  }

  /** The reply to a pending send, as the text of the timer callback builds it
      from the send-time snapshot. */
  function ReplyFor(pend: Pending): string {
    ReplyText(pend.provider, pend.userMessage, LockedContext(pend.knowledge))
  }

  /** The timer callback: one assistant message for the snapshot provider is
      appended to the CURRENT store; its text comes only from the snapshot. */
  function Deliver(now: State, pend: Pending, idTick: nat, stamp: int): (r: State)
    ensures r.chatHistory == now.chatHistory + [ChatMessage(NewId(idTick), pend.provider.id, ReplyFor(pend), stamp, Assistant)]
    ensures r.providers == now.providers && r.knowledge == now.knowledge && r.selected == now.selected
    ensures Contains(ReplyFor(pend), pend.provider.name)
    ensures Contains(ReplyFor(pend), "\"" + pend.userMessage + "\"")
    ensures Contains(ReplyFor(pend), pend.provider.kind.Tag())
    ensures OccursAt(ReplyFor(pend), KnowledgeNote, NoteOffset(pend.provider, pend.userMessage))
            <==> LockedContext(pend.knowledge) != ""
  {
    var t := AddMessage(now, MessageDraft(pend.provider.id, ReplyFor(pend), Assistant), idTick, stamp);
    ReplyNamesProvider(pend.provider, pend.userMessage, LockedContext(pend.knowledge));
    ReplyQuotesMessage(pend.provider, pend.userMessage, LockedContext(pend.knowledge));
    ReplyNamesType(pend.provider, pend.userMessage, LockedContext(pend.knowledge));
    ReplyNoteIffContext(pend.provider, pend.userMessage, LockedContext(pend.knowledge));
    assert t.chatHistory == t.chatHistory[..|now.chatHistory|] + [t.chatHistory[|now.chatHistory|]];
    t
  }

  // ---------------------------------------------------------------------------
  // Locking a reply into knowledge
  // ---------------------------------------------------------------------------

  /** `a || fallback` on an optional string: an absent or empty value falls
      back. */
  function OrElse(a: Option<string>, fallback: string): string {
    if a.Some? && a.value != "" then a.value else fallback
  }

  /** `handleLockMessage(content)`: one locked entry with that content is
      appended, tagged "chat" and the provider type ("unknown" without a
      provider), with the provider name as source ("Unknown" without one or
      when the name is empty). */
  function LockMessage(s: State, content: string, idTick: nat, stamp: int): (r: State)
    ensures |r.knowledge| == |s.knowledge| + 1 && r.knowledge[..|s.knowledge|] == s.knowledge
    ensures var k := r.knowledge[|s.knowledge|];
            k.id == NewId(idTick) && k.timestamp == stamp && k.content == content && k.locked
    ensures var k := r.knowledge[|s.knowledge|];
            match SelectedProvider(s)
            case None => k.tags == ["chat", "unknown"] && k.source == "Unknown"
            case Some(p) => k.tags == ["chat", p.kind.Tag()] && k.source == (if p.name == "" then "Unknown" else p.name)
    ensures r.providers == s.providers && r.chatHistory == s.chatHistory && r.selected == s.selected
  {
    var p := SelectedProvider(s);
    var kind := if p.Some? then Some(p.value.kind.Tag()) else None;
    var name := if p.Some? then Some(p.value.name) else None;
    AddKnowledge(s, KnowledgeDraft(content, ["chat", OrElse(kind, "unknown")], OrElse(name, "Unknown"), true), idTick, stamp)
  }

  // ---------------------------------------------------------------------------
  // Properties across transitions
  // ---------------------------------------------------------------------------

  /** Appending a message extends the shown list by that message exactly when
      it is addressed to the selected provider. */
  lemma ShownAfterAppend(s: State, m: ChatMessage)
    ensures ProviderMessages(s.(chatHistory := s.chatHistory + [m]))
            == ProviderMessages(s) + (if s.selected == Some(m.providerId) then [m] else [])
  {
    FilterAppend(s.chatHistory, [m], ForSelection(s.selected));
    assert [m][1..] == [];
  }

  /** Clearing the history empties the message list of every provider and
      leaves the pane in the same state. */
  lemma ClearHistoryEmptiesPane(s: State)
    ensures ProviderMessages(ClearHistory(s)) == []
    ensures ModeOf(ClearHistory(s)) == ModeOf(s)
  {
  }

  /** Selecting an id decides the pane: nothing to chat with when the id is
      null or unknown, otherwise the first provider with that id, ready when
      it is enabled and asking for configuration when it is not. */
  lemma SelectionSetsMode(s: State, sel: Option<string>)
    ensures var m := ModeOf(SetSelectedProvider(s, sel));
            m.NoProvider? <==> sel.None? || forall j :: 0 <= j < |s.providers| ==> s.providers[j].id != sel.value
    ensures forall k :: 0 <= k < |s.providers| && sel == Some(s.providers[k].id)
                        && (forall j :: 0 <= j < k ==> s.providers[j].id != s.providers[k].id) ==>
              ModeOf(SetSelectedProvider(s, sel))
              == if s.providers[k].enabled then Ready(s.providers[k]) else Disabled(s.providers[k])
  {
    forall k | 0 <= k < |s.providers| && sel == Some(s.providers[k].id)
               && (forall j :: 0 <= j < k ==> s.providers[j].id != s.providers[k].id)
      ensures ModeOf(SetSelectedProvider(s, sel))
              == if s.providers[k].enabled then Ready(s.providers[k]) else Disabled(s.providers[k])
    {
      ModeOfFirst(SetSelectedProvider(s, sel), k);
    }
  }

  /** A message can be sent only from the ready pane. */
  lemma SendNeedsReadyPane(s: State, input: string)
    ensures CanSend(s, input) ==> ModeOf(s).Ready?
    ensures ModeOf(s).Ready? && Text.Trim(input) != "" ==> CanSend(s, input)
  {
  }

  /** The user message a send appends is the last message on screen. */
  lemma SentMessageShown(s: State, input: string, idTick: nat, stamp: int)
    requires Send(s, input, idTick, stamp).Sent?
    ensures var r := Send(s, input, idTick, stamp).store;
            ProviderMessages(r) == ProviderMessages(s) + [r.chatHistory[|s.chatHistory|]]
  {
    var r := Send(s, input, idTick, stamp).store;
    var m := r.chatHistory[|s.chatHistory|];
    assert r == s.(chatHistory := s.chatHistory + [m]);
    ShownAfterAppend(s, m);
  }

  /** A send followed by its reply leaves the user message and then the
      assistant message, both for the selected provider, and the reply quotes
      the trimmed input, whatever happened to the store in between. */
  lemma SendThenReply(s: State, input: string, between: seq<ChatMessage>, t1: nat, t2: nat, stamp1: int, stamp2: int)
    requires Send(s, input, t1, stamp1).Sent?
    ensures var sent := Send(s, input, t1, stamp1);
            var now := sent.store.(chatHistory := sent.store.chatHistory + between);
            var r := Deliver(now, sent.pending, t2, stamp2);
            var n := |s.chatHistory|;
            && |r.chatHistory| == n + |between| + 2
            && r.chatHistory[n].role == User && r.chatHistory[n].content == Text.Trim(input)
            && r.chatHistory[n + |between| + 1].role == Assistant
            && Some(r.chatHistory[n].providerId) == s.selected
            && Some(r.chatHistory[n + |between| + 1].providerId) == s.selected
            && Contains(r.chatHistory[n + |between| + 1].content, "\"" + Text.Trim(input) + "\"")
  {
  }

  /** The reply lands in the thread of the provider the message was sent to:
      it is on screen after the shown messages when that provider is still
      selected, and invisible otherwise. */
  lemma ReplyShownOnlyForSenderThread(now: State, pend: Pending, idTick: nat, stamp: int)
    ensures var r := Deliver(now, pend, idTick, stamp);
            ProviderMessages(r) == ProviderMessages(now) + (if now.selected == Some(pend.provider.id) then [r.chatHistory[|now.chatHistory|]] else [])
  {
    var r := Deliver(now, pend, idTick, stamp);
    var m := r.chatHistory[|now.chatHistory|];
    assert r == now.(chatHistory := now.chatHistory + [m]);
    ShownAfterAppend(now, m);
  }

  /** Locking a reply adds exactly one to the locked count shown in the chat
      header and the page header. */
  lemma LockMessageCount(s: State, content: string, idTick: nat, stamp: int)
    ensures LockedCount(LockMessage(s, content, idTick, stamp)) == LockedCount(s) + 1
  {
    var r := LockMessage(s, content, idTick, stamp);
    assert r.knowledge == s.knowledge + [r.knowledge[|s.knowledge|]];
    FilterAppend(s.knowledge, [r.knowledge[|s.knowledge|]], IsLocked);
  }
}
