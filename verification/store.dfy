/** The application store (`lib/store.ts`): three insertion-ordered
    collections and a nullable selection, with one pure transition per store
    action. The clock the store reads (`Date.now()`) is a parameter of every
    action that creates a record: `idTick` is the reading printed as the id,
    `stamp` the separate reading kept as the timestamp. */
module Store {
  import opened Options
  import opened Seqs
  import Text

  // ---------------------------------------------------------------------------
  // Records
  // ---------------------------------------------------------------------------

  /** The closed set of provider categories. */
  datatype ProviderType = OpenAI | Anthropic | Google | Mistral | Custom {
    /** The category as the application spells it in tags and replies. */
    function Tag(): (t: string)
      ensures t != ""
    {
      match this
      case OpenAI => "openai"
      case Anthropic => "anthropic"
      case Google => "google"
      case Mistral => "mistral"
      case Custom => "custom"
    }
  }

  datatype Provider = Provider(
    id: string,
    name: string,
    kind: ProviderType,
    apiKey: string,
    enabled: bool,
    color: string,
    icon: string)

  datatype KnowledgeEntry = KnowledgeEntry(
    id: string,
    content: string,
    tags: seq<string>,
    source: string,
    timestamp: int,
    locked: bool)

  datatype Role = User | Assistant

  datatype ChatMessage = ChatMessage(
    id: string,
    providerId: string,
    content: string,
    timestamp: int,
    role: Role)

  /** The persisted part of the store: everything but the action functions. */
  datatype State = State(
    providers: seq<Provider>,
    knowledge: seq<KnowledgeEntry>,
    chatHistory: seq<ChatMessage>,
    selected: Option<string>)

  /** The argument of `addProvider`: a provider without its id. */
  datatype ProviderDraft = ProviderDraft(
    name: string, kind: ProviderType, apiKey: string, enabled: bool, color: string, icon: string)

  /** The argument of `addKnowledge`: an entry without id and timestamp. */
  datatype KnowledgeDraft = KnowledgeDraft(
    content: string, tags: seq<string>, source: string, locked: bool)

  /** The argument of `addMessage`: a message without id and timestamp. */
  datatype MessageDraft = MessageDraft(providerId: string, content: string, role: Role)

  /** A `Partial<Provider>`: `Some` for each field the update names. Nothing
      keeps a patch from naming `id`. */
  datatype ProviderPatch = ProviderPatch(
    id: Option<string>,
    name: Option<string>,
    kind: Option<ProviderType>,
    apiKey: Option<string>,
    enabled: Option<bool>,
    color: Option<string>,
    icon: Option<string>)

  /** A `Partial<KnowledgeEntry>`; it may name `id` and `timestamp` too. */
  datatype KnowledgePatch = KnowledgePatch(
    id: Option<string>,
    content: Option<string>,
    tags: Option<seq<string>>,
    source: Option<string>,
    timestamp: Option<int>,
    locked: Option<bool>)

  const EmptyProviderPatch := ProviderPatch(None, None, None, None, None, None, None)

  /** `{ enabled: b }`. */
  function EnabledPatch(b: bool): ProviderPatch {
    EmptyProviderPatch.(enabled := Some(b))
  }

  /** `{ apiKey: key, enabled: b }`. */
  function KeyPatch(key: string, b: bool): ProviderPatch {
    EmptyProviderPatch.(apiKey := Some(key), enabled := Some(b))
  }

  /** The id generated from a clock reading: `Date.now().toString()`. */
  function NewId(tick: nat): string {
    Text.Decimal(tick)
  }

  // ---------------------------------------------------------------------------
  // Record-level relations
  // ---------------------------------------------------------------------------

  /** `{ ...p, ...u }`. */
  function MergeProvider(p: Provider, u: ProviderPatch): Provider {
    Provider(u.id.GetOr(p.id), u.name.GetOr(p.name), u.kind.GetOr(p.kind), u.apiKey.GetOr(p.apiKey),
             u.enabled.GetOr(p.enabled), u.color.GetOr(p.color), u.icon.GetOr(p.icon))
  }

  /** `{ ...k, ...u }`. */
  function MergeKnowledge(k: KnowledgeEntry, u: KnowledgePatch): KnowledgeEntry {
    KnowledgeEntry(u.id.GetOr(k.id), u.content.GetOr(k.content), u.tags.GetOr(k.tags),
                   u.source.GetOr(k.source), u.timestamp.GetOr(k.timestamp), u.locked.GetOr(k.locked))
  }

  /** `after` carries every field the patch names and keeps every other field
      of `before`. */
  predicate ProviderPatched(before: Provider, after: Provider, u: ProviderPatch) {
    && (if u.id.Some? then after.id == u.id.value else after.id == before.id)
    && (if u.name.Some? then after.name == u.name.value else after.name == before.name)
    && (if u.kind.Some? then after.kind == u.kind.value else after.kind == before.kind)
    && (if u.apiKey.Some? then after.apiKey == u.apiKey.value else after.apiKey == before.apiKey)
    && (if u.enabled.Some? then after.enabled == u.enabled.value else after.enabled == before.enabled)
    && (if u.color.Some? then after.color == u.color.value else after.color == before.color)
    && (if u.icon.Some? then after.icon == u.icon.value else after.icon == before.icon)
  }

  /** The knowledge counterpart of `ProviderPatched`. */
  predicate KnowledgePatched(before: KnowledgeEntry, after: KnowledgeEntry, u: KnowledgePatch) {
    && (if u.id.Some? then after.id == u.id.value else after.id == before.id)
    && (if u.content.Some? then after.content == u.content.value else after.content == before.content)
    && (if u.tags.Some? then after.tags == u.tags.value else after.tags == before.tags)
    && (if u.source.Some? then after.source == u.source.value else after.source == before.source)
    && (if u.timestamp.Some? then after.timestamp == u.timestamp.value else after.timestamp == before.timestamp)
    && (if u.locked.Some? then after.locked == u.locked.value else after.locked == before.locked)
  }

  predicate UniqueProviderIds(ps: seq<Provider>) {
    forall i, j :: 0 <= i < j < |ps| ==> ps[i].id != ps[j].id
  }

  predicate IsEnabled(p: Provider) { p.enabled }

  predicate IsLocked(k: KnowledgeEntry) { k.locked }

  /** The filter predicate of `removeProvider(id)`. */
  function ProviderIdIsNot(id: string): Provider -> bool {
    (p: Provider) => p.id != id
  }

  /** The records `removeProvider(id)` drops. */
  function ProviderIdIs(id: string): Provider -> bool {
    (p: Provider) => p.id == id
  }

  /** The filter predicate of `removeKnowledge(id)`. */
  function KnowledgeIdIsNot(id: string): KnowledgeEntry -> bool {
    (k: KnowledgeEntry) => k.id != id
  }

  // ---------------------------------------------------------------------------
  // Initial state
  // ---------------------------------------------------------------------------

  /** The store before anything was persisted: four disabled, key-less
      providers with ids "1" to "4", no knowledge, no chat, no selection. */
  function Seed(): (s: State)
    ensures |s.providers| == 4
    ensures forall i :: 0 <= i < 4 ==> s.providers[i].id == NewId(i + 1)
    ensures forall i :: 0 <= i < 4 ==> !s.providers[i].enabled && s.providers[i].apiKey == ""
    ensures [s.providers[0].kind, s.providers[1].kind, s.providers[2].kind, s.providers[3].kind]
            == [OpenAI, Anthropic, Google, Mistral]
    ensures UniqueProviderIds(s.providers)
    ensures s.knowledge == [] && s.chatHistory == [] && s.selected == None
  {
    State(
      [ Provider("1", "OpenAI GPT-4", OpenAI, "", false, "#10A37F", "\U{1F916}"),
        Provider("2", "Claude (Anthropic)", Anthropic, "", false, "#D97706", "\U{1F9E0}"),
        Provider("3", "Google Gemini", Google, "", false, "#4285F4", "\U{2728}"),
        Provider("4", "Mistral AI", Mistral, "", false, "#FF6B35", "\U{1F30A}") ],
      [], [], None)
  }

  // ---------------------------------------------------------------------------
  // Provider actions
  // ---------------------------------------------------------------------------

  /** `addProvider(d)`: one provider appended with the generated id; no check
      that its name, type or id is new. */
  function AddProvider(s: State, d: ProviderDraft, idTick: nat): (r: State)
    ensures |r.providers| == |s.providers| + 1
    ensures r.providers[..|s.providers|] == s.providers
    ensures r.providers[|s.providers|]
            == Provider(NewId(idTick), d.name, d.kind, d.apiKey, d.enabled, d.color, d.icon)
    ensures r.knowledge == s.knowledge && r.chatHistory == s.chatHistory && r.selected == s.selected
  {
    s.(providers := s.providers + [Provider(NewId(idTick), d.name, d.kind, d.apiKey, d.enabled, d.color, d.icon)])
  }

  /** `updateProvider(id, u)`: every provider whose id is `id` takes the
      fields `u` names; every other provider, the length and the order stay. */
  function UpdateProvider(s: State, id: string, u: ProviderPatch): (r: State)
    ensures |r.providers| == |s.providers|
    ensures forall i :: 0 <= i < |s.providers| && s.providers[i].id == id ==>
              ProviderPatched(s.providers[i], r.providers[i], u)
    ensures forall i :: 0 <= i < |s.providers| && s.providers[i].id != id ==>
              r.providers[i] == s.providers[i]
    ensures r.knowledge == s.knowledge && r.chatHistory == s.chatHistory && r.selected == s.selected
  {
    s.(providers := seq(|s.providers|, i requires 0 <= i < |s.providers| =>
         if s.providers[i].id == id then MergeProvider(s.providers[i], u) else s.providers[i]))
  }

  /** `removeProvider(id)`: every provider with that id is dropped, the rest
      stay; knowledge and chat are not cascaded. */
  function RemoveProvider(s: State, id: string): (r: State)
    ensures forall i :: 0 <= i < |r.providers| ==> r.providers[i] in s.providers && r.providers[i].id != id
    ensures forall i :: 0 <= i < |s.providers| && s.providers[i].id != id ==> s.providers[i] in r.providers
    ensures r.knowledge == s.knowledge && r.chatHistory == s.chatHistory && r.selected == s.selected
  {
    FilterMembers(s.providers, ProviderIdIsNot(id));
    s.(providers := Filter(s.providers, ProviderIdIsNot(id)))
  }

  // ---------------------------------------------------------------------------
  // Knowledge actions
  // ---------------------------------------------------------------------------

  /** `addKnowledge(d)`: one entry appended with the generated id and the
      timestamp; earlier entries stay. */
  function AddKnowledge(s: State, d: KnowledgeDraft, idTick: nat, stamp: int): (r: State)
    ensures |r.knowledge| == |s.knowledge| + 1
    ensures r.knowledge[..|s.knowledge|] == s.knowledge
    ensures r.knowledge[|s.knowledge|]
            == KnowledgeEntry(NewId(idTick), d.content, d.tags, d.source, stamp, d.locked)
    ensures r.providers == s.providers && r.chatHistory == s.chatHistory && r.selected == s.selected
  {
    s.(knowledge := s.knowledge + [KnowledgeEntry(NewId(idTick), d.content, d.tags, d.source, stamp, d.locked)])
  }

  /** `updateKnowledge(id, u)`: the merge of `updateProvider` on knowledge. */
  function UpdateKnowledge(s: State, id: string, u: KnowledgePatch): (r: State)
    ensures |r.knowledge| == |s.knowledge|
    ensures forall i :: 0 <= i < |s.knowledge| && s.knowledge[i].id == id ==>
              KnowledgePatched(s.knowledge[i], r.knowledge[i], u)
    ensures forall i :: 0 <= i < |s.knowledge| && s.knowledge[i].id != id ==>
              r.knowledge[i] == s.knowledge[i]
    ensures r.providers == s.providers && r.chatHistory == s.chatHistory && r.selected == s.selected
  {
    s.(knowledge := seq(|s.knowledge|, i requires 0 <= i < |s.knowledge| =>
         if s.knowledge[i].id == id then MergeKnowledge(s.knowledge[i], u) else s.knowledge[i]))
  }

  /** `removeKnowledge(id)`: every entry with that id is dropped. */
  function RemoveKnowledge(s: State, id: string): (r: State)
    ensures forall i :: 0 <= i < |r.knowledge| ==> r.knowledge[i] in s.knowledge && r.knowledge[i].id != id
    ensures forall i :: 0 <= i < |s.knowledge| && s.knowledge[i].id != id ==> s.knowledge[i] in r.knowledge
    ensures r.providers == s.providers && r.chatHistory == s.chatHistory && r.selected == s.selected
  {
    FilterMembers(s.knowledge, KnowledgeIdIsNot(id));
    s.(knowledge := Filter(s.knowledge, KnowledgeIdIsNot(id)))
  }

  /** `lockKnowledge(id)`: flips `locked` on every entry with that id and
      touches no other field or entry. */
  function LockKnowledge(s: State, id: string): (r: State)
    ensures |r.knowledge| == |s.knowledge|
    ensures forall i :: 0 <= i < |s.knowledge| && s.knowledge[i].id == id ==>
              r.knowledge[i].locked != s.knowledge[i].locked
              && r.knowledge[i] == s.knowledge[i].(locked := r.knowledge[i].locked)
    ensures forall i :: 0 <= i < |s.knowledge| && s.knowledge[i].id != id ==>
              r.knowledge[i] == s.knowledge[i]
    ensures r.providers == s.providers && r.chatHistory == s.chatHistory && r.selected == s.selected
  {
    s.(knowledge := seq(|s.knowledge|, i requires 0 <= i < |s.knowledge| =>
         if s.knowledge[i].id == id then s.knowledge[i].(locked := !s.knowledge[i].locked) else s.knowledge[i]))
  }

  // ---------------------------------------------------------------------------
  // Chat actions and selection
  // ---------------------------------------------------------------------------

  /** `addMessage(d)`: one message appended with the generated id and the
      timestamp; earlier messages stay. */
  function AddMessage(s: State, d: MessageDraft, idTick: nat, stamp: int): (r: State)
    ensures |r.chatHistory| == |s.chatHistory| + 1
    ensures r.chatHistory[..|s.chatHistory|] == s.chatHistory
    ensures r.chatHistory[|s.chatHistory|] == ChatMessage(NewId(idTick), d.providerId, d.content, stamp, d.role)
    ensures r.providers == s.providers && r.knowledge == s.knowledge && r.selected == s.selected
  {
    s.(chatHistory := s.chatHistory + [ChatMessage(NewId(idTick), d.providerId, d.content, stamp, d.role)])
  }

  /** `clearHistory()`: the chat history, and nothing else, becomes empty. */
  function ClearHistory(s: State): (r: State)
    ensures r.chatHistory == []
    ensures r.providers == s.providers && r.knowledge == s.knowledge && r.selected == s.selected
  {
    s.(chatHistory := [])
  }

  /** `setSelectedProvider(sel)`: any value, whether or not a provider has
      that id. */
  function SetSelectedProvider(s: State, sel: Option<string>): (r: State)
    ensures r.selected == sel
    ensures r.providers == s.providers && r.knowledge == s.knowledge && r.chatHistory == s.chatHistory
  {
    s.(selected := sel)
  }

  // ---------------------------------------------------------------------------
  // Lookup
  // ---------------------------------------------------------------------------

  /** `providers.find(p => p.id === id)`, as the position of the FIRST provider
      carrying the id, or `None` when no provider does. */
  function FindProvider(ps: seq<Provider>, id: string): (r: Option<nat>)
    ensures r.Some? ==> r.value < |ps| && ps[r.value].id == id
    ensures r.Some? ==> forall j :: 0 <= j < r.value ==> ps[j].id != id
    ensures r.None? <==> forall j :: 0 <= j < |ps| ==> ps[j].id != id
    decreases |ps|
  {
    if ps == [] then None
    else if ps[0].id == id then Some(0)
    else match FindProvider(ps[1..], id)
      case None => None
      case Some(k) => Some(k + 1)
  }

  /** The provider the chat works with: the first one whose id is the
      selection; none when nothing is selected or the id is unknown. */
  function SelectedProvider(s: State): (r: Option<Provider>)
    ensures r.Some? <==> s.selected.Some? && exists j :: 0 <= j < |s.providers| && s.providers[j].id == s.selected.value
    ensures r.Some? ==> r.value in s.providers && r.value.id == s.selected.value
    ensures r.Some? ==> exists k :: 0 <= k < |s.providers| && r.value == s.providers[k]
                                  && forall j :: 0 <= j < k ==> s.providers[j].id != s.selected.value
  {
    match s.selected
    case None => None
    case Some(id) =>
      match FindProvider(s.providers, id)
      case None => None
      case Some(k) => Some(s.providers[k])
  }

  // ---------------------------------------------------------------------------
  // Derived counts
  // ---------------------------------------------------------------------------

  /** The "Active" figure: how many providers are enabled; zero exactly when
      none is, all of them exactly when every one is. */
  function ActiveCount(s: State): (n: nat)
    ensures n <= |s.providers|
    ensures n == 0 <==> forall i :: 0 <= i < |s.providers| ==> !s.providers[i].enabled
    ensures (forall i :: 0 <= i < |s.providers| ==> s.providers[i].enabled) ==> n == |s.providers|
  {
    FilterCount(s.providers, IsEnabled);
    |Filter(s.providers, IsEnabled)|
  }

  /** The "Locked" figure, also shown in the chat header: how many knowledge
      entries are locked; zero exactly when none is. */
  function LockedCount(s: State): (n: nat)
    ensures n <= |s.knowledge|
    ensures n == 0 <==> forall i :: 0 <= i < |s.knowledge| ==> !s.knowledge[i].locked
  {
    FilterCount(s.knowledge, IsLocked);
    |Filter(s.knowledge, IsLocked)|
  }

  // ---------------------------------------------------------------------------
  // Properties
  // ---------------------------------------------------------------------------

  /** Nothing is active or locked in the seed state. */
  lemma SeedCounts()
    ensures ActiveCount(Seed()) == 0 && LockedCount(Seed()) == 0
  {
  }

  /** An update naming an id no provider has leaves the store as it was. */
  lemma UpdateProviderUnknownId(s: State, id: string, u: ProviderPatch)
    requires forall i :: 0 <= i < |s.providers| ==> s.providers[i].id != id
    ensures UpdateProvider(s, id, u) == s
  {
    assert UpdateProvider(s, id, u).providers == s.providers;
  }

  /** A patch naming no field changes nothing. */
  lemma UpdateProviderEmptyPatch(s: State, id: string)
    ensures UpdateProvider(s, id, EmptyProviderPatch) == s
  {
    assert UpdateProvider(s, id, EmptyProviderPatch).providers == s.providers;
  }

  /** Applying the same update twice is applying it once, even when the patch
      renames the matching providers. */
  lemma UpdateProviderIdempotent(s: State, id: string, u: ProviderPatch)
    ensures UpdateProvider(UpdateProvider(s, id, u), id, u) == UpdateProvider(s, id, u)
  {
    var once := UpdateProvider(s, id, u);
    var twice := UpdateProvider(once, id, u);
    forall i | 0 <= i < |s.providers|
      ensures twice.providers[i] == once.providers[i]
    {
      if s.providers[i].id == id && once.providers[i].id == id {
        assert MergeProvider(once.providers[i], u) == once.providers[i];
      }
    }
  }

  /** An update naming an id no entry has leaves the store as it was. */
  lemma UpdateKnowledgeUnknownId(s: State, id: string, u: KnowledgePatch)
    requires forall i :: 0 <= i < |s.knowledge| ==> s.knowledge[i].id != id
    ensures UpdateKnowledge(s, id, u) == s
  {
    assert UpdateKnowledge(s, id, u).knowledge == s.knowledge;
  }

  /** Removing an id no provider has leaves the store as it was. */
  lemma RemoveProviderUnknownId(s: State, id: string)
    requires forall i :: 0 <= i < |s.providers| ==> s.providers[i].id != id
    ensures RemoveProvider(s, id) == s
  {
    FilterAllKept(s.providers, ProviderIdIsNot(id));
  }

  /** Removing an id no entry has leaves the store as it was. */
  lemma RemoveKnowledgeUnknownId(s: State, id: string)
    requires forall i :: 0 <= i < |s.knowledge| ==> s.knowledge[i].id != id
    ensures RemoveKnowledge(s, id) == s
  {
    FilterAllKept(s.knowledge, KnowledgeIdIsNot(id));
  }

  /** Removal drops exactly the providers that carry the id: the survivors and
      the dropped ones together are as many as there were. */
  lemma RemoveProviderCount(s: State, id: string)
    ensures |RemoveProvider(s, id).providers| == |s.providers| - |Filter(s.providers, ProviderIdIs(id))|
  {
    FilterComplement(s.providers, ProviderIdIs(id), ProviderIdIsNot(id));
  }

  /** Removal keeps the relative order of the survivors: removing from a
      concatenation is removing from each part. */
  lemma RemoveProviderOrder(s: State, id: string, front: seq<Provider>, back: seq<Provider>)
    requires s.providers == front + back
    ensures RemoveProvider(s, id).providers
            == RemoveProvider(s.(providers := front), id).providers
             + RemoveProvider(s.(providers := back), id).providers
  {
    FilterAppend(front, back, ProviderIdIsNot(id));
  }

  /** Removal keeps the relative order of the surviving entries. */
  lemma RemoveKnowledgeOrder(s: State, id: string, front: seq<KnowledgeEntry>, back: seq<KnowledgeEntry>)
    requires s.knowledge == front + back
    ensures RemoveKnowledge(s, id).knowledge
            == RemoveKnowledge(s.(knowledge := front), id).knowledge
             + RemoveKnowledge(s.(knowledge := back), id).knowledge
  {
    FilterAppend(front, back, KnowledgeIdIsNot(id));
  }

  /** Removing the one entry that carries an id leaves the entries before it
      followed by the entries after it: one fewer, in the same order. */
  lemma RemoveKnowledgeSingle(s: State, k: nat)
    requires k < |s.knowledge|
    requires forall i :: 0 <= i < |s.knowledge| && i != k ==> s.knowledge[i].id != s.knowledge[k].id
    ensures RemoveKnowledge(s, s.knowledge[k].id).knowledge == s.knowledge[..k] + s.knowledge[k + 1..]
    ensures |RemoveKnowledge(s, s.knowledge[k].id).knowledge| == |s.knowledge| - 1
  {
    var ks := s.knowledge;
    var keep := KnowledgeIdIsNot(ks[k].id);
    assert forall i :: 0 <= i < |ks| && i != k ==> keep(ks[i]);
    FilterDropsOne(ks, k, keep);
  }

  /** Toggling the lock of the same id twice restores the knowledge. */
  lemma LockKnowledgeTwice(s: State, id: string)
    ensures LockKnowledge(LockKnowledge(s, id), id) == s
  {
    var twice := LockKnowledge(LockKnowledge(s, id), id);
    assert twice.knowledge == s.knowledge;
  }

  /** Ids come from the clock: two records added at the same millisecond get
      the same id, and a later remove of that id drops both. */
  lemma SameTickCollides(s: State, a: KnowledgeDraft, b: KnowledgeDraft, tick: nat, stamp: int)
    ensures var r := AddKnowledge(AddKnowledge(s, a, tick, stamp), b, tick, stamp);
            r.knowledge[|s.knowledge|].id == r.knowledge[|s.knowledge| + 1].id
    ensures var r := AddKnowledge(AddKnowledge(s, a, tick, stamp), b, tick, stamp);
            RemoveKnowledge(r, NewId(tick)).knowledge == RemoveKnowledge(s, NewId(tick)).knowledge
  {
    var r1 := AddKnowledge(s, a, tick, stamp);
    var r := AddKnowledge(r1, b, tick, stamp);
    var keep := KnowledgeIdIsNot(NewId(tick));
    assert r.knowledge == s.knowledge + [r1.knowledge[|s.knowledge|], r.knowledge[|s.knowledge| + 1]];
    FilterAppend(s.knowledge, [r1.knowledge[|s.knowledge|], r.knowledge[|s.knowledge| + 1]], keep);
  }

  /** Provider ids are unique after an add exactly when they were unique
      before and no existing id was printed from the new provider's tick. */
  lemma AddProviderKeepsIdsUnique(s: State, d: ProviderDraft, idTick: nat)
    ensures UniqueProviderIds(AddProvider(s, d, idTick).providers)
            <==> UniqueProviderIds(s.providers)
                 && forall i :: 0 <= i < |s.providers| ==> s.providers[i].id != NewId(idTick)
  {
    var r := AddProvider(s, d, idTick).providers;
    assert r[|s.providers|].id == NewId(idTick);
    assert forall i :: 0 <= i < |s.providers| ==> r[i] == s.providers[i];
  }

  /** Generated ids are distinct exactly when the clock readings are. */
  lemma NewIdInjective(a: nat, b: nat)
    ensures NewId(a) == NewId(b) <==> a == b
  {
    if NewId(a) == NewId(b) {
      Text.DecimalInjective(a, b);
    }
  }

  /** A clock reading of ten or more never collides with a seed id. */
  lemma LateIdsAvoidSeed(tick: nat)
    requires tick >= 10
    ensures forall i :: 0 <= i < |Seed().providers| ==> Seed().providers[i].id != NewId(tick)
  {
  }

  /** The "Active" figure counts enabled providers one by one: appending a
      provider adds one exactly when it is enabled. With the empty list
      counting zero, this fixes the figure as the number of enabled
      providers. */
  lemma ActiveCountAppend(s: State, p: Provider)
    ensures ActiveCount(s.(providers := [])) == 0
    ensures ActiveCount(s.(providers := s.providers + [p])) == ActiveCount(s) + (if p.enabled then 1 else 0)
  {
    FilterAppend(s.providers, [p], IsEnabled);
    assert [p][1..] == [];
  }

  /** The "Locked" figure counts locked entries one by one: appending an
      entry adds one exactly when it is locked, and no entries count zero. */
  lemma LockedCountAppend(s: State, k: KnowledgeEntry)
    ensures LockedCount(s.(knowledge := [])) == 0
    ensures LockedCount(s.(knowledge := s.knowledge + [k])) == LockedCount(s) + (if k.locked then 1 else 0)
  {
    FilterAppend(s.knowledge, [k], IsLocked);
    assert [k][1..] == [];
  }

  /** Adding a locked entry raises the locked count by one; adding an unlocked
      one leaves it. */
  lemma AddKnowledgeLockedCount(s: State, d: KnowledgeDraft, idTick: nat, stamp: int)
    ensures LockedCount(AddKnowledge(s, d, idTick, stamp)) == LockedCount(s) + (if d.locked then 1 else 0)
  {
    var r := AddKnowledge(s, d, idTick, stamp);
    assert r == s.(knowledge := s.knowledge + [r.knowledge[|s.knowledge|]]);
    LockedCountAppend(s, r.knowledge[|s.knowledge|]);
  }
}
