# AI Control Center store and handlers, in Dafny

This project models the logic of a single-page dashboard for mock AI
providers. It covers the application store and the event handlers that drive
it:

- the store (`lib/store.ts`): providers, knowledge entries, chat messages and
  a nullable selected-provider id, with ten synchronous actions;
- the chat pane (`components/ChatInterface.tsx`): the send guard, the user
  message, the delayed canned reply built from the last three locked
  knowledge entries, "lock to knowledge", and the per-provider message list;
- the page (`app/page.tsx`): the card toggle (configure or flip `enabled`),
  the card click, the editor's `onClose` selection rule, and the header
  counts;
- the provider editor (`components/ProviderConfig.tsx`): Save (set the key,
  enable exactly when it is non-empty, then close) and the three ways to
  dismiss it.

Every transition is a pure function on an immutable `State` (module `Store`)
or on a `Page`, which is the store plus the id of the provider being
configured (module `Page`). The clock is a parameter. Every action that
creates a record takes `idTick`, the reading printed as its id
(`Date.now().toString()`, modelled by `Text.Decimal`), and `stamp`, the
separate reading kept as its timestamp. Sending is two transitions:
`Chat.Send` appends the user message and returns a `Pending` snapshot.
`Chat.Deliver` later appends the reply to the store as it is by then, and
builds the reply text only from that snapshot.

Three definitions carry no contract of their own; the rows below state their
properties. `Chat.CanSend` is the send guard (components/ChatInterface.tsx:16).
`Chat.LockedContext` is `relevantKnowledge` (components/ChatInterface.tsx:30-34).
`Chat.ModeOf` picks one of the chat pane's three render branches
(components/ChatInterface.tsx:66-87).

Files: `seqs.dfy` (the `Options` module, plus `Seqs`, which holds the
`filter` / `slice(-3)` / `join` / `includes` helpers), `text.dfy`
(ECMAScript `trim` and integer `toString`), `store.dfy`, `chat.dfy`,
`page.dfy` (the `ProviderConfig` and `Page` modules) and `scenario.dfy` (the
walk through configure, select, send and reply).

Behaviours of the code that are easy to misread:

- **Reply note.** The reply carries the "[Using locked knowledge …]" note
  when the joined context string is non-empty, not whenever some entry is
  locked. The two differ for a single locked entry with empty content
  (`Chat.ContextEmpty`). They agree when every locked entry has content
  (`Chat.ContextPresentIffLocked`), which holds for entries created by
  "lock to knowledge", since replies are never empty.
- **Dismissing the editor.** Cancel, the X button and a backdrop click all
  call `onClose`. `onClose` selects the provider if it is enabled, so
  dismissing can change the store's selection. It never changes a collection
  (`Page.DismissEffect`).
- **First save.** `onClose` reads the provider record of the render that
  opened the editor, which is the record before the save. Saving a first key
  therefore enables the provider without selecting it
  (`Scenario.FirstSaveDoesNotSelect`). Saving an empty key on an enabled
  provider disables it and still selects it
  (`Page.SaveEmptyKeyDisablesButSelects`).
- **Duplicate ids.** Ids come from the clock, so they are not guaranteed
  unique (`Store.SameTickCollides`). Update, remove and lock therefore act on
  every record with the id, and `find` picks the first one. With two providers
  sharing an id, the toggle of the keyed one also enables the keyless one
  (`Page.ToggleSharedIdEnablesKeyless`). The "only with a key" guarantee
  covers every provider only when ids are unique
  (`Page.ToggleEnablesNothingKeyless`).
- **Patches.** A `Partial<…>` patch may name `id` or `timestamp`, so the model
  claims no immutability for them.

## Model

| member | source | states |
|---|---|---|
| `Store.Seed` | lib/store.ts:55-95 | the initial store has four providers with ids "1"–"4" (OpenAI, Anthropic, Google, Mistral), all disabled with empty keys and distinct ids; no knowledge, no chat, no selection |
| `Store.SeedCounts` | lib/store.ts:55-95 | nothing is active or locked at start |
| `Store.AddProvider` | lib/store.ts:97-103 | exactly one provider is appended, carrying the draft's fields and the id printed from the clock; earlier providers and the rest of the store are untouched; nothing checks that name or type is new |
| `Store.AddProviderKeepsIdsUnique` | lib/store.ts:97-103 | provider ids are unique after an add exactly when they were unique before and no existing id was printed from the new tick |
| `Store.UpdateProvider` | lib/store.ts:105-110 | every provider with the id takes exactly the patch's fields and keeps the others; all other providers, the length, the order and the other collections are unchanged |
| `Store.UpdateProviderUnknownId` | lib/store.ts:105-110 | an update for an id no provider has is a no-op |
| `Store.UpdateProviderEmptyPatch` | lib/store.ts:105-110 | a patch that names no field is a no-op |
| `Store.UpdateProviderIdempotent` | lib/store.ts:105-110 | repeating an update changes nothing more, even when the patch renames the matching providers |
| `Store.RemoveProvider` | lib/store.ts:112-115 | the remaining providers are exactly the old ones without the id; knowledge, chat and selection are not cascaded |
| `Store.RemoveProviderUnknownId` | lib/store.ts:112-115 | removing an unknown id is a no-op |
| `Store.RemoveProviderCount` | lib/store.ts:112-115 | removal drops exactly as many providers as carry the id |
| `Store.RemoveProviderOrder` | lib/store.ts:112-115 | removing from a concatenation removes from each part, so the survivors keep their relative order |
| `Store.AddKnowledge` | lib/store.ts:117-127 | exactly one entry is appended with the draft's fields, the clock-printed id and the timestamp; earlier entries and the other collections are unchanged |
| `Store.LockedCountAppend` | app/page.tsx:83 | the "Locked" figure of no entries is zero, and appending any entry adds one exactly when it is locked, so the figure is the number of locked entries |
| `Store.AddKnowledgeLockedCount` | lib/store.ts:117-127 | the locked count grows by one exactly when the added entry is locked |
| `Store.UpdateKnowledge` | lib/store.ts:129-134 | every entry with the id takes exactly the patch's fields (id and timestamp included) and keeps the others; all other entries are unchanged |
| `Store.UpdateKnowledgeUnknownId` | lib/store.ts:129-134 | an update for an unknown id is a no-op |
| `Store.RemoveKnowledge` | lib/store.ts:136-139 | the remaining entries are exactly the old ones without the id; the other collections and the selection are unchanged |
| `Store.RemoveKnowledgeUnknownId` | lib/store.ts:136-139 | removing an unknown id is a no-op |
| `Store.RemoveKnowledgeOrder` | lib/store.ts:136-139 | survivors keep their relative order |
| `Store.RemoveKnowledgeSingle` | lib/store.ts:136-139 | removing the only entry with an id leaves the entries before it followed by those after it, one fewer |
| `Store.LockKnowledge` | lib/store.ts:141-146 | every entry with the id has its `locked` flag flipped and nothing else changed; other entries are unchanged |
| `Store.LockKnowledgeTwice` | lib/store.ts:141-146 | locking the same id twice restores the store |
| `Store.AddMessage` | lib/store.ts:148-158 | exactly one message is appended with the draft's fields, the clock-printed id and the timestamp; earlier messages and the other collections are unchanged |
| `Store.SameTickCollides` | lib/store.ts:117-139 | two entries added in the same millisecond share an id, and removing that id drops both |
| `Store.NewIdInjective` | lib/store.ts:101 | generated ids are equal exactly when the clock readings are |
| `Text.Decimal` | lib/store.ts:123 | the printed clock reading is one or more decimal digits without a leading zero, one digit exactly below ten, ending in the reading's last digit |
| `Text.DecimalValueOf` | lib/store.ts:123 | reading the printed digits back as a decimal number gives the clock reading itself |
| `Text.DecimalInjective` | lib/store.ts:154 | distinct clock readings print differently |
| `Store.LateIdsAvoidSeed` | lib/store.ts:55-103 | an id printed from a reading of ten or more never equals a seed id |
| `Store.ClearHistory` | lib/store.ts:160 | the chat history, and only it, becomes empty |
| `Chat.ClearHistoryEmptiesPane` | lib/store.ts:160 | after clearing, the message list of the selected provider is empty and the pane state is unchanged |
| `Store.SetSelectedProvider` | lib/store.ts:162 | the selection takes any value, existing id or not, and nothing else changes |
| `Chat.SelectionSetsMode` | components/ChatInterface.tsx:66-87 | after selecting, the pane has no provider exactly when the selection is null or names no provider; otherwise it is ready for the first provider with the id if that one is enabled, and asks for its configuration if not |
| `Store.FindProvider` | components/ChatInterface.tsx:13 | the lookup returns the first provider carrying the id, or nothing exactly when no provider carries it |
| `Store.SelectedProvider` | components/ChatInterface.tsx:11-13 | the chat's provider exists exactly when the selection names the id of some provider, and it is the first provider in the list with that id |
| `Store.ActiveCount` | app/page.tsx:76 | the "Active" figure is at most the number of providers; it is zero exactly when none is enabled, and all of them when all are |
| `Store.ActiveCountAppend` | app/page.tsx:76 | the "Active" figure of no providers is zero, and appending any provider adds one exactly when it is enabled, so the figure is the number of enabled providers |
| `Store.LockedCount` | app/page.tsx:83 | the "Locked" figure (and the chat header's) is at most the number of entries, and zero exactly when none is locked |
| `Text.Trim` | components/ChatInterface.tsx:18 | the trimmed input is the contiguous middle of the input, with only ECMAScript white space cut from both ends and none left at either end |
| `Text.TrimEmpty` | components/ChatInterface.tsx:16 | the trimmed input is empty exactly when the input is all white space |
| `Text.TrimIdempotent` | components/ChatInterface.tsx:18 | trimming twice is trimming once |
| `Chat.ProviderMessages` | components/ChatInterface.tsx:63-64 | the shown messages are exactly the history's messages addressed to the selected id, in order |
| `Chat.Send` | components/ChatInterface.tsx:15-27 | send does nothing exactly when the trimmed input is empty, no provider is selected or it is disabled; otherwise one user message with the trimmed input for the selected id is appended, and the snapshot for the reply is taken |
| `Chat.ShownAfterAppend` | components/ChatInterface.tsx:63-64 | appending a message adds it to the end of the shown list exactly when it is addressed to the selected id; otherwise the list is unchanged |
| `Chat.SendNeedsReadyPane` | components/ChatInterface.tsx:66-87 | a send is possible exactly in the pane state that shows the input, given a non-blank input |
| `Chat.SentMessageShown` | components/ChatInterface.tsx:22-26 | the new user message appears at the end of the shown list |
| `Chat.ContextEmpty` | components/ChatInterface.tsx:30-38 | the context is empty exactly when no entry is locked, or one is and its content is empty |
| `Chat.ContextPresentIffLocked` | components/ChatInterface.tsx:30-38 | when every locked entry has content, the context is non-empty exactly when some entry is locked |
| `Chat.ContextLastThree` | components/ChatInterface.tsx:30-34 | with three or more locked entries, the context is the contents of the three most recent ones, oldest first, newline-separated |
| `Chat.ContextIgnoresUnlocked` | components/ChatInterface.tsx:30-34 | inserting an unlocked entry anywhere in the list leaves the context unchanged |
| `Chat.ReplyNamesProvider` | components/ChatInterface.tsx:40 | the reply contains the provider's name |
| `Chat.ReplyQuotesMessage` | components/ChatInterface.tsx:40 | the reply contains the user message in double quotes |
| `Chat.ReplyNamesType` | components/ChatInterface.tsx:42 | the reply contains the provider's type |
| `Chat.ReplyNoteIffContext` | components/ChatInterface.tsx:36-40 | right after the quoted message the reply carries the knowledge note exactly when the context is non-empty |
| `Chat.Deliver` | components/ChatInterface.tsx:29-48 | the timer appends one assistant message for the snapshot provider to the current store; its text, built from the send-time snapshot, names the provider and the type and quotes the message; the note is present exactly when the snapshot's context is non-empty |
| `Chat.SendThenReply` | components/ChatInterface.tsx:15-51 | after a send and its reply, whatever was appended in between, the history holds the user message then the assistant reply, both for the selected id, and the reply quotes the trimmed input |
| `Chat.ReplyShownOnlyForSenderThread` | components/ChatInterface.tsx:44-48 | the reply appears at the end of the shown list when its provider is still selected; otherwise it does not appear |
| `Chat.LockMessage` | components/ChatInterface.tsx:54-61 | exactly one locked entry with the content is appended, tagged "chat" plus the provider's type ("unknown" without a provider), with the provider's name as source ("Unknown" without one or with an empty name) |
| `Chat.LockMessageCount` | components/ChatInterface.tsx:54-61 | locking a reply raises the locked count by exactly one |
| `ProviderConfig.SaveKey` | components/ProviderConfig.tsx:18-22 | one update sets the key on every provider with the id and enables it exactly when the key is non-empty; nothing else changes |
| `Page.ConfigTarget` | app/page.tsx:17 | the editor shows a provider exactly when the configured id is non-empty and some provider carries it, and then it shows the first such provider |
| `Page.OpenConfig` | app/page.tsx:117 | a card click records the card's id as the one being configured and changes no store state |
| `Page.OpenConfigShowsCard` | app/page.tsx:117 | after a card click the editor is shown exactly when the card's id is non-empty; it shows a provider with that id, and with unique ids the clicked card's own record |
| `Page.Toggle` | app/page.tsx:110-116 | a disabled keyless card records its id as the one being configured and changes no store state; otherwise every provider with its id gets `enabled` set to the negation of the card's flag and nothing else changes |
| `Page.ToggleEnablesOnlyWithKey` | app/page.tsx:111-114 | the toggled card becomes enabled only if it has a key; disabling always succeeds |
| `Page.ToggleEnablesNothingKeyless` | app/page.tsx:111-114 | with unique ids, a toggle enables no provider except the toggled card, and only when it has a key |
| `Page.ToggleSharedIdEnablesKeyless` | app/page.tsx:114 | with a shared id, the toggle of the keyed provider also enables a keyless one |
| `Page.ToggleKeylessShowsCard` | app/page.tsx:111-112 | the toggle of a disabled keyless card shows the same editor as a click on it |
| `Page.ToggleActiveCount` | app/page.tsx:110-116 | with unique ids, enabling a keyed card raises the Active figure by one |
| `Page.Close` | app/page.tsx:163-168 | closing empties the configured id, and moves the selection to the shown provider exactly when the shown record is enabled; no collection changes |
| `Page.LeaveConfig` | components/ProviderConfig.tsx:18-24 | leaving the editor closes it and selects the shown provider exactly when its pre-save record was enabled, leaving knowledge and chat alone; a dismissal changes no provider; Save sets the typed key on every provider with the shown id, enables exactly those when the key is non-empty, and changes no other provider |
| `Page.CloseReadiesChat` | app/page.tsx:163-168 | leaving the editor of an enabled provider makes the chat pane ready for it, unless an empty key was saved, which leaves it asking for configuration |
| `Page.SaveEffect` | components/ProviderConfig.tsx:18-24 | after Save, every provider with the id has the new key and is enabled exactly when the key is non-empty; the editor is closed; the selection moves only if the provider was enabled before the save |
| `Page.SaveEmptyKeyDisablesButSelects` | components/ProviderConfig.tsx:21 | an empty key disables an enabled provider, which still becomes the selection |
| `Page.SaveBlankKeyEnables` | components/ProviderConfig.tsx:21 | a key of one space counts as non-empty and enables the provider |
| `Page.SaveUnchangedKey` | components/ProviderConfig.tsx:14 | saving the key the editor started with keeps the key and re-derives `enabled` from it |
| `Page.DismissEffect` | components/ProviderConfig.tsx:111 | Cancel (like X and the backdrop) changes no collection and closes the editor; the selection changes only to the provider itself, and only when it is enabled |
| `Scenario.SeedToggleOpensEditor` | app/page.tsx:111-112 | from the seed, toggling the first card opens its editor and changes nothing else |
| `Scenario.FirstSaveDoesNotSelect` | app/page.tsx:163-167 | saving "sk-test" on provider "1" enables it alone and leaves the selection empty |
| `Scenario.ReopenAndDismissSelects` | app/page.tsx:163-167 | reopening and dismissing the editor of the enabled provider selects it |
| `Scenario.TrimHello` | components/ChatInterface.tsx:18 | "  Hello " trims to "Hello" |
| `Scenario.SendHello` | components/ChatInterface.tsx:15-26 | sending "  Hello " to the selected provider "1" appends one user message "Hello" for "1" |
| `Scenario.ReplyToHello` | components/ChatInterface.tsx:29-48 | the later reply is the second message, from the assistant, for "1", and quotes "Hello" |
| `Scenario.WalkSelectsAfterSecondClose` | app/page.tsx:110-168 | toggle, save, reopen and dismiss lead from the seed to provider "1" keyed, enabled and selected |
| `Seqs.FilterAppend` | lib/store.ts:114 | `filter` distributes over concatenation: the order-preservation fact every removal rests on |
| `Seqs.JoinEmpty` | components/ChatInterface.tsx:34 | a newline join is empty exactly for no parts or one empty part |

## Left out

- Persistence: the `persist` middleware that saves the whole state under the
  key `ai-control-center-storage` and reloads it at startup is library I/O.
  The model treats the saved and reloaded state as the same `State` value.
- The clock: `Date.now()` readings are parameters (`idTick` as a `nat`,
  `stamp` as an `int`). Clock readings before 1970 (negative) are not
  modelled for ids.
- The 1.5-second timer: its scheduling, the `isLoading` flag it clears, and
  what happens when the view unmounts before it fires are not modelled.
  `Chat.Deliver` is the callback's effect on the store, applied to whatever
  state the caller passes.
- Component-local UI state is not modelled: the input box, its clearing on
  send, `isLoading`, `showKey`, and the editor's keystrokes. Only the key that
  Save submits matters.
- Rendering is not modelled: animations, colours, icons, date formatting, and
  the views `components/KnowledgePanel.tsx`,
  `components/DataFlowVisualization.tsx`, `components/ProviderCard.tsx` and
  `app/layout.tsx`. They only render or count store data.
- Store.UpdateProvider: a patch field present with the value `undefined` (which
  a spread would copy) is not modelled; a field is either named with a value
  or absent.
- Store.UpdateKnowledge: the same restriction on `undefined` patch fields.
- Store.UpdateKnowledge: a patch's `timestamp` is an integer, while the
  source type allows any JavaScript number, fractions included; clock
  readings are whole milliseconds, so only a caller passing a fractional
  timestamp would differ.
- Page.Toggle: takes the card's position in the provider list, because the
  handler exists only for a rendered card.
- Page.LeaveConfig: requires the editor to be open (`ConfigTarget` present),
  because Save and the dismiss paths exist only while it is rendered.
- Chat.ReplyText: the fixed wording is modelled as written, but the
  properties proved are containment of the name, the quoted message and the
  type, plus the position of the optional note, rather than equality with a
  full template.
- JavaScript string lengths count UTF-16 code units and Dafny counts
  characters. The only length test in the core (`apiKey.length > 0`) is an
  emptiness test, so the two agree.
