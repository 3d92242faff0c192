/** The provider editor (`components/ProviderConfig.tsx`): it edits a copy of
    the provider's key and leaves either by saving it or by dismissing. */
module ProviderConfig {
  import opened Options
  import opened Store

  /** How the dialog is left: Save with the typed key, or Cancel, the X
      button or a backdrop click, which all call `onClose` alone. */
  datatype Exit = Save(key: string) | Dismiss

  /** The key field starts as the provider's current key. */
  function InitialKey(p: Provider): string {
    p.apiKey
  }

  /** `handleSave` before `onClose`: one update setting the key and enabling
      the provider exactly when the key is non-empty. A key of white space
      counts as non-empty. */
  function SaveKey(s: State, p: Provider, key: string): (r: State)
    ensures |r.providers| == |s.providers|
    ensures forall i :: 0 <= i < |s.providers| && s.providers[i].id == p.id ==>
              r.providers[i] == s.providers[i].(apiKey := key, enabled := key != "")
    ensures forall i :: 0 <= i < |s.providers| && s.providers[i].id != p.id ==>
              r.providers[i] == s.providers[i]
    ensures r.knowledge == s.knowledge && r.chatHistory == s.chatHistory && r.selected == s.selected
  {
    UpdateProvider(s, p.id, KeyPatch(key, |key| > 0))
  }
}

/** The dashboard page (`app/page.tsx`): the provider cards' toggle and click,
    and the editor's `onClose`, over the store plus the page's one piece of
    local state, the id of the provider being configured. */
module Page {
  import opened Options
  import opened Seqs
  import opened Store
  import ProviderConfig
  import Chat

  datatype Page = Page(store: State, configuring: Option<string>)

  /** The editor is shown for the first provider whose id is being
      configured; an empty id is falsy, so it shows nothing. */
  function ConfigTarget(pg: Page): (r: Option<Provider>)
    ensures r.Some? <==>
              pg.configuring.Some? && pg.configuring.value != ""
              && exists j :: 0 <= j < |pg.store.providers| && pg.store.providers[j].id == pg.configuring.value
    ensures r.Some? ==>
              exists k :: 0 <= k < |pg.store.providers| && r.value == pg.store.providers[k]
                          && r.value.id == pg.configuring.value
                          && forall j :: 0 <= j < k ==> pg.store.providers[j].id != pg.configuring.value
  {
    match pg.configuring
    case None => None
    case Some(c) =>
      if c == "" then None
      else match FindProvider(pg.store.providers, c)
        case None => None
        case Some(k) => Some(pg.store.providers[k])
  }

  /** A click on card `i` records the card's id as the one being configured. */
  function OpenConfig(pg: Page, i: nat): (r: Page)
    requires i < |pg.store.providers|
    ensures r.store == pg.store && r.configuring == Some(pg.store.providers[i].id)
  {
    pg.(configuring := Some(pg.store.providers[i].id))
  }

  /** The toggle of card `i`: for a disabled provider with no key it records
      the card's id as the one being configured and changes no store state;
      otherwise `enabled` of every provider with that id is set to the
      negation of the card's flag. */
  function Toggle(pg: Page, i: nat): (r: Page)
    requires i < |pg.store.providers|
    ensures var p := pg.store.providers[i];
            !p.enabled && p.apiKey == "" ==> r.store == pg.store && r.configuring == Some(p.id)
    ensures var p := pg.store.providers[i];
            p.enabled || p.apiKey != "" ==>
              r.configuring == pg.configuring
              && |r.store.providers| == |pg.store.providers|
              && (forall j :: 0 <= j < |pg.store.providers| && pg.store.providers[j].id == p.id ==>
                    r.store.providers[j] == pg.store.providers[j].(enabled := !p.enabled))
              && (forall j :: 0 <= j < |pg.store.providers| && pg.store.providers[j].id != p.id ==>
                    r.store.providers[j] == pg.store.providers[j])
    ensures r.store.knowledge == pg.store.knowledge && r.store.chatHistory == pg.store.chatHistory
    ensures r.store.selected == pg.store.selected
  {
    var p := pg.store.providers[i];
    if !p.enabled && p.apiKey == "" then pg.(configuring := Some(p.id))
    else pg.(store := UpdateProvider(pg.store, p.id, EnabledPatch(!p.enabled)))
  }

  /** `onClose`, given the provider record of the render that showed the
      editor: the editor closes, and the selection moves to that provider
      when THAT record was enabled. */
  function Close(pg: Page, shown: Provider): (r: Page)
    ensures r.configuring == None
    ensures r.store.selected == if shown.enabled then Some(shown.id) else pg.store.selected
    ensures r.store.providers == pg.store.providers && r.store.knowledge == pg.store.knowledge
    ensures r.store.chatHistory == pg.store.chatHistory
  {
    var s := if shown.enabled then SetSelectedProvider(pg.store, Some(shown.id)) else pg.store;
    Page(s, None)
  }

  /** Leaving the open editor: Save stores the key and then closes with the
      record as it was BEFORE the save; dismissing only closes. */
  function LeaveConfig(pg: Page, exit: ProviderConfig.Exit): (r: Page)
    requires ConfigTarget(pg).Some?
    ensures r.configuring == None
    ensures var p := ConfigTarget(pg).value;
            r.store.selected == if p.enabled then Some(p.id) else pg.store.selected
    ensures r.store.knowledge == pg.store.knowledge && r.store.chatHistory == pg.store.chatHistory
    ensures exit.Dismiss? ==> r.store.providers == pg.store.providers
    ensures var p := ConfigTarget(pg).value;
            exit.Save? ==>
              |r.store.providers| == |pg.store.providers|
              && (forall j :: 0 <= j < |pg.store.providers| && pg.store.providers[j].id == p.id ==>
                    r.store.providers[j] == pg.store.providers[j].(apiKey := exit.key, enabled := exit.key != ""))
              && (forall j :: 0 <= j < |pg.store.providers| && pg.store.providers[j].id != p.id ==>
                    r.store.providers[j] == pg.store.providers[j])
  {
    var p := ConfigTarget(pg).value;
    match exit
    case Save(key) => Close(pg.(store := ProviderConfig.SaveKey(pg.store, p, key)), p)
    case Dismiss => Close(pg, p)
  }

  // ---------------------------------------------------------------------------
  // Properties
  // ---------------------------------------------------------------------------

  /** A card click shows an editor exactly when the card's id is non-empty;
      the editor shows a provider with that id, and with unique ids it is the
      clicked card's own record. */
  lemma OpenConfigShowsCard(pg: Page, i: nat)
    requires i < |pg.store.providers|
    ensures ConfigTarget(OpenConfig(pg, i)).Some? <==> pg.store.providers[i].id != ""
    ensures ConfigTarget(OpenConfig(pg, i)).Some? ==> ConfigTarget(OpenConfig(pg, i)).value.id == pg.store.providers[i].id
    ensures UniqueProviderIds(pg.store.providers) && pg.store.providers[i].id != "" ==>
              ConfigTarget(OpenConfig(pg, i)) == Some(pg.store.providers[i])
  {
    var ps := pg.store.providers;
    var t := ConfigTarget(OpenConfig(pg, i));
    if ps[i].id != "" {
      assert t.Some?;
      var k :| 0 <= k < |ps| && t.value == ps[k] && t.value.id == ps[i].id
               && forall j :: 0 <= j < k ==> ps[j].id != ps[i].id;
      if UniqueProviderIds(ps) {
        assert k == i;
      }
    }
  }

  /** The toggle of a disabled key-less card shows the same editor as a click
      on that card. */
  lemma ToggleKeylessShowsCard(pg: Page, i: nat)
    requires i < |pg.store.providers|
    requires !pg.store.providers[i].enabled && pg.store.providers[i].apiKey == ""
    ensures ConfigTarget(Toggle(pg, i)) == ConfigTarget(OpenConfig(pg, i))
  {
  }

  /** After leaving the editor, the shown provider's position `k` holds its
      saved record, no earlier provider carries its id, and its id is
      selected when it was enabled. */
  lemma LeaveKeepsFirst(pg: Page, exit: ProviderConfig.Exit, k: nat)
    requires ConfigTarget(pg).Some?
    requires k < |pg.store.providers| && pg.store.providers[k] == ConfigTarget(pg).value
    requires forall j :: 0 <= j < k ==> pg.store.providers[j].id != pg.store.providers[k].id
    ensures var p := ConfigTarget(pg).value;
            var r := LeaveConfig(pg, exit).store;
            && k < |r.providers|
            && r.providers[k] == (if exit.Save? then p.(apiKey := exit.key, enabled := exit.key != "") else p)
            && (forall j :: 0 <= j < k ==> r.providers[j].id != p.id)
            && (p.enabled ==> r.selected == Some(p.id))
  {
  }

  /** Leaving the editor of an enabled provider makes the chat pane ready for
      it: this is what `onClose` selects the provider for. An empty saved key
      leaves the pane asking for configuration instead. */
  lemma CloseReadiesChat(pg: Page, exit: ProviderConfig.Exit)
    requires ConfigTarget(pg).Some? && ConfigTarget(pg).value.enabled
    ensures var p := ConfigTarget(pg).value;
            var q := if exit.Save? then p.(apiKey := exit.key, enabled := exit.key != "") else p;
            Chat.ModeOf(LeaveConfig(pg, exit).store) == if q.enabled then Chat.Ready(q) else Chat.Disabled(q)
  {
    var p := ConfigTarget(pg).value;
    var ps := pg.store.providers;
    var k :| 0 <= k < |ps| && p == ps[k] && p.id == pg.configuring.value
             && forall j :: 0 <= j < k ==> ps[j].id != pg.configuring.value;
    LeaveKeepsFirst(pg, exit, k);
    Chat.ModeOfFirst(LeaveConfig(pg, exit).store, k);
  }

  /** Through the toggle, the card's provider becomes enabled only if it has a
      key; disabling always succeeds. */
  lemma ToggleEnablesOnlyWithKey(pg: Page, i: nat)
    requires i < |pg.store.providers|
    ensures var p := pg.store.providers[i];
            !p.enabled && Toggle(pg, i).store.providers[i].enabled ==> p.apiKey != ""
    ensures var p := pg.store.providers[i];
            p.enabled ==> !Toggle(pg, i).store.providers[i].enabled
  {
  }

  /** With unique provider ids, no provider at all becomes enabled through a
      toggle unless it is the toggled card and it has a key. */
  lemma ToggleEnablesNothingKeyless(pg: Page, i: nat)
    requires i < |pg.store.providers|
    requires UniqueProviderIds(pg.store.providers)
    ensures forall j :: 0 <= j < |pg.store.providers| ==>
              (!pg.store.providers[j].enabled && Toggle(pg, i).store.providers[j].enabled ==>
                 j == i && pg.store.providers[j].apiKey != "")
  {
  }

  /** Ids are not unique in general: with two providers sharing an id, the
      toggle of the keyed one also enables the keyless one. */
  lemma ToggleSharedIdEnablesKeyless()
    ensures var keyed := Provider("7", "A", Custom, "k", false, "", "");
            var keyless := Provider("7", "B", Custom, "", false, "", "");
            var r := Toggle(Page(State([keyed, keyless], [], [], None), None), 0);
            r.store.providers[1].enabled && r.store.providers[1].apiKey == ""
  {
  }

  /** Toggling a card with unique ids changes the active count by exactly
      one when it enables. */
  lemma ToggleActiveCount(pg: Page, i: nat)
    requires i < |pg.store.providers|
    requires UniqueProviderIds(pg.store.providers)
    requires !pg.store.providers[i].enabled && pg.store.providers[i].apiKey != ""
    ensures ActiveCount(Toggle(pg, i).store) == ActiveCount(pg.store) + 1
  {
    var r := Toggle(pg, i).store;
    FilterGrowsByOne(pg.store.providers, r.providers, i, IsEnabled);
  }

  /** Saving sets the key on the configured provider and enables it exactly
      when the key is non-empty; the selection moves to it only if it was
      enabled before the save, so a first key does not select it. */
  lemma SaveEffect(pg: Page, key: string)
    requires ConfigTarget(pg).Some?
    ensures var p := ConfigTarget(pg).value;
            var r := LeaveConfig(pg, ProviderConfig.Save(key));
            r.configuring == None
            && (forall j :: 0 <= j < |pg.store.providers| && pg.store.providers[j].id == p.id ==>
                  r.store.providers[j].apiKey == key && r.store.providers[j].enabled == (key != ""))
            && r.store.selected == (if p.enabled then Some(p.id) else pg.store.selected)
  {
  }

  /** An empty key disables even an enabled provider, yet the provider, being
      enabled in the snapshot, becomes the selection. */
  lemma SaveEmptyKeyDisablesButSelects(pg: Page)
    requires ConfigTarget(pg).Some? && ConfigTarget(pg).value.enabled
    ensures var p := ConfigTarget(pg).value;
            var r := LeaveConfig(pg, ProviderConfig.Save(""));
            r.store.selected == Some(p.id)
            && forall j :: 0 <= j < |r.store.providers| && r.store.providers[j].id == p.id ==>
                 !r.store.providers[j].enabled
  {
  }

  /** A key of white space enables the provider. */
  lemma SaveBlankKeyEnables(pg: Page)
    requires ConfigTarget(pg).Some?
    ensures var p := ConfigTarget(pg).value;
            var r := LeaveConfig(pg, ProviderConfig.Save(" "));
            forall j :: 0 <= j < |pg.store.providers| && pg.store.providers[j].id == p.id ==>
              r.store.providers[j].enabled
  {
  }

  /** Saving the key the editor started with keeps the key and re-derives
      `enabled` from it. */
  lemma SaveUnchangedKey(pg: Page)
    requires ConfigTarget(pg).Some?
    ensures var p := ConfigTarget(pg).value;
            var r := LeaveConfig(pg, ProviderConfig.Save(ProviderConfig.InitialKey(p)));
            forall j :: 0 <= j < |pg.store.providers| && pg.store.providers[j].id == p.id ==>
              r.store.providers[j] == pg.store.providers[j].(apiKey := p.apiKey, enabled := p.apiKey != "")
  {
  }

  /** Dismissing changes no collection; it moves the selection to the
      provider only when that provider is enabled. */
  lemma DismissEffect(pg: Page)
    requires ConfigTarget(pg).Some?
    ensures var p := ConfigTarget(pg).value;
            var r := LeaveConfig(pg, ProviderConfig.Dismiss);
            r.store.providers == pg.store.providers && r.store.knowledge == pg.store.knowledge
            && r.store.chatHistory == pg.store.chatHistory && r.configuring == None
            && (r.store.selected != pg.store.selected ==> p.enabled && r.store.selected == Some(p.id))
  {
  }
}
