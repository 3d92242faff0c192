/** The end-to-end walk through the dashboard: configure the first seed
    provider, select it, send a message and receive the reply. */
module Scenario {
  import opened Options
  import opened Seqs
  import Text
  import opened Store
  import opened Chat
  import opened Page
  import ProviderConfig

  /** The seed with provider "1" keyed "sk-test" and enabled. */
  function Configured(): State {
    var seed := Seed();
    seed.(providers := [seed.providers[0].(apiKey := "sk-test", enabled := true)] + seed.providers[1..])
  }

  /** The toggle of the key-less first seed card only opens its editor. */
  lemma SeedToggleOpensEditor()
    ensures Toggle(Page(Seed(), None), 0) == Page(Seed(), Some("1"))
  {
  }

  /** Saving "sk-test" enables provider "1" and nothing else, and does not
      select it: it was disabled in the snapshot `onClose` reads. */
  lemma FirstSaveDoesNotSelect()
    ensures LeaveConfig(Page(Seed(), Some("1")), ProviderConfig.Save("sk-test")) == Page(Configured(), None)
  {
    var seed := Seed();
    assert FindProvider(seed.providers, "1") == Some(0);
    var r := LeaveConfig(Page(seed, Some("1")), ProviderConfig.Save("sk-test"));
    assert r.store.providers == Configured().providers;
  }

  /** Opening the editor of the now enabled provider and dismissing it
      selects the provider. */
  lemma ReopenAndDismissSelects()
    ensures LeaveConfig(OpenConfig(Page(Configured(), None), 0), ProviderConfig.Dismiss)
            == Page(Configured().(selected := Some("1")), None)
  {
    assert FindProvider(Configured().providers, "1") == Some(0);
  }

  /** Surrounding spaces are trimmed from the input. */
  lemma TrimHello()
    ensures Text.Trim("  Hello ") == "Hello"
  {
    var s := "  Hello ";
    assert Text.IsJsSpace(s[0]) && Text.IsJsSpace(s[1]) && !Text.IsJsSpace(s[2]);
    assert Text.SkipForward(s, 2) == 2;
    assert Text.SkipForward(s, 0) == 2;
    assert Text.IsJsSpace(s[7]) && !Text.IsJsSpace(s[6]);
    assert Text.SkipBackward(s, 2, 7) == 7;
    assert Text.SkipBackward(s, 2, 8) == 7;
    assert s[2..7] == "Hello";
  }

  /** Sending "  Hello " to the selected provider appends the trimmed text as
      its user message. */
  lemma SendHello(tick: nat, stamp: int)
    ensures var sent := Send(Configured().(selected := Some("1")), "  Hello ", tick, stamp);
            && sent.Sent?
            && sent.store.chatHistory == [ChatMessage(NewId(tick), "1", "Hello", stamp, User)]
            && sent.pending.userMessage == "Hello" && sent.pending.provider.id == "1"
  {
    var s := Configured().(selected := Some("1"));
    assert s.providers[0].id == "1" && s.providers[0].enabled;
    assert FindProvider(s.providers, "1") == Some(0);
    assert SelectedProvider(s) == Some(s.providers[0]);
    TrimHello();
    assert CanSend(s, "  Hello ");
    assert s.chatHistory == [];
  }

  /** After the delay, the assistant reply for provider "1" quotes "Hello". */
  lemma ReplyToHello(t1: nat, t2: nat, stamp1: int, stamp2: int)
    ensures var sent := Send(Configured().(selected := Some("1")), "  Hello ", t1, stamp1);
            sent.Sent? &&
            var replied := Deliver(sent.store, sent.pending, t2, stamp2);
            && |replied.chatHistory| == 2
            && replied.chatHistory[1].role == Assistant
            && replied.chatHistory[1].providerId == "1"
            && sent.pending.userMessage == "Hello"
            && Contains(replied.chatHistory[1].content, "\"" + sent.pending.userMessage + "\"")
  {
    var s := Configured().(selected := Some("1"));
    SendHello(t1, stamp1);
    var sent := Send(s, "  Hello ", t1, stamp1);
    var pend := sent.pending;
    var replied := Deliver(sent.store, pend, t2, stamp2);
    assert replied.chatHistory == sent.store.chatHistory + [ChatMessage(NewId(t2), pend.provider.id, ReplyFor(pend), stamp2, Assistant)];
  }

  /** The whole walk: toggle, save, reopen and dismiss, then the exchange of
      `ReplyToHello`. */
  lemma WalkSelectsAfterSecondClose()
    ensures ConfigTarget(Toggle(Page(Seed(), None), 0)).Some?
    ensures var saved := LeaveConfig(Toggle(Page(Seed(), None), 0), ProviderConfig.Save("sk-test"));
            saved.store.selected == None && ConfigTarget(OpenConfig(saved, 0)).Some?
    ensures var saved := LeaveConfig(Toggle(Page(Seed(), None), 0), ProviderConfig.Save("sk-test"));
            var chosen := LeaveConfig(OpenConfig(saved, 0), ProviderConfig.Dismiss);
            chosen.store == Configured().(selected := Some("1"))
  {
    SeedToggleOpensEditor();
    FirstSaveDoesNotSelect();
    ReopenAndDismissSelects();
  }
}
