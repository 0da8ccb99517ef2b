// End-to-end runs of the extension on concrete inputs: the popup, the
// background store and a page's content script, with each message handed
// on by hand where the browser would deliver it.

module Scenarios {
  import opened Protocol
  import opened Geometry
  import opened Content
  import opened Background
  import opened Popup

  /** Pressing at (100, 100) in a fresh session and dragging to (300, 250)
      leaves one 200 by 150 rectangle at (100, 100), still being drawn. */
  method DragRectangle() returns (page: Page)
    ensures fresh(page) && page.Valid() && page.overlay && page.overlayPointer && page.drawing && page.outbox == []
    ensures Snapshot(page.elements) == [Shape("blur-1", Rect, 100, 100, 200, 150, "")]
  {
    page := new Page();
    page.StartBlurSession();
    page.MouseDown(0, 100, 100, "blur-1");
    assert |page.elements| == 1 && page.elements[0].shape == Shape("blur-1", Rect, 100, 100, 0, 0, "");
    assert page.current == Some(InProgress(page.elements[0].node, "blur-1"));
    page.MouseMove(300, 250);
    assert DragBox(100, 100, 300, 250) == Box(100, 100, 200, 150);
    assert page.elements[0].shape == Shape("blur-1", Rect, 100, 100, 200, 150, "");
  }

  /** Releasing the mouse and finishing hands that one record to the
      background to be saved. */
  method DrawRectangle() returns (page: Page)
    ensures fresh(page)
    ensures page.outbox == [[Shape("blur-1", Rect, 100, 100, 200, 150, "")]]
  {
    page := DragRectangle();
    page.MouseUp();
    page.Finish();
  }

  /** The finished rectangle is stored for its tab, comes back from the
      store, and a reload re-creates exactly that record. */
  method DrawFinishReload() {
    var page := DrawRectangle();
    var rect := page.outbox[0][0];

    var store := new Store();
    store.OnInstalled();
    var saved := store.OnMessage(Some(7), SaveBlurs(page.outbox[0]));
    assert saved == Saved;
    var got := store.OnMessage(Some(7), GetBlurs(None));
    assert got == Blurs([rect]);

    var reloaded := new Page();
    reloaded.InitialLoad(store.isEnabled, store.blurIntensity, Some(got.blurs));
    assert reloaded.enabled && reloaded.blurIntensity == 16;
    assert Snapshot(reloaded.elements) == [rect];
  }

  /** Moving the slider to 24 with two shapes on the page stores 24 and
      gives both shapes a 24 pixel blur, leaving their records alone. */
  method SliderToTwentyFour() {
    var store := new Store();
    store.OnInstalled();
    var panel := new Panel.Initialize(7, store);
    assert panel.intensity == 16;

    var page := new Page();
    var a := Shape("a", Rect, 0, 0, 10, 10, "");
    var b := Shape("b", Circle, 20, 20, 5, 5, "");
    page.ApplyAllBlurs([a, b]);
    assert |page.elements| == 2;

    panel.OnIntensityInput(store, 24);
    assert panel.sent == [UpdateIntensity(24)];
    var acked := page.HandleMessage(panel.sent[0]);
    assert acked;
    assert page.blurIntensity == 24;
    assert page.elements[0].blur == 24 && page.elements[1].blur == 24;
    assert Snapshot(page.elements) == [a, b];
    assert IntensitySetting(store.blurIntensity) == 24;
  }

  /** A store holding one saved rectangle for tab 7, and a popup opened on
      that tab with "  Meeting " typed into the name field. */
  method MeetingSetup() returns (store: Store, panel: Panel, rect: Shape)
    ensures fresh(store) && fresh(panel)
    ensures rect == Shape("blur-1", Rect, 100, 100, 200, 150, "")
    ensures store.tabBlurs == map[7 := [rect]] && store.profiles == map[]
    ensures store.sessionFlags == map[]
    ensures panel.tab == 7 && panel.nameInput == "  Meeting " && panel.sent == []
    ensures Trim(panel.nameInput) == "Meeting"
  {
    store := new Store();
    store.OnInstalled();
    rect := Shape("blur-1", Rect, 100, 100, 200, 150, "");
    var saved := store.OnMessage(Some(7), SaveBlurs([rect]));
    panel := new Panel.Initialize(7, store);
    panel.nameInput := "  Meeting ";
    MeetingTrimmed();
  }

  /** The name typed with padding is saved under the bare word. */
  lemma MeetingTrimmed()
    ensures Trim("  Meeting ") == "Meeting"
  {
    var w := "Meeting";
    assert w[0] == 'M' && w[|w| - 1] == 'g';
    assert Tight(w);
    assert AllWs("  ") && AllWs(" ");
    assert "  " + w + " " == "  Meeting ";
    TrimPadded("  ", w, " ");
  }

  /** Saving a profile as written stores nothing: GET_BLURS from the popup
      has no sender tab, so the listener throws. */
  method MeetingAsWritten() {
    var store, panel, rect := MeetingSetup();
    panel.SaveProfileAsWritten(store);
    assert store.profiles == map[];
    assert panel.nameInput == "  Meeting ";
  }

  /** With the tab in the payload the trimmed name "Meeting" is stored,
      listed and selected, and the name field is cleared. */
  method MeetingSaved() {
    var store, panel, rect := MeetingSetup();
    panel.SaveProfile(store);
    assert store.profiles == map["Meeting" := [rect]];
    assert panel.selected == "Meeting" && panel.nameInput == "";
    assert |panel.options| == 2 && panel.options[1] == "Meeting" by {
      assert "Meeting" in store.profiles.Keys;
    }
  }

  /** Choosing the saved profile applies its shapes to the page and flags
      the session; deleting it leaves only the placeholder. */
  method MeetingChosenThenDeleted() {
    var store, panel, rect := MeetingSetup();
    panel.SaveProfile(store);
    assert store.profiles == map["Meeting" := [rect]];

    panel.OnProfileChange(store, "Meeting");
    assert panel.sent == [ApplyBlurs([rect])];
    assert store.sessionFlags[7] && panel.active;
    var page := new Page();
    var acked := page.HandleMessage(panel.sent[0]);
    assert Snapshot(page.elements) == [rect];

    panel.OnDeleteProfile(store);
    assert store.profiles == map[];
    assert panel.options == [""] && panel.selected == "";
  }

  /** The peek shortcut hides every overlay, and pressing it again shows
      them all, the saved records never changing. */
  method PeekTwice() {
    var page := new Page();
    var a := Shape("a", Rect, 0, 0, 10, 10, "");
    page.ApplyAllBlurs([a]);
    TogglePeek(page);
    assert !page.elements[0].shown && page.peeking;
    TogglePeek(page);
    assert page.elements[0].shown && !page.peeking;
    assert Snapshot(page.elements) == [a];
  }

  /** Switching the extension off from the popup makes the page drop its
      overlays without saving, and it then ignores everything but
      SET_ENABLED. */
  method SwitchOff() {
    var store := new Store();
    store.OnInstalled();
    var panel := new Panel.Initialize(7, store);
    var page := new Page();
    page.ApplyAllBlurs([Shape("a", Rect, 0, 0, 10, 10, "")]);

    panel.OnEnableChange(store, false);
    assert panel.sent == [SetEnabled(false), ClearAllBlurs];
    var first := page.HandleMessage(panel.sent[0]);
    assert first && page.elements == [] && page.outbox == [] && !page.indicator;
    var second := page.HandleMessage(panel.sent[1]);
    assert !second && page.outbox == [];
    assert !EnabledSetting(store.isEnabled);
  }

  /** Switching back on touches nothing but the flag; a clear from the
      popup then removes the overlays and the indicator and saves `[]`. */
  method SwitchOnThenClear() {
    var page := new Page();
    page.StartBlurSession();
    page.SetActiveTool(Circle);
    page.ApplyAllBlurs([Shape("a", Rect, 0, 0, 10, 10, "")]);
    var on := page.HandleMessage(SetEnabled(true));
    assert on && page.mode == Circle && |page.elements| == 1 && page.indicator;
    var cleared := page.HandleMessage(ClearAllBlurs);
    assert cleared && page.elements == [] && !page.indicator && page.outbox == [[]];
    assert page.mode == Circle && page.sessionActive;
  }

  /** Loading while switched off applies nothing and leaves the clip
      definitions alone. */
  method LoadWhileOff() {
    var page := new Page();
    page.ApplyClipPath("a", "M 0 0");
    page.InitialLoad(Some(false), None, Some([Shape("b", Rect, 0, 0, 5, 5, "")]));
    assert !page.enabled && page.elements == [];
    assert page.clipDefs == map[ClipKey("a") := "M 0 0"];
  }

  /** The slider set to 0 stores the numeral "0", which a reload keeps: the
      page then blurs by 0 pixels, not by the default 16. */
  method SliderToZeroThenReload() {
    var store := new Store();
    store.OnInstalled();
    var panel := new Panel.Initialize(7, store);
    panel.OnIntensityInput(store, 0);
    var page := new Page();
    page.InitialLoad(store.isEnabled, store.blurIntensity, None);
    assert page.enabled && page.blurIntensity == 0;
    var reopened := new Panel.Initialize(7, store);
    assert reopened.intensity == 0;
  }

  /** Finishing while peeking saves the hidden overlay with no position or
      size, and a reload brings it back that way. */
  method PeekThenFinish() {
    var page := new Page();
    var a := Shape("a", Rect, 10, 20, 30, 40, "");
    page.ApplyAllBlurs([a]);
    assert page.elements[0].shape == a && page.elements[0].shown;
    page.StartBlurSession();
    assert !page.peeking && page.elements[0].shape == a;
    TogglePeek(page);
    assert page.elements[0].shape == a && !page.elements[0].shown;
    var collapsed := Shape("a", Rect, 0, 0, 0, 0, "");
    assert Snapshot(page.elements) == [collapsed];
    page.Finish();
    assert page.outbox == [[collapsed]];

    var reloaded := new Page();
    reloaded.InitialLoad(Some(true), None, Some(page.outbox[0]));
    assert Snapshot(reloaded.elements) == [collapsed];
  }
}
