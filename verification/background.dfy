// The background worker: install-time defaults, the SAVE_BLURS / GET_BLURS
// handler over the per-tab shape lists in local storage, and the "peek"
// shortcut that hides or shows every overlay on a page.

module Background {
  import opened Protocol
  import opened Content

  /** Messages sent with chrome.runtime.sendMessage. GET_BLURS may carry a
      tab id in its payload. */
  datatype Request = SaveBlurs(blurs: seq<Shape>) | GetBlurs(payloadTab: Option<TabId>) | OtherRequest

  /** What the sender gets back; Threw when the handler fails before
      replying. */
  datatype Reply = Saved | Blurs(blurs: seq<Shape>) | NoReply | Threw

  /** The tab's stored list, or the empty list when none is stored. */
  function Lookup(m: map<TabId, seq<Shape>>, tab: TabId): seq<Shape> {
    if tab in m then m[tab] else []
  }

  /** Storing a list for one tab: that tab reads it back, every other tab
      reads what it read before, and a tab nothing was ever stored for
      reads as the empty list. */
  lemma StoreThenLookup(m: map<TabId, seq<Shape>>, tab: TabId, blurs: seq<Shape>, other: TabId)
    ensures Lookup(m[tab := blurs], tab) == blurs
    ensures other != tab ==> Lookup(m[tab := blurs], other) == Lookup(m, other)
    ensures other != tab && other !in m ==> Lookup(m[tab := blurs], other) == []
    ensures Lookup(map[], other) == []
  {
  }

  /** The extension's storage: the per-tab local area and the synced
      settings. */
  class Store {
    // chrome.storage.local: blurs_for_tab_<id> and session_active_<id>
    var tabBlurs: map<TabId, seq<Shape>>
    var sessionFlags: map<TabId, bool>
    // chrome.storage.sync
    var isEnabled: Option<bool>
    var blurIntensity: Option<StoredIntensity>
    var profiles: map<string, seq<Shape>>

    constructor ()
      ensures tabBlurs == map[] && sessionFlags == map[]
      ensures isEnabled == None && blurIntensity == None && profiles == map[]
    {
      tabBlurs, sessionFlags := map[], map[];
      isEnabled, blurIntensity, profiles := None, None, map[];
    }

    /** onInstalled: intensity 16, no profiles, enabled. */
    method OnInstalled()
      modifies this`isEnabled, this`blurIntensity, this`profiles
      ensures isEnabled == Some(true) && blurIntensity == Some(Number(DefaultIntensity)) && profiles == map[]
      ensures EnabledSetting(isEnabled) && IntensitySetting(blurIntensity) == DefaultIntensity
    {
      blurIntensity := Some(Number(DefaultIntensity));
      profiles := map[];
      isEnabled := Some(true);
    }

    /** The message listener as written: the tab is always taken from the
        sender, so a sender that is not a tab makes it throw. */
    method OnMessage(sender: Option<TabId>, req: Request) returns (reply: Reply)
      modifies this`tabBlurs
      ensures sender == None ==> reply == Threw && tabBlurs == old(tabBlurs)
      ensures sender.Some? && req.SaveBlurs? ==>
        reply == Saved && tabBlurs == old(tabBlurs)[sender.value := req.blurs]
      ensures sender.Some? && req.GetBlurs? ==>
        reply == Blurs(Lookup(tabBlurs, sender.value)) && tabBlurs == old(tabBlurs)
      ensures sender.Some? && req.OtherRequest? ==> reply == NoReply && tabBlurs == old(tabBlurs)
    {
      if sender == None {
        return Threw;
      }
      var tab := sender.value;
      match req {
        case SaveBlurs(blurs) =>
          tabBlurs := tabBlurs[tab := blurs];
          reply := Saved;
        case GetBlurs(_) =>
          reply := Blurs(Lookup(tabBlurs, tab));
        case OtherRequest =>
          reply := NoReply;
      }
    }

    /** The listener with GET_BLURS reading the tab from its payload when
        one is given, so that the popup, which is not a tab, can ask for the
        active tab's list. */
    method OnMessageFixed(sender: Option<TabId>, req: Request) returns (reply: Reply)
      modifies this`tabBlurs
      ensures req.GetBlurs? && req.payloadTab.Some? ==>
        reply == Blurs(Lookup(tabBlurs, req.payloadTab.value)) && tabBlurs == old(tabBlurs)
      ensures !(req.GetBlurs? && req.payloadTab.Some?) && sender == None ==>
        reply == Threw && tabBlurs == old(tabBlurs)
      ensures sender.Some? && req.SaveBlurs? ==>
        reply == Saved && tabBlurs == old(tabBlurs)[sender.value := req.blurs]
      ensures sender.Some? && req.GetBlurs? && req.payloadTab == None ==>
        reply == Blurs(Lookup(tabBlurs, sender.value)) && tabBlurs == old(tabBlurs)
      ensures sender.Some? && req.OtherRequest? ==> reply == NoReply && tabBlurs == old(tabBlurs)
    {
      if req.GetBlurs? && req.payloadTab.Some? {
        return Blurs(Lookup(tabBlurs, req.payloadTab.value));
      }
      reply := OnMessage(sender, req);
    }
  }

  /** Peeking: with overlays on the page, show them all if peeking, hide
      them all otherwise, and flip the flag; with none, do nothing. */
  method TogglePeek(page: Page)
    requires page.Valid()
    modifies page`elements, page`peeking
    ensures page.Valid()
    ensures |old(page.elements)| == 0 ==> unchanged(page)
    ensures |old(page.elements)| > 0 ==>
      && page.elements == WithShown(old(page.elements), old(page.peeking))
      && page.peeking == !old(page.peeking)
      && (forall k :: 0 <= k < |page.elements| ==>
            Snapshot(page.elements)[k] == if old(page.peeking) then old(page.elements)[k].shape else Collapsed(old(page.elements)[k].shape))
  {
    if |page.elements| == 0 {
      return;
    }
    var isPeeking := page.peeking;
    var es := page.elements;
    var i := 0;
    while i < |es|
      invariant 0 <= i <= |es| == |old(page.elements)|
      invariant forall k :: 0 <= k < i ==> es[k] == old(page.elements)[k].(shown := isPeeking)
      invariant forall k :: i <= k < |es| ==> es[k] == old(page.elements)[k]
    {
      es := es[i := es[i].(shown := isPeeking)];
      i := i + 1;
    }
    page.elements := es;
    page.peeking := !isPeeking;
  }

  /** Peeking twice from the unpeeked state shows every overlay again, so
      a page whose overlays were all shown gets them back unchanged. */
  lemma {:induction false} PeekTwiceRestores(es: seq<Element>)
    ensures WithShown(WithShown(es, false), true) == WithShown(es, true)
    ensures (forall k :: 0 <= k < |es| ==> es[k].shown) ==> WithShown(WithShown(es, false), true) == es
  {
    var twice := WithShown(WithShown(es, false), true);
    assert |twice| == |es|;
    forall k | 0 <= k < |es| ensures twice[k] == es[k].(shown := true) { }
    if forall k :: 0 <= k < |es| ==> es[k].shown {
      forall k | 0 <= k < |es| ensures twice[k] == es[k] { }
    }
  }

  /** Peeking twice from the peeking state hides every overlay again, so a
      page whose overlays were all hidden gets them back unchanged. */
  lemma {:induction false} UnpeekTwiceRestores(es: seq<Element>)
    ensures WithShown(WithShown(es, true), false) == WithShown(es, false)
    ensures (forall k :: 0 <= k < |es| ==> !es[k].shown) ==> WithShown(WithShown(es, true), false) == es
  {
    var twice := WithShown(WithShown(es, true), false);
    assert |twice| == |es|;
    forall k | 0 <= k < |es| ensures twice[k] == es[k].(shown := false) { }
    if forall k :: 0 <= k < |es| ==> !es[k].shown {
      forall k | 0 <= k < |es| ensures twice[k] == es[k] { }
    }
  }
}
