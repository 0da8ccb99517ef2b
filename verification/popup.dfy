// The toolbar popup: the master switch, the intensity slider, the session
// buttons and the named profiles kept in synced storage.

module Popup {
  import opened Protocol
  import opened Background

  /** The characters String.prototype.trim removes: white space and line
      terminators. */
  predicate IsWs(c: char) {
    || c == '\t' || c == '\n' || c == '\U{B}' || c == '\U{C}' || c == '\r' || c == ' '
    || c == '\U{A0}' || c == '\U{1680}' || ('\U{2000}' <= c <= '\U{200A}')
    || c == '\U{2028}' || c == '\U{2029}' || c == '\U{202F}' || c == '\U{205F}'
    || c == '\U{3000}' || c == '\U{FEFF}'
  }

  predicate AllWs(s: string) {
    forall i :: 0 <= i < |s| ==> IsWs(s[i])
  }

  /** Neither end of s is white space. */
  predicate Tight(s: string) {
    |s| > 0 ==> !IsWs(s[0]) && !IsWs(s[|s| - 1])
  }

  /** The length of the white-space run that s starts with. */
  function LeadingWs(s: string): (n: nat)
    ensures n <= |s| && AllWs(s[..n])
    ensures n < |s| ==> !IsWs(s[n])
    decreases |s|
  {
    if |s| == 0 || !IsWs(s[0]) then 0
    else
      var m := LeadingWs(s[1..]);
      assert s[..m + 1] == [s[0]] + s[1..][..m];
      m + 1
  }

  /** The length of the white-space run that s ends with. */
  function TrailingWs(s: string): (n: nat)
    ensures n <= |s|
    ensures forall t :: |s| - n <= t < |s| ==> IsWs(s[t])
    ensures n < |s| ==> !IsWs(s[|s| - n - 1])
    decreases |s|
  {
    if |s| == 0 || !IsWs(s[|s| - 1]) then 0
    else TrailingWs(s[..|s| - 1]) + 1
  }

  /** String.prototype.trim: s is white space, then the result, then white
      space, and the result neither starts nor ends with white space; unless
      s is all white space, the result is what lies between the two runs. */
  function Trim(s: string): (r: string)
    ensures |r| <= |s| && Tight(r)
    ensures |r| == 0 <==> AllWs(s)
    ensures LeadingWs(s) + |r| <= |s|
    ensures AllWs(s[..LeadingWs(s)])
      && s[LeadingWs(s)..LeadingWs(s) + |r|] == r
      && AllWs(s[LeadingWs(s) + |r|..])
    ensures !AllWs(s) ==> LeadingWs(s) + TrailingWs(s) < |s| && r == s[LeadingWs(s)..|s| - TrailingWs(s)]
  {
    var i := LeadingWs(s);
    if i == |s| then
      assert s[..i] == s;
      ""
    else
      var j := TrailingWs(s);
      var r := s[i..|s| - j];
      assert r[0] == s[i] && r[|r| - 1] == s[|s| - j - 1];
      assert !AllWs(s) by { assert !IsWs(s[i]); }
      assert s[i + |r|..] == s[|s| - j..];
      r
  }

  /** Behind white-space padding p, a word starting with a character that
      is not white space begins exactly where the padding ends. */
  lemma PaddedLeading(p: string, w: string, q: string)
    requires AllWs(p) && |w| > 0 && !IsWs(w[0])
    ensures LeadingWs(p + w + q) == |p|
  {
    var s := p + w + q;
    var k := LeadingWs(s);
    assert s[|p|] == w[0];
    assert forall t :: 0 <= t < k ==> IsWs(s[t]) by {
      forall t | 0 <= t < k ensures IsWs(s[t]) { assert s[t] == s[..k][t]; }
    }
    assert forall t :: 0 <= t < |p| ==> IsWs(s[t]) by {
      forall t | 0 <= t < |p| ensures IsWs(s[t]) { assert s[t] == p[t]; }
    }
  }

  /** Before white-space padding q, a word ending in a character that is
      not white space ends exactly where the padding starts. */
  lemma PaddedTrailing(p: string, w: string, q: string)
    requires AllWs(q) && |w| > 0 && !IsWs(w[|w| - 1])
    ensures TrailingWs(p + w + q) == |q|
  {
    var s := p + w + q;
    assert s[|p| + |w| - 1] == w[|w| - 1];
    assert forall t :: |p| + |w| <= t < |s| ==> IsWs(s[t]) by {
      forall t | |p| + |w| <= t < |s| ensures IsWs(s[t]) { assert s[t] == q[t - |p| - |w|]; }
    }
  }

  /** Trimming white space around a word whose ends are not white space
      gives the word back, whatever padding it had. */
  lemma TrimPadded(p: string, w: string, q: string)
    requires AllWs(p) && AllWs(q) && Tight(w)
    ensures Trim(p + w + q) == w
  {
    var s := p + w + q;
    if |w| == 0 {
      assert AllWs(s) by {
        forall i | 0 <= i < |s| ensures IsWs(s[i]) {
          if i < |p| { assert s[i] == p[i]; } else { assert s[i] == q[i - |p|]; }
        }
      }
    } else {
      PaddedLeading(p, w, q);
      PaddedTrailing(p, w, q);
      assert s[|p|] == w[0];
      assert s[|p|..|p| + |w|] == w;
    }
  }

  /** Trimming twice trims no more than trimming once. */
  lemma TrimIdempotent(s: string)
    ensures Trim(Trim(s)) == Trim(s)
  {
    TrimPadded("", Trim(s), "");
    assert "" + Trim(s) + "" == Trim(s);
  }

  /** The profile dropdown: the "Load a profile..." placeholder with value
      "", then one option per stored profile name, each once. */
  predicate ListsProfiles(options: seq<string>, names: set<string>) {
    && |options| == |names| + 1
    && options[0] == ""
    && (forall i, j :: 1 <= i < j < |options| ==> options[i] != options[j])
    && (forall i :: 1 <= i < |options| ==> options[i] in names)
    && (forall n :: n in names ==> n in options[1..])
  }

  /** loadProfiles: the dropdown's options for a profile map, the names in
      the order the loop visits them. */
  method ProfileOptions(profiles: map<string, seq<Shape>>) returns (options: seq<string>)
    ensures ListsProfiles(options, profiles.Keys)
  {
    options := [""];
    var rest := profiles.Keys;
    while rest != {}
      invariant |options| >= 1 && options[0] == ""
      invariant forall i, j :: 1 <= i < j < |options| ==> options[i] != options[j]
      invariant forall i :: 1 <= i < |options| ==> options[i] in profiles.Keys && options[i] !in rest
      invariant forall n :: n in profiles.Keys ==> n in rest || n in options[1..]
      invariant rest <= profiles.Keys
      invariant |options| - 1 + |rest| == |profiles.Keys|
      decreases |rest|
    {
      var name :| name in rest;
      ghost var prev := options;
      options := options + [name];
      assert options[1..] == prev[1..] + [name];
      rest := rest - {name};
    }
  }

  /** Deleting a profile just saved under a new name gives the profile map
      back. */
  lemma SaveThenDelete(m: map<string, seq<Shape>>, name: string, blurs: seq<Shape>)
    requires name !in m
    ensures (m[name := blurs]) - {name} == m
  {
    assert ((m[name := blurs]) - {name}).Keys == m.Keys;
  }

  /** The messages a send to the content script adds: nothing while the
      active tab is unknown (0). */
  function Outgoing(tab: TabId, m: ContentMessage): seq<ContentMessage> {
    if tab != 0 then [m] else []
  }

  /** The popup's state: the controls, the active tab, the messages sent to
      its content script, and whether the window was closed. */
  class Panel {
    const tab: TabId
    var enabled: bool
    var intensity: int
    var options: seq<string>
    var selected: string
    var nameInput: string
    var active: bool
    var sent: seq<ContentMessage>
    var closed: bool

    /** initialize: the controls show the stored settings, the dropdown the
        stored profiles, the status line the tab's session flag. */
    constructor Initialize(tabId: TabId, store: Store)
      ensures tab == tabId
      ensures enabled == EnabledSetting(store.isEnabled)
      ensures intensity == IntensitySetting(store.blurIntensity)
      ensures ListsProfiles(options, store.profiles.Keys) && selected == ""
      ensures active <==> tabId in store.sessionFlags && store.sessionFlags[tabId]
      ensures nameInput == "" && sent == [] && !closed
    {
      var opts := ProfileOptions(store.profiles);
      tab := tabId;
      enabled := EnabledSetting(store.isEnabled);
      intensity := IntensitySetting(store.blurIntensity);
      options := opts;
      selected := "";
      nameInput := "";
      active := tabId in store.sessionFlags && store.sessionFlags[tabId];
      sent := [];
      closed := false;
    }

    method LoadProfiles(profiles: map<string, seq<Shape>>)
      modifies this`options, this`selected
      ensures ListsProfiles(options, profiles.Keys) && selected == ""
    {
      options := ProfileOptions(profiles);
      selected := "";
    }

    /** sendMessageToContentScript: dropped while the tab is unknown. */
    method SendToContent(m: ContentMessage)
      modifies this`sent
      ensures tab == 0 ==> sent == old(sent)
      ensures tab != 0 ==> sent == old(sent) + [m]
    {
      if tab != 0 {
        sent := sent + [m];
      }
    }

    /** The master switch: store the flag, tell the page, and have it clear
        its overlays when switched off. */
    method OnEnableChange(store: Store, isEnabled: bool)
      modifies this`enabled, this`sent, store`isEnabled
      ensures enabled == isEnabled && store.isEnabled == Some(isEnabled)
      ensures EnabledSetting(store.isEnabled) == isEnabled
      ensures sent == old(sent) + Outgoing(tab, SetEnabled(isEnabled))
        + (if isEnabled then [] else Outgoing(tab, ClearAllBlurs))
    {
      enabled := isEnabled;
      store.isEnabled := Some(isEnabled);
      SendToContent(SetEnabled(isEnabled));
      if !isEnabled {
        SendToContent(ClearAllBlurs);
      }
    }

    /** The slider: store its value, a numeral string, and tell the page;
        a later load reads that value back, even when it is 0. */
    method OnIntensityInput(store: Store, value: int)
      modifies this`intensity, this`sent, store`blurIntensity
      ensures intensity == value && store.blurIntensity == Some(Numeral(value))
      ensures IntensitySetting(store.blurIntensity) == value
      ensures sent == old(sent) + Outgoing(tab, UpdateIntensity(value))
    {
      intensity := value;
      store.blurIntensity := Some(Numeral(value));
      SendToContent(UpdateIntensity(value));
    }

    /** "Start Session" and "Add More": when enabled and the tab is known,
        start the page's session, flag the tab active and close the popup. */
    method StartOrUpdateSession(store: Store)
      modifies this`sent, this`active, this`closed, store`sessionFlags
      ensures !enabled || tab == 0 ==> unchanged(this) && unchanged(store)
      ensures enabled && tab != 0 ==>
        && sent == old(sent) + [StartSession]
        && store.sessionFlags == old(store.sessionFlags)[tab := true]
        && active && closed
    {
      if !enabled || tab == 0 {
        return;
      }
      sent := sent + [StartSession];
      store.sessionFlags := store.sessionFlags[tab := true];
      active := true;
      closed := true;
    }

    /** "Clear All": forget the tab's saved shapes, flag the session off and
        have the page remove its overlays. */
    method OnClear(store: Store)
      modifies this`sent, this`active, store`tabBlurs, store`sessionFlags
      ensures store.tabBlurs == old(store.tabBlurs) - {tab}
      ensures Lookup(store.tabBlurs, tab) == []
      ensures store.sessionFlags == old(store.sessionFlags)[tab := false]
      ensures sent == old(sent) + Outgoing(tab, ClearAllBlurs) && !active
    {
      store.tabBlurs := store.tabBlurs - {tab};
      store.sessionFlags := store.sessionFlags[tab := false];
      SendToContent(ClearAllBlurs);
      active := false;
    }

    /** What "Save" does with the GET_BLURS reply: a non-empty list is
        stored under the name, which is listed and selected, and the input
        is cleared; any other reply leaves everything as it was. */
    method StoreReply(store: Store, name: string, reply: Reply)
      modifies this`options, this`selected, this`nameInput, store`profiles
      ensures !reply.Blurs? || reply.blurs == [] ==> unchanged(this) && unchanged(store)
      ensures reply.Blurs? && reply.blurs != [] ==>
        && store.profiles == old(store.profiles)[name := reply.blurs]
        && ListsProfiles(options, store.profiles.Keys)
        && selected == name && selected in options
        && nameInput == ""
    {
      if !reply.Blurs? || reply.blurs == [] {
        return;
      }
      store.profiles := store.profiles[name := reply.blurs];
      LoadProfiles(store.profiles);
      selected := name;
      nameInput := "";
      assert name in store.profiles.Keys;
    }

    /** "Save" as written: the GET_BLURS request carries no tab and the
        popup is not a tab, so the listener throws and nothing is saved,
        whatever the name and whatever the tab has stored. */
    method SaveProfileAsWritten(store: Store)
      modifies this`options, this`selected, this`nameInput, store`profiles, store`tabBlurs
      ensures unchanged(this) && unchanged(store)
    {
      var name := Trim(nameInput);
      if name == "" {
        return;
      }
      var reply := store.OnMessage(None, GetBlurs(None));
      StoreReply(store, name, reply);
    }

    /** "Save" with the active tab in the GET_BLURS payload: a non-blank
        trimmed name and a non-empty saved list store the list under that
        name, list it in the dropdown, select it and clear the input. */
    method SaveProfile(store: Store)
      modifies this`options, this`selected, this`nameInput, store`profiles, store`tabBlurs
      ensures store.tabBlurs == old(store.tabBlurs)
      ensures AllWs(old(nameInput)) || Lookup(old(store.tabBlurs), tab) == [] ==>
        unchanged(this) && unchanged(store)
      ensures !AllWs(old(nameInput)) && Lookup(old(store.tabBlurs), tab) != [] ==>
        && store.profiles == old(store.profiles)[Trim(old(nameInput)) := Lookup(old(store.tabBlurs), tab)]
        && ListsProfiles(options, store.profiles.Keys)
        && selected == Trim(old(nameInput)) && selected in options
        && nameInput == ""
    {
      var name := Trim(nameInput);
      if name == "" {
        return;
      }
      var reply := store.OnMessageFixed(None, GetBlurs(Some(tab)));
      StoreReply(store, name, reply);
    }

    /** Choosing a profile in the dropdown: a stored profile is sent to the
        page to replace its overlays and the tab's session is flagged on;
        the placeholder or an unknown name does nothing more. */
    method OnProfileChange(store: Store, name: string)
      modifies this`selected, this`sent, this`active, store`sessionFlags
      ensures selected == name
      ensures name == "" || name !in store.profiles ==>
        sent == old(sent) && active == old(active) && store.sessionFlags == old(store.sessionFlags)
      ensures name != "" && name in store.profiles ==>
        && sent == old(sent) + Outgoing(tab, ApplyBlurs(store.profiles[name]))
        && store.sessionFlags == old(store.sessionFlags)[tab := true]
        && active
    {
      selected := name;
      if name == "" || name !in store.profiles {
        return;
      }
      SendToContent(ApplyBlurs(store.profiles[name]));
      store.sessionFlags := store.sessionFlags[tab := true];
      active := true;
    }

    /** "Delete": remove the selected profile and rebuild the dropdown, which
        falls back to the placeholder. */
    method OnDeleteProfile(store: Store)
      modifies this`options, this`selected, store`profiles
      ensures old(selected) == "" ==> unchanged(this) && unchanged(store)
      ensures old(selected) != "" ==>
        && store.profiles == old(store.profiles) - {old(selected)}
        && ListsProfiles(options, store.profiles.Keys)
        && old(selected) !in options[1..]
        && selected == ""
    {
      var name := selected;
      if name == "" {
        return;
      }
      store.profiles := store.profiles - {name};
      LoadProfiles(store.profiles);
      assert forall i :: 1 <= i < |options| ==> options[i] in store.profiles.Keys;
    }
  }
}
