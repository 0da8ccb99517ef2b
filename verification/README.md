# PriBlur, modelled in Dafny

PriBlur is a browser extension that hides parts of a web page behind
blurred overlays. A user draws rectangles, circles or free-form shapes on
the page. The extension remembers them per tab and can store them as named
profiles. This project models its three scripts and proves properties of
the model.

- **Content script** (`content.dfy`, module `Content`). Class `Page` holds
  the script's closure state: session and drawing flags, tool, anchor,
  in-progress element, stroke points, intensity and enabled flag. It also
  holds the overlay elements in document order, the clip-path definitions,
  and the lists the script hands to `SAVE_BLURS` (`outbox`). Each element
  carries a node identity, because handlers hold node references while ids
  may repeat.
- **Geometry and path data** (`geometry.dfy` and `pathdata.dfy`).
  - The rectangle/circle box between the anchor and the pointer.
  - A free-form stroke's bounding box.
  - The `"M dx dy L dx dy …"` path string built from the stroke's offsets.
  - A reference parser for that string, with a round trip proved.
- **Background worker** (`background.dfy`, module `Background`).
  - Class `Store` holds the local storage area (per-tab lists and session
    flags) and the synced one (enabled flag, intensity, profiles).
  - The install handler and the `SAVE_BLURS`/`GET_BLURS` listener.
  - The peek shortcut's page function.
- **Popup** (`popup.dfy`, module `Popup`).
  - Class `Panel`: the controls, the active tab, the messages sent to the
    tab's content script (`sent`) and whether the window closed.
  - `String.prototype.trim`, and the profile dropdown's contents.
- **Shared vocabulary** (`protocol.dfy`): shapes, messages and stored-setting
  defaults.
- **Scenarios** (`scenarios.dfy`): concrete end-to-end runs on fixed inputs.
  - Draw a rectangle, finish, store it, reload it.
  - Slider to 24.
  - Save, choose and delete the "Meeting" profile.
  - Peek twice.
  - Switch the extension off, switch it on and clear.
  - Load while switched off.
  - Slider to 0, then reload.
  - Finish while peeking, then reload.

Messages between the scripts are method calls, made in an order the
browser could deliver them. A browser API's answer is a parameter, except
where the source awaits a browser call without catching its failure: there
the model assumes the call succeeds. A
pointer handler requires the pointer-events state the browser needs to
deliver its event:
- the drawing surface's handlers require the surface to take pointer
  events (`content/content.js:99-102`);
- an element's click and press handlers require the element to be shown
  and not set to `none` (`content/content.js:100`, `background.js:48`).

Some behaviour of the code that a reader might not expect:
- Pointer-up after drawing switches the page to drag/erase mode
  (`content/content.js:185`). The surface then stops taking pointer
  events until a drawing tool is chosen again.
- A click without a drag leaves a zero-sized shape on the page, and later
  saves keep it.
- Saving reads each element's offset box (`content/content.js:294-297`),
  which is empty for an element the peek shortcut hid (`background.js:48`).
  Finishing, erasing or ending a drag while peeking therefore saves every
  overlay at (0, 0) with no size, and a reload re-creates it that way.
- Releasing the pointer after drawing does not save. The page saves on
  "Finish", an erase, the end of a drag, and `CLEAR_ALL_BLURS` from the
  popup, which saves `[]` (`content/content.js:321`, `360-361`).

## Model

| member | source | states |
|---|---|---|
| Protocol.EnabledSetting | content/content.js:380 | the extension is on exactly when the stored flag is not `false`; a missing flag means on |
| Protocol.IntensitySetting | content/content.js:381 | a stored slider value is used as it is, 0 included; the installed number is used unless it is 0; nothing stored means 16 |
| PathData.Decimal | content/content.js:163-171 | the numeral printed for an offset is non-empty, all digits, has no leading zero unless it is `0`, and denotes the offset |
| PathData.RenderParse | content/content.js:163-171 | parsing the path string built from a command list gives back exactly that list (space-separated `M`/`L` words, three per point) |
| Geometry.DragBox | content/content.js:139-147 | the rectangle/circle box has non-negative size, contains anchor and pointer, and its edges are exactly the anchor's and the pointer's coordinates |
| Geometry.DragBoxSymmetric | content/content.js:140-143 | swapping anchor and pointer gives the same box |
| Geometry.BoundingBox | content/content.js:149-161 | the stroke's box contains every point and each edge passes through some point (it is the smallest) |
| Geometry.Offsets | content/content.js:163-171 | one command per point, a move-to first and line-tos after, every offset within the box's size |
| Geometry.AbsoluteOffsets | content/content.js:163-171 | adding the box's corner to every offset gives back the stroke's points |
| Geometry.FreeformPathRoundTrip | content/content.js:148-177 | the free-form path string parses to one command per point, move-to then line-tos, inside the box, and placing it at the box's corner reproduces the stroke |
| Content.Snapshot | content/content.js:286-300 | the saved list has one record per overlay element, in document order, with its id, type and path data; a shown element's position and size, and zeros for a hidden one |
| Content.RestoredCanonical | content/content.js:258-275 | an element re-created from a record reads back as that record with path data dropped unless the shape is custom; that is the identity exactly on records where only custom shapes carry path data |
| Content.CanonicalFixpoint | content/content.js:308-316 | re-creating a saved list reproduces it exactly iff only custom shapes carry path data, and saving a re-created list and re-creating it again changes nothing |
| Content.MaterializedSnapshot | content/content.js:308-316 | elements created one per record, in order, read back as the records with non-custom path data dropped |
| Content.WithClipsCovers | content/content.js:271-275 | after re-creating a list, every custom record with path data has its clip definition, and no earlier definition is lost |
| Content.DragDisplacement | content/content.js:237-246 | a drag moves its element by exactly the pointer's displacement, keeps its size, and leaves every other element alone |
| Content.Page.constructor | content/content.js:5-12 | the closure's initial state: no session, rectangle tool, intensity 16, enabled, no elements |
| Content.Page.SetAllPointer | content/content.js:97-107 | every element gets the given pointer-events value, nothing else changes |
| Content.Page.SetInteractionState | content/content.js:90-108 | exactly one of the drawing surface and the elements takes pointer events: the surface in draw mode, the elements in drag/erase mode |
| Content.Page.SetActiveTool | content/content.js:66-78 | selecting a tool sets it; the eraser selects drag/erase mode, every other tool draw mode; the saved records do not change |
| Content.Page.StartBlurSession | content/content.js:15-20 | a second start changes nothing; a first one opens the surface with the rectangle tool in draw mode and shows the indicator |
| Content.Page.DestroyConfigUI | content/content.js:49-58 | the session ends, the surface closes and no element takes pointer events |
| Content.Page.Finish | content/content.js:85-88 | closing the toolbar saves exactly the current records once |
| Content.Page.ApplyClipPath | content/content.js:206-227 | the element's clip definition holds the path, and at most one definition is added |
| Content.Page.CreateBlurElement | content/content.js:258-283 | a fresh node is created from the record at the current intensity; a custom record with path data also gets its clip definition |
| Content.Page.MouseDown | content/content.js:112-132 | delivered only while the surface takes pointer events: a left press with a drawing tool adds exactly one zero-sized element of that tool at the pointer and starts drawing; anything else changes nothing |
| Content.Page.MouseMove | content/content.js:134-179 | delivered only while the surface takes pointer events: while drawing, a rectangle/circle spans anchor and pointer; a free-form stroke gains the point, is boxed around all its points, and its path and clip definition are updated |
| Content.Page.PlaceCurrent | content/content.js:139-147 | the element being drawn, and no other, takes the given box |
| Content.Page.ExtendStroke | content/content.js:148-174 | the stroke gains the pointer as its last point; the element being drawn is boxed around all the points and carries the path built from them |
| Content.Page.StrokeTo | content/content.js:148-177 | as `ExtendStroke`, and the element's clip definition holds that path |
| Content.Page.MouseUp | content/content.js:180-186 | delivered only while the surface takes pointer events: drawing ends, the drawn element is kept whatever its size, and drag/erase mode is selected |
| Content.Page.SaveAllBlurs | content/content.js:286-306 | hands exactly the current records, in document order, to `SAVE_BLURS` |
| Content.Page.EraseClick | content/content.js:231-236 | delivered only to a shown element not set to `none`: with the session active and the eraser selected, a click removes exactly that element and saves once; otherwise nothing changes |
| Content.Page.DragStart | content/content.js:237-242 | delivered only to a shown element not set to `none`: a left press outside eraser mode during a session registers a drag with the pointer's offset from the element's corner |
| Content.Page.DragMove | content/content.js:243-246 | every registered drag moves its element to the pointer minus its offset |
| Content.Page.DragEnd | content/content.js:247-252 | every registered drag ends and saves once |
| Content.Page.ClearAllBlurs | content/content.js:321-332 | every element and the indicator are removed; one empty list is saved exactly when asked |
| Content.Page.ApplyAllBlurs | content/content.js:308-319 | the elements are replaced, without saving, by one per record in order; they read back as the records with non-custom path data dropped; clip definitions are restored |
| Content.Page.AppendAll | content/content.js:313-316 | one element per record is appended in order, each a fresh node at the current intensity, and the custom records' clip definitions are added |
| Content.Page.UpdateBlurIntensity | content/content.js:342-349 | the intensity is set and applied to every element; no element is added or removed and the records are unchanged |
| Content.Page.HandleMessage | content/content.js:350-374 | while disabled only `SET_ENABLED` is acted on and replied to; otherwise each message gives its handler's whole new state (start; apply without saving, with clip definitions and indicator; clear, remove the indicator and save `[]`; set intensity; enable, or disable and clear without saving) and leaves every other field as it was |
| Content.Page.InitialLoad | content/content.js:375-397 | settings are read with their defaults; when enabled, a non-empty saved list is applied, one fresh element per record with its clip definition and the indicator, and nothing is saved; otherwise the elements, indicator and clip definitions stay as they were |
| Background.StoreThenLookup | background.js:13-28 | after `SAVE_BLURS` for a tab, `GET_BLURS` for it returns that list, other tabs' lists are unchanged, and a tab nothing was stored for reads as the empty list |
| Background.Store.constructor | background.js:1-8 | storage before installation: nothing stored |
| Background.Store.OnInstalled | background.js:2-8 | installation stores intensity 16, no profiles and enabled, which read back as the defaults |
| Background.Store.OnMessage | background.js:11-31 | as written: a message whose sender is not a tab throws and stores nothing; from a tab, `SAVE_BLURS` stores the list for that tab, `GET_BLURS` answers that tab's list, anything else gets no reply |
| Background.Store.OnMessageFixed | background.js:11-31 | as intended: `GET_BLURS` reads the tab from its payload when one is given, otherwise as written |
| Background.TogglePeek | background.js:34-55 | with overlays, all are shown if peeking and hidden otherwise, and the peeking flag flips; saving then reads every overlay as stored after showing and with zero position and size after hiding; without overlays nothing changes |
| Background.PeekTwiceRestores | background.js:43-51 | peeking twice from the unpeeked state shows every overlay again, giving back a page whose overlays were all shown |
| Background.UnpeekTwiceRestores | background.js:43-51 | peeking twice from the peeking state hides every overlay again, giving back a page whose overlays were all hidden |
| Popup.Trim | popup/popup.js:120 | the name is the input minus leading and trailing white space, so neither of its ends is white space; it is empty exactly when the input is all white space |
| Popup.LeadingWs | popup/popup.js:120 | the white-space run a name starts with: all of it is white space and the character after it is not |
| Popup.TrailingWs | popup/popup.js:120 | the white-space run a name ends with: all of it is white space and the character before it is not |
| Popup.PaddedLeading | popup/popup.js:120 | behind white-space padding, a word starting with a non-white-space character begins where the padding ends |
| Popup.PaddedTrailing | popup/popup.js:120 | before white-space padding, a word ending in a non-white-space character ends where the padding starts |
| Popup.TrimPadded | popup/popup.js:120 | trimming any white-space padding around a word with no white space at its ends gives the word |
| Popup.TrimIdempotent | popup/popup.js:120 | trimming a trimmed name changes nothing |
| Popup.ProfileOptions | popup/popup.js:166-175 | the dropdown is the placeholder then one option per stored profile name, each exactly once |
| Popup.SaveThenDelete | popup/popup.js:129-161 | deleting a profile just saved under a new name gives back the previous profiles |
| Popup.Panel.Initialize | popup/popup.js:18-43 | the controls show the stored enabled flag and intensity with their defaults, the dropdown the stored profiles, the status the tab's session flag |
| Popup.Panel.LoadProfiles | popup/popup.js:166-175 | the dropdown lists exactly the stored profiles and falls back to the placeholder |
| Popup.Panel.SendToContent | popup/popup.js:178-188 | nothing is sent while the active tab is unknown (0); otherwise exactly the message is sent |
| Popup.Panel.OnEnableChange | popup/popup.js:85-96 | the flag is stored, `SET_ENABLED` is sent, and `CLEAR_ALL_BLURS` follows exactly when switching off |
| Popup.Panel.OnIntensityInput | popup/popup.js:98-105 | the slider's value is stored as a numeral string, which later loads read back as that value, 0 included, and it is sent to the page |
| Popup.Panel.StartOrUpdateSession | popup/popup.js:63-82 | when enabled with a known tab: `START_SESSION` is sent, the tab's session is flagged on, the status shows active and the popup closes; otherwise nothing changes |
| Popup.Panel.OnClear | popup/popup.js:111-116 | the tab's saved list is removed, its session flag set off, `CLEAR_ALL_BLURS` sent and the status shows idle |
| Popup.Panel.StoreReply | popup/popup.js:126-134 | a non-empty `GET_BLURS` list is stored under the name, which is listed and selected, and the input cleared; any other reply changes nothing |
| Popup.Panel.SaveProfileAsWritten | popup/popup.js:119-135 | as written, saving a profile never changes any state |
| Popup.Panel.SaveProfile | popup/popup.js:119-135 | with the tab in the request: a non-blank trimmed name and a non-empty saved list store the list under that name, listed and selected; otherwise nothing changes |
| Popup.Panel.OnProfileChange | popup/popup.js:137-154 | choosing a stored profile sends its list to the page and flags the tab's session on; the placeholder or an unknown name does nothing more |
| Popup.Panel.OnDeleteProfile | popup/popup.js:156-164 | the selected profile is removed and no longer listed, and the dropdown falls back to the placeholder; with nothing selected nothing changes |
| Scenarios.DragRectangle | content/content.js:112-147 | pressing at (100, 100) in a new session and dragging to (300, 250) leaves one 200 by 150 rectangle at (100, 100) |
| Scenarios.DrawRectangle | content/content.js:180-186 | releasing that drag and finishing hands exactly that one record to `SAVE_BLURS` |
| Scenarios.MeetingTrimmed | popup/popup.js:120 | the name "  Meeting " is saved as "Meeting" |
| Scenarios.MeetingSetup | popup/popup.js:119-121 | a store with one rectangle for tab 7 and a popup on that tab whose typed name trims to "Meeting" |

## Left out

- Rendering is not modelled: styles, cursors, border radius, stylesheet and
  icon links, the toolbar markup and its "active" classes, and the
  "dragging" class. The overlay, indicator and defs-container flags stand
  for the elements that exist.
- An element's `clip-path: url(#clip_<id>)` style is not modelled. The
  definitions map keyed by `clip_<id>` stands for it.
- Browser APIs are not modelled: storage calls, `tabs.query`,
  `tabs.sendMessage` and script injection. Their results are parameters,
  and the scripts' messages are recorded (`outbox`, `sent`) and delivered
  in the scenarios by explicit calls. Timing between asynchronous
  callbacks is not modelled.
- Running the content script more than once is not modelled. Its guard
  (`content/content.js:3`) tests `window.privacyBlurManager`, but the
  function assigned to it (`content/content.js:4-398`) returns nothing, so
  the guard never stops a later run. The popup injects the script on every
  "Start Session" and "Add More" (`popup/popup.js:68-71`). Each run builds
  a fresh closure (no session, rectangle tool, enabled), re-applies the
  saved list and registers one more message listener; every listener then
  handles each message, so `CLEAR_ALL_BLURS` saves `[]` once per run. A
  `Page` models one such closure with the document's overlays; the other
  closures and their listeners are not modelled.
- `window.close` is the `closed` flag.
- `Popup.Panel.StartOrUpdateSession`: assumes the script injection and the
  `START_SESSION` delivery succeed (`popup/popup.js:68-74`). In the source
  a failure of either skips flagging the session and closing the popup.
- Shape ids come from the clock (`Date.now`); here the id is a parameter.
- Pointer positions and sizes are integers. Fractional `pageX` values and
  the rounding of `offsetLeft`/`offsetWidth` are not modelled.
- The intensity slider's value is a string in the source. Here it is the
  integer that string denotes, and a stored value records whether it came
  from the slider (a numeral string) or from installation (a number), so
  that a stored "0" stays distinct from a missing value.
- `Popup.Panel.StoreReply`, `Popup.Panel.SaveProfile`: a profile named
  `__proto__` is stored and listed like any other name. In the source,
  assigning that key on a plain object replaces the object's prototype
  instead of adding a profile (`popup/popup.js:129`), so nothing is
  persisted under it.
- `Popup.ProfileOptions`: lists the names in an arbitrary order, not the
  insertion order JavaScript's `for…in` uses.
- The popup's dimming of its controls while disabled does not block any
  handler in the model; only `startOrUpdateSession`'s own check is kept.
- "No active tab" is tab id 0. The popup reads an unset tab id as falsy.
- Synced `profiles` is always present, as installation creates it. The
  crash when it is missing is not modelled, and neither is a missing
  `APPLY_BLURS` payload.
- `Content.Page.Valid`: does not include that only custom shapes carry
  path data. A tool switch in the middle of a stroke could break it.
  `CanonicalFixpoint` states what holds for lists that have it.
- Logging and the `sendResponse` acknowledgements are left out. The
  content script's reply is the `acked` result.

## Findings

| source | as written | input that shows it | evidently intended | confidence | as-written member | corrected member |
|---|---|---|---|---|---|---|
| background.js:12 | the listener reads `sender.tab.id` for every message, but the popup is not a tab, so its `GET_BLURS` (popup/popup.js:123) throws and saving a profile never stores anything | the popup's "Save" with name "Meeting" while tab 7 has a saved rectangle: profiles stay empty (`Scenarios.MeetingAsWritten`) | `GET_BLURS` takes the tab from its payload, as the disabled line background.js:24 shows, and the popup sends its active tab | not executed | Background.Store.OnMessage, Popup.Panel.SaveProfileAsWritten | Background.Store.OnMessageFixed, Popup.Panel.SaveProfile |
