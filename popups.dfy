/**
 * The state logic of the Popup class of docs/modules.js, with the DOM abstracted away: the
 * enabled/disabled class markers, the registry from ids to popups, the drag state machine and the
 * position and size a popup displays.
 *
 * The static part of Popup (#registry, #dragging and the static methods) is the Registry class;
 * one Registry object stands for the single static state of the page.
 *
 * Coordinates are integers. A style value (style.left, style.top, style.width, style.height) is
 * None while it has never been assigned; an offset is a JavaScript number that is either a finite
 * integer or NaN, since parseInt of an unassigned style is NaN.
 */
module Popups {
  import opened Wrappers
  import opened PopupIds

  const POPUP_CLASS: string := "popup"
  const MENU_CLASS: string := "bordered-menu"
  const ENABLED: string := "popup-enabled"
  const DISABLED: string := "popup-disabled"

  const DEFAULT_ID: string := "untitled-popup"
  const DEFAULT_TITLE: string := "Untitled"
  const DEFAULT_SIZE: int := 300

  datatype Num = Finite(n: int) | NaN

  // ---- enabled/disabled markers ----

  /** classList after #setEnabled: the disabled marker removed, the enabled one added. */
  function WithEnabled(cl: set<string>): (r: set<string>)
    ensures ENABLED in r && DISABLED !in r
    ensures forall c :: c != ENABLED && c != DISABLED ==> (c in r <==> c in cl)
  {
    cl - {DISABLED} + {ENABLED}
  }

  /** classList after #setDisabled: the enabled marker removed, the disabled one added. */
  function WithDisabled(cl: set<string>): (r: set<string>)
    ensures DISABLED in r && !(ENABLED in r)
    ensures forall c :: c != ENABLED && c != DISABLED ==> (c in r <==> c in cl)
  {
    cl - {ENABLED} + {DISABLED}
  }

  /** The markers never coexist, and one of them is always present. */
  predicate ExactlyOneMarker(cl: set<string>) {
    (ENABLED in cl) != (DISABLED in cl)
  }

  /** classList after openOrClose: a disabled popup opens, any other one closes. */
  function Toggled(cl: set<string>): (r: set<string>)
    ensures DISABLED in cl ==> ENABLED in r && DISABLED !in r
    ensures DISABLED !in cl ==> DISABLED in r && ENABLED !in r
    ensures forall c :: c != ENABLED && c != DISABLED ==> (c in r <==> c in cl)
  {
    if DISABLED in cl then WithEnabled(cl) else WithDisabled(cl)
  }

  /** open() on an enabled popup first closes it; that leaves the same classes as enabling directly. */
  lemma ReopenSameAsEnable(cl: set<string>)
    ensures WithEnabled(WithDisabled(cl)) == WithEnabled(cl)
  {
  }

  /** openOrClose twice restores the class list of a popup with exactly one marker. */
  lemma ToggleTwice(cl: set<string>)
    requires ExactlyOneMarker(cl)
    ensures ExactlyOneMarker(Toggled(cl))
    ensures Toggled(Toggled(cl)) == cl
  {
  }

  // ---- positions ----

  /** parseInt(style) - page: the offset #startDragging captures. */
  function Offset(shown: Option<int>, page: int): (r: Num)
    ensures r.Finite? <==> shown.Some?
    ensures r.Finite? ==> page + r.n == shown.value
  {
    if shown.Some? then Finite(shown.value - page) else NaN
  }

  /**
   * The style value after locate assigns (pos + offset) + "px": a finite sum is displayed; "NaNpx"
   * is not a valid length, so the browser keeps the previous value.
   */
  function Shown(pos: int, offset: Num, previous: Option<int>): (r: Option<int>)
    ensures offset.Finite? ==> r == Some(pos + offset.n)
    ensures offset.NaN? ==> r == previous
  {
    match offset
    case Finite(o) => Some(pos + o)
    case NaN => previous
  }

  /**
   * The style value after resize assigns size + "px": a length of 0 or more is displayed; a negative
   * one is not a valid width or height, so the browser keeps the previous value.
   */
  function SizeShown(size: int, previous: Option<int>): (r: Option<int>)
    ensures r.Some? && r != previous ==> r.value == size && size >= 0
    ensures size >= 0 ==> r == Some(size)
    ensures size < 0 ==> r == previous
  {
    if size >= 0 then Some(size) else previous
  }

  /** The offset taken at the start of a drag makes locate(pageX) display the popup where it was. */
  lemma StartKeepsPosition(shown: Option<int>, page: int)
    ensures Shown(page, Offset(shown, page), shown) == shown
  {
  }

  /** While dragging, the displayed position moves by exactly the pointer's displacement. */
  lemma DragTranslates(shown: int, start: int, page: int, previous: Option<int>)
    ensures Shown(page, Offset(Some(shown), start), previous) == Some(shown + (page - start))
  {
  }

  /** The key #startDragging looks up for the pressed element's id, if that id ends in "-bar". */
  function DragKey(target: Option<string>): (r: Option<string>)
    ensures r.Some? <==> target.Some? && EndsWith(target.value, BAR_SUFFIX)
    ensures r.Some? ==> BarId(r.value) == target.value
  {
    if target.Some? && EndsWith(target.value, BAR_SUFFIX) then
      StripBarInverse(target.value);
      Some(StripBar(target.value))
    else None
  }

  class Popup {
    const id: string
    const title: string
    const barId: string
    const titleId: string
    const closeId: string
    const contentId: string

    var classList: set<string>
    var x: int
    var y: int
    var offsetX: Num
    var offsetY: Num
    var width: int
    var height: int
    // the element's inline style
    var left: Option<int>
    var top: Option<int>
    var styleWidth: Option<int>
    var styleHeight: Option<int>

    ghost predicate Valid()
      reads this
    {
      ExactlyOneMarker(classList)
    }

    /**
     * A new popup: missing arguments take their defaults, it starts disabled at (0, 0) with zero
     * offsets and no inline position, and it is registered under its id, replacing any popup
     * registered under the same id before.
     */
    constructor (reg: Registry, id: Option<string>, title: Option<string>, width: Option<int>, height: Option<int>)
      requires reg.Valid()
      modifies reg
      ensures this.id == id.GetOr(DEFAULT_ID) && this.title == title.GetOr(DEFAULT_TITLE)
      ensures barId == BarId(this.id) && titleId == TitleId(this.id)
      ensures closeId == CloseId(this.id) && contentId == ContentId(this.id)
      ensures classList == {POPUP_CLASS, DISABLED, MENU_CLASS}
      ensures Valid() && IsDisabled() && !IsEnabled()
      ensures x == 0 && y == 0 && offsetX == Finite(0) && offsetY == Finite(0)
      ensures this.width == width.GetOr(DEFAULT_SIZE) && this.height == height.GetOr(DEFAULT_SIZE)
      ensures left == None && top == None && styleWidth == None && styleHeight == None
      ensures reg.Valid()
      ensures reg.popups == old(reg.popups)[this.id := this] && reg.dragging == old(reg.dragging)
    {
      var name := id.GetOr(DEFAULT_ID);
      this.id := name;
      this.title := title.GetOr(DEFAULT_TITLE);
      barId := BarId(name);
      titleId := TitleId(name);
      closeId := CloseId(name);
      contentId := ContentId(name);
      classList := {POPUP_CLASS, DISABLED, MENU_CLASS};
      x, y := 0, 0;
      offsetX, offsetY := Finite(0), Finite(0);
      this.width := width.GetOr(DEFAULT_SIZE);
      this.height := height.GetOr(DEFAULT_SIZE);
      left, top, styleWidth, styleHeight := None, None, None, None;
      new;
      reg.popups := reg.popups[this.id := this];
    }

    /** Under the marker invariant, a popup is enabled exactly when it is not disabled. */
    function IsEnabled(): (r: bool)
      reads this
      ensures ExactlyOneMarker(classList) ==> (r <==> DISABLED !in classList)
    {
      ENABLED in classList
    }

    /** Under the marker invariant, a popup is disabled exactly when it is not enabled. */
    function IsDisabled(): (r: bool)
      reads this
      ensures ExactlyOneMarker(classList) ==> (r <==> ENABLED !in classList)
    {
      DISABLED in classList
    }

    method SetEnabled()
      modifies this`classList
      ensures classList == WithEnabled(old(classList))
    {
      classList := classList - {DISABLED};
      classList := classList + {ENABLED};
    }

    method SetDisabled()
      modifies this`classList
      ensures classList == WithDisabled(old(classList))
    {
      classList := classList - {ENABLED};
      classList := classList + {DISABLED};
    }

    /**
     * Moves the popup to (px, py), or to the window centre (centreX, centreY) for a coordinate that
     * is missing or not finite, and displays it at position plus offset.
     */
    method Locate(px: Option<int>, py: Option<int>, centreX: int, centreY: int)
      modifies this`x, this`y, this`left, this`top
      ensures x == px.GetOr(centreX) && y == py.GetOr(centreY)
      ensures left == Shown(x, offsetX, old(left)) && top == Shown(y, offsetY, old(top))
    {
      x := px.GetOr(centreX);
      y := py.GetOr(centreY);
      left := Shown(x, offsetX, left);
      top := Shown(y, offsetY, top);
    }

    /**
     * Sets the size, 300 for a dimension that is missing or not finite, and displays it. A negative
     * length is not a valid CSS width or height, so the browser keeps the previous inline value.
     */
    method Resize(w: Option<int>, h: Option<int>)
      modifies this`width, this`height, this`styleWidth, this`styleHeight
      ensures width == w.GetOr(DEFAULT_SIZE) && height == h.GetOr(DEFAULT_SIZE)
      ensures styleWidth == SizeShown(width, old(styleWidth))
      ensures styleHeight == SizeShown(height, old(styleHeight))
    {
      width := w.GetOr(DEFAULT_SIZE);
      height := h.GetOr(DEFAULT_SIZE);
      styleWidth := SizeShown(width, styleWidth);
      styleHeight := SizeShown(height, styleHeight);
    }

    /** Enables the popup, whatever its state, and centres it. */
    method Open(centreX: int, centreY: int)
      modifies this`classList, this`x, this`y, this`left, this`top
      ensures classList == WithEnabled(old(classList))
      ensures Valid() && IsEnabled() && !IsDisabled()
      ensures x == centreX && y == centreY
      ensures left == Shown(x, offsetX, old(left)) && top == Shown(y, offsetY, old(top))
    {
      if IsEnabled() {
        Close();
        ReopenSameAsEnable(old(classList));
      }
      SetEnabled();
      Locate(None, None, centreX, centreY);
    }

    method Close()
      modifies this`classList
      ensures classList == WithDisabled(old(classList))
      ensures Valid() && IsDisabled() && !IsEnabled()
    {
      SetDisabled();
    }

    /** Opens a disabled popup, closes any other; only opening moves it. */
    method OpenOrClose(centreX: int, centreY: int)
      modifies this`classList, this`x, this`y, this`left, this`top
      ensures classList == Toggled(old(classList))
      ensures Valid()
      ensures old(IsDisabled()) ==> IsEnabled() && x == centreX && y == centreY
                                    && left == Shown(x, offsetX, old(left)) && top == Shown(y, offsetY, old(top))
      ensures !old(IsDisabled()) ==> IsDisabled() && x == old(x) && y == old(y) && left == old(left) && top == old(top)
    {
      if IsDisabled() {
        Open(centreX, centreY);
      } else {
        Close();
      }
    }
  }

  /** The static state of Popup: the registry of popups by id and the popup being dragged, if any. */
  class Registry {
    var popups: map<string, Popup>
    var dragging: Popup?

    /**
     * Every popup is registered under its own id, its bar's id is that id plus "-bar", and it
     * carries exactly one of the enabled/disabled markers.
     */
    ghost predicate Valid()
      reads this, popups.Values
    {
      forall k :: k in popups ==> popups[k].id == k && popups[k].barId == BarId(k) && popups[k].Valid()
    }

    constructor ()
      ensures Valid() && popups == map[] && dragging == null
    {
      popups := map[];
      dragging := null;
    }

    function Get(id: string): (r: Option<Popup>)
      reads this
      ensures r.Some? <==> id in popups
      ensures r.Some? ==> r.value == popups[id]
    {
      if id in popups then Some(popups[id]) else None
    }

    /** Pressing the bar of a registered popup finds that popup again. */
    lemma BarFindsPopup(p: Popup)
      requires Valid() && p in popups.Values
      ensures DragKey(Some(p.barId)) == Some(p.id)
      ensures Get(p.id) == Some(p)
    {
    }

    /** The popups a static call on `id` may act on: the registered one, or none. */
    function Found(id: string): set<Popup>
      reads this
    {
      if id in popups then {popups[id]} else {}
    }

    /** Opens the popup registered under `id`; an unknown id changes nothing. */
    method Open(id: string, centreX: int, centreY: int)
      requires Valid()
      modifies Found(id)`classList, Found(id)`x, Found(id)`y, Found(id)`left, Found(id)`top
      ensures Valid()
      ensures id in popups ==> var p := popups[id];
        p.classList == WithEnabled(old(p.classList)) && p.Valid() && p.x == centreX && p.y == centreY
        && p.left == Shown(centreX, p.offsetX, old(p.left)) && p.top == Shown(centreY, p.offsetY, old(p.top))
      ensures id !in popups ==> unchanged(popups.Values)
    {
      var popup := Get(id);
      if popup.Some? {
        popup.value.Open(centreX, centreY);
      }
    }

    /** Closes the popup registered under `id`; an unknown id changes nothing. */
    method Close(id: string)
      requires Valid()
      modifies Found(id)`classList
      ensures Valid()
      ensures id in popups ==> popups[id].classList == WithDisabled(old(popups[id].classList)) && popups[id].Valid()
      ensures id !in popups ==> unchanged(popups.Values)
    {
      var popup := Get(id);
      if popup.Some? {
        popup.value.Close();
      }
    }

    /** Toggles the popup registered under `id`; an unknown id changes nothing. */
    method OpenOrClose(id: string, centreX: int, centreY: int)
      requires Valid()
      modifies Found(id)`classList, Found(id)`x, Found(id)`y, Found(id)`left, Found(id)`top
      ensures Valid()
      ensures id in popups ==> popups[id].classList == Toggled(old(popups[id].classList)) && popups[id].Valid()
      ensures id in popups && old(popups[id].IsDisabled()) ==> var p := popups[id];
        p.x == centreX && p.y == centreY
        && p.left == Shown(centreX, p.offsetX, old(p.left)) && p.top == Shown(centreY, p.offsetY, old(p.top))
      ensures id in popups && !old(popups[id].IsDisabled()) ==> var p := popups[id];
        p.x == old(p.x) && p.y == old(p.y) && p.left == old(p.left) && p.top == old(p.top)
      ensures id !in popups ==> unchanged(popups.Values)
    {
      var popup := Get(id);
      if popup.Some? {
        popup.value.OpenOrClose(centreX, centreY);
      }
    }

    /**
     * A press on an element: when nothing is being dragged, the element's id ends in "-bar" and the
     * id without that suffix is registered, that popup becomes the dragged one, its offsets become
     * its displayed position minus the pointer's, and it moves to the pointer without its displayed
     * position changing. A press that fails the lookup leaves nothing dragged; any other press
     * changes nothing.
     */
    method StartDragging(target: Option<string>, pageX: int, pageY: int)
      requires Valid()
      modifies this`dragging, popups.Values`x, popups.Values`y, popups.Values`offsetX, popups.Values`offsetY,
               popups.Values`left, popups.Values`top
      ensures Valid() && popups == old(popups)
      ensures var key := DragKey(target);
        if old(dragging) == null && key.Some? && key.value in popups then
          var p := popups[key.value];
          dragging == p
          && p.offsetX == Offset(old(p.left), pageX) && p.offsetY == Offset(old(p.top), pageY)
          && p.x == pageX && p.y == pageY && p.left == old(p.left) && p.top == old(p.top)
          && forall q :: q in popups.Values && q != p ==> unchanged(q)
        else
          dragging == old(dragging) && unchanged(popups.Values)
    {
      if dragging == null && target.Some? {
        var id := target.value;
        if EndsWith(id, BAR_SUFFIX) {
          var found := Get(StripBar(id));
          if found.Some? {
            var p := found.value;
            dragging := p;
            p.offsetX := Offset(p.left, pageX);
            p.offsetY := Offset(p.top, pageY);
            StartKeepsPosition(p.left, pageX);
            StartKeepsPosition(p.top, pageY);
            // both coordinates are finite, so the centre fallback is never taken
            p.Locate(Some(pageX), Some(pageY), pageX, pageY);
          } else {
            dragging := null;
          }
        }
      }
    }

    /** The popups a pointer move or release may act on: the dragged one, or none. */
    function Held(): set<Popup>
      reads this
    {
      if dragging == null then {} else {dragging}
    }

    /** A pointer move relocates the dragged popup, if any, to the pointer. */
    method ContinueDragging(pageX: int, pageY: int)
      modifies Held()`x, Held()`y, Held()`left, Held()`top
      ensures dragging != null ==>
        dragging.x == pageX && dragging.y == pageY
        && dragging.left == Shown(pageX, dragging.offsetX, old(dragging.left))
        && dragging.top == Shown(pageY, dragging.offsetY, old(dragging.top))
    {
      if dragging != null {
        dragging.Locate(Some(pageX), Some(pageY), pageX, pageY);
      }
    }

    /**
     * A pointer release relocates the dragged popup, if any, to the pointer, resets its offsets to 0
     * and leaves nothing dragged.
     */
    method FinishDragging(pageX: int, pageY: int)
      modifies this`dragging, Held()`x, Held()`y, Held()`left, Held()`top, Held()`offsetX, Held()`offsetY
      ensures dragging == null
      ensures old(dragging) != null ==> var p := old(dragging);
        p.x == pageX && p.y == pageY
        && p.left == Shown(pageX, old(p.offsetX), old(p.left)) && p.top == Shown(pageY, old(p.offsetY), old(p.top))
        && p.offsetX == Finite(0) && p.offsetY == Finite(0)
    {
      if dragging != null {
        dragging.Locate(Some(pageX), Some(pageY), pageX, pageY);
        dragging.offsetX := Finite(0);
        dragging.offsetY := Finite(0);
        dragging := null;
      }
    }
  }

  /**
   * One whole drag on a page that holds a single popup: the popup is created and opened at the
   * window centre, its bar is pressed at (startX, startY), the pointer moves to (moveX, moveY) and is
   * released at (endX, endY). The press grabs the popup, and after the release it is displayed
   * displaced from the centre by exactly the pointer's travel from press to release, its offsets are
   * back to 0 and nothing is dragged.
   */
  method DragGesture(id: string, centreX: int, centreY: int, startX: int, startY: int,
                     moveX: int, moveY: int, endX: int, endY: int)
    returns (grabbed: bool, left: Option<int>, top: Option<int>, reset: bool)
    ensures grabbed && reset
    ensures left == Some(centreX + (endX - startX)) && top == Some(centreY + (endY - startY))
  {
    var reg := new Registry();
    var popup := new Popup(reg, Some(id), None, None, None);
    popup.Open(centreX, centreY);
    reg.BarFindsPopup(popup);
    reg.StartDragging(Some(popup.barId), startX, startY);
    grabbed := reg.dragging == popup;
    reg.ContinueDragging(moveX, moveY);
    reg.FinishDragging(endX, endY);
    left, top := popup.left, popup.top;
    reset := reg.dragging == null && popup.offsetX == Finite(0) && popup.offsetY == Finite(0);
  }
}
