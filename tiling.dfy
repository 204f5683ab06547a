/** `tile()` of SC.ScrollView: where the horizontal and vertical scrollers
    go and how far the container view is inset to make room for them. */
module Tiling {
  import opened Optional

  /** What `tile` reads about one axis: `hasHorizontalScroller`, whether a
      scroller view exists, `isHorizontalScrollerVisible`, the scroller's
      `scrollbarThickness` and `horizontalOverlay` (and the vertical ones). */
  datatype ScrollerSettings = ScrollerSettings(hasScroller: bool, hasView: bool, isVisible: bool,
                                               thickness: real, overlay: bool)

  /** `horizontalScrollerLayout`, when the view sets one. */
  datatype HorizontalUserLayout = HorizontalUserLayout(left: real, bottom: real, right: real)

  /** `verticalScrollerLayout`, when the view sets one. */
  datatype VerticalUserLayout = VerticalUserLayout(top: real, bottom: real, right: real)

  datatype HorizontalLayout = HorizontalLayout(left: real, bottom: real, right: real, height: real)

  datatype VerticalLayout = VerticalLayout(top: real, bottom: real, right: real, width: real)

  /** The container view's layout; `left` and `top` are always 0. */
  datatype ClipLayout = ClipLayout(left: real, top: real, bottom: real, right: real)

  /** Everything `tile` writes: the layout given to each shown scroller,
      the `isVisible` given to each scroller view that exists, and the
      container layout. */
  datatype Tiles = Tiles(horizontal: Option<HorizontalLayout>, horizontalIsVisible: Option<bool>,
                         vertical: Option<VerticalLayout>, verticalIsVisible: Option<bool>,
                         clip: ClipLayout)

  /** A scroller is shown when the view keeps one, it exists, it is visible,
      and the browser is not a touch browser. */
  predicate Shows(s: ScrollerSettings, touchBrowser: bool) {
    s.hasScroller && s.hasView && s.isVisible && !touchBrowser
  }

  function HorizontalBottom(hl: Option<HorizontalUserLayout>): real {
    if hl.Some? then hl.value.bottom else 0.0
  }

  function HorizontalRight(hl: Option<HorizontalUserLayout>): real {
    if hl.Some? then hl.value.right else 0.0
  }

  function VerticalBottom(vl: Option<VerticalUserLayout>): real {
    if vl.Some? then vl.value.bottom else 0.0
  }

  function VerticalRight(vl: Option<VerticalUserLayout>): real {
    if vl.Some? then vl.value.right else 0.0
  }

  method Tile(h: ScrollerSettings, v: ScrollerSettings,
              hl: Option<HorizontalUserLayout>, vl: Option<VerticalUserLayout>,
              verticalScrollerBottom: real, touchBrowser: bool) returns (r: Tiles)
    // a scroller gets a layout exactly when it is shown
    ensures r.horizontal.Some? <==> Shows(h, touchBrowser)
    ensures r.vertical.Some? <==> Shows(v, touchBrowser)
    // the horizontal scroller stops one pixel short of the vertical one
    ensures r.horizontal.Some? ==>
              r.horizontal.value.height == h.thickness &&
              r.horizontal.value.bottom == HorizontalBottom(hl) &&
              r.horizontal.value.right ==
                HorizontalRight(hl) + (if Shows(v, touchBrowser) then v.thickness else 0.0) - 1.0 &&
              r.horizontal.value.left == (if hl.Some? then hl.value.left else 0.0)
    // the vertical scroller ends above the horizontal one and `verticalScrollerBottom`
    ensures r.vertical.Some? ==>
              r.vertical.value.width == v.thickness &&
              r.vertical.value.bottom ==
                VerticalBottom(vl) + (if Shows(h, touchBrowser) then h.thickness else 0.0) + verticalScrollerBottom &&
              r.vertical.value.right == VerticalRight(vl) &&
              r.vertical.value.top == (if vl.Some? then vl.value.top else 0.0)
    // the container is inset only by a shown scroller that does not overlay it
    ensures r.clip.left == 0.0 && r.clip.top == 0.0
    ensures r.clip.bottom ==
              if Shows(h, touchBrowser) && !h.overlay then HorizontalBottom(hl) + h.thickness else 0.0
    ensures r.clip.right ==
              if Shows(v, touchBrowser) && !v.overlay then VerticalRight(vl) + v.thickness else 0.0
    // ...and then it meets the scroller's inner edge exactly
    ensures r.horizontal.Some? && !h.overlay ==>
              r.clip.bottom == r.horizontal.value.bottom + r.horizontal.value.height
    ensures r.vertical.Some? && !v.overlay ==>
              r.clip.right == r.vertical.value.right + r.vertical.value.width
    // every existing scroller view is told whether it is shown
    ensures r.horizontalIsVisible ==
              if h.hasScroller && h.hasView then Some(Shows(h, touchBrowser)) else None
    ensures r.verticalIsVisible ==
              if v.hasScroller && v.hasView then Some(Shows(v, touchBrowser)) else None
  {
    var hscroll := h.hasScroller && h.hasView;
    var hasHorizontal := hscroll && h.isVisible;
    var vscroll := v.hasScroller && v.hasView;
    var hasVertical := vscroll && v.isVisible;
    if touchBrowser {
      hasVertical := false;
      hasHorizontal := false;
    }

    var clip := ClipLayout(0.0, 0.0, 0.0, 0.0);
    var ht := if hasHorizontal then h.thickness else 0.0;
    var vt := if hasVertical then v.thickness else 0.0;

    var horizontal: Option<HorizontalLayout> := None;
    if hasHorizontal {
      var layout := HorizontalLayout(
        if hl.Some? then hl.value.left else 0.0,
        if hl.Some? then hl.value.bottom else 0.0,
        if hl.Some? then hl.value.right + vt - 1.0 else vt - 1.0,
        ht);
      horizontal := Some(layout);
      clip := clip.(bottom := if h.overlay then 0.0 else layout.bottom + ht);
    } else {
      clip := clip.(bottom := 0.0);
    }
    var horizontalIsVisible: Option<bool> := if hscroll then Some(hasHorizontal) else None;

    var vertical: Option<VerticalLayout> := None;
    if hasVertical {
      ht := ht + verticalScrollerBottom;
      var layout := VerticalLayout(
        if vl.Some? then vl.value.top else 0.0,
        if vl.Some? then vl.value.bottom + ht else ht,
        if vl.Some? then vl.value.right else 0.0,
        vt);
      vertical := Some(layout);
      clip := clip.(right := if v.overlay then 0.0 else layout.right + vt);
    } else {
      clip := clip.(right := 0.0);
    }
    var verticalIsVisible: Option<bool> := if vscroll then Some(hasVertical) else None;

    r := Tiles(horizontal, horizontalIsVisible, vertical, verticalIsVisible, clip);
  }
}
