/** The integer decision logic inside the plugin's method handler, as pure
    definitions and the properties proved about them: the resize edge table,
    the "looks maximised" test of the title-bar double tap and its round trip,
    the title-bar style mask, the geometry read back by the getters, and the
    C conversions (integer halving, double-to-int truncation) used when a
    window is centred or moved to caller-supplied coordinates. */
module WindowRules {
  import opened Win32

  datatype Option<T> = None | Some(value: T)

  // ---------------------------------------------------------------------------
  // startResize: which edge or corner the sizing command names

  datatype Edge = Top | TopLeft | Left | Right | TopRight | Bottom | BottomLeft | BottomRight

  /** The WMSZ_* code of an edge or corner. */
  function Code(e: Edge): bv32
  {
    match e
    case Left => WMSZ_LEFT
    case Right => WMSZ_RIGHT
    case Top => WMSZ_TOP
    case TopLeft => WMSZ_TOPLEFT
    case TopRight => WMSZ_TOPRIGHT
    case Bottom => WMSZ_BOTTOM
    case BottomLeft => WMSZ_BOTTOMLEFT
    case BottomRight => WMSZ_BOTTOMRIGHT
  }

  /** The edge a WMSZ_* code names, if any. */
  function EdgeOfCode(c: bv32): Option<Edge>
  {
    if c == WMSZ_LEFT then Some(Left)
    else if c == WMSZ_RIGHT then Some(Right)
    else if c == WMSZ_TOP then Some(Top)
    else if c == WMSZ_TOPLEFT then Some(TopLeft)
    else if c == WMSZ_TOPRIGHT then Some(TopRight)
    else if c == WMSZ_BOTTOM then Some(Bottom)
    else if c == WMSZ_BOTTOMLEFT then Some(BottomLeft)
    else if c == WMSZ_BOTTOMRIGHT then Some(BottomRight)
    else None
  }

  /** The grab flags (top, bottom, left, right) that select each edge: the
      sides the edge or corner touches are set, every other flag is clear. */
  function Pattern(e: Edge): (bool, bool, bool, bool)
  {
    match e
    case Top => (true, false, false, false)
    case TopLeft => (true, false, true, false)
    case Left => (false, false, true, false)
    case Right => (false, false, false, true)
    case TopRight => (true, false, false, true)
    case Bottom => (false, true, false, false)
    case BottomLeft => (false, true, true, false)
    case BottomRight => (false, true, false, true)
  }

  /** The resize command a request with these grab flags should issue:
      SC_SIZE with the code of the edge whose pattern they are, or bare
      SC_SIZE when they are nobody's pattern. */
  ghost predicate IsResizeCommand(top: bool, bottom: bool, left: bool, right: bool, command: bv32)
  {
    && (forall e: Edge :: Pattern(e) == (top, bottom, left, right) ==> command == SC_SIZE | Code(e))
    && ((forall e: Edge :: Pattern(e) != (top, bottom, left, right)) ==> command == SC_SIZE)
  }

  /** No two edges share a pattern, so the order in which the handler tests the
      patterns cannot change which edge it picks. */
  lemma PatternsExclusive(e1: Edge, e2: Edge)
    ensures Pattern(e1) == Pattern(e2) ==> e1 == e2
  {
  }

  /** The WMSZ_* codes are distinct and decode back to their edge. */
  lemma CodeRoundTrip(e: Edge)
    ensures EdgeOfCode(Code(e)) == Some(e)
    ensures 1 <= Code(e) <= 8
  {
  }

  function CountSet(top: bool, bottom: bool, left: bool, right: bool): nat
  {
    (if top then 1 else 0) + (if bottom then 1 else 0) + (if left then 1 else 0) + (if right then 1 else 0)
  }

  /** The grab flags select no edge exactly when none is set, three or more are
      set, or an opposite pair (top and bottom, left and right) is set. */
  lemma {:induction false} NoEdgeIff(top: bool, bottom: bool, left: bool, right: bool)
    ensures (forall e: Edge :: Pattern(e) != (top, bottom, left, right))
        <==> (CountSet(top, bottom, left, right) == 0 || CountSet(top, bottom, left, right) >= 3
              || (top && bottom) || (left && right))
  {
    var p := (top, bottom, left, right);
    if CountSet(top, bottom, left, right) == 0 || CountSet(top, bottom, left, right) >= 3
       || (top && bottom) || (left && right) {
      forall e: Edge ensures Pattern(e) != p {
        match e
        case Top => case TopLeft => case Left => case Right =>
        case TopRight => case Bottom => case BottomLeft => case BottomRight =>
      }
    } else {
      // one or two flags, and not an opposite pair: name the edge
      var e :=
        if top && left then TopLeft
        else if top && right then TopRight
        else if bottom && left then BottomLeft
        else if bottom && right then BottomRight
        else if top then Top
        else if bottom then Bottom
        else if left then Left
        else Right;
      assert Pattern(e) == p;
    }
  }

  /** The command word carries the edge in its low four bits and SC_SIZE above
      them, so the window manager recovers both. */
  lemma {:induction false} ResizeCommandDecodes(top: bool, bottom: bool, left: bool, right: bool, command: bv32)
    requires IsResizeCommand(top, bottom, left, right, command)
    ensures command & 0xFFF0 == SC_SIZE
    ensures (forall e: Edge :: Pattern(e) == (top, bottom, left, right) ==> EdgeOfCode(command & 0xF) == Some(e))
    ensures (forall e: Edge :: Pattern(e) != (top, bottom, left, right)) ==> EdgeOfCode(command & 0xF) == None
  {
    var p := (top, bottom, left, right);
    if e: Edge :| Pattern(e) == p {
      CodeRoundTrip(e);
      assert command == SC_SIZE | Code(e);
      forall e' | Pattern(e') == p ensures EdgeOfCode(command & 0xF) == Some(e') {
        PatternsExclusive(e, e');
      }
    } else {
      assert command == SC_SIZE;
    }
  }

  // ---------------------------------------------------------------------------
  // windowTitleDoubleTap: the "maximised" test and the toggle

  /** Tolerance, in pixels, within which an edge counts as touching the desktop's. */
  const Padding: int := 5

  datatype Side = TopSide | BottomSide | LeftSide | RightSide

  /** How far the window's side lies inside the desktop's corresponding side
      (negative when it sticks out). */
  function Inset(active: Rect, screen: Rect, s: Side): int
  {
    match s
    case TopSide => active.top - screen.top
    case BottomSide => screen.bottom - active.bottom
    case LeftSide => active.left - screen.left
    case RightSide => screen.right - active.right
  }

  /** The window counts as maximised when some side of it is within the padding
      of (or beyond) the desktop's corresponding side. */
  ghost predicate LooksMaximized(active: Rect, screen: Rect)
  {
    exists s: Side :: Inset(active, screen, s) <= Padding
  }

  /** A window that exactly covers the desktop counts as maximised. */
  lemma FlushLooksMaximized(screen: Rect)
    ensures LooksMaximized(screen, screen)
  {
    assert Inset(screen, screen, TopSide) == 0;
  }

  /** What a double tap does: the rectangle to remember as the normal one, and
      the rectangle to move the window to. */
  datatype TapPlan = TapPlan(saved: Rect, target: Rect)

  function PlanTap(maximized: bool, active: Rect, screen: Rect, normal: Rect): TapPlan
  {
    if maximized then TapPlan(normal, normal) else TapPlan(active, screen)
  }

  /** A double tap on a window that does not look maximised remembers it and
      fills the desktop; the window then looks maximised, so a second tap moves
      it back to exactly where it was, and the remembered rectangle stays. */
  lemma {:induction false} TapTwiceRestores(active: Rect, screen: Rect, normal: Rect)
    requires !LooksMaximized(active, screen)
    ensures var first := PlanTap(LooksMaximized(active, screen), active, screen, normal);
            var filled := Placed(first.target.left, first.target.top, Width(first.target), Height(first.target));
            var second := PlanTap(LooksMaximized(filled, screen), filled, screen, first.saved);
            && first.saved == active && filled == screen
            && second.saved == active
            && Placed(second.target.left, second.target.top, Width(second.target), Height(second.target)) == active
  {
    PlacedAtOwnGeometry(screen);
    FlushLooksMaximized(screen);
    PlacedAtOwnGeometry(active);
  }

  // ---------------------------------------------------------------------------
  // hideTitleBar: the style bits it clears

  const TitleBarMask: bv32 :=
    WS_CAPTION | WS_THICKFRAME | WS_MINIMIZEBOX | WS_MAXIMIZEBOX | WS_SYSMENU | WS_DLGFRAME

  /** Bit positions of WS_MAXIMIZEBOX, WS_MINIMIZEBOX, WS_THICKFRAME,
      WS_SYSMENU, WS_DLGFRAME and WS_BORDER. */
  const TitleBarBits: set<bv5> := {16, 17, 18, 19, 22, 23}

  predicate BitSet(x: bv32, i: bv5)
  {
    (x >> i) & 1 == 1
  }

  /** The mask is exactly the six title-bar bits. */
  lemma TitleBarMaskBits()
    ensures forall i: bv5 :: BitSet(TitleBarMask, i) <==> i in TitleBarBits
    ensures |TitleBarBits| == 6
  {
  }

  /** The style word after hideTitleBar: the six title-bar bits are clear and
      every other bit is as it was. */
  function StripTitleBar(style: bv32): (r: bv32)
    ensures forall i: bv5 :: BitSet(r, i) == (BitSet(style, i) && i !in TitleBarBits)
  {
    var r := style & !TitleBarMask;
    forall i: bv5 ensures BitSet(r, i) == (BitSet(style, i) && i !in TitleBarBits) {
      BitOfClear(style, TitleBarMask, i);
      TitleBarMaskBits();
    }
    r
  }

  lemma BitOfClear(x: bv32, m: bv32, i: bv5)
    ensures BitSet(x & !m, i) == (BitSet(x, i) && !BitSet(m, i))
  {
  }

  /** Hiding the title bar twice leaves the same style as hiding it once. */
  lemma StripIdempotent(style: bv32)
    ensures StripTitleBar(StripTitleBar(style)) == StripTitleBar(style)
  {
  }

  // ---------------------------------------------------------------------------
  // Getters: the maps the handler replies with

  function ScreenSize(desktop: Rect): map<string, real>
  {
    map["width" := desktop.right as real, "height" := desktop.bottom as real]
  }

  function WindowSize(r: Rect): map<string, real>
  {
    map["width" := Width(r) as real, "height" := Height(r) as real]
  }

  function WindowPosition(r: Rect): map<string, real>
  {
    map["x" := r.left as real, "y" := r.top as real]
  }

  /** The screen size reports absolute right and bottom; it agrees with the
      desktop's extent only when the desktop starts at the origin. */
  lemma ScreenSizeIsExtentAtOrigin(desktop: Rect)
    ensures ScreenSize(desktop) == WindowSize(desktop) <==> desktop.left == 0 && desktop.top == 0
  {
    if ScreenSize(desktop) == WindowSize(desktop) {
      assert ScreenSize(desktop)["width"] == WindowSize(desktop)["width"];
      assert ScreenSize(desktop)["height"] == WindowSize(desktop)["height"];
    }
  }

  /** setWindowSize keeps the origin: what getWindowSize and getWindowPosition
      then read back is the requested size at the old position. */
  lemma ResizeReadsBack(r: Rect, w: int, h: int)
    ensures WindowSize(Placed(r.left, r.top, w, h)) == map["width" := w as real, "height" := h as real]
    ensures WindowPosition(Placed(r.left, r.top, w, h)) == WindowPosition(r)
  {
  }

  /** setWindowPosition keeps the extent: what getWindowPosition and
      getWindowSize then read back is the requested position with the old size. */
  lemma MoveReadsBack(r: Rect, x: int, y: int)
    ensures WindowPosition(Placed(x, y, Width(r), Height(r))) == map["x" := x as real, "y" := y as real]
    ensures WindowSize(Placed(x, y, Width(r), Height(r))) == WindowSize(r)
  {
  }

  // ---------------------------------------------------------------------------
  // C arithmetic: integer halving and double-to-int conversion

  /** C's `n / 2` on a signed integer: the quotient rounded toward zero. */
  function HalfTowardZero(n: int): (h: int)
    ensures n >= 0 ==> 0 <= 2 * h <= n <= 2 * h + 1
    ensures n < 0 ==> 2 * h - 1 <= n <= 2 * h <= 0
  {
    if n >= 0 then n / 2 else -((-n) / 2)
  }

  /** C's conversion of a double to an integer: the fraction is discarded,
      rounding toward zero. */
  function TruncToInt(d: real): (n: int)
    ensures d >= 0.0 ==> 0.0 <= n as real <= d < n as real + 1.0
    ensures d < 0.0 ==> n as real - 1.0 < d <= n as real <= 0.0
  {
    if d >= 0.0 then d.Floor else -((-d).Floor)
  }

  /** A whole number survives the conversion unchanged. */
  lemma TruncOfWhole(k: int)
    ensures TruncToInt(k as real) == k
  {
  }

  /** centerWindow's offset along one axis: half the desktop's extent (integer
      division) less half the window's extent (double division), truncated. */
  function CenterOffset(screenSpan: int, span: int): int
  {
    TruncToInt(HalfTowardZero(screenSpan) as real - span as real / 2.0)
  }

  /** The window's centre ends up within a pixel of the desktop's centre, and
      exactly on it when both extents are even. */
  lemma {:induction false} CenterOffsetCentres(screenSpan: int, span: int)
    requires screenSpan >= 0
    ensures -2 <= 2 * CenterOffset(screenSpan, span) + span - screenSpan <= 1
    ensures screenSpan % 2 == 0 && span % 2 == 0 ==> 2 * CenterOffset(screenSpan, span) == screenSpan - span
  {
    var q := HalfTowardZero(screenSpan);
    var k := span / 2;
    var x := CenterOffset(screenSpan, span);
    if span % 2 == 0 {
      assert span as real / 2.0 == k as real;
      assert x == q - k;
    } else {
      assert span == 2 * k + 1;
      assert span as real / 2.0 == k as real + 0.5;
      var m := q - k;
      if m >= 1 {
        assert x == m - 1;
      } else {
        assert x == m;
      }
    }
  }
}
