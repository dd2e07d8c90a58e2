/** The window-control plugin: one object holding the remembered normal
    rectangle, and the handler that answers a named method call by driving the
    window manager. */
module WindowControl {
  import opened Win32
  import opened WindowRules

  /** An argument value as the caller's map carries it. */
  datatype Arg = BoolArg(b: bool) | DoubleArg(d: real)

  /** What the handler answers: a boolean, a string-keyed map of numbers
      (possibly empty), or the "not implemented" signal. */
  datatype Reply = BoolReply(b: bool) | MapReply(m: map<string, real>) | NotImplemented

  predicate BoolAt(args: map<string, Arg>, key: string)
  {
    key in args && args[key].BoolArg?
  }

  predicate DoubleAt(args: map<string, Arg>, key: string)
  {
    key in args && args[key].DoubleArg?
  }

  /** The methods the handler recognises, and the catch-all for every other name. */
  datatype Command =
    | CmdHideTitleBar | CmdShowTitleBar | CmdGetScreenSize | CmdStartResize | CmdStartDrag | CmdCloseWindow
    | CmdMinimizeWindow | CmdWindowTitleDoubleTap | CmdMaximizeWindow | CmdCenterWindow | CmdSetWindowSize
    | CmdSetWindowPosition | CmdGetWindowSize | CmdGetWindowPosition | CmdUnknown

  /** The handler's chain of name comparisons, in its order. */
  function CommandOf(name: string): Command
  {
    if name == "hideTitleBar" then CmdHideTitleBar
    else if name == "showTitleBar" then CmdShowTitleBar
    else if name == "getScreenSize" then CmdGetScreenSize
    else if name == "startResize" then CmdStartResize
    else if name == "startDrag" then CmdStartDrag
    else if name == "closeWindow" then CmdCloseWindow
    else if name == "minimizeWindow" then CmdMinimizeWindow
    else if name == "windowTitleDoubleTap" then CmdWindowTitleDoubleTap
    else if name == "maximizeWindow" then CmdMaximizeWindow
    else if name == "centerWindow" then CmdCenterWindow
    else if name == "setWindowSize" then CmdSetWindowSize
    else if name == "setWindowPosition" then CmdSetWindowPosition
    else if name == "getWindowSize" then CmdGetWindowSize
    else if name == "getWindowPosition" then CmdGetWindowPosition
    else CmdUnknown
  }

  /** The method name a caller sends for each recognised command. */
  function NameOf(c: Command): string
    requires c != CmdUnknown
  {
    match c
    case CmdHideTitleBar => "hideTitleBar"
    case CmdShowTitleBar => "showTitleBar"
    case CmdGetScreenSize => "getScreenSize"
    case CmdStartResize => "startResize"
    case CmdStartDrag => "startDrag"
    case CmdCloseWindow => "closeWindow"
    case CmdMinimizeWindow => "minimizeWindow"
    case CmdWindowTitleDoubleTap => "windowTitleDoubleTap"
    case CmdMaximizeWindow => "maximizeWindow"
    case CmdCenterWindow => "centerWindow"
    case CmdSetWindowSize => "setWindowSize"
    case CmdSetWindowPosition => "setWindowPosition"
    case CmdGetWindowSize => "getWindowSize"
    case CmdGetWindowPosition => "getWindowPosition"
  }

  /** Each command's name reaches that command, and a name reaches a command
      only if it is that command's name: the names are distinct, so the order
      of the comparisons does not matter, and every other name is CmdUnknown. */
  lemma NamesRoundTrip(c: Command, name: string)
    ensures c != CmdUnknown ==> CommandOf(NameOf(c)) == c
    ensures CommandOf(name) != CmdUnknown ==> NameOf(CommandOf(name)) == name
  {
  }

  /** The arguments the handler reads exist and have the type it reads them as. */
  predicate WellTypedArgs(name: string, args: map<string, Arg>)
  {
    match CommandOf(name)
    case CmdStartResize =>
      BoolAt(args, "top") && BoolAt(args, "bottom") && BoolAt(args, "left") && BoolAt(args, "right")
    case CmdSetWindowSize => DoubleAt(args, "width") && DoubleAt(args, "height")
    case CmdSetWindowPosition => DoubleAt(args, "x") && DoubleAt(args, "y")
    case _ => true
  }

  /** The sizing command startResize sends, built by OR-ing one edge code into
      SC_SIZE; the patterns are tested in the handler's order. */
  method ResizeCommand(top: bool, bottom: bool, left: bool, right: bool) returns (command: bv32)
    ensures IsResizeCommand(top, bottom, left, right, command)
  {
    command := SC_SIZE;
    if top && !bottom && !right && !left {
      command := command | WMSZ_TOP;
      assert Pattern(Top) == (top, bottom, left, right);
    } else if top && left && !bottom && !right {
      command := command | WMSZ_TOPLEFT;
      assert Pattern(TopLeft) == (top, bottom, left, right);
    } else if left && !top && !bottom && !right {
      command := command | WMSZ_LEFT;
      assert Pattern(Left) == (top, bottom, left, right);
    } else if right && !top && !left && !bottom {
      command := command | WMSZ_RIGHT;
      assert Pattern(Right) == (top, bottom, left, right);
    } else if top && right && !left && !bottom {
      command := command | WMSZ_TOPRIGHT;
      assert Pattern(TopRight) == (top, bottom, left, right);
    } else if bottom && !top && !right && !left {
      command := command | WMSZ_BOTTOM;
      assert Pattern(Bottom) == (top, bottom, left, right);
    } else if bottom && left && !top && !right {
      command := command | WMSZ_BOTTOMLEFT;
      assert Pattern(BottomLeft) == (top, bottom, left, right);
    } else if bottom && right && !top && !left {
      command := command | WMSZ_BOTTOMRIGHT;
      assert Pattern(BottomRight) == (top, bottom, left, right);
    }
  }

  /** windowTitleDoubleTap's test: four independent comparisons, any of which
      marks the window maximised. */
  method Classify(activeRect: Rect, rectScreen: Rect) returns (isMaximized: bool)
    ensures isMaximized <==> LooksMaximized(activeRect, rectScreen)
  {
    isMaximized := false;
    if activeRect.top <= rectScreen.top + Padding {
      isMaximized := true;
    }
    if activeRect.bottom >= rectScreen.bottom - Padding {
      isMaximized := true;
    }
    if activeRect.left <= rectScreen.left + Padding {
      isMaximized := true;
    }
    if activeRect.right >= rectScreen.right - Padding {
      isMaximized := true;
    }
    if isMaximized {
      assert Inset(activeRect, rectScreen, TopSide) <= Padding
          || Inset(activeRect, rectScreen, BottomSide) <= Padding
          || Inset(activeRect, rectScreen, LeftSide) <= Padding
          || Inset(activeRect, rectScreen, RightSide) <= Padding;
    }
  }

  /** SetWindowPos flags with which hideTitleBar has the frame redrawn while
      leaving the window's position, size and z-order alone. */
  const RedrawFrameFlags: bv32 := SWP_FRAMECHANGED | SWP_NOMOVE | SWP_NOSIZE | SWP_NOZORDER | SWP_NOOWNERZORDER

  class WindowControlPlugin {
    /** The rectangle a double tap restores a "maximised" window to. */
    var normalRect: Rect

    /** The rectangle starts out indeterminate. */
    constructor ()
    {
      normalRect := *;
    }

    /** Answers one method call. Unknown names are answered with the
        "not implemented" signal, distinct from every reply a recognised
        method gives, and have no effect. */
    method Handle(name: string, args: map<string, Arg>, os: Os) returns (reply: Reply)
      requires WellTypedArgs(name, args)
      modifies this, os`active, os`style, os`log
      // only the double tap touches the remembered rectangle
      ensures CommandOf(name) != CmdWindowTitleDoubleTap ==> normalRect == old(normalRect)
      ensures CommandOf(name) == CmdUnknown ==> reply == NotImplemented && os.Issued([])
      ensures CommandOf(name) != CmdUnknown ==> reply != NotImplemented
      ensures CommandOf(name) == CmdHideTitleBar ==>
        && reply == BoolReply(true)
        && os.style == StripTitleBar(old(os.style)) && os.active == old(os.active)
        && os.log == old(os.log) + [SetMenuNull, SetStyle(os.style), SetWindowPos(RedrawFrameFlags)]
      ensures CommandOf(name) == CmdShowTitleBar ==> reply == BoolReply(true) && os.Issued([SetMenuNull])
      ensures CommandOf(name) == CmdGetScreenSize ==>
        reply == MapReply(if os.desktopOk then ScreenSize(os.desktop) else map[]) && os.Issued([])
      ensures CommandOf(name) == CmdStartResize ==>
        && reply == BoolReply(true)
        && exists command: bv32 ::
             && IsResizeCommand(args["top"].b, args["bottom"].b, args["left"].b, args["right"].b, command)
             && os.Issued([ReleaseCapture, SendMessage(WM_SYSCOMMAND, command)])
      ensures CommandOf(name) == CmdStartDrag ==>
        reply == BoolReply(true) && os.Issued([ReleaseCapture, SendMessage(WM_SYSCOMMAND, SC_MOVE | HTCAPTION)])
      ensures CommandOf(name) == CmdCloseWindow ==> reply == BoolReply(true) && os.Issued([SendMessage(WM_CLOSE, 0)])
      ensures CommandOf(name) == CmdMinimizeWindow ==> reply == BoolReply(true) && os.Issued([ShowWindow(SW_MINIMIZE)])
      ensures CommandOf(name) == CmdMaximizeWindow ==> reply == BoolReply(true) && os.Issued([ShowWindow(SW_SHOWMAXIMIZED)])
      ensures CommandOf(name) == CmdWindowTitleDoubleTap ==> reply == BoolReply(true) && os.style == old(os.style)
      // the double tap, when both rectangles can be read
      ensures CommandOf(name) == CmdWindowTitleDoubleTap && os.desktopOk && os.activeOk ==>
        var plan := PlanTap(LooksMaximized(old(os.active), os.desktop), old(os.active), os.desktop, old(normalRect));
        && normalRect == plan.saved
        && os.MovedTo(plan.target)
      // the double tap, when a rectangle cannot be read: the local the tests
      // compare is indeterminate, so only this much is known
      ensures CommandOf(name) == CmdWindowTitleDoubleTap ==> exists x: int, y: int, w: int, h: int :: os.Moved(x, y, w, h)
      ensures CommandOf(name) == CmdWindowTitleDoubleTap && !os.activeOk ==> normalRect == old(normalRect)
      ensures CommandOf(name) == CmdWindowTitleDoubleTap && os.desktopOk && !os.activeOk ==>
        os.MovedTo(os.desktop) || os.MovedTo(old(normalRect))
      ensures CommandOf(name) == CmdWindowTitleDoubleTap && !os.desktopOk && os.activeOk ==>
        || (normalRect == old(normalRect) && os.MovedTo(old(normalRect)))
        || normalRect == old(os.active)
      ensures CommandOf(name) == CmdCenterWindow ==>
        if os.desktopOk && os.activeOk then
          var w, h := Width(old(os.active)), Height(old(os.active));
          && reply == BoolReply(os.moveOk)
          && os.Moved(CenterOffset(Width(os.desktop), w), CenterOffset(Height(os.desktop), h), w, h)
        else
          reply == BoolReply(false) && os.Issued([])
      ensures CommandOf(name) == CmdSetWindowSize ==>
        if os.activeOk then
          && reply == BoolReply(os.moveOk)
          && os.Moved(old(os.active).left, old(os.active).top, TruncToInt(args["width"].d), TruncToInt(args["height"].d))
        else
          reply == BoolReply(false) && os.Issued([])
      ensures CommandOf(name) == CmdSetWindowPosition ==>
        if os.activeOk then
          && reply == BoolReply(os.moveOk)
          && os.Moved(TruncToInt(args["x"].d), TruncToInt(args["y"].d), Width(old(os.active)), Height(old(os.active)))
        else
          reply == BoolReply(false) && os.Issued([])
      ensures CommandOf(name) == CmdGetWindowSize ==>
        reply == MapReply(if os.activeOk then WindowSize(os.active) else map[]) && os.Issued([])
      ensures CommandOf(name) == CmdGetWindowPosition ==>
        reply == MapReply(if os.activeOk then WindowPosition(os.active) else map[]) && os.Issued([])
    {
      match CommandOf(name) {
        case CmdHideTitleBar => reply := HideTitleBar(os);
        case CmdShowTitleBar => reply := ShowTitleBar(os);
        case CmdGetScreenSize => reply := GetScreenSize(os);
        case CmdStartResize =>
          reply := StartResize(os, args["top"].b, args["bottom"].b, args["left"].b, args["right"].b);
        case CmdStartDrag => reply := StartDrag(os);
        case CmdCloseWindow => reply := CloseWindow(os);
        case CmdMinimizeWindow => reply := MinimizeWindow(os);
        case CmdWindowTitleDoubleTap => reply := WindowTitleDoubleTap(os);
        case CmdMaximizeWindow => reply := MaximizeWindow(os);
        case CmdCenterWindow => reply := CenterWindow(os);
        case CmdSetWindowSize => reply := SetWindowSize(os, args["width"].d, args["height"].d);
        case CmdSetWindowPosition => reply := SetWindowPosition(os, args["x"].d, args["y"].d);
        case CmdGetWindowSize => reply := GetWindowSize(os);
        case CmdGetWindowPosition => reply := GetWindowPosition(os);
        case CmdUnknown => reply := NotImplemented;
      }
    }

    /** Detaches the menu, clears the six title-bar style bits, and has the
        frame redrawn without moving, sizing or reordering the window. */
    method HideTitleBar(os: Os) returns (reply: Reply)
      modifies os`style, os`log
      ensures reply == BoolReply(true)
      ensures os.style == StripTitleBar(old(os.style))
      ensures os.log == old(os.log) + [SetMenuNull, SetStyle(os.style), SetWindowPos(RedrawFrameFlags)]
    {
      os.Issue(SetMenuNull);
      var lStyle := os.GetWindowLong();
      lStyle := lStyle & !TitleBarMask;
      os.SetWindowLong(lStyle);
      os.Issue(SetWindowPos(RedrawFrameFlags));
      reply := BoolReply(true);
    }

    /** Only detaches the menu: the style bits hideTitleBar cleared stay clear. */
    method ShowTitleBar(os: Os) returns (reply: Reply)
      modifies os`log
      ensures reply == BoolReply(true) && os.Issued([SetMenuNull])
    {
      os.Issue(SetMenuNull);
      reply := BoolReply(true);
    }

    /** The desktop's right and bottom coordinates, or an empty map when its
        rectangle cannot be read. */
    method GetScreenSize(os: Os) returns (reply: Reply)
      ensures reply == MapReply(if os.desktopOk then ScreenSize(os.desktop) else map[])
    {
      var umap: map<string, real> := map[];
      var rect: Rect := *;
      var ok;
      ok, rect := os.GetWindowRect(DesktopWindow, rect);
      if ok {
        umap := umap["width" := rect.right as real];
        umap := umap["height" := rect.bottom as real];
      }
      reply := MapReply(umap);
    }

    /** Releases the mouse and asks for an interactive resize from the edge the
        grab flags select; answers true whatever the flags. */
    method StartResize(os: Os, top: bool, bottom: bool, left: bool, right: bool) returns (reply: Reply)
      modifies os`log
      ensures reply == BoolReply(true)
      ensures exists command: bv32 ::
        && IsResizeCommand(top, bottom, left, right, command)
        && os.Issued([ReleaseCapture, SendMessage(WM_SYSCOMMAND, command)])
    {
      os.Issue(ReleaseCapture);
      var command := ResizeCommand(top, bottom, left, right);
      os.Issue(SendMessage(WM_SYSCOMMAND, command));
      reply := BoolReply(true);
    }

    method StartDrag(os: Os) returns (reply: Reply)
      modifies os`log
      ensures reply == BoolReply(true)
      ensures os.Issued([ReleaseCapture, SendMessage(WM_SYSCOMMAND, SC_MOVE | HTCAPTION)])
    {
      os.Issue(ReleaseCapture);
      os.Issue(SendMessage(WM_SYSCOMMAND, SC_MOVE | HTCAPTION));
      reply := BoolReply(true);
    }

    method CloseWindow(os: Os) returns (reply: Reply)
      modifies os`log
      ensures reply == BoolReply(true) && os.Issued([SendMessage(WM_CLOSE, 0)])
    {
      os.Issue(SendMessage(WM_CLOSE, 0));
      reply := BoolReply(true);
    }

    method MinimizeWindow(os: Os) returns (reply: Reply)
      modifies os`log
      ensures reply == BoolReply(true) && os.Issued([ShowWindow(SW_MINIMIZE)])
    {
      os.Issue(ShowWindow(SW_MINIMIZE));
      reply := BoolReply(true);
    }

    method MaximizeWindow(os: Os) returns (reply: Reply)
      modifies os`log
      ensures reply == BoolReply(true) && os.Issued([ShowWindow(SW_SHOWMAXIMIZED)])
    {
      os.Issue(ShowWindow(SW_SHOWMAXIMIZED));
      reply := BoolReply(true);
    }

    /** The title-bar double tap. A window that does not look maximised is
        remembered in normalRect and moved to fill the desktop; one that does is
        moved to normalRect. The two rectangle queries' results are not checked:
        a failed query leaves its local indeterminate. Answers true. */
    method WindowTitleDoubleTap(os: Os) returns (reply: Reply)
      modifies this, os`active, os`log
      ensures reply == BoolReply(true)
      // exactly one move is issued, whatever the queries return
      ensures exists x: int, y: int, w: int, h: int :: os.Moved(x, y, w, h)
      ensures os.desktopOk && os.activeOk ==>
        var plan := PlanTap(LooksMaximized(old(os.active), os.desktop), old(os.active), os.desktop, old(normalRect));
        && normalRect == plan.saved
        && os.MovedTo(plan.target)
      // a failed query leaves a local the tests compare indeterminate
      ensures !os.activeOk ==> normalRect == old(normalRect)
      ensures os.desktopOk && !os.activeOk ==> os.MovedTo(os.desktop) || os.MovedTo(old(normalRect))
      ensures !os.desktopOk && os.activeOk ==>
        || (normalRect == old(normalRect) && os.MovedTo(old(normalRect)))
        || normalRect == old(os.active)
    {
      var rectScreen: Rect := *;
      var screenOk;
      screenOk, rectScreen := os.GetWindowRect(DesktopWindow, rectScreen);
      var activeRect: Rect := *;
      var activeOk;
      activeOk, activeRect := os.GetWindowRect(ActiveWindow, activeRect);
      var isMaximized := Classify(activeRect, rectScreen);
      if !isMaximized {
        var saved;
        saved, normalRect := os.GetWindowRect(ActiveWindow, normalRect);
      }
      var moved;
      ghost var target: Rect;
      if isMaximized {
        var rect := normalRect;
        moved := os.MoveActiveWindow(rect.left, rect.top, Width(rect), Height(rect));
        target := rect;
      } else {
        var rect := rectScreen;
        moved := os.MoveActiveWindow(rect.left, rect.top, Width(rect), Height(rect));
        target := rect;
      }
      assert os.MovedTo(target);
      reply := BoolReply(true);
    }

    /** Keeps the window's size and moves it so that it sits in the middle of
        the desktop; answers false without moving when a rectangle cannot be
        read, and otherwise whether the move succeeded. */
    method CenterWindow(os: Os) returns (reply: Reply)
      modifies os`active, os`log
      ensures
        if os.desktopOk && os.activeOk then
          var w, h := Width(old(os.active)), Height(old(os.active));
          && reply == BoolReply(os.moveOk)
          && os.Moved(CenterOffset(Width(os.desktop), w), CenterOffset(Height(os.desktop), h), w, h)
        else
          reply == BoolReply(false) && os.Issued([])
    {
      var rect: Rect := *;
      var success := false;
      var rectScreen: Rect := *;
      var screenOk;
      screenOk, rectScreen := os.GetWindowRect(DesktopWindow, rectScreen);
      if screenOk {
        var activeOk;
        activeOk, rect := os.GetWindowRect(ActiveWindow, rect);
        if activeOk {
          var width, height := Width(rect), Height(rect);
          var x := TruncToInt(HalfTowardZero(Width(rectScreen)) as real - width as real / 2.0);
          var y := TruncToInt(HalfTowardZero(Height(rectScreen)) as real - height as real / 2.0);
          success := os.MoveActiveWindow(x, y, width, height);
        }
      }
      reply := BoolReply(success);
    }

    /** Keeps the window's top-left corner and applies the requested size,
        truncated to whole pixels. */
    method SetWindowSize(os: Os, width: real, height: real) returns (reply: Reply)
      modifies os`active, os`log
      ensures
        if os.activeOk then
          && reply == BoolReply(os.moveOk)
          && os.Moved(old(os.active).left, old(os.active).top, TruncToInt(width), TruncToInt(height))
        else
          reply == BoolReply(false) && os.Issued([])
    {
      var rect: Rect := *;
      var success := false;
      var ok;
      ok, rect := os.GetWindowRect(ActiveWindow, rect);
      if ok {
        success := os.MoveActiveWindow(rect.left, rect.top, TruncToInt(width), TruncToInt(height));
      }
      reply := BoolReply(success);
    }

    /** Keeps the window's size and applies the requested position, truncated
        to whole pixels. */
    method SetWindowPosition(os: Os, x: real, y: real) returns (reply: Reply)
      modifies os`active, os`log
      ensures
        if os.activeOk then
          && reply == BoolReply(os.moveOk)
          && os.Moved(TruncToInt(x), TruncToInt(y), Width(old(os.active)), Height(old(os.active)))
        else
          reply == BoolReply(false) && os.Issued([])
    {
      var rect: Rect := *;
      var success := false;
      var ok;
      ok, rect := os.GetWindowRect(ActiveWindow, rect);
      if ok {
        success := os.MoveActiveWindow(TruncToInt(x), TruncToInt(y), Width(rect), Height(rect));
      }
      reply := BoolReply(success);
    }

    /** The window's width and height, or an empty map when its rectangle
        cannot be read. */
    method GetWindowSize(os: Os) returns (reply: Reply)
      ensures reply == MapReply(if os.activeOk then WindowSize(os.active) else map[])
    {
      var umap: map<string, real> := map[];
      var rect: Rect := *;
      var ok;
      ok, rect := os.GetWindowRect(ActiveWindow, rect);
      if ok {
        umap := umap["width" := Width(rect) as real];
        umap := umap["height" := Height(rect) as real];
      }
      reply := MapReply(umap);
    }

    /** The window's top-left corner, or an empty map when its rectangle
        cannot be read. */
    method GetWindowPosition(os: Os) returns (reply: Reply)
      ensures reply == MapReply(if os.activeOk then WindowPosition(os.active) else map[])
    {
      var umap: map<string, real> := map[];
      var rect: Rect := *;
      var ok;
      ok, rect := os.GetWindowRect(ActiveWindow, rect);
      if ok {
        umap := umap["x" := rect.left as real];
        umap := umap["y" := rect.top as real];
      }
      reply := MapReply(umap);
    }
  }

  /** Two double taps on a window that does not look maximised put it back
      exactly where it was, provided the window manager honours both moves. */
  method TapTwiceRestoresWindow(plugin: WindowControlPlugin, os: Os)
    requires os.desktopOk && os.activeOk && os.moveOk
    requires !LooksMaximized(os.active, os.desktop)
    modifies plugin, os`active, os`style, os`log
    ensures os.active == old(os.active) && plugin.normalRect == old(os.active)
    ensures os.style == old(os.style)
    ensures os.log == old(os.log)
         + [MoveWindow(os.desktop.left, os.desktop.top, Width(os.desktop), Height(os.desktop)),
            MoveWindow(os.active.left, os.active.top, Width(os.active), Height(os.active))]
  {
    var first := plugin.Handle("windowTitleDoubleTap", map[], os);
    PlacedAtOwnGeometry(os.desktop);
    assert os.active == os.desktop;
    FlushLooksMaximized(os.desktop);
    var second := plugin.Handle("windowTitleDoubleTap", map[], os);
    PlacedAtOwnGeometry(old(os.active));
  }

  /** After setWindowPosition with whole-number coordinates succeeds,
      getWindowPosition reads them back and getWindowSize is as before. */
  method PositionReadsBack(plugin: WindowControlPlugin, os: Os, x: int, y: int)
    returns (sizeBefore: Reply, moved: Reply, position: Reply, sizeAfter: Reply)
    requires os.activeOk && os.moveOk
    modifies os`active, os`log
    ensures moved == BoolReply(true)
    ensures position == MapReply(map["x" := x as real, "y" := y as real])
    ensures sizeAfter == sizeBefore
  {
    sizeBefore := plugin.GetWindowSize(os);
    ghost var before := os.active;
    TruncOfWhole(x);
    TruncOfWhole(y);
    moved := plugin.SetWindowPosition(os, x as real, y as real);
    assert os.active == Placed(x, y, Width(before), Height(before));
    MoveReadsBack(before, x, y);
    position := plugin.GetWindowPosition(os);
    sizeAfter := plugin.GetWindowSize(os);
  }
}
