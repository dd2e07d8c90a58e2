/** The slice of the Win32 windowing interface that the window-control plugin
    talks to, as an abstract environment.

    Only the active window and the desktop window are ever addressed. Each one
    has a bounding rectangle, and the rectangle query on each may fail. The
    active window also has a style word and is the only window that is ever
    moved. Every call with a side effect is appended to a log, so that what the
    plugin asked of the window manager can be stated exactly; the real effect
    of those calls (an interactive resize, a minimise, a close) is not modelled. */
module Win32 {

  /** A RECT: screen coordinates of the four edges. LONG fields are modelled as
      unbounded integers (see the README on 32-bit overflow). */
  datatype Rect = Rect(left: int, top: int, right: int, bottom: int)

  function Width(r: Rect): int { r.right - r.left }
  function Height(r: Rect): int { r.bottom - r.top }

  /** The rectangle a window occupies after a successful MoveWindow(x, y, w, h). */
  function Placed(x: int, y: int, w: int, h: int): (r: Rect)
    ensures r.left == x && r.top == y && Width(r) == w && Height(r) == h
  {
    Rect(x, y, x + w, y + h)
  }

  /** Moving a window to a rectangle's own origin and extent reproduces it. */
  lemma PlacedAtOwnGeometry(r: Rect)
    ensures Placed(r.left, r.top, Width(r), Height(r)) == r
  {
  }

  // System commands and hit-test codes (WM_SYSCOMMAND parameters)
  const SC_SIZE: bv32 := 0xF000
  const SC_MOVE: bv32 := 0xF010
  const HTCAPTION: bv32 := 2

  // Edge and corner codes of a sizing operation
  const WMSZ_LEFT: bv32 := 1
  const WMSZ_RIGHT: bv32 := 2
  const WMSZ_TOP: bv32 := 3
  const WMSZ_TOPLEFT: bv32 := 4
  const WMSZ_TOPRIGHT: bv32 := 5
  const WMSZ_BOTTOM: bv32 := 6
  const WMSZ_BOTTOMLEFT: bv32 := 7
  const WMSZ_BOTTOMRIGHT: bv32 := 8

  // Window messages
  const WM_CLOSE: bv32 := 0x0010
  const WM_SYSCOMMAND: bv32 := 0x0112

  // ShowWindow commands
  const SW_SHOWMAXIMIZED: int := 3
  const SW_MINIMIZE: int := 6

  // Window style bits (WS_CAPTION is WS_BORDER together with WS_DLGFRAME)
  const WS_MAXIMIZEBOX: bv32 := 0x0001_0000
  const WS_MINIMIZEBOX: bv32 := 0x0002_0000
  const WS_THICKFRAME: bv32 := 0x0004_0000
  const WS_SYSMENU: bv32 := 0x0008_0000
  const WS_DLGFRAME: bv32 := 0x0040_0000
  const WS_BORDER: bv32 := 0x0080_0000
  const WS_CAPTION: bv32 := 0x00C0_0000

  // SetWindowPos flags
  const SWP_NOSIZE: bv32 := 0x0001
  const SWP_NOMOVE: bv32 := 0x0002
  const SWP_NOZORDER: bv32 := 0x0004
  const SWP_FRAMECHANGED: bv32 := 0x0020
  const SWP_NOOWNERZORDER: bv32 := 0x0200

  /** The two windows the plugin addresses: GetActiveWindow() and GetDesktopWindow(). */
  datatype Hwnd = ActiveWindow | DesktopWindow

  /** A call with a side effect on the active window, as it appears in the log. */
  datatype Call =
    | SetMenuNull                                   // SetMenu(hWnd, NULL)
    | SetStyle(style: bv32)                         // SetWindowLong(hWnd, GWL_STYLE, style)
    | SetWindowPos(flags: bv32)                     // SetWindowPos(hWnd, NULL, 0, 0, 0, 0, flags)
    | ReleaseCapture                                // ReleaseCapture()
    | SendMessage(msg: bv32, wParam: bv32)          // SendMessage(hWnd, msg, wParam, 0)
    | ShowWindow(cmd: int)                          // ShowWindow(hWnd, cmd)
    | MoveWindow(x: int, y: int, width: int, height: int)  // MoveWindow(hWnd, x, y, w, h, TRUE)

  /** The window manager as the plugin sees it. */
  class Os {
    var desktop: Rect      // the desktop window's rectangle
    var desktopOk: bool    // whether GetWindowRect on the desktop window succeeds
    var active: Rect       // the active window's rectangle
    var activeOk: bool     // whether GetWindowRect on the active window succeeds
    var style: bv32        // the active window's GWL_STYLE word
    var moveOk: bool       // whether MoveWindow on the active window succeeds
    var log: seq<Call>     // every call with a side effect, oldest first

    constructor (desktop: Rect, desktopOk: bool, active: Rect, activeOk: bool, style: bv32, moveOk: bool)
      ensures this.desktop == desktop && this.desktopOk == desktopOk
      ensures this.active == active && this.activeOk == activeOk
      ensures this.style == style && this.moveOk == moveOk && log == []
    {
      this.desktop, this.desktopOk := desktop, desktopOk;
      this.active, this.activeOk := active, activeOk;
      this.style, this.moveOk := style, moveOk;
      log := [];
    }

    function Readable(w: Hwnd): bool
      reads this
    {
      if w == DesktopWindow then desktopOk else activeOk
    }

    function RectOf(w: Hwnd): Rect
      reads this
    {
      if w == DesktopWindow then desktop else active
    }

    /** The log grew by exactly `calls`, and no window changed. */
    twostate predicate Issued(calls: seq<Call>)
      reads this
    {
      log == old(log) + calls && active == old(active) && style == old(style)
    }

    /** Exactly one MoveWindow(x, y, w, h) was issued; the active window now
        occupies the requested rectangle if the move succeeded, and is where it
        was otherwise. */
    twostate predicate Moved(x: int, y: int, w: int, h: int)
      reads this
    {
      && log == old(log) + [MoveWindow(x, y, w, h)]
      && active == (if moveOk then Placed(x, y, w, h) else old(active))
      && style == old(style)
    }

    /** Exactly one MoveWindow onto the rectangle r was issued. */
    twostate predicate MovedTo(r: Rect)
      reads this
    {
      Moved(r.left, r.top, Width(r), Height(r))
    }

    /** GetWindowRect(w, &r): on success fills r with the window's rectangle and
        returns nonzero; on failure returns zero and leaves r as it was. The
        caller's current contents of r are passed in as `prior`. */
    method GetWindowRect(w: Hwnd, prior: Rect) returns (ok: bool, r: Rect)
      ensures ok == Readable(w)
      ensures ok ==> r == RectOf(w)
      ensures !ok ==> r == prior
    {
      ok := Readable(w);
      r := if ok then RectOf(w) else prior;
    }

    method GetWindowLong() returns (s: bv32)
      ensures s == style
    {
      s := style;
    }

    method SetWindowLong(s: bv32)
      modifies this`style, this`log
      ensures style == s && log == old(log) + [SetStyle(s)]
    {
      style := s;
      log := log + [SetStyle(s)];
    }

    /** A call whose only modelled effect is its entry in the log. */
    method Issue(c: Call)
      requires !c.SetStyle? && !c.MoveWindow?
      modifies this`log
      ensures Issued([c])
    {
      log := log + [c];
    }

    method MoveActiveWindow(x: int, y: int, w: int, h: int) returns (ok: bool)
      modifies this`active, this`log
      ensures ok == moveOk && Moved(x, y, w, h)
    {
      ok := moveOk;
      if ok {
        active := Placed(x, y, w, h);
      }
      log := log + [MoveWindow(x, y, w, h)];
    }
  }
}
