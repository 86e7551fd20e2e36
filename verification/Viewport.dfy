/** The scroll position of the fullscreen viewport and the frames it composes. */
module ViewportScroll {
  const MIN_TRANSCRIPT_ROWS: nat := 3

  function Max(a: int, b: int): int {
    if a < b then b else a
  }

  function Min(a: int, b: int): int {
    if a < b then a else b
  }

  function ClippedDockHeight(dockLength: nat, height: nat): nat {
    Min(dockLength, Max(0, height - MIN_TRANSCRIPT_ROWS))
  }

  datatype Scroll = Scroll(top: int, following: bool, lastMax: int, lastWindow: int)

  /** The position is always on the page, and following means the bottom of it. */
  predicate OnPage(s: Scroll) {
    0 <= s.top <= s.lastMax && (s.following ==> s.top == s.lastMax)
  }

  const AT_START: Scroll := Scroll(0, true, 0, 0)

  function WindowHeight(dock: seq<string>, height: nat): nat {
    height - ClippedDockHeight(|dock|, height)
  }

  function Rescroll(s: Scroll, lines: nat, window: nat): Scroll {
    var maxScroll := Max(0, lines - window);
    Scroll(if s.following then maxScroll else Max(0, Min(s.top, maxScroll)), s.following, maxScroll, window)
  }

  /** How one transcript line is shown: image placeholders and the selection depend on the line only. */
  type Display = (nat, string) -> string

  /** The row at offset i of the window that starts at the given line. */
  function WindowRow(transcript: seq<string>, display: Display, top: nat, i: nat): string {
    if top + i < |transcript| then display(top + i, transcript[top + i]) else ""
  }

  function Window(transcript: seq<string>, display: Display, top: nat, window: nat): (rows: seq<string>)
    ensures |rows| == window
  {
    seq(window, i requires 0 <= i < window => WindowRow(transcript, display, top, i))
  }

  function Compose(s: Scroll, transcript: seq<string>, dock: seq<string>, height: nat, display: Display)
    : (seq<string>, Scroll)
    requires OnPage(s)
  {
    var window := WindowHeight(dock, height);
    var t := Rescroll(s, |transcript|, window);
    (Window(transcript, display, t.top, window) + dock[|dock| - (height - window)..], t)
  }

  function ScrolledBy(s: Scroll, delta: int): Scroll {
    var base := if s.following then s.lastMax else s.top;
    var top := Max(0, Min(base + delta, s.lastMax));
    s.(top := top, following := top >= s.lastMax)
  }

  function ScrolledToTop(s: Scroll): Scroll {
    s.(top := 0, following := s.lastMax == 0)
  }

  function ScrolledToBottom(s: Scroll): Scroll {
    s.(top := s.lastMax, following := true)
  }

  datatype Gesture =
    | By(delta: int)
    | ToTop
    | ToBottom
    | Frame(transcript: seq<string>, dock: seq<string>, height: nat, display: Display)

  function Apply(s: Scroll, g: Gesture): Scroll {
    match g
    case By(delta) => ScrolledBy(s, delta)
    case ToTop => ScrolledToTop(s)
    case ToBottom => ScrolledToBottom(s)
    case Frame(transcript, dock, height, _) => Rescroll(s, |transcript|, WindowHeight(dock, height))
  }

  function ApplyAll(s: Scroll, gs: seq<Gesture>): Scroll {
    if gs == [] then s else Apply(ApplyAll(s, gs[..|gs| - 1]), gs[|gs| - 1])
  }

  /** After any gestures and frames the position is on the page. */
  lemma {:induction false} StaysOnPage(gs: seq<Gesture>)
    ensures OnPage(ApplyAll(AT_START, gs))
  {
    if gs != [] {
      StaysOnPage(gs[..|gs| - 1]);
    }
  }

  /** A frame has exactly the requested height and ends with the end of the dock. */
  lemma FrameFillsTheScreen(s: Scroll, transcript: seq<string>, dock: seq<string>, height: nat, display: Display)
    requires OnPage(s)
    ensures
      var (frame, t) := Compose(s, transcript, dock, height, display);
      && |frame| == height && OnPage(t)
      && (height >= MIN_TRANSCRIPT_ROWS ==> t.lastWindow >= MIN_TRANSCRIPT_ROWS)
      && (t.lastWindow < height ==> |dock| > 0 && frame[height - 1] == dock[|dock| - 1])
      && (height >= MIN_TRANSCRIPT_ROWS + |dock| ==> frame[height - |dock|..] == dock)
  {
  }

  /** Following shows the end of the transcript directly above the dock. */
  lemma FollowingShowsTheEnd(s: Scroll, transcript: seq<string>, dock: seq<string>, height: nat, display: Display)
    requires OnPage(s) && s.following && 0 < WindowHeight(dock, height) <= |transcript|
    ensures
      var (frame, t) := Compose(s, transcript, dock, height, display);
      var last := |transcript| - 1;
      t.following && frame[t.lastWindow - 1] == display(last, transcript[last])
  {
  }

  lemma DockFits(dock: seq<string>, height: nat)
    ensures WindowHeight(dock, height) <= height && height - WindowHeight(dock, height) <= |dock|
  {
  }

  lemma WindowAt(transcript: seq<string>, display: Display, top: nat, window: nat, i: nat)
    requires i < window
    ensures Window(transcript, display, top, window)[i] == WindowRow(transcript, display, top, i)
  {
  }

  lemma FrameAt(s: Scroll, transcript: seq<string>, dock: seq<string>, height: nat, display: Display, i: nat)
    requires OnPage(s) && i < height
    ensures
      var (frame, t) := Compose(s, transcript, dock, height, display);
      var window := WindowHeight(dock, height);
      |frame| == height && t == Rescroll(s, |transcript|, window) && window <= height && height - window <= |dock|
      && frame[i] == if i < window then WindowRow(transcript, display, t.top, i)
                     else dock[|dock| - (height - window)..][i - window]
  {
    hide Window, WindowRow, WindowHeight;
    DockFits(dock, height);
    var window := WindowHeight(dock, height);
    if i < window {
      WindowAt(transcript, display, Rescroll(s, |transcript|, window).top, window, i);
    }
  }

  /** Appending to the transcript never moves the lines that a reader who scrolled up is looking at. */
  lemma AppendsDoNotScroll(
      s: Scroll, transcript: seq<string>, more: seq<string>, dock: seq<string>, height: nat, display: Display, i: nat)
    requires OnPage(s) && !s.following && i < height
    ensures
      var (frame, t) := Compose(s, transcript, dock, height, display);
      var (frame', t') := Compose(t, transcript + more, dock, height, display);
      && |frame| == |frame'| == height
      && t'.top == t.top && !t'.following
      && (i >= WindowHeight(dock, height) || t.top + i < |transcript| ==> frame'[i] == frame[i])
  {
    FrameAt(s, transcript, dock, height, display, i);
    FrameAt(Compose(s, transcript, dock, height, display).1, transcript + more, dock, height, display, i);
  }

  /** Scrolling back down by as much as one scrolled up resumes following, unless the top was hit. */
  lemma ScrollRoundTrip(s: Scroll, k: nat)
    requires OnPage(s) && s.following && k <= s.lastMax
    ensures ScrolledBy(ScrolledBy(s, 0 - k), k) == s
    ensures k > 0 ==> !ScrolledBy(s, 0 - k).following
  {
  }

  /** The scroll state of the viewport as its methods update it. */
  class FullscreenViewport {
    var scrollTop: int
    var following: bool
    var lastMaxScroll: int
    var lastWindowHeight: int

    function View(): Scroll
      reads this
    {
      Scroll(scrollTop, following, lastMaxScroll, lastWindowHeight)
    }

    constructor ()
      ensures View() == AT_START
    {
      scrollTop, following, lastMaxScroll, lastWindowHeight := 0, true, 0, 0;
    }

    method ComposeFrame(transcript: seq<string>, dock: seq<string>, height: nat, display: Display)
      returns (frame: seq<string>)
      requires OnPage(View())
      modifies this
      ensures OnPage(View()) && (frame, View()) == Compose(old(View()), transcript, dock, height, display)
      ensures |frame| == height && lastWindowHeight <= height && following == old(following)
      ensures
        var shown := height - lastWindowHeight;
        && shown == (if |dock| + 3 <= height then |dock| else if height > 3 then height - 3 else 0)
        && frame[lastWindowHeight..] == dock[|dock| - shown..]
      ensures lastMaxScroll == if |transcript| > lastWindowHeight then |transcript| - lastWindowHeight else 0
      ensures scrollTop == if following || old(scrollTop) > lastMaxScroll then lastMaxScroll else old(scrollTop)
      ensures forall i: nat :: i < lastWindowHeight ==>
                var line := scrollTop + i;
                frame[i] == if line < |transcript| then display(line, transcript[line]) else ""
    {
      hide WindowRow, Window;
      var dockLines := dock;
      var dockHeight := ClippedDockHeight(|dockLines|, height);
      if |dockLines| > dockHeight {
        dockLines := dockLines[|dockLines| - dockHeight..];
      }
      var windowHeight := height - |dockLines|;
      var maxScroll := Max(0, |transcript| - windowHeight);
      if following {
        scrollTop := maxScroll;
      } else {
        scrollTop := Max(0, Min(scrollTop, maxScroll));
      }
      lastMaxScroll := maxScroll;
      lastWindowHeight := windowHeight;

      var window := Rows(transcript, display, scrollTop, windowHeight);
      frame := window + dockLines;
    }

    /** The lines of the window, as they are shown, and blanks behind them. */
    static method Rows(transcript: seq<string>, display: Display, top: nat, height: nat) returns (window: seq<string>)
      requires top <= |transcript|
      ensures window == Window(transcript, display, top, height) && |window| == height
      ensures forall i: nat :: i < height ==>
                window[i] == if top + i < |transcript| then display(top + i, transcript[top + i]) else ""
    {
      window := [];
      for i := top to Min(top + height, |transcript|)
        invariant |window| == i - top
        invariant forall k :: 0 <= k < |window| ==> window[k] == display(top + k, transcript[top + k])
      {
        window := window + [display(i, transcript[i])];
      }
      while |window| < height
        invariant Min(top + height, |transcript|) - top <= |window| <= height
        invariant forall k :: 0 <= k < |window| ==> window[k] == WindowRow(transcript, display, top, k)
      {
        window := window + [""];
      }
      assert window == Window(transcript, display, top, height);
    }

    method ScrollBy(delta: int)
      requires OnPage(View())
      modifies this
      ensures OnPage(View()) && View() == ScrolledBy(old(View()), delta)
      ensures
        var wanted := old(if following then lastMaxScroll else scrollTop) + delta;
        scrollTop == if wanted < 0 then 0 else if wanted > lastMaxScroll then lastMaxScroll else wanted
      ensures following <==> scrollTop == lastMaxScroll
      ensures lastMaxScroll == old(lastMaxScroll) && lastWindowHeight == old(lastWindowHeight)
    {
      var base := if following then lastMaxScroll else scrollTop;
      scrollTop := Max(0, Min(base + delta, lastMaxScroll));
      following := scrollTop >= lastMaxScroll;
    }

    method ScrollToTop()
      requires OnPage(View())
      modifies this
      ensures OnPage(View()) && View() == ScrolledToTop(old(View()))
      ensures scrollTop == 0 && (following <==> lastMaxScroll == 0)
      ensures lastMaxScroll == old(lastMaxScroll) && lastWindowHeight == old(lastWindowHeight)
    {
      scrollTop := 0;
      following := lastMaxScroll == 0;
    }

    method ScrollToBottom()
      requires OnPage(View())
      modifies this
      ensures OnPage(View()) && View() == ScrolledToBottom(old(View()))
      ensures following && scrollTop == lastMaxScroll
      ensures lastMaxScroll == old(lastMaxScroll) && lastWindowHeight == old(lastWindowHeight)
    {
      scrollTop := lastMaxScroll;
      following := true;
    }
  }

  /** Any gestures and frames, performed on a viewport. */
  method Perform(gs: seq<Gesture>) returns (v: FullscreenViewport)
    ensures fresh(v) && OnPage(v.View()) && v.View() == ApplyAll(AT_START, gs)
  {
    v := new FullscreenViewport();
    for i := 0 to |gs|
      invariant OnPage(v.View()) && v.View() == ApplyAll(AT_START, gs[..i])
    {
      assert gs[..i + 1][..i] == gs[..i];
      match gs[i] {
        case By(delta) => v.ScrollBy(delta);
        case ToTop => v.ScrollToTop();
        case ToBottom => v.ScrollToBottom();
        case Frame(transcript, dock, height, display) =>
          var _ := v.ComposeFrame(transcript, dock, height, display);
      }
    }
    assert gs[..|gs|] == gs;
  }
}

/** Row-by-row painting on a terminal that understands cursor addressing and erasure. */
module ViewportPaint {
  import opened Wrappers
  import opened ViewportScroll

  /** What one screen row holds; Garbled is anything else, such as the rest of a wrapped line. */
  datatype Row = Blank | Shows(text: string) | Garbled

  datatype Screen = Screen(width: nat, rows: seq<Row>, cursor: int)

  datatype Op =
    | ClearScreen           // ED 2
    | CursorTo(row: int)    // CUP, first column of a row counted from 0
    | EraseLine             // EL 2
    | Print(text: string)
    | ParkCursor(row: int, col: int)

  /** Line measuring and cutting, given by the text utilities. */
  datatype Metrics = Metrics(visibleWidth: string -> nat, slice: (string, nat) -> string)

  ghost predicate Sane(m: Metrics) {
    forall line: string, w: nat :: m.visibleWidth(m.slice(line, w)) <= w
  }

  function Clamp(m: Metrics, line: string, width: nat): string {
    if m.visibleWidth(line) > width then m.slice(line, width) else line
  }

  /** Printing is only predictable on an erased row, and only if the line does not wrap. */
  function Exec(m: Metrics, s: Screen, op: Op): Screen {
    match op
    case ClearScreen => s.(rows := seq(|s.rows|, i => Blank), cursor := 0)
    case CursorTo(row) => s.(cursor := row)
    case ParkCursor(row, _) => s.(cursor := row)
    case EraseLine => if 0 <= s.cursor < |s.rows| then s.(rows := s.rows[s.cursor := Blank]) else s
    case Print(text) =>
      if !(0 <= s.cursor < |s.rows|) then s
      else if m.visibleWidth(text) > s.width then
        s.(rows := seq(|s.rows|, i requires 0 <= i < |s.rows| => if i < s.cursor then s.rows[i] else Garbled))
      else s.(rows := s.rows[s.cursor := if s.rows[s.cursor].Blank? then Shows(text) else Garbled])
  }

  function ExecAll(m: Metrics, s: Screen, ops: seq<Op>): Screen
    decreases |ops|
  {
    if ops == [] then s else ExecAll(m, Exec(m, s, ops[0]), ops[1..])
  }

  lemma {:induction false} ExecConcat(m: Metrics, s: Screen, a: seq<Op>, b: seq<Op>)
    ensures ExecAll(m, s, a + b) == ExecAll(m, ExecAll(m, s, a), b)
    decreases |a|
  {
    if a == [] {
      assert a + b == b;
    } else {
      ExecConcat(m, Exec(m, s, a[0]), a[1..], b);
      assert (a + b)[1..] == a[1..] + b;
    }
  }

  function FrameRow(frame: seq<string>, row: nat): string {
    if row < |frame| then frame[row] else ""
  }

  /** The frame clipped to the screen: its last rows if there are too many. */
  function Clipped(frame: seq<string>, height: nat): seq<string> {
    if |frame| > height then frame[|frame| - height..] else frame
  }

  predicate Kept(prev: seq<string>, frame: seq<string>, row: nat) {
    row < |prev| && prev[row] == FrameRow(frame, row)
  }

  function RowOps(m: Metrics, prev: seq<string>, frame: seq<string>, width: nat, row: nat): seq<Op> {
    if Kept(prev, frame, row) then []
    else [CursorTo(row), EraseLine, Print(Clamp(m, FrameRow(frame, row), width))]
  }

  predicate ShowsRow(m: Metrics, s: Screen, frame: seq<string>, width: nat, row: nat)
    requires row < |s.rows|
  {
    var line := if row < |frame| then frame[row] else "";
    s.rows[row] == Shows(if m.visibleWidth(line) <= width then line else m.slice(line, width))
  }

  ghost predicate ShowsFrame(m: Metrics, s: Screen, frame: seq<string>) {
    forall row :: 0 <= row < |s.rows| ==> ShowsRow(m, s, frame, s.width, row)
  }

  /** Every row shows its line of the frame, or of the frame's end if it is too high; a line that is too long is cut. */
  ghost predicate ShowsEndOf(m: Metrics, s: Screen, frame: seq<string>) {
    forall row :: 0 <= row < |s.rows| ==>
      var above := if |frame| > |s.rows| then |frame| - |s.rows| else 0;
      var line := if above + row < |frame| then frame[above + row] else "";
      s.rows[row] == Shows(if m.visibleWidth(line) <= s.width then line else m.slice(line, s.width))
  }

  /** Painting a row makes it right and leaves the others alone. */
  lemma RowOpsPaintRow(m: Metrics, s: Screen, prev: seq<string>, frame: seq<string>, row: nat)
    requires Sane(m) && row < |s.rows|
    ensures
      var t := ExecAll(m, s, RowOps(m, prev, frame, s.width, row));
      && t.width == s.width && |t.rows| == |s.rows|
      && (forall r :: 0 <= r < |s.rows| && (r != row || Kept(prev, frame, row)) ==> t.rows[r] == s.rows[r])
      && (!Kept(prev, frame, row) ==> ShowsRow(m, t, frame, s.width, row))
  {
    if !Kept(prev, frame, row) {
      var text := Clamp(m, FrameRow(frame, row), s.width);
      var ops := [CursorTo(row), EraseLine, Print(text)];
      assert m.visibleWidth(text) <= s.width;
      assert ops[1..] == [EraseLine, Print(text)] && ops[1..][1..] == [Print(text)];
      var s1 := s.(cursor := row);
      var s2 := s1.(rows := s1.rows[row := Blank]);
      assert ExecAll(m, s, ops) == ExecAll(m, s1, ops[1..]);
      assert ExecAll(m, s1, ops[1..]) == ExecAll(m, s2, [Print(text)]) == Exec(m, s2, Print(text));
    }
  }

  /** The operations that paint the first rows of a frame. */
  function RowsOps(m: Metrics, prev: seq<string>, frame: seq<string>, width: nat, rows: nat): seq<Op> {
    if rows == 0 then [] else RowsOps(m, prev, frame, width, rows - 1) + RowOps(m, prev, frame, width, rows - 1)
  }

  /** The first rows of the screen are painted; the others and the kept ones are as before. */
  ghost predicate PaintedUpTo(m: Metrics, s: Screen, t: Screen, prev: seq<string>, frame: seq<string>, rows: nat) {
    && t.width == s.width && |t.rows| == |s.rows|
    && (forall r :: 0 <= r < |s.rows| && (r >= rows || Kept(prev, frame, r)) ==> t.rows[r] == s.rows[r])
    && (forall r :: 0 <= r < rows && r < |s.rows| && !Kept(prev, frame, r) ==> ShowsRow(m, t, frame, s.width, r))
  }

  lemma PaintOneMore(m: Metrics, s: Screen, t: Screen, prev: seq<string>, frame: seq<string>, row: nat)
    requires Sane(m) && row < |s.rows| && PaintedUpTo(m, s, t, prev, frame, row)
    ensures PaintedUpTo(m, s, ExecAll(m, t, RowOps(m, prev, frame, s.width, row)), prev, frame, row + 1)
  {
    RowOpsPaintRow(m, t, prev, frame, row);
  }

  lemma ThenOneMore(m: Metrics, s: Screen, before: seq<Op>, prev: seq<string>, frame: seq<string>, row: nat)
    requires Sane(m) && row < |s.rows| && PaintedUpTo(m, s, ExecAll(m, s, before), prev, frame, row)
    ensures PaintedUpTo(m, s, ExecAll(m, s, before + RowOps(m, prev, frame, s.width, row)), prev, frame, row + 1)
  {
    PaintOneMore(m, s, ExecAll(m, s, before), prev, frame, row);
    ExecConcat(m, s, before, RowOps(m, prev, frame, s.width, row));
  }

  lemma NothingPaintedYet(m: Metrics, s: Screen, prev: seq<string>, frame: seq<string>)
    ensures PaintedUpTo(m, s, ExecAll(m, s, RowsOps(m, prev, frame, s.width, 0)), prev, frame, 0)
  {
  }

  lemma OneMoreRowOps(m: Metrics, prev: seq<string>, frame: seq<string>, width: nat, row: nat)
    ensures RowsOps(m, prev, frame, width, row + 1) ==
              RowsOps(m, prev, frame, width, row) + RowOps(m, prev, frame, width, row)
  {
  }

  lemma {:induction false} RowsOpsPaintRows(m: Metrics, s: Screen, prev: seq<string>, frame: seq<string>, rows: nat)
    requires Sane(m) && rows <= |s.rows|
    ensures PaintedUpTo(m, s, ExecAll(m, s, RowsOps(m, prev, frame, s.width, rows)), prev, frame, rows)
  {
    hide PaintedUpTo, RowOps, RowsOps, Exec, ExecAll;
    if rows == 0 {
      NothingPaintedYet(m, s, prev, frame);
    } else {
      OneMoreRowOps(m, prev, frame, s.width, rows - 1);
      RowsOpsPaintRows(m, s, prev, frame, rows - 1);
      ThenOneMore(m, s, RowsOps(m, prev, frame, s.width, rows - 1), prev, frame, rows - 1);
    }
  }

  /** The screen after a frame was painted over another one. */
  function Painted(m: Metrics, s: Screen, prev: seq<string>, frame: seq<string>): Screen {
    ExecAll(m, s, RowsOps(m, prev, frame, s.width, |s.rows|))
  }

  /** The screen is right after a diff exactly if the rows the diff kept were right before. */
  lemma DiffIsRightExactly(m: Metrics, s: Screen, prev: seq<string>, frame: seq<string>)
    requires Sane(m)
    ensures ShowsFrame(m, Painted(m, s, prev, frame), frame) <==>
            forall row :: 0 <= row < |s.rows| && Kept(prev, frame, row) ==> ShowsRow(m, s, frame, s.width, row)
  {
    RowsOpsPaintRows(m, s, prev, frame, |s.rows|);
    var t := Painted(m, s, prev, frame);
    forall row | 0 <= row < |s.rows| && Kept(prev, frame, row)
      ensures ShowsRow(m, t, frame, s.width, row) <==> ShowsRow(m, s, frame, s.width, row)
    {
      assert t.rows[row] == s.rows[row];
    }
  }

  /** So painting over a screen that shows the previous frame always works. */
  lemma DiffAfterFrame(m: Metrics, s: Screen, prev: seq<string>, frame: seq<string>)
    requires Sane(m) && (prev == [] || ShowsFrame(m, s, prev))
    ensures ShowsFrame(m, Painted(m, s, prev, frame), frame)
  {
    DiffIsRightExactly(m, s, prev, frame);
    forall row | 0 <= row < |s.rows| && Kept(prev, frame, row)
      ensures ShowsRow(m, s, frame, s.width, row)
    {
      assert FrameRow(prev, row) == FrameRow(frame, row);
      assert ShowsRow(m, s, prev, s.width, row);
    }
  }

  function Cleared(s: Screen): Screen {
    s.(rows := seq(|s.rows|, i => Blank), cursor := 0)
  }

  lemma {:induction false} WidthStays(m: Metrics, s: Screen, ops: seq<Op>)
    ensures ExecAll(m, s, ops).width == s.width && |ExecAll(m, s, ops).rows| == |s.rows|
    decreases |ops|
  {
    if ops != [] {
      WidthStays(m, Exec(m, s, ops[0]), ops[1..]);
    }
  }

  /** The three parts of a paint: an optional clear, the rows, an optional cursor move. */
  lemma PaintInParts(m: Metrics, s: Screen, startOver: bool, rows: seq<Op>, park: seq<Op>)
    requires park == [] || (|park| == 1 && park[0].ParkCursor?)
    ensures
      var clear := if startOver then [ClearScreen, CursorTo(0)] else [];
      var after := ExecAll(m, s, clear + rows + park);
      var painted := ExecAll(m, if startOver then Cleared(s) else s, rows);
      after.width == painted.width == s.width && after.rows == painted.rows && |after.rows| == |s.rows|
  {
    var clear := if startOver then [ClearScreen, CursorTo(0)] else [];
    if startOver {
      assert clear[1..] == [CursorTo(0)] && clear[1..][1..] == [];
      assert ExecAll(m, s, clear) == ExecAll(m, Cleared(s), [CursorTo(0)]) == Cleared(s);
    }
    ExecConcat(m, s, clear, rows);
    ExecConcat(m, s, clear + rows, park);
    WidthStays(m, s, clear + rows);
    WidthStays(m, s, clear + rows + park);
    if park != [] {
      assert park[1..] == [];
    }
  }

  class Painter {
    var prevFrame: seq<string>
    var prevWidth: nat
    var prevHeight: nat

    constructor ()
      ensures prevFrame == []
    {
      prevFrame, prevWidth, prevHeight := [], 0, 0;
    }

    method Reset()
      modifies this
      ensures prevFrame == [] && prevWidth == old(prevWidth) && prevHeight == old(prevHeight)
    {
      prevFrame := [];
    }

    predicate StartsOver(width: nat, height: nat)
      reads this
    {
      width != prevWidth || height != prevHeight || prevFrame == []
    }

    /** The loop over the rows: nothing is sent for a row that did not change. */
    method DiffRows(m: Metrics, frame: seq<string>, width: nat, height: nat) returns (ops: seq<Op>)
      ensures ops == RowsOps(m, prevFrame, frame, width, height)
    {
      ops := [];
      for row := 0 to height
        invariant ops == RowsOps(m, prevFrame, frame, width, row)
      {
        var line := FrameRow(frame, row);
        if row < |prevFrame| && prevFrame[row] == line {
          continue;
        }
        ops := ops + [CursorTo(row), EraseLine, Print(Clamp(m, line, width))];
      }
    }

    /** Paints a frame; rows that did not change since the last frame are not touched. */
    method Paint(m: Metrics, newFrame: seq<string>, width: nat, height: nat, cursor: Option<(int, int)>,
                 ghost screen: Screen)
      returns (ops: seq<Op>)
      requires screen.width == width && |screen.rows| == height
      modifies this
      ensures prevFrame == (if |newFrame| > height then newFrame[|newFrame| - height..] else newFrame)
      ensures prevWidth == width && prevHeight == height
      ensures
        var after := ExecAll(m, screen, ops);
        var painted := if old(StartsOver(width, height)) then Painted(m, Cleared(screen), [], prevFrame)
                       else Painted(m, screen, old(prevFrame), prevFrame);
        after.width == width && |after.rows| == height && after.rows == painted.rows
    {
      var frame := newFrame;
      if |frame| > height {
        frame := frame[|frame| - height..];
      }
      ops := [];
      if width != prevWidth || height != prevHeight || prevFrame == [] {
        ops := [ClearScreen, CursorTo(0)];
        prevFrame := [];
      }
      var rows := DiffRows(m, frame, width, height);
      var park := if cursor.Some? then [ParkCursor(Min(cursor.value.0, height - 1), cursor.value.1)] else [];
      ops := ops + rows + park;
      PaintInParts(m, screen, old(StartsOver(width, height)), rows, park);
      prevFrame := frame;
      prevWidth := width;
      prevHeight := height;
    }
  }

  /** The rows decide what is shown. */
  lemma SameRowsSameFrame(m: Metrics, s: Screen, t: Screen, frame: seq<string>)
    requires s.width == t.width && |s.rows| == |t.rows| && ShowsFrame(m, t, frame)
    ensures ShowsFrame(m, s, frame) <==> s.rows == t.rows
  {
    forall row | 0 <= row < |s.rows|
      ensures ShowsRow(m, s, frame, s.width, row) <==> s.rows[row] == t.rows[row]
    {
      assert ShowsRow(m, t, frame, t.width, row);
    }
    if ShowsFrame(m, s, frame) {
      forall row | 0 <= row < |s.rows|
        ensures s.rows[row] == t.rows[row]
      {
        assert ShowsRow(m, s, frame, s.width, row);
      }
    }
  }

  /** What happens to the terminal: a paint at its size, a reset of the painter, or any other contents of any size. */
  datatype Action =
    | DoPaint(frame: seq<string>, cursor: Option<(int, int)>)
    | DoReset
    | Disturb(screen: Screen)

  /** The sizes now and at the last paint, whether a reset came since, and whether the last frame is surely shown. */
  datatype Knowledge =
    Knowledge(width: nat, height: nat, paintedWidth: nat, paintedHeight: nat, reset: bool, sure: bool,
              frame: seq<string>)

  /** A paint is sure to show its frame after a reset, at a new size, or if the screen surely showed the last one. */
  function Learn(k: Knowledge, action: Action): Knowledge {
    match action
    case DoPaint(frame, _) =>
      Knowledge(k.width, k.height, k.width, k.height, false,
                k.reset || k.width != k.paintedWidth || k.height != k.paintedHeight || k.sure,
                Clipped(frame, k.height))
    case DoReset => k.(reset := true)
    case Disturb(screen) => k.(width := screen.width, height := |screen.rows|, sure := false)
  }

  function LearnAll(first: Screen, actions: seq<Action>): Knowledge {
    if actions == [] then Knowledge(first.width, |first.rows|, 0, 0, true, false, [])
    else Learn(LearnAll(first, actions[..|actions| - 1]), actions[|actions| - 1])
  }

  /** The size of the terminal after some actions. */
  function SizeAfter(first: Screen, actions: seq<Action>): (nat, nat) {
    if actions == [] then (first.width, |first.rows|)
    else match actions[|actions| - 1]
         case Disturb(screen) => (screen.width, |screen.rows|)
         case _ => SizeAfter(first, actions[..|actions| - 1])
  }

  predicate PaintedLast(actions: seq<Action>, q: int, j: int) {
    0 <= q < j <= |actions| && actions[q].DoPaint? && forall r :: q < r < j ==> !actions[r].DoPaint?
  }

  predicate ResetIn(actions: seq<Action>, q: int, j: int) {
    exists r :: 0 <= r < |actions| && q < r < j && actions[r].DoReset?
  }

  /** The last paint before j, if there was one, was reset or had another size than the terminal has at j. */
  ghost predicate StaleAt(first: Screen, actions: seq<Action>, j: int) {
    0 <= j <= |actions| &&
    forall q :: PaintedLast(actions, q, j) ==>
      ResetIn(actions, q, j) || SizeAfter(first, actions[..q]) != SizeAfter(first, actions[..j])
  }

  /** A paint that starts over, with nothing but paints and resets after it. */
  ghost predicate StartedOverSince(first: Screen, actions: seq<Action>, j: int) {
    0 <= j < |actions| && actions[j].DoPaint? && StaleAt(first, actions, j) && Undisturbed(actions, j)
  }

  predicate Undisturbed(actions: seq<Action>, j: int) {
    forall r :: 0 <= r < |actions| && j < r ==> !actions[r].Disturb?
  }

  lemma OvertakenExactly(first: Screen, actions: seq<Action>, j: int)
    requires actions != [] && j < |actions| - 1
    ensures StartedOverSince(first, actions, j) <==>
              !actions[|actions| - 1].Disturb? && StartedOverSince(first, actions[..|actions| - 1], j)
  {
    hide StaleAt;
    var front := actions[..|actions| - 1];
    StaleInPrefix(first, actions, j);
    assert forall r :: 0 <= r < |front| ==> front[r] == actions[r];
  }

  /** Whether the next paint starts over is known. */
  lemma StaleExactly(first: Screen, actions: seq<Action>)
    ensures
      var k := LearnAll(first, actions);
      StaleAt(first, actions, |actions|) <==> k.reset || k.width != k.paintedWidth || k.height != k.paintedHeight
  {
    hide SizeAfter, LearnAll, ResetIn;
    KnowsLastPaint(first, actions);
    assert actions[..|actions|] == actions;
  }

  lemma PrefixTells(actions: seq<Action>, q: int, j: int)
    requires actions != [] && j < |actions|
    ensures PaintedLast(actions[..|actions| - 1], q, j) <==> PaintedLast(actions, q, j)
    ensures ResetIn(actions[..|actions| - 1], q, j) <==> ResetIn(actions, q, j)
    ensures PaintedLast(actions, q, j) ==> actions[..|actions| - 1][..q] == actions[..q]
  {
    var front := actions[..|actions| - 1];
    assert forall r :: 0 <= r < |front| ==> front[r] == actions[r];
    if ResetIn(actions, q, j) {
      var r :| 0 <= r < |actions| && q < r < j && actions[r].DoReset?;
      assert front[r].DoReset?;
    }
  }

  lemma StaleInPrefix(first: Screen, actions: seq<Action>, j: int)
    requires actions != [] && j < |actions|
    ensures StaleAt(first, actions[..|actions| - 1], j) <==> StaleAt(first, actions, j)
  {
    var front := actions[..|actions| - 1];
    if 0 <= j {
      assert front[..j] == actions[..j];
      forall q | PaintedLast(actions, q, j) || PaintedLast(front, q, j)
        ensures PaintedLast(front, q, j) && PaintedLast(actions, q, j)
        ensures ResetIn(front, q, j) || SizeAfter(first, front[..q]) != SizeAfter(first, front[..j]) <==>
                ResetIn(actions, q, j) || SizeAfter(first, actions[..q]) != SizeAfter(first, actions[..j])
      {
        PrefixTells(actions, q, j);
      }
    }
  }

  /** What is known of the last paint. */
  lemma {:induction false} KnowsLastPaint(first: Screen, actions: seq<Action>)
    ensures
      var k, n := LearnAll(first, actions), |actions|;
      && (k.width, k.height) == SizeAfter(first, actions)
      && (k.reset <==> forall q :: PaintedLast(actions, q, n) ==> ResetIn(actions, q, n))
      && (forall q :: PaintedLast(actions, q, n) ==>
            && (k.paintedWidth, k.paintedHeight) == SizeAfter(first, actions[..q])
            && k.frame == Clipped(actions[q].frame, k.paintedHeight))
      && (k.sure ==> k.height == k.paintedHeight)
  {
    if actions == [] {
    } else {
      var n := |actions| - 1;
      KnowsLastPaint(first, actions[..n]);
      forall q
        ensures PaintedLast(actions, q, n + 1) <==>
                  if actions[n].DoPaint? then q == n else PaintedLast(actions[..n], q, n)
        ensures q < n ==> (ResetIn(actions, q, n + 1) <==> actions[n].DoReset? || ResetIn(actions[..n], q, n))
        ensures q >= n ==> !ResetIn(actions, q, n + 1)
        ensures 0 <= q < n ==> actions[..n][..q] == actions[..q]
      {
        OneMoreAction(actions, q);
      }
      assert PaintedLast(actions, n, n + 1) <==> actions[n].DoPaint?;
    }
  }

  lemma OneMoreAction(actions: seq<Action>, q: int)
    requires actions != []
    ensures
      var n := |actions| - 1;
      && (PaintedLast(actions, q, n + 1) <==> if actions[n].DoPaint? then q == n else PaintedLast(actions[..n], q, n))
      && (q < n ==> (ResetIn(actions, q, n + 1) <==> actions[n].DoReset? || ResetIn(actions[..n], q, n)))
      && (q >= n ==> !ResetIn(actions, q, n + 1))
      && (0 <= q < n ==> actions[..n][..q] == actions[..q])
  {
    var n := |actions| - 1;
    assert forall r :: 0 <= r < n ==> actions[..n][r] == actions[r];
    if r :| 0 <= r < n && q < r && actions[r].DoReset? {
      assert actions[..n][r].DoReset?;
    }
  }

  /** A frame is surely shown exactly if some paint started over and nothing disturbed the screen after it. */
  lemma {:induction false} SureExactly(first: Screen, actions: seq<Action>)
    ensures LearnAll(first, actions).sure <==> exists j :: StartedOverSince(first, actions, j)
  {
    if actions == [] {
    } else {
      hide StartedOverSince, StaleAt;
      var n := |actions| - 1;
      var front := actions[..n];
      SureExactly(first, front);
      StaleExactly(first, front);
      LastPaintStartsOver(first, actions);
      forall j | j < n
        ensures StartedOverSince(first, actions, j) <==> !actions[n].Disturb? && StartedOverSince(first, front, j)
      {
        OvertakenExactly(first, actions, j);
      }
    }
  }

  lemma LastPaintStartsOver(first: Screen, actions: seq<Action>)
    requires actions != []
    ensures
      var n := |actions| - 1;
      && (StartedOverSince(first, actions, n) <==> actions[n].DoPaint? && StaleAt(first, actions[..n], n))
      && (forall j :: StartedOverSince(first, actions[..n], j) ==> j < n)
      && (forall j :: StartedOverSince(first, actions, j) ==> j <= n)
  {
    hide SizeAfter, PaintedLast, ResetIn;
    StaleInPrefix(first, actions, |actions| - 1);
  }

  /** The painter remembers the last frame, or has forgotten it; and a frame that is surely shown is shown. */
  ghost predicate Agrees(m: Metrics, p: Painter, screen: Screen, k: Knowledge)
    reads p
  {
    && screen.width == k.width && |screen.rows| == k.height
    && (k.reset ==> p.prevFrame == [])
    && (p.prevFrame != [] ==>
          p.prevFrame == k.frame && p.prevWidth == k.paintedWidth && p.prevHeight == k.paintedHeight)
    && (k.sure ==> ShowsFrame(m, screen, k.frame))
  }

  /** What the screen has to show, from the actions alone. */
  lemma LastFrameIsShown(m: Metrics, p: Painter, screen: Screen, first: Screen, actions: seq<Action>)
    requires Agrees(m, p, screen, LearnAll(first, actions))
    ensures forall j, q :: StartedOverSince(first, actions, j) && PaintedLast(actions, q, |actions|) ==>
              ShowsEndOf(m, screen, actions[q].frame)
  {
    hide StartedOverSince, LearnAll, SizeAfter, ResetIn;
    SureExactly(first, actions);
    KnowsLastPaint(first, actions);
    forall j, q | StartedOverSince(first, actions, j) && PaintedLast(actions, q, |actions|)
      ensures ShowsEndOf(m, screen, actions[q].frame)
    {
      EndOfFrame(m, screen, actions[q].frame);
    }
  }

  lemma EndOfFrame(m: Metrics, screen: Screen, frame: seq<string>)
    requires ShowsFrame(m, screen, Clipped(frame, |screen.rows|))
    ensures ShowsEndOf(m, screen, frame)
  {
    forall row | 0 <= row < |screen.rows|
      ensures
        var above := if |frame| > |screen.rows| then |frame| - |screen.rows| else 0;
        var line := if above + row < |frame| then frame[above + row] else "";
        screen.rows[row] == Shows(if m.visibleWidth(line) <= screen.width then line else m.slice(line, screen.width))
    {
      assert ShowsRow(m, screen, Clipped(frame, |screen.rows|), screen.width, row);
    }
  }

  lemma LearnOneMore(first: Screen, actions: seq<Action>, i: nat)
    requires i < |actions|
    ensures LearnAll(first, actions[..i + 1]) == Learn(LearnAll(first, actions[..i]), actions[i])
  {
    assert actions[..i + 1][..i] == actions[..i];
  }

  lemma NothingKnownYet(m: Metrics, p: Painter, first: Screen)
    requires p.prevFrame == []
    ensures Agrees(m, p, first, LearnAll(first, []))
  {
  }

  /** One paint, whatever is on the screen. */
  method PaintOnce(m: Metrics, p: Painter, before: Screen, frame: seq<string>, cursor: Option<(int, int)>,
                   ghost k: Knowledge)
    returns (screen: Screen)
    requires Sane(m) && Agrees(m, p, before, k)
    modifies p
    ensures Agrees(m, p, screen, Learn(k, DoPaint(frame, cursor)))
  {
    hide ShowsFrame, RowsOps, Exec, ExecAll, Sane;
    var width, height := before.width, |before.rows|;
    ghost var clipped, over := Clipped(frame, height), p.StartsOver(width, height);
    ghost var shown :=
      if over then Painted(m, Cleared(before), [], clipped) else Painted(m, before, p.prevFrame, clipped);
    ghost var sure := Learn(k, DoPaint(frame, cursor)).sure;
    if over {
      DiffAfterFrame(m, Cleared(before), [], clipped);
    } else if sure {
      DiffAfterFrame(m, before, p.prevFrame, clipped);
    }
    WidthStays(m, Cleared(before), RowsOps(m, [], clipped, width, height));
    WidthStays(m, before, RowsOps(m, p.prevFrame, clipped, width, height));
    var ops := p.Paint(m, frame, width, height, cursor, before);
    screen := ExecAll(m, before, ops);
    if sure {
      SameRowsSameFrame(m, screen, shown, p.prevFrame);
    }
  }

  /**
   * Under any sequence of paints, resets, size changes and disturbances the screen shows the
   * last frame, as a full clear and repaint would, unless it was disturbed after that paint, or before it
   * without a reset and without a change of size that the paint could see.
   */
  method PaintAll(m: Metrics, p: Painter, first: Screen, actions: seq<Action>) returns (screen: Screen)
    requires Sane(m) && p.prevFrame == []
    modifies p
    ensures Agrees(m, p, screen, LearnAll(first, actions))
    ensures forall j, q :: StartedOverSince(first, actions, j) && PaintedLast(actions, q, |actions|) ==>
              ShowsEndOf(m, screen, actions[q].frame)
  {
    hide LearnAll, ShowsFrame, Painted, StartedOverSince, PaintedLast;
    assert Agrees(m, p, first, LearnAll(first, [])) by {
      NothingKnownYet(m, p, first);
    }
    screen := first;
    for i := 0 to |actions|
      invariant Agrees(m, p, screen, LearnAll(first, actions[..i]))
    {
      LearnOneMore(first, actions, i);
      match actions[i] {
        case DoReset =>
          p.Reset();
        case Disturb(other) =>
          screen := other;
        case DoPaint(frame, cursor) =>
          screen := PaintOnce(m, p, screen, frame, cursor, LearnAll(first, actions[..i]));
      }
    }
    assert actions[..|actions|] == actions;
    LastFrameIsShown(m, p, screen, first, actions);
  }

  /** Showing a frame means looking like a full clear and repaint of it. */
  lemma SameAsRepaint(m: Metrics, s: Screen, frame: seq<string>)
    requires Sane(m)
    ensures ShowsFrame(m, s, frame) <==> s.rows == Painted(m, Cleared(s), [], frame).rows
  {
    DiffAfterFrame(m, Cleared(s), [], frame);
    WidthStays(m, Cleared(s), RowsOps(m, [], frame, s.width, |s.rows|));
    SameRowsSameFrame(m, s, Painted(m, Cleared(s), [], frame), frame);
  }

  /** Painting a full frame over itself repairs nothing. */
  lemma SameFrameRepairsNothing(m: Metrics, s: Screen, frame: seq<string>)
    requires Sane(m) && |frame| == |s.rows|
    ensures ShowsFrame(m, Painted(m, s, frame, frame), frame) <==> ShowsFrame(m, s, frame)
  {
    DiffIsRightExactly(m, s, frame, frame);
    assert forall row :: 0 <= row < |s.rows| ==> Kept(frame, frame, row);
  }

  /**
   * A resize there and back between two paints escapes the painter, which compares sizes only
   * when it paints: rows that did not change are not painted again, and what they lost stays lost.
   */
  method ResizeThereAndBack(m: Metrics, line: string, width: nat)
    returns (p: Painter, ghost shown: Screen, ghost garbled: Screen, ghost after: Screen)
    requires Sane(m)
    ensures fresh(p) && p.prevFrame == [line] && p.prevWidth == width && p.prevHeight == 1
    ensures ShowsFrame(m, shown, [line]) && garbled == shown.(rows := [Garbled])
    ensures after.rows == garbled.rows && !ShowsFrame(m, after, [line])
  {
    p := new Painter();
    ghost var first := Screen(width, [Blank], 0);
    var ops := p.Paint(m, [line], width, 1, None, first);
    shown := ExecAll(m, first, ops);
    DiffAfterFrame(m, Cleared(first), [], [line]);
    WidthStays(m, Cleared(first), RowsOps(m, [], [line], width, 1));
    SameRowsSameFrame(m, shown, Painted(m, Cleared(first), [], [line]), [line]);
    garbled := shown.(rows := [Garbled]);
    ops := p.Paint(m, [line], width, 1, None, garbled);
    after := ExecAll(m, garbled, ops);
    RowsOpsPaintRows(m, garbled, [line], [line], 1);
    assert Kept([line], [line], 0);
    assert after.rows[0] == Garbled;
    assert !ShowsRow(m, after, [line], width, 0);
  }
}
