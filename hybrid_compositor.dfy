/** The geometry of hybrid terminal/browser demos
    (utils/hybrid_compositor.py): the background colour, the split-screen
    partition of the frame and where each clip goes, the picture-in-picture
    corner table, and the dispatch on the layout. The video work itself
    (moviepy, ffmpeg) is an oracle per layout. */
module HybridCompositor {
  import opened Wrappers
  import opened Text

  // ---------------------------------------------------------------------
  // Colours

  function HexDigitValue(c: char): Option<nat>
  {
    if '0' <= c <= '9' then Some(c as nat - '0' as nat)
    else if 'a' <= c <= 'f' then Some(c as nat - 'a' as nat + 10)
    else if 'A' <= c <= 'F' then Some(c as nat - 'A' as nat + 10)
    else None
  }

  /** The value of a string of hex digits; None when it is empty or holds
      anything else. */
  function HexValue(s: string): (r: Option<nat>)
    ensures r.Some? ==> s != []
  {
    if s == [] then None
    else if |s| == 1 then HexDigitValue(s[0])
    else match (HexValue(s[..|s| - 1]), HexDigitValue(s[|s| - 1]))
      case (Some(high), Some(low)) => Some(16 * high + low)
      case _ => None
  }

  /** `int(s, 16)` on a slice of at most two characters: surrounding
      whitespace and a sign are allowed, then hex digits. */
  function ParseHex(s: string): Option<int>
  {
    var t := Strip(s);
    if t != [] && (t[0] == '+' || t[0] == '-') then
      match HexValue(t[1..])
      case Some(v) => Some(if t[0] == '-' then 0 - v as int else v as int)
      case None => None
    else
      match HexValue(t)
      case Some(v) => Some(v as int)
      case None => None
  }

  /** `s[i:i+2]` */
  function Slice2(s: string, i: nat): string
  {
    if i >= |s| then "" else if i + 2 >= |s| then s[i..] else s[i..i + 2]
  }

  /** `s.lstrip("#")` */
  function StripHashes(s: string): (r: string)
    ensures r == [] || r[0] != '#'
  {
    if s != [] && s[0] == '#' then StripHashes(s[1..]) else s
  }

  datatype Rgb = Rgb(red: int, green: int, blue: int)

  /** `_hex_to_rgb`: a ValueError when a pair does not parse. */
  function HexToRgb(hexColor: string): Result<Rgb, string>
  {
    var h := StripHashes(hexColor);
    match (ParseHex(Slice2(h, 0)), ParseHex(Slice2(h, 2)), ParseHex(Slice2(h, 4)))
    case (Some(r), Some(g), Some(b)) => Success(Rgb(r, g, b))
    case _ => Failure("invalid literal for int() with base 16")
  }

  /** A lower-case hex digit. */
  function HexDigit(d: nat): (c: char)
    requires d < 16
    ensures HexDigitValue(c) == Some(d)
  {
    if d < 10 then ('0' as int + d) as char else ('a' as int + d - 10) as char
  }

  /** A byte as two lower-case hex digits. */
  function HexByte(v: nat): (s: string)
    requires v < 256
    ensures |s| == 2
  {
    [HexDigit(v / 16), HexDigit(v % 16)]
  }

  /** `#rrggbb` */
  function RgbToHex(c: Rgb): string
    requires 0 <= c.red < 256 && 0 <= c.green < 256 && 0 <= c.blue < 256
  {
    "#" + HexByte(c.red) + HexByte(c.green) + HexByte(c.blue)
  }

  lemma HexByteParses(v: nat)
    requires v < 256
    ensures ParseHex(HexByte(v)) == Some(v)
  {
    var s := HexByte(v);
    assert !IsSpace(s[0]) && !IsSpace(s[1]);
    assert StripLeft(s) == s;
    assert StripRight(s) == s;
    assert s[..|s| - 1] == [s[0]];
    assert HexValue([s[0]]) == Some(v / 16);
    assert s[0] != '+' && s[0] != '-';
    assert HexValue(s) == Some(16 * (v / 16) + v % 16);
  }

  /** Writing a colour as `#rrggbb` and reading it back gives the colour. */
  lemma HexRoundTrip(c: Rgb)
    requires 0 <= c.red < 256 && 0 <= c.green < 256 && 0 <= c.blue < 256
    ensures HexToRgb(RgbToHex(c)) == Success(c)
  {
    var s := RgbToHex(c);
    var h := HexByte(c.red) + HexByte(c.green) + HexByte(c.blue);
    assert s == "#" + h;
    assert StripHashes(s) == StripHashes(h) by {
      assert s[1..] == h;
    }
    assert h[0] != '#' by {
      assert HexDigitValue(h[0]).Some?;
    }
    assert Slice2(h, 0) == HexByte(c.red);
    assert Slice2(h, 2) == HexByte(c.green);
    assert Slice2(h, 4) == HexByte(c.blue);
    HexByteParses(c.red);
    HexByteParses(c.green);
    HexByteParses(c.blue);
  }

  /** Colours are read with or without the leading `#`. */
  lemma HashOptional(hex: string)
    ensures HexToRgb("#" + hex) == HexToRgb(hex)
  {
    assert ("#" + hex)[1..] == hex;
  }

  // ---------------------------------------------------------------------
  // Split screen

  /** `int(x / 100)`: Python's true division, then truncation toward zero. */
  function TruncDiv100(x: int): int
  {
    if x >= 0 then x / 100 else -((-x) / 100)
  }

  /** The terminal's share of a side `size` at `percent`, and the rest. */
  function SplitSizes(size: int, percent: int): (r: (int, int))
  {
    var terminal := TruncDiv100(size * percent);
    (terminal, size - terminal)
  }

  /** The two shares fill the side exactly, and with a percentage between
      0 and 100 each share lies between 0 and the side. */
  lemma SplitSizesPartition(size: int, percent: int)
    ensures SplitSizes(size, percent).0 + SplitSizes(size, percent).1 == size
    ensures size >= 0 && 0 <= percent <= 100 ==>
      0 <= SplitSizes(size, percent).0 <= size && 0 <= SplitSizes(size, percent).1 <= size
    ensures size >= 0 && 0 <= percent <= 100 ==> 100 * SplitSizes(size, percent).0 <= size * percent
  {
    if size >= 0 && 0 <= percent <= 100 {
      assert size * percent <= size * 100;
    }
  }

  /** The 1920-pixel default at 40 % gives the terminal 768 pixels. */
  lemma DefaultSplit()
    ensures SplitSizes(1920, 40) == (768, 1152)
  {
  }

  /** A clip's width or height after the "shrink if larger" step: a side
      larger than its slot is resized to the slot. */
  function Fit(side: int, slot: int): (r: int)
    ensures r <= slot && r <= side
  {
    if side > slot then slot else side
  }

  datatype Point = Point(x: int, y: int)
  datatype Placement = Placement(terminal: Point, browser: Point)

  /** Where `_composite_split` puts the two clips, given their sizes after
      fitting (`tw`×`th` and `bw`×`bh`) in a `width`×`height` frame. */
  function SplitPlacement(position: string, width: int, height: int, percent: int,
                          tw: int, th: int, bw: int, bh: int): Placement
  {
    if position == "left" || position == "right" then
      var (terminalWidth, browserWidth) := SplitSizes(width, percent);
      if position == "left" then
        Placement(Point(0, (height - th) / 2), Point(terminalWidth, (height - bh) / 2))
      else
        Placement(Point(browserWidth, (height - th) / 2), Point(0, (height - bh) / 2))
    else
      var (terminalHeight, browserHeight) := SplitSizes(height, percent);
      if position == "top" then
        Placement(Point((width - tw) / 2, 0), Point((width - bw) / 2, terminalHeight))
      else
        Placement(Point((width - tw) / 2, browserHeight), Point((width - bw) / 2, 0))
  }

  /** In a left/right split the clips, once fitted to their slots, lie
      side by side without overlapping and inside the frame's width. */
  lemma SideBySide(position: string, width: int, height: int, percent: int,
                   tw: int, th: int, bw: int, bh: int)
    requires position == "left" || position == "right"
    requires width >= 0 && 0 <= percent <= 100 && tw >= 0 && bw >= 0
    requires tw <= SplitSizes(width, percent).0 && bw <= SplitSizes(width, percent).1
    ensures var p := SplitPlacement(position, width, height, percent, tw, th, bw, bh);
      && 0 <= p.terminal.x && p.terminal.x + tw <= width
      && 0 <= p.browser.x && p.browser.x + bw <= width
      && (p.terminal.x + tw <= p.browser.x || p.browser.x + bw <= p.terminal.x)
      && p.terminal.y == (height - th) / 2 && p.browser.y == (height - bh) / 2
  {
    SplitSizesPartition(width, percent);
  }

  /** In a top/bottom split the clips lie one above the other without
      overlapping and inside the frame's height. */
  lemma Stacked(position: string, width: int, height: int, percent: int,
                tw: int, th: int, bw: int, bh: int)
    requires position != "left" && position != "right"
    requires height >= 0 && 0 <= percent <= 100 && th >= 0 && bh >= 0
    requires th <= SplitSizes(height, percent).0 && bh <= SplitSizes(height, percent).1
    ensures var p := SplitPlacement(position, width, height, percent, tw, th, bw, bh);
      && 0 <= p.terminal.y && p.terminal.y + th <= height
      && 0 <= p.browser.y && p.browser.y + bh <= height
      && (p.terminal.y + th <= p.browser.y || p.browser.y + bh <= p.terminal.y)
      && (position == "top" ==> p.terminal.y == 0 && p.browser.y == SplitSizes(height, percent).0)
      && (position != "top" ==> p.browser.y == 0 && p.terminal.y == SplitSizes(height, percent).1)
  {
    SplitSizesPartition(height, percent);
  }

  // ---------------------------------------------------------------------
  // Picture in picture

  const PIP_PADDING := 20

  /** The default `pip_scale`, 0.3, in thousandths. */
  const DEFAULT_PIP_SCALE_MILLIS: nat := 300

  /** `pip_width = int(main.w * pip_scale)` with the scale in thousandths. */
  function PipWidth(mainWidth: nat, scaleMillis: nat): nat
  {
    mainWidth * scaleMillis / 1000
  }

  /** The inset is never wider than the main clip for a scale up to 1, is
      the whole width at scale 1, and at the default scale leaves room for
      the padding on both sides once the main clip is 58 pixels wide. */
  lemma PipWidthBounds(mainWidth: nat, scaleMillis: nat)
    ensures scaleMillis <= 1000 ==> PipWidth(mainWidth, scaleMillis) <= mainWidth
    ensures PipWidth(mainWidth, 1000) == mainWidth
    ensures mainWidth >= 58 ==> PipWidth(mainWidth, DEFAULT_PIP_SCALE_MILLIS) + 2 * PIP_PADDING <= mainWidth
  {
    if scaleMillis <= 1000 {
      assert mainWidth * scaleMillis <= mainWidth * 1000;
    }
  }

  /** The corner table of `_composite_pip`; an unknown name is
      bottom-right. */
  function PipPosition(position: string, mainW: int, mainH: int, pipW: int, pipH: int): Point
  {
    match position
    case "top-left" => Point(PIP_PADDING, PIP_PADDING)
    case "top-right" => Point(mainW - pipW - PIP_PADDING, PIP_PADDING)
    case "bottom-left" => Point(PIP_PADDING, mainH - pipH - PIP_PADDING)
    case _ => Point(mainW - pipW - PIP_PADDING, mainH - pipH - PIP_PADDING)
  }

  /** Every corner keeps the padding to the two edges it touches; when
      the inset fits with padding on both sides, it lies inside the main
      clip. An unknown name places it like "bottom-right". */
  lemma PipPlacement(position: string, mainW: int, mainH: int, pipW: int, pipH: int)
    ensures var p := PipPosition(position, mainW, mainH, pipW, pipH);
      && (p.x == PIP_PADDING || p.x + pipW + PIP_PADDING == mainW)
      && (p.y == PIP_PADDING || p.y + pipH + PIP_PADDING == mainH)
      && (pipW + 2 * PIP_PADDING <= mainW && pipH + 2 * PIP_PADDING <= mainH ==>
            PIP_PADDING <= p.x && p.x + pipW + PIP_PADDING <= mainW
            && PIP_PADDING <= p.y && p.y + pipH + PIP_PADDING <= mainH)
      && (position != "top-left" && position != "top-right" && position != "bottom-left" ==>
            p == PipPosition("bottom-right", mainW, mainH, pipW, pipH))
  {
  }

  // ---------------------------------------------------------------------
  // Dispatch

  /** `config.layout`: one of the three layouts, or any other value
      assigned to it. */
  datatype Layout = Split | Sequential | Pip | Other(name: string)

  datatype HybridResult = HybridResult(
    status: string,
    videoPath: Option<string>,
    durationMillis: Option<int>,
    error: Option<string>)

  /** The work of one layout: its result, or the message of the
      exception it raised. */
  type Renderer = () -> Result<HybridResult, string>

  /** `composite`: dispatches on the layout; an exception becomes a failed
      result carrying its message. */
  function Composite(layout: Layout, split: Renderer, pip: Renderer, sequential: Renderer): (r: HybridResult)
  {
    var outcome := match layout
      case Split => split()
      case Pip => pip()
      case Sequential => sequential()
      case Other(name) => Success(HybridResult("failed", None, None, Some("Unknown layout type: " + name)));
    match outcome
    case Success(result) => result
    case Failure(message) => HybridResult("failed", None, None, Some(message))
  }

  /** A layout other than the three fails with "Unknown layout type" and
      runs no renderer; a renderer that raises yields a failed result. */
  lemma CompositeDispatch(layout: Layout, split: Renderer, pip: Renderer, sequential: Renderer)
    ensures var r := Composite(layout, split, pip, sequential);
      && (layout.Other? ==>
            && r.status == "failed" && r.error.Some?
            && StartsWith(r.error.value, "Unknown layout type: "))
      && (layout == Split && split().Failure? ==> r == HybridResult("failed", None, None, Some(split().error)))
      && (layout == Pip && pip().Success? ==> r == pip().value)
  {
    if layout.Other? {
      var e := "Unknown layout type: " + layout.name;
      assert e[..|"Unknown layout type: "|] == "Unknown layout type: ";
    }
  }

  /** `LayoutType(value)`: None for a name that is not a layout (the enum
      raises). */
  function ParseLayout(value: string): (r: Option<Layout>)
    ensures r.Some? ==> !r.value.Other?
  {
    match value
    case "split" => Some(Split)
    case "sequential" => Some(Sequential)
    case "pip" => Some(Pip)
    case _ => None
  }

  /** `composite_hybrid_demo`: None when the layout name is rejected before
      any compositing. */
  function CompositeHybridDemo(layout: string, split: Renderer, pip: Renderer, sequential: Renderer): Option<HybridResult>
  {
    match ParseLayout(layout)
    case Some(l) => Some(Composite(l, split, pip, sequential))
    case None => None
  }

  /** Through `composite_hybrid_demo` the "Unknown layout type" result
      cannot arise: an unknown name is rejected first. */
  lemma ConvenienceNeverUnknown(layout: string, split: Renderer, pip: Renderer, sequential: Renderer)
    ensures var r := CompositeHybridDemo(layout, split, pip, sequential);
      && (r.None? <==> layout != "split" && layout != "sequential" && layout != "pip")
      && (r.Some? ==> r.value == Composite(ParseLayout(layout).value, split, pip, sequential))
  {
  }
}
