/** How many lines a frame has and how wide they are (settings-tui/view.go).

    A line is what it shows and its display width, text being one column per character. `textWidth`
    gives the width of every text whose wording does not matter; it is arbitrary. */
module Layout {
  import opened SettingsModel

  datatype Part =
    | TopBorder | BottomBorder | SeparatorLine | Blank
    | RowOf(row: int)
    | CapBar | CapHint
    | Strip(k: nat) | Honesty | Ledger(k: nat) | Explain(k: nat)
    | Warning(k: nat)
    | Header(k: nat) | NoTemplates(k: nat) | NoticeLine | FooterLine
    | Beside(left: Part, right: Part)

  datatype Line = Line(part: Part, width: nat)

  type TextWidth = Part -> nat

  const STATE_WIDTH := 11
  const STRIP_WIDTH := 31
  const BAR_CELLS := 10
  const LEDGER_ROWS := 4

  // ---- strings with a width ----

  /** `strings.Repeat` of a one-column string. A negative count panics, so it is a precondition. */
  function Repeat(count: int): nat
    requires count >= 0
  {
    count
  }

  function Truncate(width: nat, limit: int): nat
    requires limit >= 1
  {
    if width > limit then limit else width
  }

  function PadTo(width: nat, target: int): nat {
    var gap := target - width;
    if gap > 0 then width + Repeat(gap) else width
  }

  function Max(a: int, b: int): int { if a >= b then a else b }

  function Min(a: int, b: int): int { if a <= b then a else b }

  function PaneLine(width: nat, inner: nat): nat
    requires inner >= 1 || width <= inner
  {
    2 + (if width > inner then Truncate(width, inner) else PadTo(width, inner)) + 2
  }

  function PaneTop(title: nat, inner: nat): nat {
    var limit := inner - 2;
    if limit < 1 then 1 + Repeat(inner + 2) + 1
    else
      var t := if title > limit then Truncate(title, limit) else title;
      3 + t + 1 + Repeat(inner - 1 - t) + 1
  }

  function PaneRule(inner: nat): nat {
    1 + Repeat(inner + 2) + 1
  }

  predicate AllWide(lines: seq<Line>, width: int) {
    forall i :: 0 <= i < |lines| ==> lines[i].width == width
  }

  predicate ShowsAt(line: Line, part: Part) {
    line.part == part || (line.part.Beside? && line.part.left == part)
  }

  /** Some line shows the part, alone or as the left of two panes. */
  predicate Shows(lines: seq<Line>, part: Part) {
    exists i :: 0 <= i < |lines| && ShowsAt(lines[i], part)
  }

  predicate HasPart(lines: seq<Line>, part: Part) {
    exists i :: 0 <= i < |lines| && lines[i].part == part
  }

  lemma HasPartShows(lines: seq<Line>, part: Part)
    requires HasPart(lines, part)
    ensures Shows(lines, part)
  {
    var i :| 0 <= i < |lines| && lines[i].part == part;
    assert ShowsAt(lines[i], part);
  }

  lemma BesideShows(left: seq<Line>, lines: seq<Line>, part: Part)
    requires |left| == |lines| && HasPart(left, part)
    requires forall i :: 0 <= i < |lines| ==> lines[i].part.Beside? && lines[i].part.left == left[i].part
    ensures Shows(lines, part)
  {
    var i :| 0 <= i < |left| && left[i].part == part;
    assert ShowsAt(lines[i], part);
  }

  // ---- scrolling ----

  function ScrollTop(count: int, visible: int, selected: int): int {
    var top := selected - visible + 1;
    var top1 := if top < 0 then 0 else top;
    if top1 + visible > count then count - visible else top1
  }

  /** The window of `visible` rows, or all of them if they fit. */
  function ScrollRows(rows: seq<Line>, visible: int, selected: int): (r: seq<Line>)
    requires visible >= 1 && 0 <= selected < |rows|
    ensures |r| == Min(|rows|, visible)
    ensures rows[selected] in r
  {
    if |rows| <= visible then rows
    else
      var top := ScrollTop(|rows|, visible, selected);
      assert rows[top..top + visible][selected - top] == rows[selected];
      rows[top..top + visible]
  }

  /** The window is a stretch of the rows as they stand, around the selected one. */
  lemma ScrollWindow(rows: seq<Line>, visible: int, selected: int) returns (top: nat)
    requires visible >= 1 && 0 <= selected < |rows|
    ensures var r := ScrollRows(rows, visible, selected);
      top + |r| <= |rows| && r == rows[top..top + |r|] && top <= selected < top + |r|
  {
    top := if |rows| <= visible then 0 else ScrollTop(|rows|, visible, selected);
  }

  // ---- the master pane ----

  function StateWord(state: RowState): string {
    match state
    case RowRunning => "Running"
    case RowPending => "Pending"
    case RowTerminating => "Terminating"
    case RowError => "Error"
    case RowNotCreated => "not created"
    case RowForbidden => "reconnect"
    case RowUnavailable => "unreachable"
    case RowChecking => "."
  }

  function TemplateWidth(rows: seq<Row>): (w: nat)
    ensures w >= 6 && forall i :: 0 <= i < |rows| ==> w >= |rows[i].template|
  {
    if rows == [] then 6 else Max(TemplateWidth(rows[..|rows| - 1]), |rows[|rows| - 1].template|)
  }

  /** The name column is as wide as the longest name, and at least six. */
  lemma {:induction false} TemplateWidthExact(rows: seq<Row>)
    ensures TemplateWidth(rows) == 6 || exists i :: 0 <= i < |rows| && |rows[i].template| == TemplateWidth(rows)
  {
    if rows != [] {
      var init := rows[..|rows| - 1];
      TemplateWidthExact(init);
      if i :| 0 <= i < |init| && |init[i].template| == TemplateWidth(init) { assert rows[i] == init[i]; }
    }
  }

  function MasterInner(rows: seq<Row>): nat {
    2 + TemplateWidth(rows) + 2 + STATE_WIDTH
  }

  method MeasureTemplates(rows: seq<Row>) returns (width: nat)
    ensures width == TemplateWidth(rows)
  {
    width := 6;
    for i := 0 to |rows|
      invariant width == TemplateWidth(rows[..i])
    {
      assert rows[..i + 1][..i] == rows[..i];
      var n := |rows[i].template|;
      if n > width { width := n; }
    }
    assert rows[..|rows|] == rows;
  }

  /** The master and detail inner widths; 0 for a pane that does not fit. */
  method PaneWidths(s: State, budget: int) returns (master: nat, detail: nat)
    ensures master == if budget < 6 || s.width < MasterInner(s.rows) + 4 then 0 else MasterInner(s.rows)
    ensures detail > 0 ==> master > 0 && budget >= 9 && detail >= STRIP_WIDTH && (master + 4) + 1 + (detail + 4) == s.width
    ensures detail == 0 && master > 0 ==> budget < 9 || s.width - (master + 4) - 1 - 4 < STRIP_WIDTH
  {
    var templateWidth := MeasureTemplates(s.rows);
    var inner := 2 + templateWidth + 2 + STATE_WIDTH;
    if budget < 6 || s.width < inner + 4 { return 0, 0; }
    var avail := s.width - (inner + 4) - 1 - 4;
    if avail < STRIP_WIDTH || budget < 9 { return inner, 0; }
    return inner, avail;
  }

  /** One line per template: marker, padded name, right-aligned state. All have the width of the pane,
      so no name or state is ever cut there. */
  method MasterRowLines(s: State) returns (lines: seq<Line>)
    ensures |lines| == |s.rows| && AllWide(lines, MasterInner(s.rows))
    ensures forall i :: 0 <= i < |lines| ==> lines[i].part == RowOf(i)
  {
    var templateWidth := MeasureTemplates(s.rows);
    lines := [];
    for i := 0 to |s.rows|
      invariant |lines| == i && AllWide(lines, MasterInner(s.rows))
      invariant forall k :: 0 <= k < i ==> lines[k].part == RowOf(k)
    {
      var state := StateWord(s.rows[i].state);
      var width := PadTo(2 + |s.rows[i].template|, 2 + templateWidth) + 2 + PadTo(|state|, STATE_WIDTH);
      lines := lines + [Line(RowOf(i), width)];
    }
  }

  /** The cells of the cap bar that are full and empty. */
  function CapCells(created: nat, maxBoxes: int): (int, int)
    requires maxBoxes > 0
  {
    var filled := Min(created * BAR_CELLS / maxBoxes, BAR_CELLS);
    (filled, BAR_CELLS - filled)
  }

  /** The bar always has ten cells, is full exactly at the cap, and below it has as many full cells as the
      created boxes are whole tenths of the cap. */
  lemma CapBarMeaning(created: nat, maxBoxes: int)
    requires maxBoxes > 0
    ensures var (filled, rest) := CapCells(created, maxBoxes);
      0 <= filled && 0 <= rest && filled + rest == 10 && (rest == 0 <==> created >= maxBoxes)
      && (created < maxBoxes ==> filled * maxBoxes <= created * 10 < (filled + 1) * maxBoxes)
  {
    var n := created * BAR_CELLS;
    var q := n / maxBoxes;
    QuotientBound(n, maxBoxes, BAR_CELLS);
    QuotientBound(n, maxBoxes, 0);
    QuotientBound(n, maxBoxes, q);
    QuotientBound(n, maxBoxes, q + 1);
  }

  lemma QuotientBound(n: nat, d: int, k: nat)
    requires d > 0
    ensures n / d >= k <==> n >= k * d
  {
    var q := n / d;
    assert n == q * d + n % d;
    if q >= k { assert q * d >= k * d; } else { assert (q + 1) * d <= k * d; }
  }

  function CapWidth(textWidth: TextWidth, created: nat, maxBoxes: int): nat
    requires maxBoxes > 0
  {
    CapBarMeaning(created, maxBoxes);
    var (filled, rest) := CapCells(created, maxBoxes);
    textWidth(CapBar) + Repeat(filled) + if rest > 0 then Repeat(rest) else 0
  }

  method CountCreated(rows: seq<Row>) returns (n: nat)
    ensures n == CreatedCount(rows)
  {
    n := 0;
    for i := 0 to |rows|
      invariant n == CreatedCount(rows[..i])
    {
      assert rows[..i + 1][..i] == rows[..i];
      if BoxExists(rows[i]) { n := n + 1; }
    }
    assert rows[..|rows|] == rows;
  }

  /** The separator, the bar and, at the cap, the hint; nothing when no cap is shown. */
  method CapLines(s: State, textWidth: TextWidth, created: nat, inner: nat) returns (lines: seq<Line>)
    requires inner >= 1
    ensures |lines| == if s.maxBoxes <= 0 then 0 else if created >= s.maxBoxes then 3 else 2
    ensures AllWide(lines, inner + 4)
    ensures s.maxBoxes > 0 ==> lines[1].part == CapBar
  {
    lines := [];
    if s.maxBoxes > 0 {
      lines := [Line(SeparatorLine, PaneRule(inner)), Line(CapBar, PaneLine(CapWidth(textWidth, created, s.maxBoxes), inner))];
      if created >= s.maxBoxes {
        lines := lines + [Line(CapHint, PaneLine(textWidth(CapHint), inner))];
      }
    }
  }

  method FramedRows(rows: seq<Line>, inner: nat) returns (lines: seq<Line>)
    requires inner >= 1
    ensures |lines| == |rows| && AllWide(lines, inner + 4)
    ensures forall k :: 0 <= k < |rows| ==> lines[k].part == rows[k].part
  {
    lines := [];
    for i := 0 to |rows|
      invariant |lines| == i && AllWide(lines, inner + 4)
      invariant forall k :: 0 <= k < i ==> lines[k].part == rows[k].part
    {
      lines := lines + [Line(rows[i].part, PaneLine(rows[i].width, inner))];
    }
  }

  /** The top border, the rows that fit, and blanks down to the footer. */
  method MasterRows(s: State, inner: nat, budget: int, chrome: int) returns (lines: seq<Line>)
    requires Indexed(s) && s.rows != [] && inner >= 1 && 2 <= chrome < budget
    ensures |lines| == budget - chrome + 1 && AllWide(lines, inner + 4) && lines[0].part == TopBorder
    ensures HasPart(lines, RowOf(s.selected))
  {
    var all := MasterRowLines(s);
    var rows := ScrollRows(all, Max(1, budget - chrome), s.selected);
    var framed := FramedRows(rows, inner);
    var top := [Line(TopBorder, PaneTop(5, inner))] + framed;
    ghost var at :| 0 <= at < |rows| && rows[at] == all[s.selected];
    assert top[1 + at].part == RowOf(s.selected);
    lines := PadPane(top, inner, budget - chrome + 1);
    assert lines[..|top|][1 + at] == lines[1 + at] && lines[..|top|][0] == lines[0];
  }

  method MasterPane(s: State, textWidth: TextWidth, inner: nat, budget: int) returns (lines: seq<Line>)
    requires Indexed(s) && s.rows != [] && budget >= 6 && inner >= 1
    ensures |lines| == budget && AllWide(lines, inner + 4)
    ensures HasPart(lines, RowOf(s.selected)) && (s.maxBoxes > 0 ==> HasPart(lines, CapBar))
    ensures lines[0].part == TopBorder && lines[budget - 1].part == BottomBorder
  {
    var created := CountCreated(s.rows);
    var chrome := 2;
    if s.maxBoxes > 0 {
      chrome := chrome + 2;
      if created >= s.maxBoxes { chrome := chrome + 1; }
    }
    lines := MasterRows(s, inner, budget, chrome);
    var footer := CapLines(s, textWidth, created, inner);
    ghost var above := lines;
    ghost var at :| 0 <= at < |lines| && lines[at].part == RowOf(s.selected);
    lines := lines + (footer + [Line(BottomBorder, PaneRule(inner))]);
    assert lines[at] == above[at] && lines[0] == above[0];
    assert s.maxBoxes > 0 ==> lines[|above| + 1].part == CapBar;
  }

  // ---- the detail pane ----

  predicate HasData(r: Row) {
    r.state == RowRunning || r.state == RowPending || r.state == RowTerminating || r.state == RowError
  }

  /** What the detail pane of a row with data shows from the top and, footed, at the bottom. */
  ghost predicate DetailComplete(lines: seq<Line>, honesty: bool) {
    && |lines| >= 9
    && lines[1].part == Strip(0) && lines[2].part == Strip(1)
    && (honesty ==> lines[3].part == Honesty)
    && lines[if honesty then 4 else 3].part == SeparatorLine
    && forall k: nat :: k < LEDGER_ROWS ==> lines[|lines| - 1 - LEDGER_ROWS + k].part == Ledger(k)
  }

  /** The top border, the status strip, the honesty line if there is room, and the separator. */
  method DetailHead(textWidth: TextWidth, inner: nat, budget: int, honest: bool) returns (lines: seq<Line>)
    requires budget >= 9 && inner >= 1
    ensures AllWide(lines, inner + 4)
    ensures var honesty := !honest && budget >= 10;
      |lines| == (if honesty then 5 else 4) && lines[0].part == TopBorder && lines[1].part == Strip(0) && lines[2].part == Strip(1)
      && (honesty ==> lines[3].part == Honesty) && lines[|lines| - 1].part == SeparatorLine
  {
    var honesty := !honest;
    if honesty && 2 + LEDGER_ROWS + 4 > budget { honesty := false; }
    lines := [Line(TopBorder, PaneTop(textWidth(TopBorder), inner)),
              Line(Strip(0), PaneLine(textWidth(Strip(0)), inner)), Line(Strip(1), PaneLine(textWidth(Strip(1)), inner))];
    if honesty {
      lines := lines + [Line(Honesty, PaneLine(textWidth(Honesty), inner))];
    }
    lines := lines + [Line(SeparatorLine, PaneRule(inner))];
  }

  /** Blank lines up to the given height. */
  method PadPane(lines: seq<Line>, inner: nat, height: int) returns (r: seq<Line>)
    requires inner >= 1 && AllWide(lines, inner + 4)
    ensures |r| == Max(|lines|, height) && r[..|lines|] == lines && AllWide(r, inner + 4)
  {
    r := lines;
    while |r| < height
      invariant |lines| <= |r| <= Max(|lines|, height) && r[..|lines|] == lines && AllWide(r, inner + 4)
    {
      r := r + [Line(Blank, PaneLine(0, inner))];
    }
  }

  method DetailExplained(state: RowState, textWidth: TextWidth, inner: nat) returns (lines: seq<Line>)
    requires inner >= 1
    ensures 2 <= |lines| <= 3 && AllWide(lines, inner + 4) && lines[0].part == TopBorder && lines[1].part == Explain(0)
  {
    lines := [Line(TopBorder, PaneTop(textWidth(TopBorder), inner)), Line(Explain(0), PaneLine(textWidth(Explain(0)), inner))];
    if state != RowChecking {
      lines := lines + [Line(Explain(1), PaneLine(textWidth(Explain(1)), inner))];
    }
  }

  method LedgerLines(textWidth: TextWidth, inner: nat) returns (lines: seq<Line>)
    requires inner >= 1
    ensures |lines| == LEDGER_ROWS && AllWide(lines, inner + 4)
    ensures forall k: nat :: k < LEDGER_ROWS ==> lines[k].part == Ledger(k)
  {
    lines := [];
    for k := 0 to LEDGER_ROWS
      invariant |lines| == k && AllWide(lines, inner + 4)
      invariant forall j: nat :: j < k ==> lines[j].part == Ledger(j)
    {
      lines := lines + [Line(Ledger(k), PaneLine(textWidth(Ledger(k)), inner))];
    }
  }

  /** The pane is as tall as the budget. For a row with data the status strip and the whole ledger are
      always there; only the honesty line is dropped, and only when there is no room for it. */
  method DetailPane(s: State, textWidth: TextWidth, inner: nat, budget: int) returns (lines: seq<Line>)
    requires Indexed(s) && s.rows != [] && budget >= 9 && inner >= 1
    ensures |lines| == budget && AllWide(lines, inner + 4)
    ensures lines[0].part == TopBorder && lines[budget - 1].part == BottomBorder
    ensures var row := s.rows[s.selected];
      if HasData(row) then DetailComplete(lines, (row.stale || row.reconnect) && budget >= 10) else lines[1].part == Explain(0)
  {
    var row := s.rows[Clamp(s.selected, |s.rows|)];
    if HasData(row) {
      lines := DataLines(textWidth, inner, budget, !row.reconnect && !row.stale);
    } else {
      var top := DetailExplained(row.state, textWidth, inner);
      lines := PadPane(top, inner, budget - 1);
      assert forall i :: 0 <= i < |top| ==> lines[i] == lines[..|top|][i];
    }
    lines := lines + [Line(BottomBorder, PaneRule(inner))];
  }

  /** Everything above the bottom border: head, blanks, and the footed ledger. */
  method DataLines(textWidth: TextWidth, inner: nat, budget: int, honest: bool) returns (lines: seq<Line>)
    requires budget >= 9 && inner >= 1
    ensures |lines| == budget - 1 && AllWide(lines, inner + 4) && lines[0].part == TopBorder
    ensures lines[1].part == Strip(0) && lines[2].part == Strip(1)
    ensures !honest && budget >= 10 ==> lines[3].part == Honesty
    ensures lines[if !honest && budget >= 10 then 4 else 3].part == SeparatorLine
    ensures forall k: nat :: k < LEDGER_ROWS ==> lines[budget - 1 - LEDGER_ROWS + k].part == Ledger(k)
  {
    var top := DetailHead(textWidth, inner, budget, honest);
    var padded := PadPane(top, inner, budget - LEDGER_ROWS - 1);
    assert forall i :: 0 <= i < |top| ==> padded[i] == padded[..|top|][i];
    var ledger := LedgerLines(textWidth, inner);
    lines := padded + ledger;
    assert forall i :: 0 <= i < |padded| ==> lines[i] == padded[i];
    assert forall k: nat :: k < LEDGER_ROWS ==> lines[|padded| + k] == ledger[k];
  }

  /** Two panes side by side, one column apart, the shorter one padded. */
  method ZipPanes(left: seq<Line>, right: seq<Line>) returns (lines: seq<Line>)
    ensures |lines| == Max(|left|, |right|)
    ensures forall l: nat, r: nat :: |left| == |right| && AllWide(left, l) && AllWide(right, r) ==> AllWide(lines, l + 1 + r)
    ensures |left| == |right| ==> forall i :: 0 <= i < |left| ==> lines[i].part == Beside(left[i].part, right[i].part)
  {
    var leftWidth := 0;
    for i := 0 to |left|
      invariant leftWidth >= 0
    {
      leftWidth := Max(leftWidth, left[i].width);
    }
    lines := [];
    for i := 0 to Max(|left|, |right|)
      invariant |lines| == i
      invariant forall k :: 0 <= k < i && k < |left| && k < |right| ==>
        lines[k] == Line(Beside(left[k].part, right[k].part), left[k].width + 1 + right[k].width)
    {
      var l := if i < |left| then left[i] else Line(Blank, Repeat(leftWidth));
      var r := if i < |right| then right[i] else Line(Blank, 0);
      lines := lines + [Line(Beside(l.part, r.part), l.width + 1 + r.width)];
    }
  }

  // ---- the confirmation popup ----

  /** The question, four lines of consequences and the keys, spaced out if there is room. */
  method WarningLines(textWidth: TextWidth, budget: int) returns (content: seq<Line>)
    ensures |content| == if budget >= 9 then 7 else 6
    ensures (forall k: nat :: k < 5 ==> content[k].part == Warning(k)) && content[|content| - 1].part == Warning(5)
  {
    content := [Line(Warning(0), textWidth(Warning(0))), Line(Warning(1), textWidth(Warning(1))), Line(Warning(2), textWidth(Warning(2))),
                Line(Warning(3), textWidth(Warning(3))), Line(Warning(4), textWidth(Warning(4)))];
    if budget >= 9 { content := content + [Line(Blank, 0)]; }
    content := content + [Line(Warning(5), textWidth(Warning(5)))];
  }

  method Widest(lines: seq<Line>) returns (width: nat)
    ensures forall k :: 0 <= k < |lines| ==> lines[k].width <= width
    ensures width == 0 || exists k :: 0 <= k < |lines| && lines[k].width == width
  {
    width := 0;
    for i := 0 to |lines|
      invariant forall k :: 0 <= k < i ==> lines[k].width <= width
      invariant width == 0 || exists k :: 0 <= k < i && lines[k].width == width
    {
      width := Max(width, lines[i].width);
    }
  }

  /** The popup is centred and, when it fits the width, it fits the height too. */
  method DeletePopup(s: State, textWidth: TextWidth, budget: int) returns (lines: seq<Line>, ok: bool)
    requires Indexed(s) && s.rows != [] && budget >= 8
    ensures ok ==>
      && |lines| <= budget && (forall i :: 0 <= i < |lines| ==> lines[i].width <= s.width)
      && forall k: nat :: k < 6 ==> Shows(lines, Warning(k))
  {
    var content := WarningLines(textWidth, budget);
    var inner := Widest(content);
    if inner + 4 > s.width { return [], false; }
    var indent := Repeat(Max(0, (s.width - (inner + 4)) / 2));
    var blanks := (budget - (|content| + 2)) / 2;
    lines := [];
    for i := 0 to blanks
      invariant |lines| == i && forall k :: 0 <= k < i ==> lines[k].width == 0
    {
      lines := lines + [Line(Blank, 0)];
    }
    lines := lines + [Line(TopBorder, indent + PaneTop(textWidth(TopBorder), inner))];
    for i := 0 to |content|
      invariant |lines| == blanks + 1 + i && forall k :: 0 <= k < |lines| ==> lines[k].width <= indent + inner + 4
      invariant forall k :: 0 <= k < i ==> lines[blanks + 1 + k].part == content[k].part
    {
      lines := lines + [Line(content[i].part, indent + PaneLine(content[i].width, inner))];
    }
    lines := lines + [Line(BottomBorder, indent + PaneRule(inner))];
    ok := true;
    forall k: nat | k < 6 ensures Shows(lines, Warning(k)) {
      assert ShowsAt(lines[blanks + 1 + if k < 5 then k else |content| - 1], Warning(k));
    }
  }

  // ---- the older, single-column layouts ----

  /** The rows, or the empty state, inside the budget. */
  method BodyLines(s: State, textWidth: TextWidth, budget: int) returns (lines: seq<Line>)
    requires Indexed(s) && budget >= 1
    ensures 1 <= |lines| <= budget
    ensures s.rows != [] ==> Shows(lines, RowOf(s.selected))
  {
    if s.rows == [] {
      lines := [Line(NoTemplates(0), textWidth(NoTemplates(0)))];
      if budget > 1 { lines := lines + [Line(NoTemplates(1), textWidth(NoTemplates(1)))]; }
    } else {
      var all := RowLines(s, textWidth);
      lines := ScrollRows(all, budget, s.selected);
      var at :| 0 <= at < |lines| && lines[at] == all[s.selected];
      assert ShowsAt(lines[at], RowOf(s.selected));
    }
  }

  method RowLines(s: State, textWidth: TextWidth) returns (lines: seq<Line>)
    ensures |lines| == |s.rows| && forall i :: 0 <= i < |lines| ==> lines[i].part == RowOf(i)
  {
    lines := [];
    for i := 0 to |s.rows|
      invariant |lines| == i && forall k :: 0 <= k < i ==> lines[k].part == RowOf(k)
    {
      lines := lines + [Line(RowOf(i), textWidth(RowOf(i)))];
    }
  }

  /** The confirmation inside a body budget: five lines, three, two or one; the question and the keys
      are always there (in the one-line form they share a line). */
  function DialogLines(textWidth: TextWidth, budget: int): (lines: seq<Line>)
    requires budget >= 1
    ensures 1 <= |lines| <= budget && Shows(lines, Warning(0))
    ensures budget >= 2 ==> Shows(lines, Warning(1))
    ensures budget >= 3 ==> Shows(lines, Warning(5))
    ensures budget >= 5 ==> Shows(lines, Warning(2)) && Shows(lines, Warning(3))
  {
    var question := Line(Warning(0), textWidth(Warning(0)));
    var r := if budget >= 5 then [question, Line(Warning(1), textWidth(Warning(1))), Line(Warning(2), textWidth(Warning(2))),
                                  Line(Warning(3), textWidth(Warning(3))), Line(Warning(5), textWidth(Warning(5)))]
             else if budget >= 3 then [question, Line(Warning(1), textWidth(Warning(1))), Line(Warning(5), textWidth(Warning(5)))]
             else if budget == 2 then [Line(Warning(1), textWidth(Warning(1))), question]
             else [question];
    assert ShowsAt(r[if budget == 2 then 1 else 0], Warning(0));
    assert budget >= 2 ==> ShowsAt(r[if budget == 2 then 0 else 1], Warning(1));
    assert budget >= 3 ==> ShowsAt(r[|r| - 1], Warning(5));
    assert budget >= 5 ==> ShowsAt(r[2], Warning(2)) && ShowsAt(r[3], Warning(3));
    r
  }

  // ---- the frame ----

  /** The height above the footer and the message line. */
  function Budget(s: State): int {
    var b := s.height - 1 - if s.notice != NoNotice then 1 else 0;
    if b < 1 then 1 else b
  }

  /** The master-detail layout without a dialog. */
  predicate ShowsPanes(s: State) {
    s.height >= 3 && s.rows != [] && s.dialog == NoDialog && Budget(s) >= 6 && s.width >= MasterInner(s.rows) + 4
  }

  /** The master pane, with the detail pane beside it if that has a width. */
  method Panes(s: State, textWidth: TextWidth, master: nat, detail: nat, budget: int) returns (lines: seq<Line>)
    requires Indexed(s) && s.rows != [] && budget >= 6 && master >= 1 && (detail > 0 ==> budget >= 9)
    ensures |lines| == budget && Shows(lines, RowOf(s.selected))
    ensures AllWide(lines, if detail > 0 then (master + 4) + 1 + (detail + 4) else master + 4)
  {
    hide Shows, AllWide;
    lines := MasterPane(s, textWidth, master, budget);
    if detail > 0 {
      var left := lines;
      var right := DetailPane(s, textWidth, detail, budget);
      lines := ZipPanes(left, right);
      BesideShows(left, lines, RowOf(s.selected));
    } else {
      HasPartShows(lines, RowOf(s.selected));
    }
  }

  method MasterDetailLines(s: State, textWidth: TextWidth, budget: int) returns (lines: seq<Line>, ok: bool)
    requires Indexed(s) && s.rows != [] && budget >= 6
    ensures s.dialog == NoDialog ==> (ok <==> s.width >= MasterInner(s.rows) + 4)
    ensures ok && s.dialog == NoDialog ==>
      && |lines| == budget && Shows(lines, RowOf(s.selected))
      && (AllWide(lines, s.width) || AllWide(lines, MasterInner(s.rows) + 4))
      && (budget >= 9 && s.width - (MasterInner(s.rows) + 4) - 1 - 4 >= STRIP_WIDTH ==> AllWide(lines, s.width))
    ensures ok && s.dialog != NoDialog ==>
      && |lines| <= budget && (forall i :: 0 <= i < |lines| ==> lines[i].width <= s.width) && Shows(lines, Warning(0))
  {
    hide Shows, AllWide;
    if s.dialog != NoDialog {
      if budget >= 8 {
        lines, ok := DeletePopup(s, textWidth, budget);
        return;
      }
      return [], false;
    }
    var masterInner, detailInner := PaneWidths(s, budget);
    if masterInner == 0 { return [], false; }
    lines := Panes(s, textWidth, masterInner, detailInner, budget);
    ok := true;
  }

  /** The header comes first: one line, or title, owner and connection. */
  predicate Headed(lines: seq<Line>, full: bool) {
    && |lines| >= 1 && lines[0].part == Header(0)
    && (full ==> |lines| >= 3 && lines[1].part == Header(1) && lines[2].part == Header(2))
  }

  /** How many lines a frame has and where things are: the footer last, the message before it; never more
      lines than the height, except at height 3 with a message; exactly the height with panes; and from
      height 2 on the selected row or the question. */
  ghost predicate Framed(s: State, lines: seq<Line>)
    requires Indexed(s)
  {
    && |lines| > 0 && lines[|lines| - 1].part == FooterLine
    && (s.height >= 3 && s.notice != NoNotice ==> |lines| > 1 && lines[|lines| - 2].part == NoticeLine)
    && (|lines| <= Max(1, s.height) <==> !(s.height == 3 && s.notice != NoNotice))
    && (s.height == 3 && s.notice != NoNotice ==> |lines| == 4)
    && (ShowsPanes(s) ==> |lines| == s.height)
    && (s.height >= 3 && (s.rows == [] || Budget(s) < 6) ==> Headed(lines, s.height >= 7))
    && (s.height >= 2 && s.rows != [] && s.dialog == NoDialog ==> Shows(lines, RowOf(s.selected)))
    && (s.height >= 2 && s.dialog != NoDialog ==> Shows(lines, Warning(0)))
  }

  /** With panes, everything above the message is one rectangle: as wide as the terminal when there is room
      for two panes, else as wide as the one. */
  ghost predicate PanesFit(s: State, lines: seq<Line>)
    requires Indexed(s) && Framed(s, lines)
  {
    ShowsPanes(s) ==>
      && (AllWide(lines[..Budget(s)], s.width) || AllWide(lines[..Budget(s)], MasterInner(s.rows) + 4))
      && (Budget(s) >= 9 && s.width - (MasterInner(s.rows) + 4) - 1 - 4 >= STRIP_WIDTH ==> AllWide(lines[..Budget(s)], s.width))
  }

  method RenderLines(s: State, textWidth: TextWidth) returns (lines: seq<Line>)
    requires Indexed(s)
    ensures Framed(s, lines) && PanesFit(s, lines)
  {
    var footer := Line(FooterLine, textWidth(FooterLine));
    var notice := Line(NoticeLine, textWidth(NoticeLine));
    if s.height <= 1 { return [footer]; }
    if s.height == 2 {
      var line := if s.dialog != NoDialog then Line(Warning(0), textWidth(Warning(0)))
                  else if s.rows == [] then Line(NoTemplates(0), textWidth(NoTemplates(0)))
                  else Line(RowOf(s.selected), textWidth(RowOf(s.selected)));
      lines := [line, footer];
      assert lines[0] == line && ShowsAt(lines[0], line.part);
      return;
    }
    var budget := Budget(s);
    if |s.rows| > 0 && budget >= 6 {
      var body, ok := MasterDetailLines(s, textWidth, budget);
      if ok {
        lines := WithFooter(body, s.notice != NoNotice, notice, footer);
        assert s.dialog == NoDialog ==> lines[..budget] == body;
        return;
      }
    }
    var column := ColumnLines(s, textWidth);
    lines := WithFooter(column, s.notice != NoNotice, notice, footer);
    assert forall i :: 0 <= i < |column| ==> lines[i] == lines[..|column|][i];
  }

  /** The older layout above the message line: the header, then the rows or the question. */
  method ColumnLines(s: State, textWidth: TextWidth) returns (lines: seq<Line>)
    requires Indexed(s) && s.height >= 3
    ensures Headed(lines, s.height >= 7)
    ensures var room := s.height - 1 - if s.notice != NoNotice then 1 else 0;
      if room >= 2 then |lines| <= room else |lines| == 2
    ensures s.rows != [] && s.dialog == NoDialog ==> Shows(lines, RowOf(s.selected))
    ensures s.dialog != NoDialog ==> Shows(lines, Warning(0))
  {
    var header := if s.height < 7 then [Line(Header(0), textWidth(Header(0)))]
                  else [Line(Header(0), textWidth(Header(0))), Line(Header(1), textWidth(Header(1))), Line(Header(2), textWidth(Header(2)))];
    var bodyBudget := s.height - |header| - 1;
    if s.notice != NoNotice { bodyBudget := bodyBudget - 1; }
    if bodyBudget < 1 { bodyBudget := 1; }
    var body;
    if s.dialog != NoDialog {
      body := DialogLines(textWidth, bodyBudget);
    } else {
      body := BodyLines(s, textWidth, bodyBudget);
    }
    lines := header + body;
    hide Shows;
    AppendShows(header, body, if s.dialog != NoDialog then Warning(0) else RowOf(s.selected));
  }

  function WithFooter(body: seq<Line>, hasNotice: bool, notice: Line, footer: Line): (lines: seq<Line>)
    ensures |lines| == |body| + (if hasNotice then 2 else 1) && lines[..|body|] == body
    ensures lines[|lines| - 1] == footer && (hasNotice ==> lines[|lines| - 2] == notice)
    ensures forall part :: Shows(body, part) ==> Shows(lines, part)
  {
    var r := (if hasNotice then body + [notice] else body) + [footer];
    assert forall i :: 0 <= i < |body| ==> r[i] == body[i];
    r
  }

  lemma AppendShows(a: seq<Line>, b: seq<Line>, part: Part)
    ensures Shows(b, part) ==> Shows(a + b, part)
  {
    if Shows(b, part) {
      var i :| 0 <= i < |b| && ShowsAt(b[i], part);
      assert (a + b)[|a| + i] == b[i];
    }
  }

  lemma CutKeepsFrame(s: State, rendered: seq<Line>, frame: seq<Line>)
    requires Indexed(s) && Framed(s, rendered) && PanesFit(s, rendered) && |frame| == |rendered|
    requires forall i :: 0 <= i < |frame| ==>
      frame[i].part == rendered[i].part && frame[i].width == Min(rendered[i].width, Max(1, s.width))
    ensures Framed(s, frame) && PanesFit(s, frame)
  {
    hide ShowsAt;
    forall part | Shows(rendered, part) ensures Shows(frame, part) { SamePartsShow(rendered, frame, part); }
    hide Shows, MasterInner;
    if ShowsPanes(s) {
      assert forall i :: 0 <= i < Budget(s) ==> rendered[..Budget(s)][i] == rendered[i] && frame[..Budget(s)][i] == frame[i];
    }
  }

  lemma SamePartsShow(lines: seq<Line>, others: seq<Line>, part: Part)
    requires |lines| == |others| && forall i :: 0 <= i < |lines| ==> lines[i].part == others[i].part
    requires Shows(lines, part)
    ensures Shows(others, part)
  {
    var i :| 0 <= i < |lines| && ShowsAt(lines[i], part);
    assert ShowsAt(others[i], part);
  }

  /** What reaches the terminal: the rendered lines, each cut to the width if it is wider and otherwise as
      it was. */
  method View(s: State, textWidth: TextWidth) returns (frame: seq<Line>, ghost rendered: seq<Line>)
    requires Indexed(s)
    ensures Framed(s, rendered) && PanesFit(s, rendered) && |frame| == |rendered|
    ensures forall i :: 0 <= i < |frame| ==>
      frame[i].part == rendered[i].part && frame[i].width == Min(rendered[i].width, Max(1, s.width))
    ensures Framed(s, frame) && PanesFit(s, frame)
  {
    var lines := RenderLines(s, textWidth);
    rendered, frame := lines, lines;
    hide Framed, PanesFit;
    for i := 0 to |lines|
      invariant |frame| == |lines|
      invariant forall k :: 0 <= k < i ==>
        frame[k].part == lines[k].part && frame[k].width == Min(lines[k].width, Max(1, s.width))
      invariant forall k :: i <= k < |lines| ==> frame[k] == lines[k]
    {
      frame := frame[i := Line(frame[i].part, Truncate(frame[i].width, Max(1, s.width)))];
    }
    CutKeepsFrame(s, rendered, frame);
  }
}
