/** The control panel: glyph, control and preset buttons, their layout, and
    how a pointer press is resolved to the button it lands on. */
module Controls {
  import opened Config

  datatype Option<T> = None | Some(value: T)

  /** An integer screen rectangle (left, top, width, height). */
  datatype Rect = Rect(x: int, y: int, w: int, h: int)

  /** Point-in-rectangle test of the drawing library: the left and top
      edges are inside, the right and bottom edges are not. */
  predicate Collides(r: Rect, px: int, py: int) {
    r.x <= px < r.x + r.w && r.y <= py < r.y + r.h
  }

  /** What a button does when pressed, with its payload. */
  datatype Action = Glyph(index: int) | Dial | Back | Clear | Close | Preset(name: string)

  datatype Button = Button(rect: Rect, caption: string, action: Action)

  // Geometry of the glyph grid and the control row.
  const GridLeft: int := 760
  const GridTop: int := 180
  const GridColumns: int := 6
  const GridRows: int := 7
  const ButtonWidth: int := 72
  const ButtonHeight: int := 58
  const ButtonGap: int := 9
  const ControlsTop: int := GridTop + GridRows * (ButtonHeight + ButtonGap) + 18
  const PresetLeft: int := 760
  const PresetTop: int := 38
  const PresetStride: int := 122

  function Digit(d: int): (c: char)
    requires 0 <= d < 10
    ensures '0' <= c <= '9' && c as int - '0' as int == d
  {
    ('0' as int + d) as char
  }

  /** Label of glyph i: "S" followed by the two-digit, one-based glyph number. */
  function GlyphLabel(i: int): (s: string)
    requires IsSymbol(i)
    ensures |s| == 3 && s[0] == 'S' && '0' <= s[1] <= '9' && '0' <= s[2] <= '9'
    ensures 10 * (s[1] as int - '0' as int) + (s[2] as int - '0' as int) == i + 1
  {
    ['S', Digit((i + 1) / 10), Digit((i + 1) % 10)]
  }

  /** Glyph i sits in row i / 6 and column i % 6 of the grid. */
  function GlyphRect(i: int): Rect
    requires 0 <= i
  {
    Rect(GridLeft + (i % GridColumns) * (ButtonWidth + ButtonGap),
         GridTop + (i / GridColumns) * (ButtonHeight + ButtonGap),
         ButtonWidth, ButtonHeight)
  }

  function GlyphButton(i: int): Button
    requires IsSymbol(i)
  {
    Button(GlyphRect(i), GlyphLabel(i), Glyph(i))
  }

  function GlyphTable(): seq<Button> {
    seq(SymbolCount, i requires 0 <= i < SymbolCount => GlyphButton(i))
  }

  function ControlButtons(): seq<Button> {
    [ Button(Rect(GridLeft, ControlsTop, 150, 54), "DIAL", Dial),
      Button(Rect(GridLeft + 162, ControlsTop, 150, 54), "BACK", Back),
      Button(Rect(GridLeft + 324, ControlsTop, 150, 54), "CLEAR", Clear),
      Button(Rect(GridLeft, ControlsTop + 64, 474, 54), "CLOSE GATE", Close) ]
  }

  function PresetButton(k: int): Button
    requires 0 <= k < |PresetNames|
  {
    Button(Rect(PresetLeft + PresetStride * k, PresetTop, 116, 38), PresetNames[k], Preset(PresetNames[k]))
  }

  function PresetTable(): seq<Button> {
    seq(|PresetNames|, k requires 0 <= k < |PresetNames| => PresetButton(k))
  }

  /** The order in which a pointer press tests the buttons: presets first, then the others. */
  function ClickTargets(): seq<Button> {
    PresetTable() + (GlyphTable() + ControlButtons())
  }

  /** Builds the glyph grid row by row with a running glyph index, stopping
      once every glyph has a button, then the control row; and the preset
      row from left to right. */
  method BuildButtons() returns (buttons: seq<Button>, presets: seq<Button>)
    ensures buttons == GlyphTable() + ControlButtons()
    ensures presets == PresetTable()
  {
    buttons := [];
    var idx := 0;
    var row := 0;
    while row < GridRows
      invariant 0 <= row <= GridRows
      invariant idx == if row * GridColumns < SymbolCount then row * GridColumns else SymbolCount
      invariant buttons == GlyphTable()[..idx]
    {
      var col := 0;
      while col < GridColumns
        invariant 0 <= col <= GridColumns
        invariant idx == row * GridColumns + col <= SymbolCount
        invariant buttons == GlyphTable()[..idx]
      {
        if idx >= SymbolCount {
          break;
        }
        var x := GridLeft + col * (ButtonWidth + ButtonGap);
        var y := GridTop + row * (ButtonHeight + ButtonGap);
        assert GlyphRect(idx) == Rect(x, y, ButtonWidth, ButtonHeight);
        buttons := buttons + [Button(Rect(x, y, ButtonWidth, ButtonHeight), GlyphLabel(idx), Glyph(idx))];
        idx := idx + 1;
        col := col + 1;
      }
      row := row + 1;
    }
    buttons := buttons + ControlButtons();

    presets := [];
    var px := PresetLeft;
    var k := 0;
    while k < |PresetNames|
      invariant 0 <= k <= |PresetNames|
      invariant px == PresetLeft + PresetStride * k
      invariant presets == PresetTable()[..k]
    {
      presets := presets + [Button(Rect(px, PresetTop, 116, 38), PresetNames[k], Preset(PresetNames[k]))];
      px := px + PresetStride;
      k := k + 1;
    }
  }

  /** Index of the first button, in order, whose rectangle contains the point. */
  function FirstHit(btns: seq<Button>, px: int, py: int): (r: Option<nat>)
    ensures r.Some? ==> r.value < |btns| && Collides(btns[r.value].rect, px, py)
    ensures r.Some? ==> forall j :: 0 <= j < r.value ==> !Collides(btns[j].rect, px, py)
    ensures r.None? ==> forall j :: 0 <= j < |btns| ==> !Collides(btns[j].rect, px, py)
  {
    if btns == [] then None
    else if Collides(btns[0].rect, px, py) then Some(0)
    else match FirstHit(btns[1..], px, py)
      case None => None
      case Some(k) => Some(k + 1)
  }

  /** Every preset action names a known address and every glyph action a symbol. */
  predicate WellFormed(a: Action) {
    (a.Preset? ==> a.name in KnownAddresses) && (a.Glyph? ==> IsSymbol(a.index))
  }

  predicate AllWellFormed(btns: seq<Button>) {
    forall i :: 0 <= i < |btns| ==> WellFormed(btns[i].action)
  }

  lemma TargetAt(i: int)
    requires 0 <= i < |ClickTargets()|
    ensures |ClickTargets()| == |PresetNames| + SymbolCount + 4
    ensures i < |PresetNames| ==> ClickTargets()[i] == PresetButton(i)
    ensures |PresetNames| <= i < |PresetNames| + SymbolCount ==> ClickTargets()[i] == GlyphButton(i - |PresetNames|)
    ensures |PresetNames| + SymbolCount <= i ==> ClickTargets()[i] == ControlButtons()[i - |PresetNames| - SymbolCount]
  {
  }

  /** Each glyph index has exactly one button in the table, and every button's action is well formed. */
  lemma ClickTargetsWellFormed()
    ensures AllWellFormed(ClickTargets())
    ensures forall s :: IsSymbol(s) ==> ClickTargets()[|PresetNames| + s].action == Glyph(s)
    ensures forall i :: 0 <= i < |ClickTargets()| && ClickTargets()[i].action.Glyph? ==>
              i == |PresetNames| + ClickTargets()[i].action.index
  {
    PresetNamesAreKeys();
    forall i | 0 <= i < |ClickTargets()|
      ensures WellFormed(ClickTargets()[i].action)
      ensures ClickTargets()[i].action.Glyph? ==> i == |PresetNames| + ClickTargets()[i].action.index
    {
      TargetAt(i);
    }
    forall s | IsSymbol(s)
      ensures ClickTargets()[|PresetNames| + s].action == Glyph(s)
    {
      TargetAt(|PresetNames| + s);
    }
  }

  lemma GlyphRectsDisjoint(a: int, b: int, px: int, py: int)
    requires IsSymbol(a) && IsSymbol(b) && a != b
    requires Collides(GlyphRect(a), px, py)
    ensures !Collides(GlyphRect(b), px, py)
  {
    assert a == GridColumns * (a / GridColumns) + a % GridColumns;
    assert b == GridColumns * (b / GridColumns) + b % GridColumns;
  }

  /** No point lies in two buttons, so the first hit is the only hit and the
      order in which a press tests the buttons does not matter. */
  lemma AtMostOneTargetHit(i: int, j: int, px: int, py: int)
    requires 0 <= i < |ClickTargets()| && 0 <= j < |ClickTargets()| && i != j
    requires Collides(ClickTargets()[i].rect, px, py)
    ensures !Collides(ClickTargets()[j].rect, px, py)
  {
    TargetAt(i);
    TargetAt(j);
    var n := |PresetNames|;
    if n <= i < n + SymbolCount && n <= j < n + SymbolCount {
      GlyphRectsDisjoint(i - n, j - n, px, py);
    } else if n <= i < n + SymbolCount {
      assert (i - n) / GridColumns <= 6;
    } else if n <= j < n + SymbolCount {
      assert (j - n) / GridColumns <= 6;
    }
  }
}
