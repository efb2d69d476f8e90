/**
 * The application shell: the observed colour and the four stored ball
 * counts, the three handlers that change them, and the numeric view of the
 * counts that the boxes and the calculator panel receive.
 *
 * The transitions are first stated as functions on a `State` value (the
 * reducer view); the class `AppComponent` holds the two state cells as
 * fields and its handler methods are proved to follow those functions.
 */
module App {
  import opened Wrappers
  import opened Types
  import JsParse
  import InfoPanel
  import Box

  /**
   * A stored count. The change handler could in principle store the empty
   * string for a cleared field (`Blank`); it is proved below that it never does.
   */
  datatype Cell = Count(n: int) | Blank

  datatype BoxCells = BoxCells(red: Cell, blue: Cell)

  datatype BoxConfigs = BoxConfigs(box1: BoxCells, box2: BoxCells)

  datatype BoxId = Box1 | Box2

  /** Both state cells of the application. */
  datatype State = State(evidenceColor: Option<BallColor>, boxConfigs: BoxConfigs)

  /** The user actions the page offers. */
  datatype Action =
    | Observe(color: BallColor)
    | ResetEvidence
    | EditCount(box: BoxId, color: BallColor, value: string)

  /** No colour observed yet; Box 1 holds 3 red and 7 blue, Box 2 holds 6 red and 4 blue. */
  function InitialState(): (s: State)
    ensures s.evidenceColor == None
    ensures CountsValid(s.boxConfigs)
  {
    State(None, BoxConfigs(BoxCells(Count(3), Count(7)), BoxCells(Count(6), Count(4))))
  }

  function CellOf(cells: BoxCells, color: BallColor): Cell {
    match color
    case Red => cells.red
    case Blue => cells.blue
  }

  function CellAt(configs: BoxConfigs, box: BoxId, color: BallColor): Cell {
    match box
    case Box1 => CellOf(configs.box1, color)
    case Box2 => CellOf(configs.box2, color)
  }

  /** `{ ...cells, [color]: v }` */
  function WithColor(cells: BoxCells, color: BallColor, v: Cell): BoxCells {
    match color
    case Red => cells.(red := v)
    case Blue => cells.(blue := v)
  }

  /** `{ ...prev, [box]: { ...prev[box], [color]: v } }`: exactly one cell replaced. */
  function WithCell(configs: BoxConfigs, box: BoxId, color: BallColor, v: Cell): (r: BoxConfigs)
    ensures CellAt(r, box, color) == v
    ensures forall b, c :: (b, c) != (box, color) ==> CellAt(r, b, c) == CellAt(configs, b, c)
  {
    match box
    case Box1 => configs.(box1 := WithColor(configs.box1, color, v))
    case Box2 => configs.(box2 := WithColor(configs.box2, color, v))
  }

  predicate ValidCell(c: Cell) {
    c.Count? && c.n >= 0
  }

  /** The invariant of the stored counts: every cell holds a non-negative integer. */
  predicate CountsValid(configs: BoxConfigs) {
    forall b, c :: ValidCell(CellAt(configs, b, c))
  }

  // ---------------------------------------------------------------------
  // Transitions
  // ---------------------------------------------------------------------

  /** Observing a colour: unguarded, it overwrites whatever was observed before. */
  function SetEvidence(s: State, color: BallColor): State {
    s.(evidenceColor := Some(color))
  }

  /** Reset clears the observation only. */
  function Reset(s: State): State {
    s.(evidenceColor := None)
  }

  /**
   * Editing one count: the text is parsed with `parseInt`, and the cell is
   * written only when the result is a number that is at least 0 (`NaN >= 0`
   * is false). The empty-string alternative of the written value is kept as
   * the page has it.
   */
  function ConfigChange(s: State, box: BoxId, color: BallColor, value: string): State {
    var count := JsParse.ParseInt(value);
    var newCount := if count.None? then 0 else count.value;
    if count.Some? && count.value >= 0 then
      s.(boxConfigs := WithCell(s.boxConfigs, box, color, if value == "" then Blank else Count(newCount)))
    else
      s
  }

  function Step(s: State, a: Action): State {
    match a
    case Observe(color) => SetEvidence(s, color)
    case ResetEvidence => Reset(s)
    case EditCount(box, color, value) => ConfigChange(s, box, color, value)
  }

  /** The state after the actions, in order. */
  function Run(s: State, actions: seq<Action>): State
    decreases |actions|
  {
    if actions == [] then s else Run(Step(s, actions[0]), actions[1..])
  }

  /** The observe buttons are enabled only while nothing is observed. */
  predicate ObserveEnabled(s: State) {
    s.evidenceColor == None
  }

  // ---------------------------------------------------------------------
  // The numeric view
  // ---------------------------------------------------------------------

  /** `Number(x) || 0`: a stored number as it is, a blank as 0. */
  function NumericCount(c: Cell): int {
    match c
    case Count(n) => n
    case Blank => 0
  }

  function NumericBox(cells: BoxCells): InfoPanel.BoxConfig {
    InfoPanel.BoxConfig(NumericCount(cells.red), NumericCount(cells.blue))
  }

  /** `getNumericConfig`: the counts the boxes and the calculator receive. */
  function NumericConfig(configs: BoxConfigs): (InfoPanel.BoxConfig, InfoPanel.BoxConfig) {
    (NumericBox(configs.box1), NumericBox(configs.box2))
  }

  // ---------------------------------------------------------------------
  // Properties of the transitions
  // ---------------------------------------------------------------------

  lemma InitialStateValid()
    ensures CountsValid(InitialState().boxConfigs)
    ensures ObserveEnabled(InitialState())
    ensures BoxesDrawable(InitialState().boxConfigs)
  {
  }

  /** Observing sets the colour from any state and leaves the counts alone. */
  lemma SetEvidenceOverwrites(s: State, color: BallColor)
    ensures SetEvidence(s, color).evidenceColor == Some(color)
    ensures SetEvidence(s, color).boxConfigs == s.boxConfigs
    ensures !ObserveEnabled(SetEvidence(s, color))
  {
  }

  /** Reset clears the observation, keeps both boxes, and enables observing again. */
  lemma ResetClearsEvidence(s: State)
    ensures Reset(s).evidenceColor == None
    ensures Reset(s).boxConfigs == s.boxConfigs
    ensures ObserveEnabled(Reset(s))
  {
  }

  /** An edit that parses to n >= 0 sets exactly that one cell to n. */
  lemma ConfigChangeAccepted(s: State, box: BoxId, color: BallColor, value: string)
    requires JsParse.ParseInt(value).Some? && JsParse.ParseInt(value).value >= 0
    ensures var r := ConfigChange(s, box, color, value);
            r.evidenceColor == s.evidenceColor
            && CellAt(r.boxConfigs, box, color) == Count(JsParse.ParseInt(value).value)
            && forall b, c :: (b, c) != (box, color) ==> CellAt(r.boxConfigs, b, c) == CellAt(s.boxConfigs, b, c)
  {
    JsParse.EmptyIsNaN();
  }

  /** An edit that parses to a negative number or to NaN changes nothing. */
  lemma ConfigChangeRejected(s: State, box: BoxId, color: BallColor, value: string)
    requires JsParse.ParseInt(value).None? || JsParse.ParseInt(value).value < 0
    ensures ConfigChange(s, box, color, value) == s
  {
  }

  /**
   * Clearing a field is an edit to the empty string, which parses to NaN: the
   * old count stays in place, so a blank is never stored.
   */
  lemma ClearingKeepsCount(s: State, box: BoxId, color: BallColor)
    ensures ConfigChange(s, box, color, "") == s
  {
    JsParse.EmptyIsNaN();
  }

  /** An edit can store only a parsed count, never a blank. */
  lemma ConfigChangeNeverBlank(s: State, box: BoxId, color: BallColor, value: string)
    ensures var r := ConfigChange(s, box, color, value);
            CellAt(r.boxConfigs, box, color) == CellAt(s.boxConfigs, box, color)
            || (CellAt(r.boxConfigs, box, color).Count? && CellAt(r.boxConfigs, box, color).n >= 0)
  {
    JsParse.EmptyIsNaN();
  }

  lemma StepKeepsCountsValid(s: State, a: Action)
    requires CountsValid(s.boxConfigs)
    ensures CountsValid(Step(s, a).boxConfigs)
  {
    if a.EditCount? {
      ConfigChangeNeverBlank(s, a.box, a.color, a.value);
    }
  }

  /** Whatever the user does, every count stays a non-negative integer. */
  lemma {:induction false} RunKeepsCountsValid(s: State, actions: seq<Action>)
    requires CountsValid(s.boxConfigs)
    ensures CountsValid(Run(s, actions).boxConfigs)
    decreases |actions|
  {
    if actions != [] {
      StepKeepsCountsValid(s, actions[0]);
      RunKeepsCountsValid(Step(s, actions[0]), actions[1..]);
    }
  }

  /** From the initial state, no sequence of actions leads to a negative or blank count. */
  lemma ReachableCountsValid(actions: seq<Action>)
    ensures CountsValid(Run(InitialState(), actions).boxConfigs)
  {
    RunKeepsCountsValid(InitialState(), actions);
  }

  // ---------------------------------------------------------------------
  // Properties of the numeric view
  // ---------------------------------------------------------------------

  /** On valid counts the numeric view is the stored counts themselves, all non-negative. */
  lemma NumericConfigOfValidCounts(configs: BoxConfigs)
    requires CountsValid(configs)
    ensures var (b1, b2) := NumericConfig(configs);
            InfoPanel.NonNegative(b1) && InfoPanel.NonNegative(b2)
            && Count(b1.red) == CellAt(configs, Box1, Red) && Count(b1.blue) == CellAt(configs, Box1, Blue)
            && Count(b2.red) == CellAt(configs, Box2, Red) && Count(b2.blue) == CellAt(configs, Box2, Blue)
  {
    assert ValidCell(CellAt(configs, Box1, Red)) && ValidCell(CellAt(configs, Box1, Blue));
    assert ValidCell(CellAt(configs, Box2, Red)) && ValidCell(CellAt(configs, Box2, Blue));
  }

  /** A blank would be read as 0. */
  lemma BlankReadsAsZero()
    ensures NumericCount(Blank) == 0
  {
  }

  /** Both boxes can build their ball lists: `Array(n)` throws for neither count. */
  predicate BoxesDrawable(configs: BoxConfigs) {
    var (b1, b2) := NumericConfig(configs);
    Box.UnshuffledBalls(b1.red, b1.blue).Some? && Box.UnshuffledBalls(b2.red, b2.blue).Some?
  }

  /**
   * Starting from drawable boxes, an edit keeps them drawable exactly when it
   * does not store a count of 2^32 or more; such an edit is accepted, and the
   * next render of the box throws.
   */
  lemma EditKeepsBoxesDrawable(s: State, box: BoxId, color: BallColor, value: string)
    requires BoxesDrawable(s.boxConfigs)
    ensures BoxesDrawable(ConfigChange(s, box, color, value).boxConfigs) <==>
              !(JsParse.ParseInt(value).Some? && JsParse.ParseInt(value).value >= Box.ArrayLengthLimit)
  {
    JsParse.EmptyIsNaN();
  }

  /** Typing the numeral of 2^32 into any count field is accepted and makes that box undrawable. */
  lemma OversizedEditBreaksBox(s: State, box: BoxId, color: BallColor)
    ensures var r := ConfigChange(s, box, color, JsParse.Decimal(Box.ArrayLengthLimit));
            CellAt(r.boxConfigs, box, color) == Count(Box.ArrayLengthLimit)
            && !BoxesDrawable(r.boxConfigs)
  {
    JsParse.ParseNumeral(Box.ArrayLengthLimit, "");
    assert JsParse.Decimal(Box.ArrayLengthLimit) + "" == JsParse.Decimal(Box.ArrayLengthLimit);
    ConfigChangeAccepted(s, box, color, JsParse.Decimal(Box.ArrayLengthLimit));
  }

  /** After a reset the calculator shows the priors as posteriors. */
  lemma ResetRestoresPriors(s: State)
    ensures var (b1, b2) := NumericConfig(Reset(s).boxConfigs);
            var r := InfoPanel.Calculate(b1, b2, Reset(s).evidenceColor);
            r.posteriorBox1 == 0.5 && r.posteriorBox2 == 0.5
  {
    var (b1, b2) := NumericConfig(Reset(s).boxConfigs);
    InfoPanel.NoEvidenceKeepsPriors(b1, b2);
  }

  /** In every reachable state the report's probabilities all lie in [0, 1]. */
  lemma ReachableReportInUnit(actions: seq<Action>)
    ensures var s := Run(InitialState(), actions);
            var (b1, b2) := NumericConfig(s.boxConfigs);
            var r := InfoPanel.Calculate(b1, b2, s.evidenceColor);
            InfoPanel.InUnit(r.pRed) && InfoPanel.InUnit(r.pBlue)
            && InfoPanel.InUnit(r.posteriorBox1) && InfoPanel.InUnit(r.posteriorBox2)
  {
    var s := Run(InitialState(), actions);
    ReachableCountsValid(actions);
    NumericConfigOfValidCounts(s.boxConfigs);
    var (b1, b2) := NumericConfig(s.boxConfigs);
    InfoPanel.PosteriorsInUnit(b1, b2, s.evidenceColor);
  }

  // ---------------------------------------------------------------------
  // The component and its state cells
  // ---------------------------------------------------------------------

  class AppComponent {
    var evidenceColor: Option<BallColor>
    var boxConfigs: BoxConfigs

    function Snapshot(): State
      reads this
    {
      State(evidenceColor, boxConfigs)
    }

    ghost predicate Valid()
      reads this
    {
      CountsValid(boxConfigs)
    }

    constructor ()
      ensures Snapshot() == InitialState() && Valid()
    {
      var s := InitialState();
      evidenceColor := s.evidenceColor;
      boxConfigs := s.boxConfigs;
    }

    /** `handleSetEvidence` */
    method HandleSetEvidence(color: BallColor)
      modifies this
      ensures Snapshot() == SetEvidence(old(Snapshot()), color)
      ensures old(Valid()) ==> Valid()
    {
      evidenceColor := Some(color);
    }

    /** `handleReset` */
    method HandleReset()
      modifies this
      ensures Snapshot() == Reset(old(Snapshot()))
      ensures old(Valid()) ==> Valid()
    {
      evidenceColor := None;
    }

    /** `handleConfigChange` */
    method HandleConfigChange(box: BoxId, color: BallColor, value: string)
      modifies this
      ensures Snapshot() == ConfigChange(old(Snapshot()), box, color, value)
      ensures old(Valid()) ==> Valid()
    {
      var count := JsParse.ParseInt(value);
      var newCount := if count.None? then 0 else count.value;
      if count.Some? && count.value >= 0 {
        var stored := if value == "" then Blank else Count(newCount);
        boxConfigs := WithCell(boxConfigs, box, color, stored);
      }
      ConfigChangeNeverBlank(old(Snapshot()), box, color, value);
    }

    /** `getNumericConfig` */
    method GetNumericConfig() returns (box1: InfoPanel.BoxConfig, box2: InfoPanel.BoxConfig)
      ensures (box1, box2) == NumericConfig(boxConfigs)
      ensures Valid() ==> InfoPanel.NonNegative(box1) && InfoPanel.NonNegative(box2)
    {
      box1 := NumericBox(boxConfigs.box1);
      box2 := NumericBox(boxConfigs.box2);
      if Valid() {
        NumericConfigOfValidCounts(boxConfigs);
      }
    }
  }
}
