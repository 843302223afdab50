/** The configuration store (store.ts) as an explicit state record with pure
    transition functions: the configuration, the wizard position, the
    finished flag and the interface language, and the price total computed
    from the configuration. */
module Store {
  import opened Wrappers
  import opened Types
  import opened Constants

  datatype State = State(config: Config, currentStepIndex: int, isFinished: bool, language: Language)

  const INITIAL_STATE: State := State(INITIAL_CONFIG, 0, false, En)

  /** Index of the last wizard step, `STEPS.length - 1`. */
  const LastStep: int := |STEPS| - 1

  /** The wizard invariant: the index names a step, and only the last step can
      be finished. */
  predicate Valid(s: State) {
    && 0 <= s.currentStepIndex <= LastStep
    && (s.isFinished ==> s.currentStepIndex == LastStep)
  }

  /* ---------------- actions ---------------- */

  /** `updateConfig(key, value)`: replaces one configuration field. */
  function UpdateConfig(s: State, a: Assignment): (r: State)
    ensures Get(r.config, a.Key()) == a.Value()
    ensures forall k :: k != a.Key() ==> Get(r.config, k) == Get(s.config, k)
    ensures r.currentStepIndex == s.currentStepIndex
    ensures r.isFinished == s.isFinished && r.language == s.language
  {
    s.(config := Assign(s.config, a))
  }

  /** `setLanguage(language)`. */
  function SetLanguage(s: State, l: Language): (r: State)
    ensures r.language == l
    ensures r.config == s.config && r.currentStepIndex == s.currentStepIndex && r.isFinished == s.isFinished
  {
    s.(language := l)
  }

  /** `nextStep()`: advances to the next step, or marks the wizard finished
      when already on the last one. */
  function NextStep(s: State): (r: State)
    ensures r.config == s.config && r.language == s.language
    ensures s.currentStepIndex < LastStep ==> r.currentStepIndex == s.currentStepIndex + 1 && r.isFinished == s.isFinished
    ensures s.currentStepIndex >= LastStep ==> r.currentStepIndex == s.currentStepIndex && r.isFinished
  {
    if s.currentStepIndex < LastStep then s.(currentStepIndex := s.currentStepIndex + 1)
    else s.(isFinished := true)
  }

  /** `prevStep()`: leaves the finished state without moving, otherwise goes
      back one step; at the first step nothing changes. */
  function PrevStep(s: State): (r: State)
    ensures r.config == s.config && r.language == s.language
    ensures s.isFinished ==> !r.isFinished && r.currentStepIndex == s.currentStepIndex
    ensures !s.isFinished && s.currentStepIndex > 0 ==>
              r.currentStepIndex == s.currentStepIndex - 1 && !r.isFinished
    ensures !s.isFinished && s.currentStepIndex <= 0 ==> r == s
  {
    if s.isFinished then s.(isFinished := false)
    else if s.currentStepIndex > 0 then s.(currentStepIndex := s.currentStepIndex - 1)
    else s
  }

  /** `resetFinished()`. */
  function ResetFinished(s: State): (r: State)
    ensures !r.isFinished
    ensures r.config == s.config && r.currentStepIndex == s.currentStepIndex && r.language == s.language
  {
    s.(isFinished := false)
  }

  datatype StepView = StepView(name: StepName, labelText: string)

  /** `getCurrentStep()`: the name and label of the current step. An index
      outside the table reads `undefined` and the property access throws;
      that outcome is None. */
  function GetCurrentStep(s: State): (r: Option<StepView>)
    ensures r.Some? <==> 0 <= s.currentStepIndex < |STEPS|
    ensures r.Some? ==> StepOrdinal(r.value.name) == s.currentStepIndex
    ensures r.Some? ==> r.value.labelText == STEPS[s.currentStepIndex].labelText
  {
    StepsTable();
    if 0 <= s.currentStepIndex < |STEPS| then
      var step := STEPS[s.currentStepIndex];
      Some(StepView(step.name, step.labelText))
    else None
  }

  datatype Action =
    | UpdateConfigAction(assignment: Assignment)
    | SetLanguageAction(lang: Language)
    | NextStepAction
    | PrevStepAction
    | ResetFinishedAction

  function Apply(s: State, a: Action): State {
    match a
    case UpdateConfigAction(asg) => UpdateConfig(s, asg)
    case SetLanguageAction(l) => SetLanguage(s, l)
    case NextStepAction => NextStep(s)
    case PrevStepAction => PrevStep(s)
    case ResetFinishedAction => ResetFinished(s)
  }

  /** The state after performing the actions in order. */
  function Run(s: State, actions: seq<Action>): State
    decreases |actions|
  {
    if |actions| == 0 then s else Run(Apply(s, actions[0]), actions[1..])
  }

  /* ---------------- the wizard invariant ---------------- */

  /** Every action keeps the wizard invariant. */
  lemma ApplyPreservesValid(s: State, a: Action)
    requires Valid(s)
    ensures Valid(Apply(s, a))
  {
  }

  lemma {:induction false} RunPreservesValid(s: State, actions: seq<Action>)
    requires Valid(s)
    ensures Valid(Run(s, actions))
    decreases |actions|
  {
    if |actions| > 0 {
      ApplyPreservesValid(s, actions[0]);
      RunPreservesValid(Apply(s, actions[0]), actions[1..]);
    }
  }

  /** From the initial state, whatever the user does, the step index stays in
      0..2, a finished wizard is on its last step, and `getCurrentStep` never
      reads outside the step table. */
  lemma ReachableStatesAreValid(actions: seq<Action>)
    ensures Valid(Run(INITIAL_STATE, actions))
    ensures GetCurrentStep(Run(INITIAL_STATE, actions)).Some?
  {
    RunPreservesValid(INITIAL_STATE, actions);
  }

  /** Stepping forward and then back returns to the same state whenever the
      wizard is not finished; in particular at the last step `nextStep` only
      sets the finished flag and `prevStep` clears it again. */
  lemma NextThenPrev(s: State)
    requires Valid(s) && !s.isFinished
    ensures PrevStep(NextStep(s)) == s
  {
  }

  /** Stepping back and then forward returns to the same state everywhere
      except at the unfinished first step, where `prevStep` does nothing. */
  lemma PrevThenNext(s: State)
    requires Valid(s)
    ensures NextStep(PrevStep(s)) == s <==> (s.isFinished || s.currentStepIndex > 0)
  {
  }

  /* ---------------- the price total ---------------- */

  /** `getTotalPrice()`: the variant, colour, window, table and floor prices
      looked up in their tables (0 for a value a table does not list), plus
      the flat kitchen, solar and air-conditioning prices for the flags that
      are set. */
  function TotalPrice(c: Config): (total: nat)
    ensures total <= 52500
    ensures WellTyped(c) ==> 15000 <= total
  {
    PriceRanges(c.capsuleVariant);
    PriceRanges(c.wallColor);
    PriceRanges(c.windowType);
    PriceRanges(c.tableType);
    PriceRanges(c.floorMaterial);
    var variantCost := PriceOf(VariantPrices, c.capsuleVariant);
    var colorCost := PriceOf(ColourPrices, c.wallColor);
    var windowCost := PriceOf(WindowPrices, c.windowType);
    var tableCost := PriceOf(TablePrices, c.tableType);
    var floorCost := PriceOf(FloorPrices, c.floorMaterial);
    var kitchenCost := if c.hasKitchen then KitchenPrice else 0;
    var solarCost := if c.solarPanels then SolarPrice else 0;
    var acCost := if c.acUnit then AcPrice else 0;
    variantCost + colorCost + windowCost + tableCost + floorCost + kitchenCost + solarCost + acCost
  }

  /** The price one rule of `PRICING.options` puts on one field value. */
  function RuleCost(rule: PriceRule, v: ConfigValue): nat {
    match (rule, v)
    case (Table(prices), TextValue(s)) => PriceOf(prices, s)
    case (Flat(amount), FlagValue(b)) => if b then amount else 0
    case _ => 0
  }

  /** What `PRICING` charges for one field of the configuration; a key
      without a rule charges nothing. */
  function KeyCost(c: Config, k: ConfigKey): nat {
    if k in PRICING.options then RuleCost(PRICING.options[k], Get(c, k)) else 0
  }

  /** The sum of `KeyCost` over the given keys. */
  function RuleTotal(c: Config, keys: seq<ConfigKey>): nat {
    if |keys| == 0 then 0 else KeyCost(c, keys[0]) + RuleTotal(c, keys[1..])
  }

  /** Each field's rule charges what `getTotalPrice` adds for that field. */
  lemma KeyCosts(c: Config)
    ensures KeyCost(c, Text(CapsuleVariantKey)) == PriceOf(VariantPrices, c.capsuleVariant)
    ensures KeyCost(c, Text(WallColorKey)) == PriceOf(ColourPrices, c.wallColor)
    ensures KeyCost(c, Text(WindowTypeKey)) == PriceOf(WindowPrices, c.windowType)
    ensures KeyCost(c, Flag(HasKitchenKey)) == (if c.hasKitchen then KitchenPrice else 0)
    ensures KeyCost(c, Text(TableTypeKey)) == PriceOf(TablePrices, c.tableType)
    ensures KeyCost(c, Text(FloorMaterialKey)) == PriceOf(FloorPrices, c.floorMaterial)
    ensures KeyCost(c, Flag(SolarPanelsKey)) == (if c.solarPanels then SolarPrice else 0)
    ensures KeyCost(c, Flag(AcUnitKey)) == (if c.acUnit then AcPrice else 0)
  {
  }

  /** `RuleTotal` distributes over concatenation of key lists. */
  lemma {:induction false} RuleTotalAppend(c: Config, a: seq<ConfigKey>, b: seq<ConfigKey>)
    ensures RuleTotal(c, a + b) == RuleTotal(c, a) + RuleTotal(c, b)
    decreases |a|
  {
    if |a| == 0 {
      assert a + b == b;
    } else {
      assert (a + b)[1..] == a[1..] + b;
      RuleTotalAppend(c, a[1..], b);
    }
  }

  lemma RuleTotalOfPair(c: Config, k: ConfigKey, k': ConfigKey)
    ensures RuleTotal(c, [k, k']) == KeyCost(c, k) + KeyCost(c, k')
  {
    assert [k, k'][1..] == [k'];
    assert [k'][1..] == [];
    assert RuleTotal(c, [k']) == KeyCost(c, k') + RuleTotal(c, []);
  }

  lemma RuleTotalOfKeys(c: Config, keys: seq<ConfigKey>)
    requires |keys| == 8
    ensures RuleTotal(c, keys) ==
      KeyCost(c, keys[0]) + KeyCost(c, keys[1]) + KeyCost(c, keys[2]) + KeyCost(c, keys[3]) +
      KeyCost(c, keys[4]) + KeyCost(c, keys[5]) + KeyCost(c, keys[6]) + KeyCost(c, keys[7])
  {
    var p0, p1, p2, p3 := [keys[0], keys[1]], [keys[2], keys[3]], [keys[4], keys[5]], [keys[6], keys[7]];
    assert keys == p0 + p1 + p2 + p3;
    RuleTotalAppend(c, p0 + p1 + p2, p3);
    RuleTotalAppend(c, p0 + p1, p2);
    RuleTotalAppend(c, p0, p1);
    RuleTotalOfPair(c, keys[0], keys[1]);
    RuleTotalOfPair(c, keys[2], keys[3]);
    RuleTotalOfPair(c, keys[4], keys[5]);
    RuleTotalOfPair(c, keys[6], keys[7]);
  }

  /** The total equals the price table read generically: the base price plus
      what each field's rule in `PRICING.options` charges for its value. */
  lemma TotalFollowsPricingRule(c: Config)
    ensures TotalPrice(c) == PRICING.basePrice + RuleTotal(c, AllKeys())
  {
    RuleTotalOfKeys(c, AllKeys());
    KeyCosts(c);
  }

  /** Switching on the solar array, the air conditioning or the kitchen raises
      the total by exactly its flat price, all else equal. */
  lemma FlagSurcharges(c: Config)
    ensures TotalPrice(c.(solarPanels := true)) == TotalPrice(c.(solarPanels := false)) + 4500
    ensures TotalPrice(c.(acUnit := true)) == TotalPrice(c.(acUnit := false)) + 1200
    ensures TotalPrice(c.(hasKitchen := true)) == TotalPrice(c.(hasKitchen := false)) + 5000
  {
  }

  /** The initial configuration costs 31600, and 35100 with the panoramic
      window. */
  lemma InitialPrices()
    ensures TotalPrice(INITIAL_CONFIG) == 31600
    ensures TotalPrice(INITIAL_CONFIG.(windowType := "panoramic")) == 35100
  {
  }
}
