/** Action masking: `YamlConditionMask`. */
module Masking {

  datatype Action =
    | NetSelect(netId: int)
    | StartRoute(x: real, y: real, layer: int)
    | NetEnd
    | MakeLine(x: real, y: real, mode: int)
    | MakeVia(x: real, y: real, mode: int)
    | Finish(mode: int)
    | Idle(parseInvalid: bool)

  const NUM_ACTIONS := 7

  /** The action's index in the registry. */
  function Index(a: Action): (i: nat)
    ensures i < NUM_ACTIONS
  {
    match a
    case NetSelect(_) => 0
    case StartRoute(_, _, _) => 1
    case NetEnd => 2
    case MakeLine(_, _, _) => 3
    case MakeVia(_, _, _) => 4
    case Finish(_) => 5
    case Idle(_) => 6
  }

  datatype MaskContext = MaskContext(hasNet: bool, isRouting: bool, netFullyConnected: bool,
                                     stepCount: int, maxSteps: int, unroutedCount: int)

  /** One `when` entry: a context field and the value it must have. */
  datatype Condition =
    | HasNet(flag: bool) | IsRouting(flag: bool) | NetFullyConnected(flag: bool)
    | StepCount(count: int) | MaxSteps(count: int) | UnroutedCount(count: int)

  predicate Holds(c: Condition, ctx: MaskContext) {
    match c
    case HasNet(v) => ctx.hasNet == v
    case IsRouting(v) => ctx.isRouting == v
    case NetFullyConnected(v) => ctx.netFullyConnected == v
    case StepCount(n) => ctx.stepCount == n
    case MaxSteps(n) => ctx.maxSteps == n
    case UnroutedCount(n) => ctx.unroutedCount == n
  }

  datatype Entry = Entry(action: nat, conditions: seq<Condition>)
  type Rule = seq<Entry>

  predicate Matches(e: Entry, ctx: MaskContext) {
    forall i | 0 <= i < |e.conditions| :: Holds(e.conditions[i], ctx)
  }

  predicate Valid(rule: Rule) {
    forall k | 0 <= k < |rule| :: rule[k].action < NUM_ACTIONS
  }

  /** Default deny: an action is enabled only by an entry of its own whose conditions all hold. */
  predicate Granted(rule: Rule, ctx: MaskContext, action: nat) {
    exists k :: 0 <= k < |rule| && rule[k].action == action && Matches(rule[k], ctx)
  }

  method AllHold(e: Entry, ctx: MaskContext) returns (all: bool)
    ensures all == Matches(e, ctx)
  {
    for i := 0 to |e.conditions|
      invariant forall j | 0 <= j < i :: Holds(e.conditions[j], ctx)
    {
      if !Holds(e.conditions[i], ctx) {
        return false;
      }
    }
    return true;
  }

  /** `build_mask` */
  method BuildMask(rule: Rule, ctx: MaskContext) returns (mask: array<bool>)
    requires Valid(rule)
    ensures fresh(mask) && mask.Length == NUM_ACTIONS
    ensures forall a | 0 <= a < NUM_ACTIONS :: mask[a] <==> Granted(rule, ctx, a)
  {
    mask := new bool[NUM_ACTIONS](_ => false);
    for k := 0 to |rule|
      invariant forall a | 0 <= a < NUM_ACTIONS ::
        mask[a] <==> exists j :: 0 <= j < k && rule[j].action == a && Matches(rule[j], ctx)
    {
      var all := AllHold(rule[k], ctx);
      if all {
        mask[rule[k].action] := true;
      }
    }
  }

  /** The rule grants `start_route` only with a net, and `net_end` only outside a session. */
  ghost predicate GrantsSafely(rule: Rule) {
    && (forall ctx :: Granted(rule, ctx, 1) ==> ctx.hasNet)
    && (forall ctx :: Granted(rule, ctx, 2) ==> !ctx.isRouting)
  }

  /** What to look for in the rule's text. */
  predicate WrittenSafely(rule: Rule) {
    && (forall k | 0 <= k < |rule| && rule[k].action == 1 :: HasNet(true) in rule[k].conditions)
    && (forall k | 0 <= k < |rule| && rule[k].action == 2 :: IsRouting(false) in rule[k].conditions)
  }

  lemma WrittenSafelyIsSafe(rule: Rule)
    requires WrittenSafely(rule)
    ensures GrantsSafely(rule)
  {
    forall ctx | Granted(rule, ctx, 1)
      ensures ctx.hasNet
    {
      var k :| 0 <= k < |rule| && rule[k].action == 1 && Matches(rule[k], ctx);
      var i :| 0 <= i < |rule[k].conditions| && rule[k].conditions[i] == HasNet(true);
      assert Holds(rule[k].conditions[i], ctx);
    }
    forall ctx | Granted(rule, ctx, 2)
      ensures !ctx.isRouting
    {
      var k :| 0 <= k < |rule| && rule[k].action == 2 && Matches(rule[k], ctx);
      var i :| 0 <= i < |rule[k].conditions| && rule[k].conditions[i] == IsRouting(false);
      assert Holds(rule[k].conditions[i], ctx);
    }
  }

  /** configs/masking/pcbworld_masking.yaml */
  const SHIPPED: Rule := [
    Entry(0, [HasNet(false), IsRouting(false)]),
    Entry(1, [HasNet(true), IsRouting(false), NetFullyConnected(false)]),
    Entry(2, [HasNet(true), IsRouting(false)]),
    Entry(3, [IsRouting(true)]),
    Entry(4, [IsRouting(true)])]

  /** The shipped rule is safe and never grants `finish` or `idle`. */
  lemma ShippedRule()
    ensures Valid(SHIPPED) && GrantsSafely(SHIPPED)
    ensures forall ctx :: !Granted(SHIPPED, ctx, 5) && !Granted(SHIPPED, ctx, 6)
  {
    WrittenSafelyIsSafe(SHIPPED);
  }
}
