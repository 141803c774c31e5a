/**
 * The statistic records both stat listeners share: the damage cause of a death,
 * the objective counters a player accumulates (`stats.objectives`, on the
 * durable player record and on the older per-match participant record alike),
 * and the objective actions that raise them.
 */
module StatRecords {

  datatype DamageCause = Void | OtherCause(name: string)

  datatype Objectives = Objectives(
    coreLeaks: int,
    controlPointCaptures: int,
    destroyableDestroys: int,
    destroyableBlockDestroys: int,
    flagCaptures: int,
    flagPickups: int,
    flagDrops: int,
    flagDefends: int,
    totalFlagHoldTime: int,
    woolCaptures: int,
    woolPickups: int,
    woolDrops: int,
    woolDefends: int)

  /** Names for the counters, so that "only this counter changed" can be stated once. */
  datatype Counter =
    | CoreLeaks | ControlPointCaptures | DestroyableDestroys | DestroyableBlockDestroys
    | FlagCaptures | FlagPickups | FlagDrops | FlagDefends | TotalFlagHoldTime
    | WoolCaptures | WoolPickups | WoolDrops | WoolDefends

  function Get(o: Objectives, c: Counter): int
  {
    match c
    case CoreLeaks => o.coreLeaks
    case ControlPointCaptures => o.controlPointCaptures
    case DestroyableDestroys => o.destroyableDestroys
    case DestroyableBlockDestroys => o.destroyableBlockDestroys
    case FlagCaptures => o.flagCaptures
    case FlagPickups => o.flagPickups
    case FlagDrops => o.flagDrops
    case FlagDefends => o.flagDefends
    case TotalFlagHoldTime => o.totalFlagHoldTime
    case WoolCaptures => o.woolCaptures
    case WoolPickups => o.woolPickups
    case WoolDrops => o.woolDrops
    case WoolDefends => o.woolDefends
  }

  /** `o.c += n`: counter `c` goes up by `n` and every other counter keeps its value. */
  function Add(o: Objectives, c: Counter, n: int): (r: Objectives)
    ensures Get(r, c) == Get(o, c) + n
    ensures forall c' :: c' != c ==> Get(r, c') == Get(o, c')
  {
    match c
    case CoreLeaks => o.(coreLeaks := o.coreLeaks + n)
    case ControlPointCaptures => o.(controlPointCaptures := o.controlPointCaptures + n)
    case DestroyableDestroys => o.(destroyableDestroys := o.destroyableDestroys + n)
    case DestroyableBlockDestroys => o.(destroyableBlockDestroys := o.destroyableBlockDestroys + n)
    case FlagCaptures => o.(flagCaptures := o.flagCaptures + n)
    case FlagPickups => o.(flagPickups := o.flagPickups + n)
    case FlagDrops => o.(flagDrops := o.flagDrops + n)
    case FlagDefends => o.(flagDefends := o.flagDefends + n)
    case TotalFlagHoldTime => o.(totalFlagHoldTime := o.totalFlagHoldTime + n)
    case WoolCaptures => o.(woolCaptures := o.woolCaptures + n)
    case WoolPickups => o.(woolPickups := o.woolPickups + n)
    case WoolDrops => o.(woolDrops := o.woolDrops + n)
    case WoolDefends => o.(woolDefends := o.woolDefends + n)
  }

  /** One player's share of an objective event. */
  datatype Action =
    | CoreLeak
    | ControlPointCapture
    | DestroyableDestroy(blockCount: int)
    | FlagPlace(heldTime: int)
    | FlagPickup
    | FlagDrop(heldTime: int)
    | FlagDefend
    | WoolPlace
    | WoolPickup
    | WoolDrop
    | WoolDefend

  /** How much each action adds to each counter: the table both listeners follow. */
  function Delta(a: Action, c: Counter): int
  {
    match a
    case CoreLeak => if c == CoreLeaks then 1 else 0
    case ControlPointCapture => if c == ControlPointCaptures then 1 else 0
    case DestroyableDestroy(blocks) =>
      if c == DestroyableDestroys then 1 else if c == DestroyableBlockDestroys then blocks else 0
    case FlagPlace(held) => if c == FlagCaptures then 1 else if c == TotalFlagHoldTime then held else 0
    case FlagPickup => if c == FlagPickups then 1 else 0
    case FlagDrop(held) => if c == FlagDrops then 1 else if c == TotalFlagHoldTime then held else 0
    case FlagDefend => if c == FlagDefends then 1 else 0
    case WoolPlace => if c == WoolCaptures then 1 else 0
    case WoolPickup => if c == WoolPickups then 1 else 0
    case WoolDrop => if c == WoolDrops then 1 else 0
    case WoolDefend => if c == WoolDefends then 1 else 0
  }

  /** The counters after crediting one action: each moves by exactly its entry in `Delta`. */
  function Credit(o: Objectives, a: Action): (r: Objectives)
    ensures forall c :: Get(r, c) == Get(o, c) + Delta(a, c)
  {
    match a
    case CoreLeak => Add(o, CoreLeaks, 1)
    case ControlPointCapture => Add(o, ControlPointCaptures, 1)
    case DestroyableDestroy(blocks) => Add(Add(o, DestroyableDestroys, 1), DestroyableBlockDestroys, blocks)
    case FlagPlace(held) => Add(Add(o, FlagCaptures, 1), TotalFlagHoldTime, held)
    case FlagPickup => Add(o, FlagPickups, 1)
    case FlagDrop(held) => Add(Add(o, FlagDrops, 1), TotalFlagHoldTime, held)
    case FlagDefend => Add(o, FlagDefends, 1)
    case WoolPlace => Add(o, WoolCaptures, 1)
    case WoolPickup => Add(o, WoolPickups, 1)
    case WoolDrop => Add(o, WoolDrops, 1)
    case WoolDefend => Add(o, WoolDefends, 1)
  }

  /** Two records with the same counters are the same record. */
  lemma CountersDetermine(o: Objectives, o': Objectives)
    requires forall c :: Get(o, c) == Get(o', c)
    ensures o == o'
  {
    assert Get(o, CoreLeaks) == Get(o', CoreLeaks);
    assert Get(o, ControlPointCaptures) == Get(o', ControlPointCaptures);
    assert Get(o, DestroyableDestroys) == Get(o', DestroyableDestroys);
    assert Get(o, DestroyableBlockDestroys) == Get(o', DestroyableBlockDestroys);
    assert Get(o, FlagCaptures) == Get(o', FlagCaptures);
    assert Get(o, FlagPickups) == Get(o', FlagPickups);
    assert Get(o, FlagDrops) == Get(o', FlagDrops);
    assert Get(o, FlagDefends) == Get(o', FlagDefends);
    assert Get(o, TotalFlagHoldTime) == Get(o', TotalFlagHoldTime);
    assert Get(o, WoolCaptures) == Get(o', WoolCaptures);
    assert Get(o, WoolPickups) == Get(o', WoolPickups);
    assert Get(o, WoolDrops) == Get(o', WoolDrops);
    assert Get(o, WoolDefends) == Get(o', WoolDefends);
  }

  /** One listed contributor of an objective event and the credit it earns. */
  datatype Contribution = Contribution(playerId: string, action: Action)

  /** What a series of contributions adds to one player's counter `c`. */
  function SumDelta(cs: seq<Contribution>, player: string, c: Counter): int
  {
    if cs == [] then 0
    else
      var last := cs[|cs| - 1];
      SumDelta(cs[..|cs| - 1], player, c) + (if last.playerId == player then Delta(last.action, c) else 0)
  }

  lemma {:induction false} NoContributionNoDelta(cs: seq<Contribution>, player: string)
    requires forall i :: 0 <= i < |cs| ==> cs[i].playerId != player
    ensures forall c :: SumDelta(cs, player, c) == 0
  {
    if cs != [] {
      NoContributionNoDelta(cs[..|cs| - 1], player);
    }
  }

  /** A player listed exactly once receives exactly that contribution's deltas. */
  lemma {:induction false} SingleContribution(cs: seq<Contribution>, i: nat, c: Counter)
    requires i < |cs|
    requires forall j :: 0 <= j < |cs| && j != i ==> cs[j].playerId != cs[i].playerId
    ensures SumDelta(cs, cs[i].playerId, c) == Delta(cs[i].action, c)
  {
    var n := |cs| - 1;
    if i == n {
      NoContributionNoDelta(cs[..n], cs[i].playerId);
    } else {
      SingleContribution(cs[..n], i, c);
    }
  }

  /** Every listed player with the same action. */
  function Contributions(playerIds: seq<string>, a: Action): (cs: seq<Contribution>)
    ensures |cs| == |playerIds|
    ensures forall i :: 0 <= i < |cs| ==> cs[i] == Contribution(playerIds[i], a)
  {
    seq(|playerIds|, i requires 0 <= i < |playerIds| => Contribution(playerIds[i], a))
  }

  /** Destroyable contributions: each player destroys with its own block count. */
  function Destroys(contributions: seq<(string, int)>): (cs: seq<Contribution>)
    ensures |cs| == |contributions|
    ensures forall i :: 0 <= i < |cs| ==> cs[i] == Contribution(contributions[i].0, DestroyableDestroy(contributions[i].1))
  {
    seq(|contributions|, i requires 0 <= i < |contributions| => Contribution(contributions[i].0, DestroyableDestroy(contributions[i].1)))
  }
}
