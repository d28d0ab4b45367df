/**
 * The pure rules the engine consults about a combat state: power queries,
 * the end-of-combat test, card playability, legal-choice generation,
 * positional access to creatures, monster intents and the integer shell of
 * the damage pipeline.
 */
module Combat {
  import opened Wrappers
  import opened SimulationState

  // ---------------------------------------------------------------------------
  // Powers

  /** Some entry of `ps` has id `id` (`iter().any(..)`). */
  function PowersHave(ps: seq<Power>, id: PowerId): (r: bool)
    ensures r <==> exists i :: 0 <= i < |ps| && ps[i].powerId == id
  {
    if ps == [] then false
    else if ps[0].powerId == id then true
    else (
      var rest := PowersHave(ps[1..], id);
      assert rest ==> exists i :: 0 <= i < |ps| && ps[i].powerId == id by {
        if rest {
          var j :| 0 <= j < |ps| - 1 && ps[1..][j].powerId == id;
          assert ps[j + 1].powerId == id;
        }
      }
      rest)
  }

  /** The sum of the amounts of the entries with id `id` (`filter(..).map(..).sum()`). */
  function SumAmounts(ps: seq<Power>, id: PowerId): int
  {
    if ps == [] then 0
    else (if ps[0].powerId == id then ps[0].amount else 0) + SumAmounts(ps[1..], id)
  }

  /** `Creature::has_power`: the creature carries at least one stack of `id`. */
  function HasPower(c: Creature, id: PowerId): (r: bool)
    ensures r <==> exists i :: 0 <= i < |c.powers| && c.powers[i].powerId == id
  {
    PowersHave(c.powers, id)
  }

  /** `Creature::power_amount`: the total amount over all stacks of `id`; stacks are not merged. */
  function PowerAmount(c: Creature, id: PowerId): (r: int)
    ensures !HasPower(c, id) ==> r == 0
  {
    AbsentPowerHasNoAmount(c.powers, id);
    SumAmounts(c.powers, id)
  }

  lemma {:induction false} AbsentPowerHasNoAmount(ps: seq<Power>, id: PowerId)
    ensures !PowersHave(ps, id) ==> SumAmounts(ps, id) == 0
    decreases |ps|
  {
    if ps != [] {
      AbsentPowerHasNoAmount(ps[1..], id);
    }
  }

  /** Amounts of separate stacks add up: appending stacks adds their amounts. */
  lemma {:induction false} PowerAmountAppend(xs: seq<Power>, ys: seq<Power>, id: PowerId)
    ensures SumAmounts(xs + ys, id) == SumAmounts(xs, id) + SumAmounts(ys, id)
    decreases |xs|
  {
    if xs == [] {
      assert xs + ys == ys;
    } else {
      assert (xs + ys)[1..] == xs[1..] + ys;
      PowerAmountAppend(xs[1..], ys, id);
    }
  }

  /** When every stack has a positive amount, the creature has the power exactly when its amount is positive. */
  lemma {:induction false} PositiveStacksAmount(ps: seq<Power>, id: PowerId)
    requires forall i :: 0 <= i < |ps| ==> ps[i].amount > 0
    ensures SumAmounts(ps, id) >= 0
    ensures SumAmounts(ps, id) > 0 <==> PowersHave(ps, id)
    decreases |ps|
  {
    if ps != [] {
      PositiveStacksAmount(ps[1..], id);
    }
  }

  // ---------------------------------------------------------------------------
  // End of combat and playability

  /** Every monster is marked gone (`iter().all(..)`). */
  function AllGone(ms: seq<Monster>): (r: bool)
    ensures r <==> forall i :: 0 <= i < |ms| ==> ms[i].gone
  {
    if ms == [] then true else ms[0].gone && AllGone(ms[1..])
  }

  /** `CombatState::combat_over`. */
  function CombatOver(s: CombatState): (r: bool)
    ensures r <==> s.player.creature.hitpoints <= 0 || forall i :: 0 <= i < |s.monsters| ==> s.monsters[i].gone
  {
    s.player.creature.hitpoints <= 0 || AllGone(s.monsters)
  }

  /**
   * `CombatState::card_playable`. The per-card `playable` check belongs to
   * each card identity and is a parameter here.
   */
  function CardPlayable(s: CombatState, card: SingleCard, playable: (CardId, CombatState) -> bool): (r: bool)
    ensures r <==>
      && X_COST <= card.cost <= s.player.energy
      && playable(card.cardInfo.id, s)
      && !(card.cardInfo.cardType == Attack
           && exists i :: 0 <= i < |s.player.creature.powers| && s.player.creature.powers[i].powerId == Entangled)
  {
    && card.cost >= -1
    && s.player.energy >= card.cost
    && playable(card.cardInfo.id, s)
    && !(card.cardInfo.cardType == Attack && HasPower(s.player.creature, Entangled))
  }

  // ---------------------------------------------------------------------------
  // Legal choices

  /** No card before position `i` of the hand equals the card at `i`. */
  predicate FirstOfItsKind(hand: seq<SingleCard>, i: nat)
    requires i < |hand|
  {
    forall j :: 0 <= j < i ==> hand[j] != hand[i]
  }

  /** `target` is a valid target for `card`: a live monster slot, or 0 for an untargeted card. */
  predicate TargetFits(s: CombatState, card: SingleCard, target: nat)
  {
    if card.cardInfo.hasTarget then target < |s.monsters| && !s.monsters[target].gone else target == 0
  }

  /** One play of `card` per live monster among the first `k` slots, in slot order. */
  function TargetChoices(card: SingleCard, ms: seq<Monster>, k: nat): seq<Action>
    requires k <= |ms|
  {
    if k == 0 then []
    else TargetChoices(card, ms, k - 1) + (if ms[k - 1].gone then [] else [PlayCard(card, k - 1)])
  }

  /** The plays the hand card at position `i` contributes. */
  function CardChoices(s: CombatState, playable: (CardId, CombatState) -> bool, i: nat): seq<Action>
    requires i < |s.hand|
  {
    var card := s.hand[i];
    if FirstOfItsKind(s.hand, i) && CardPlayable(s, card, playable) then
      if card.cardInfo.hasTarget then TargetChoices(card, s.monsters, |s.monsters|) else [PlayCard(card, 0)]
    else []
  }

  /** The plays contributed by the first `k` hand cards, in hand order. */
  function ChoicesUpTo(s: CombatState, playable: (CardId, CombatState) -> bool, k: nat): seq<Action>
    requires k <= |s.hand|
  {
    if k == 0 then [] else ChoicesUpTo(s, playable, k - 1) + CardChoices(s, playable, k - 1)
  }

  /** One more hand card: its plays follow those of the earlier cards, after `EndTurn`. */
  lemma ChoicesUpToStep(s: CombatState, playable: (CardId, CombatState) -> bool, k: nat)
    requires k < |s.hand|
    ensures [EndTurn] + ChoicesUpTo(s, playable, k + 1) == ([EndTurn] + ChoicesUpTo(s, playable, k)) + CardChoices(s, playable, k)
  {
    assert ChoicesUpTo(s, playable, k + 1) == ChoicesUpTo(s, playable, k) + CardChoices(s, playable, k);
  }

  /** `CombatState::legal_choices`: end turn first, then the card plays, built by pushing in nested loops. */
  method LegalChoices(s: CombatState, playable: (CardId, CombatState) -> bool) returns (result: seq<Action>)
    ensures result == [EndTurn] + ChoicesUpTo(s, playable, |s.hand|)
  {
    result := [EndTurn];
    var index := 0;
    while index < |s.hand|
      invariant index <= |s.hand|
      invariant result == [EndTurn] + ChoicesUpTo(s, playable, index)
    {
      ghost var before := result;
      var card := s.hand[index];
      if FirstOfItsKind(s.hand, index) && CardPlayable(s, card, playable) {
        if card.cardInfo.hasTarget {
          var monsterIndex := 0;
          while monsterIndex < |s.monsters|
            invariant monsterIndex <= |s.monsters|
            invariant result == before + TargetChoices(card, s.monsters, monsterIndex)
          {
            if !s.monsters[monsterIndex].gone {
              result := result + [PlayCard(card, monsterIndex)];
            }
            monsterIndex := monsterIndex + 1;
          }
          assert CardChoices(s, playable, index) == TargetChoices(card, s.monsters, |s.monsters|);
        } else {
          result := result + [PlayCard(card, 0)];
        }
      }
      assert result == before + CardChoices(s, playable, index);
      ChoicesUpToStep(s, playable, index);
      index := index + 1;
    }
  }

  /** `a` plays `card` on a live monster among the first `k` slots. */
  predicate PlaysLiveTarget(card: SingleCard, ms: seq<Monster>, k: nat, a: Action)
    requires k <= |ms|
  {
    a.PlayCard? && a.card == card && a.target < k && !ms[a.target].gone
  }

  lemma {:induction false} TargetChoicesCount(card: SingleCard, ms: seq<Monster>, k: nat, a: Action)
    requires k <= |ms|
    ensures multiset(TargetChoices(card, ms, k))[a] == if PlaysLiveTarget(card, ms, k, a) then 1 else 0
    decreases k
  {
    if k == 0 {
      NoSlotsNoChoices(card, ms, a);
    } else {
      TargetChoicesCount(card, ms, k - 1, a);
      TargetChoicesCountStep(card, ms, k, a);
    }
  }

  /** With no slots there is nothing to play. */
  lemma NoSlotsNoChoices(card: SingleCard, ms: seq<Monster>, a: Action)
    ensures TargetChoices(card, ms, 0) == [] && !PlaysLiveTarget(card, ms, 0, a)
  {
  }

  /** One more slot: the count for `k` slots follows from the count for `k - 1`. */
  lemma TargetChoicesCountStep(card: SingleCard, ms: seq<Monster>, k: nat, a: Action)
    requires 0 < k <= |ms|
    requires multiset(TargetChoices(card, ms, k - 1))[a] == if PlaysLiveTarget(card, ms, k - 1, a) then 1 else 0
    ensures multiset(TargetChoices(card, ms, k))[a] == if PlaysLiveTarget(card, ms, k, a) then 1 else 0
  {
    var prev := TargetChoices(card, ms, k - 1);
    assert TargetChoices(card, ms, k) == prev + (if ms[k - 1].gone then [] else [PlayCard(card, k - 1)]);
    CountStep(prev, PlayCard(card, k - 1), !ms[k - 1].gone, a);
    LiveTargetStep(card, ms, k, a);
  }

  /** Occurrences after appending at most one element. */
  lemma CountStep<T>(xs: seq<T>, y: T, keep: bool, x: T)
    ensures multiset(xs + (if keep then [y] else []))[x] == multiset(xs)[x] + (if keep && x == y then 1 else 0)
  {
    if keep {
      assert multiset(xs + [y]) == multiset(xs) + multiset{y};
    } else {
      assert xs + [] == xs;
    }
  }

  /** Widening the slot range by one adds exactly the play on the new slot, when that monster is live. */
  lemma LiveTargetStep(card: SingleCard, ms: seq<Monster>, k: nat, a: Action)
    requires 0 < k <= |ms|
    ensures PlaysLiveTarget(card, ms, k, a) <==>
      PlaysLiveTarget(card, ms, k - 1, a) || (a == PlayCard(card, k - 1) && !ms[k - 1].gone)
    ensures a == PlayCard(card, k - 1) ==> !PlaysLiveTarget(card, ms, k - 1, a)
  {
  }


  lemma CardChoicesCount(s: CombatState, playable: (CardId, CombatState) -> bool, i: nat, a: Action)
    requires i < |s.hand|
    ensures multiset(CardChoices(s, playable, i))[a] ==
      if a.PlayCard? && a.card == s.hand[i] && FirstOfItsKind(s.hand, i)
         && CardPlayable(s, a.card, playable) && TargetFits(s, a.card, a.target) then 1 else 0
  {
    if s.hand[i].cardInfo.hasTarget {
      TargetChoicesCount(s.hand[i], s.monsters, |s.monsters|, a);
    }
  }

  lemma {:induction false} ChoicesUpToCount(s: CombatState, playable: (CardId, CombatState) -> bool, k: nat, a: Action)
    requires k <= |s.hand|
    ensures multiset(ChoicesUpTo(s, playable, k))[a] ==
      if a.PlayCard? && a.card in s.hand[..k] && CardPlayable(s, a.card, playable) && TargetFits(s, a.card, a.target)
      then 1 else 0
    decreases k
  {
    if k > 0 {
      var i := k - 1;
      ChoicesUpToCount(s, playable, i, a);
      CardChoicesCount(s, playable, i, a);
      assert multiset(ChoicesUpTo(s, playable, k))[a]
        == multiset(ChoicesUpTo(s, playable, i))[a] + multiset(CardChoices(s, playable, i))[a];
      InPrefixStep(s.hand, k);
      if a.PlayCard? && a.card == s.hand[i] {
        if FirstOfItsKind(s.hand, i) {
          assert a.card !in s.hand[..i];
        } else {
          var j :| 0 <= j < i && s.hand[j] == s.hand[i];
          assert s.hand[..i][j] == a.card;
        }
      }
    }
  }

  lemma InPrefixStep<T>(xs: seq<T>, k: nat)
    requires 0 < k <= |xs|
    ensures forall x :: x in xs[..k] <==> x in xs[..k - 1] || x == xs[k - 1]
  {
    assert xs[..k] == xs[..k - 1] + [xs[k - 1]];
  }

  /**
   * Every legal choice appears exactly once: `EndTurn`, and one play per
   * distinct playable hand card and fitting target. Equal cards later in
   * the hand add nothing, and nothing else appears.
   */
  lemma LegalChoicesExactlyOnce(s: CombatState, playable: (CardId, CombatState) -> bool, a: Action)
    ensures multiset([EndTurn] + ChoicesUpTo(s, playable, |s.hand|))[a] ==
      if a == EndTurn
         || (a.PlayCard? && a.card in s.hand && CardPlayable(s, a.card, playable) && TargetFits(s, a.card, a.target))
      then 1 else 0
  {
    ChoicesUpToCount(s, playable, |s.hand|, a);
    ChoicesUpToCount(s, playable, |s.hand|, EndTurn);
    assert s.hand[..|s.hand|] == s.hand;
  }

  // ---------------------------------------------------------------------------
  // Creatures by position

  /** The player, or the monster in a given slot. */
  datatype CreatureIndex = ThePlayer | MonsterAt(index: nat)

  predicate ValidIndex(s: CombatState, idx: CreatureIndex)
  {
    idx.MonsterAt? ==> idx.index < |s.monsters|
  }

  /** `CombatState::get_creature`. A monster slot past the end makes the source panic. */
  function GetCreature(s: CombatState, idx: CreatureIndex): (c: Creature)
    requires ValidIndex(s, idx)
    ensures idx.ThePlayer? ==> c == s.player.creature
    ensures idx.MonsterAt? ==> c == s.monsters[idx.index].creature
  {
    match idx
    case ThePlayer => s.player.creature
    case MonsterAt(i) => s.monsters[i].creature
  }

  /** A write through `CombatState::get_creature_mut`: the creature at `idx` replaced, all else kept. */
  function SetCreature(s: CombatState, idx: CreatureIndex, c: Creature): (r: CombatState)
    requires ValidIndex(s, idx)
    ensures ValidIndex(r, idx) && GetCreature(r, idx) == c
    ensures |r.monsters| == |s.monsters|
    ensures forall other :: ValidIndex(s, other) && other != idx ==> GetCreature(r, other) == GetCreature(s, other)
    ensures r == s.(player := r.player, monsters := r.monsters)
    ensures r.player.energy == s.player.energy
    ensures forall i :: 0 <= i < |s.monsters| ==> r.monsters[i] == s.monsters[i].(creature := r.monsters[i].creature)
  {
    match idx
    case ThePlayer => s.(player := s.player.(creature := c))
    case MonsterAt(i) => s.(monsters := s.monsters[i := s.monsters[i].(creature := c)])
  }

  /**
   * Writing back what was read changes nothing, and a second write through
   * the same index overrides the first.
   */
  lemma CreatureWriteBack(s: CombatState, idx: CreatureIndex, c: Creature, c': Creature)
    requires ValidIndex(s, idx)
    ensures SetCreature(s, idx, GetCreature(s, idx)) == s
    ensures SetCreature(SetCreature(s, idx, c), idx, c') == SetCreature(s, idx, c')
  {
    if idx.MonsterAt? {
      assert s.monsters[idx.index := s.monsters[idx.index]] == s.monsters;
    }
  }

  // ---------------------------------------------------------------------------
  // Monster intents

  /** `Monster::intent`: the newest move in the history; an empty history makes the source panic. */
  function Intent(m: Monster): (r: int)
    requires |m.moveHistory| > 0
    ensures r in m.moveHistory
  {
    m.moveHistory[|m.moveHistory| - 1]
  }

  /** `Monster::push_intent`: appends to the history, which is not capped. */
  function PushIntent(m: Monster, intent: int): (r: Monster)
    ensures |r.moveHistory| == |m.moveHistory| + 1
    ensures Intent(r) == intent
    ensures r.moveHistory[..|m.moveHistory|] == m.moveHistory
    ensures r.(moveHistory := m.moveHistory) == m
  {
    m.(moveHistory := m.moveHistory + [intent])
  }

  /** `CombatState::monster_intent`. */
  function MonsterIntent(s: CombatState, monsterIndex: nat): (r: int)
    requires monsterIndex < |s.monsters| && |s.monsters[monsterIndex].moveHistory| > 0
    ensures r in s.monsters[monsterIndex].moveHistory
  {
    Intent(s.monsters[monsterIndex])
  }

  // ---------------------------------------------------------------------------
  // The damage pipeline

  datatype DamageType = Normal | Thorns | HitpointLoss

  /** A transient damage computation: the `base` amount and the `output` after modifiers. */
  datatype DamageInfo = DamageInfo(damageType: DamageType, owner: CreatureIndex, base: int, output: int)

  /**
   * The three per-power damage hooks. Each power identity defines its own;
   * here they are parameters, applied to a floating-point intermediate
   * modelled as a real.
   */
  datatype DamageHooks = DamageHooks(
    atDamageGive: (Power, real, DamageType) -> real,
    atDamageReceive: (Power, real, DamageType) -> real,
    atDamageFinalReceive: (Power, real, DamageType) -> real)

  /** `DamageInfo::new`: the output starts out equal to the base. */
  function NewDamageInfo(source: CreatureIndex, base: int, damageType: DamageType): (d: DamageInfo)
    ensures d.output == d.base == base && d.owner == source && d.damageType == damageType
  {
    DamageInfo(damageType, source, base, base)
  }

  /** One hook applied across a power list, in list order. */
  function HookFold(ps: seq<Power>, hook: (Power, real, DamageType) -> real, x: real, dt: DamageType): real
  {
    if ps == [] then x else HookFold(ps[1..], hook, hook(ps[0], x, dt), dt)
  }

  /** `as i32` on an in-range float: truncation toward zero. */
  function Truncate(x: real): (r: int)
    ensures x >= 0.0 ==> 0 <= r && r as real <= x < r as real + 1.0
    ensures x < 0.0 ==> r <= 0 && r as real - 1.0 < x <= r as real
  {
    if x >= 0.0 then x.Floor else -((-x).Floor)
  }

  /** The damage after the owner's give hooks, then the target's receive and final-receive hooks. */
  function ModifiedDamage(d: DamageInfo, s: CombatState, owner: CreatureIndex, target: CreatureIndex, hooks: DamageHooks): real
    requires ValidIndex(s, owner) && ValidIndex(s, target)
  {
    var given := HookFold(GetCreature(s, owner).powers, hooks.atDamageGive, d.base as real, d.damageType);
    var received := HookFold(GetCreature(s, target).powers, hooks.atDamageReceive, given, d.damageType);
    HookFold(GetCreature(s, target).powers, hooks.atDamageFinalReceive, received, d.damageType)
  }

  /**
   * `DamageInfo::apply_powers`: the output is recomputed from the base (any
   * earlier output is discarded), truncated once, and floored at zero.
   */
  function ApplyPowers(d: DamageInfo, s: CombatState, owner: CreatureIndex, target: CreatureIndex, hooks: DamageHooks): (r: DamageInfo)
    requires ValidIndex(s, owner) && ValidIndex(s, target)
    ensures r.base == d.base && r.damageType == d.damageType && r.owner == d.owner
    ensures r.output >= 0
    ensures var x := ModifiedDamage(d, s, owner, target, hooks);
      (x < 1.0 ==> r.output == 0) && (x >= 0.0 ==> r.output as real <= x < r.output as real + 1.0)
  {
    var output := Truncate(ModifiedDamage(d.(output := d.base), s, owner, target, hooks));
    d.(output := if output < 0 then 0 else output)
  }

  /** The result does not depend on the output a damage record held before. */
  lemma ApplyPowersResetsOutput(d: DamageInfo, k: int, s: CombatState, owner: CreatureIndex, target: CreatureIndex, hooks: DamageHooks)
    requires ValidIndex(s, owner) && ValidIndex(s, target)
    ensures ApplyPowers(d.(output := k), s, owner, target, hooks) == ApplyPowers(d, s, owner, target, hooks)
    ensures ApplyPowers(ApplyPowers(d, s, owner, target, hooks), s, owner, target, hooks) == ApplyPowers(d, s, owner, target, hooks)
  {
  }

  /** With no powers on either side the output is the base floored at zero. */
  lemma ApplyPowersWithoutPowers(d: DamageInfo, s: CombatState, owner: CreatureIndex, target: CreatureIndex, hooks: DamageHooks)
    requires ValidIndex(s, owner) && ValidIndex(s, target)
    requires GetCreature(s, owner).powers == [] && GetCreature(s, target).powers == []
    ensures ApplyPowers(d, s, owner, target, hooks).output == if d.base < 0 then 0 else d.base
  {
  }
}
