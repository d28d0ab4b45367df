/**
 * Building the engine's combat state from a snapshot observed from the
 * running game (src/simulation_state.rs:137-239), and the defaults used for
 * unrecognised cards and powers (src/simulation_state.rs:66-79, 117-128).
 *
 * The observed records carry string identifiers; turning a string into a
 * card, power or monster id, and a card id into its card info, is done by
 * the functions in `Lookup`, which this model takes as given.
 */
module Ingestion {
  import opened Wrappers
  import opened SimulationState
  import opened Combat

  datatype ObservedCard = ObservedCard(id: string, misc: int, cost: int, upgrades: int)

  datatype ObservedPower = ObservedPower(
    id: string,
    amount: int,
    damage: int,
    card: Option<ObservedCard>,
    misc: int,
    justApplied: bool)

  datatype ObservedPlayer = ObservedPlayer(
    energy: int,
    currentHp: int,
    maxHp: int,
    block: int,
    powers: seq<ObservedPower>)

  datatype ObservedMonster = ObservedMonster(
    id: string,
    moveId: int,
    lastMoveId: Option<int>,
    secondLastMoveId: Option<int>,
    moveBaseDamage: int,
    currentHp: int,
    maxHp: int,
    block: int,
    powers: seq<ObservedPower>,
    isGone: bool)

  datatype ObservedCombat = ObservedCombat(
    drawPile: seq<ObservedCard>,
    discardPile: seq<ObservedCard>,
    exhaustPile: seq<ObservedCard>,
    hand: seq<ObservedCard>,
    limbo: seq<ObservedCard>,
    cardInPlay: Option<ObservedCard>,
    player: ObservedPlayer,
    monsters: seq<ObservedMonster>)

  /** The observed game; `combatState` is absent outside combat. */
  datatype GameState = GameState(combatState: Option<ObservedCombat>, ascensionLevel: int)

  /** The string conversions of ids and the card-info table. */
  datatype Lookup = Lookup(
    cardId: string -> CardId,
    cardInfo: CardId -> CardInfo,
    powerId: string -> PowerId,
    monsterId: string -> MonsterId)

  // ----- field mapping -----

  /** `SingleCard::from`: the numbers are copied and the card info looked up by id. */
  function CardFrom(lk: Lookup, c: ObservedCard): (r: SingleCard)
    ensures r.misc == c.misc && r.cost == c.cost && r.upgrades == c.upgrades
    ensures r.cardInfo == lk.cardInfo(lk.cardId(c.id))
  {
    SingleCard(c.misc, c.cost, c.upgrades, lk.cardInfo(lk.cardId(c.id)))
  }

  /** A pile: every card converted, same length, same order. */
  function Cards(lk: Lookup, cs: seq<ObservedCard>): (r: seq<SingleCard>)
    ensures |r| == |cs| && forall i :: 0 <= i < |cs| ==> r[i] == CardFrom(lk, cs[i])
  {
    seq(|cs|, i requires 0 <= i < |cs| => CardFrom(lk, cs[i]))
  }

  /** `Power::from`: every field copied, the id converted, the card (if any) converted. */
  function PowerFrom(lk: Lookup, p: ObservedPower): (r: Power)
    ensures r.powerId == lk.powerId(p.id)
    ensures r.amount == p.amount && r.damage == p.damage && r.misc == p.misc
    ensures r.justApplied == p.justApplied
    ensures r.card.Some? <==> p.card.Some?
    ensures p.card.Some? ==> r.card.value == CardFrom(lk, p.card.value)
  {
    Power(lk.powerId(p.id), p.amount, p.damage,
          if p.card.Some? then Some(CardFrom(lk, p.card.value)) else None,
          p.misc, p.justApplied)
  }

  /** A list of powers: every one converted, same length, same order. */
  function Powers(lk: Lookup, ps: seq<ObservedPower>): (r: seq<Power>)
    ensures |r| == |ps| && forall i :: 0 <= i < |ps| ==> r[i] == PowerFrom(lk, ps[i])
  {
    seq(|ps|, i requires 0 <= i < |ps| => PowerFrom(lk, ps[i]))
  }

  /** `Player::from`: energy, hit points, block and powers (in order) are copied. */
  function PlayerFrom(lk: Lookup, p: ObservedPlayer): (r: Player)
    ensures r.energy == p.energy
    ensures r.creature.hitpoints == p.currentHp && r.creature.maxHitpoints == p.maxHp
    ensures r.creature.block == p.block
    ensures |r.creature.powers| == |p.powers|
    ensures forall i :: 0 <= i < |p.powers| ==> r.creature.powers[i] == PowerFrom(lk, p.powers[i])
  {
    Player(Creature(p.currentHp, p.maxHp, p.block, Powers(lk, p.powers)), p.energy)
  }

  // ----- monsters -----

  /**
   * The move history a monster is given: its second-last move and its last
   * move where the game reports them, then its current move.
   */
  function MoveHistory(om: ObservedMonster): (h: seq<int>)
    ensures 1 <= |h| <= 3
    ensures h[|h| - 1] == om.moveId
    ensures |h| == 1 + |OptionSeq(om.lastMoveId)| + |OptionSeq(om.secondLastMoveId)|
    ensures om.lastMoveId.Some? ==> h[|h| - 2] == om.lastMoveId.value
    ensures om.secondLastMoveId.Some? ==> h[0] == om.secondLastMoveId.value
  {
    OptionSeq(om.secondLastMoveId) + OptionSeq(om.lastMoveId) + [om.moveId]
  }

  /** Builds the move history as the source does, by inserting at the front. */
  method BuildMoveHistory(om: ObservedMonster) returns (h: seq<int>)
    ensures h == MoveHistory(om)
  {
    h := [om.moveId];
    if om.lastMoveId.Some? {
      h := [om.lastMoveId.value] + h;
    }
    if om.secondLastMoveId.Some? {
      h := [om.secondLastMoveId.value] + h;
    }
  }

  /** The innate damage of the observed move: its base damage when positive. */
  function InnateDamage(om: ObservedMonster): (r: Option<int>)
    ensures r.Some? <==> om.moveBaseDamage > 0
    ensures r.Some? ==> r.value == om.moveBaseDamage
  {
    if om.moveBaseDamage > 0 then Some(om.moveBaseDamage) else None
  }

  /** The monster built from one observed monster, before any carry-over. */
  function MonsterFrom(lk: Lookup, ascension: int, om: ObservedMonster): (m: Monster)
    ensures m.monsterId == lk.monsterId(om.id)
    ensures m.ascension == ascension
    ensures m.moveHistory == MoveHistory(om) && Intent(m) == om.moveId
    ensures m.innateDamageAmount == InnateDamage(om)
    ensures m.creature.hitpoints == om.currentHp && m.creature.maxHitpoints == om.maxHp
    ensures m.creature.block == om.block && m.creature.powers == Powers(lk, om.powers)
    ensures m.gone == om.isGone
  {
    Monster(lk.monsterId(om.id), InnateDamage(om), ascension,
            Creature(om.currentHp, om.maxHp, om.block, Powers(lk, om.powers)),
            MoveHistory(om), om.isGone)
  }

  /**
   * The carry-over for the monster at `index`: a missing innate damage is
   * taken from the monster at the same position in the previous state's
   * list `older`, if that list reaches so far; a known innate damage is
   * never replaced.
   */
  function CarriedOver(older: seq<Monster>, index: nat, m: Monster): (r: Monster)
    ensures r == m.(innateDamageAmount := r.innateDamageAmount)
    ensures m.innateDamageAmount.Some? || index >= |older| ==> r == m
    ensures m.innateDamageAmount.None? && index < |older| ==>
      r.innateDamageAmount == older[index].innateDamageAmount
  {
    if index < |older| && m.innateDamageAmount.None? then
      m.(innateDamageAmount := older[index].innateDamageAmount)
    else
      m
  }

  /** The monster the ingested state holds at `index`: converted, then carried over when there is a previous state. */
  function IngestedMonster(lk: Lookup, observed: GameState, previous: Option<CombatState>, index: nat): Monster
    requires observed.combatState.Some? && index < |observed.combatState.value.monsters|
  {
    var m := MonsterFrom(lk, observed.ascensionLevel, observed.combatState.value.monsters[index]);
    if previous.Some? then CarriedOver(previous.value.monsters, index, m) else m
  }

  // ----- the whole snapshot -----

  /** The `map` over the observed monsters, building each one's move history by front insertion. */
  method ConvertMonsters(lk: Lookup, ascension: int, oms: seq<ObservedMonster>) returns (monsters: seq<Monster>)
    ensures |monsters| == |oms|
    ensures forall j :: 0 <= j < |oms| ==> monsters[j] == MonsterFrom(lk, ascension, oms[j])
  {
    monsters := [];
    for i := 0 to |oms|
      invariant |monsters| == i
      invariant forall j :: 0 <= j < i ==> monsters[j] == MonsterFrom(lk, ascension, oms[j])
    {
      var om := oms[i];
      var history := BuildMoveHistory(om);
      var innate := if om.moveBaseDamage > 0 then Some(om.moveBaseDamage) else None;
      monsters := monsters + [Monster(lk.monsterId(om.id), innate, ascension,
                                      Creature(om.currentHp, om.maxHp, om.block, Powers(lk, om.powers)),
                                      history, om.isGone)];
    }
  }

  /**
   * The `zip` loop: walks both monster lists as far as the shorter one
   * goes, filling each missing innate damage from the older monster.
   */
  method CarryOver(older: seq<Monster>, monsters: seq<Monster>) returns (r: seq<Monster>)
    ensures |r| == |monsters|
    ensures forall j :: 0 <= j < |monsters| ==> r[j] == CarriedOver(older, j, monsters[j])
  {
    r := monsters;
    var i := 0;
    while i < |older| && i < |r|
      invariant 0 <= i <= |r| == |monsters|
      invariant forall j :: 0 <= j < i ==> r[j] == CarriedOver(older, j, monsters[j])
      invariant forall j :: i <= j < |r| ==> r[j] == monsters[j]
    {
      if r[i].innateDamageAmount.None? {
        r := r[i := r[i].(innateDamageAmount := older[i].innateDamageAmount)];
      }
      i := i + 1;
    }
  }

  /**
   * `CombatState::from_communication_mod`: nothing outside combat; inside,
   * every pile, the card in play and the player converted, and every
   * monster converted in order, with its innate damage carried over from
   * the previous state where the snapshot does not show it. The runner's
   * queues start empty.
   */
  method FromCommunicationMod(lk: Lookup, observed: GameState, previous: Option<CombatState>)
    returns (r: Option<CombatState>)
    ensures r.None? <==> observed.combatState.None?
    ensures r.Some? ==>
      var c, s := observed.combatState.value, r.value;
      && s.drawPile == Cards(lk, c.drawPile)
      && s.discardPile == Cards(lk, c.discardPile)
      && s.exhaustPile == Cards(lk, c.exhaustPile)
      && s.hand == Cards(lk, c.hand)
      && s.limbo == Cards(lk, c.limbo)
      && (s.cardInPlay.Some? <==> c.cardInPlay.Some?)
      && (c.cardInPlay.Some? ==> s.cardInPlay.value == CardFrom(lk, c.cardInPlay.value))
      && s.player == PlayerFrom(lk, c.player)
      && |s.monsters| == |c.monsters|
      && (forall i :: 0 <= i < |c.monsters| ==> s.monsters[i] == IngestedMonster(lk, observed, previous, i))
      && s.actions == [] && s.freshSubactionQueue == [] && s.staleSubactionStack == []
  {
    if observed.combatState.None? {
      return None;
    }
    var c := observed.combatState.value;
    var monsters := ConvertMonsters(lk, observed.ascensionLevel, c.monsters);
    if previous.Some? {
      monsters := CarryOver(previous.value.monsters, monsters);
    }
    var cardInPlay := if c.cardInPlay.Some? then Some(CardFrom(lk, c.cardInPlay.value)) else None;
    r := Some(CombatState(
      Cards(lk, c.drawPile), Cards(lk, c.discardPile), Cards(lk, c.exhaustPile),
      Cards(lk, c.hand), Cards(lk, c.limbo), cardInPlay,
      PlayerFrom(lk, c.player), monsters, [], [], []));
  }

  // ----- what the ingested state promises -----

  /**
   * Every ingested monster has the observed ascension, a history of one to
   * three moves ending in (and so intending) the observed move, and an
   * innate damage that is the observed base damage when positive.
   */
  lemma IngestedMonsterFacts(lk: Lookup, observed: GameState, previous: Option<CombatState>, index: nat)
    requires observed.combatState.Some? && index < |observed.combatState.value.monsters|
    ensures var m, om := IngestedMonster(lk, observed, previous, index), observed.combatState.value.monsters[index];
      && m.ascension == observed.ascensionLevel
      && 1 <= |m.moveHistory| <= 3
      && Intent(m) == om.moveId
      && (om.moveBaseDamage > 0 ==> m.innateDamageAmount == Some(om.moveBaseDamage))
      && (om.moveBaseDamage <= 0 && (previous.None? || index >= |previous.value.monsters|) ==> m.innateDamageAmount.None?)
  {
    var om := observed.combatState.value.monsters[index];
    var m0 := MonsterFrom(lk, observed.ascensionLevel, om);
    assert Intent(m0) == om.moveId;
  }

  /**
   * A monster whose attack was seen on one turn keeps that innate damage on
   * a later turn whose snapshot shows no attack damage for it.
   */
  lemma InnateDamageSurvivesQuietTurn(lk: Lookup, first: GameState, turnOne: CombatState, second: GameState, index: nat)
    requires first.combatState.Some? && second.combatState.Some?
    requires index < |first.combatState.value.monsters| && index < |second.combatState.value.monsters|
    requires index < |turnOne.monsters| && turnOne.monsters[index] == IngestedMonster(lk, first, None, index)
    requires first.combatState.value.monsters[index].moveBaseDamage > 0
    requires second.combatState.value.monsters[index].moveBaseDamage <= 0
    ensures IngestedMonster(lk, second, Some(turnOne), index).innateDamageAmount
         == Some(first.combatState.value.monsters[index].moveBaseDamage)
  {
  }

  // ----- defaults -----

  /** A card built on the default card info, at its normal cost, is never playable. */
  lemma DefaultCardUnplayable(s: CombatState, misc: int, upgrades: int, playable: (CardId, CombatState) -> bool)
    ensures DEFAULT_CARD_INFO.id == Injury && DEFAULT_CARD_INFO.cardType == Curse
    ensures !CardPlayable(s, SingleCard(misc, DEFAULT_CARD_INFO.normalCost, upgrades, DEFAULT_CARD_INFO), playable)
  {
  }

  /** A default power stands for an unknown power of amount 0: adding it changes no power amount. */
  lemma DefaultPowerAddsNothing(c: Creature, id: PowerId)
    ensures HasPower(c.(powers := c.powers + [DEFAULT_POWER]), Unknown)
    ensures PowerAmount(c.(powers := c.powers + [DEFAULT_POWER]), id) == PowerAmount(c, id)
  {
    var ps := c.powers + [DEFAULT_POWER];
    assert ps[|c.powers|].powerId == Unknown;
    PowerAmountAppend(c.powers, [DEFAULT_POWER], id);
    assert SumAmounts([DEFAULT_POWER], id) == 0;
  }
}
