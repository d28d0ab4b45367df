/**
 * The battle snapshot the engine works on: cards, powers, creatures, the
 * player, monsters and the combat state that owns them, together with the
 * three action queues the runner keeps in it.
 *
 * Identifiers of cards, powers and monsters are opaque: only the few the
 * engine itself names are distinguished, every other identity is a code.
 */
module SimulationState {
  import opened Wrappers

  /** Card identities; `Injury` is the one the default card info uses. */
  datatype CardId = Injury | OtherCard(code: nat)

  /** Power identities; `Unknown` is the default, `Entangled` blocks attacks. */
  datatype PowerId = Unknown | Entangled | OtherPower(code: nat)

  /** Monster identities. */
  datatype MonsterId = MonsterId(code: nat)

  /** Card kinds; `PowerCard` is the source's `CardType::Power`. */
  datatype CardType = Attack | Skill | PowerCard | Status | Curse

  datatype Rarity = Common | Uncommon | Rare | Basic | Special

  /** Shared, immutable data of one card identity. */
  datatype CardInfo = CardInfo(
    id: CardId,
    cardType: CardType,
    rarity: Rarity,
    normalCost: int,
    upgradedCost: int,
    ethereal: bool,
    hasTarget: bool,
    exhausts: bool)

  /** One card instance; equal instances compare equal field by field, card info included. */
  datatype SingleCard = SingleCard(misc: int, cost: int, upgrades: int, cardInfo: CardInfo)

  /** One stack of a status effect; several entries may share an id. */
  datatype Power = Power(
    powerId: PowerId,
    amount: int,
    damage: int,
    card: Option<SingleCard>,
    misc: int,
    justApplied: bool)

  datatype Creature = Creature(hitpoints: int, maxHitpoints: int, block: int, powers: seq<Power>)

  datatype Player = Player(creature: Creature, energy: int)

  /** A monster keeps its slot for the whole combat; it is marked `gone` rather than removed. */
  datatype Monster = Monster(
    monsterId: MonsterId,
    innateDamageAmount: Option<int>,
    ascension: int,
    creature: Creature,
    moveHistory: seq<int>,
    gone: bool)

  /**
   * An action the engine can queue. Card plays and ending the turn are the
   * two the legal-choice generator builds; every other action kind is an
   * opaque `Other` whose behaviour the runner receives as a parameter.
   */
  datatype Action = EndTurn | PlayCard(card: SingleCard, target: nat) | Other(code: nat)

  /**
   * The combat state. Besides the piles, the card in play, the player and
   * the monsters it holds the runner's three queues: the top-level
   * `actions` deque (front = index 0), the `freshSubactionQueue` of actions
   * deferred during the current step (a stack, top = last) and the
   * `staleSubactionStack` (top = last).
   */
  datatype CombatState = CombatState(
    drawPile: seq<SingleCard>,
    discardPile: seq<SingleCard>,
    exhaustPile: seq<SingleCard>,
    hand: seq<SingleCard>,
    limbo: seq<SingleCard>,
    cardInPlay: Option<SingleCard>,
    player: Player,
    monsters: seq<Monster>,
    actions: seq<Action>,
    freshSubactionQueue: seq<Action>,
    staleSubactionStack: seq<Action>)

  /** The cost sentinel of a card whose cost is all remaining energy. */
  const X_COST: int := -1

  /** The cost sentinel of a card that can never be played. */
  const UNPLAYABLE: int := -2

  /** `CardInfo::default()`: the stand-in for an unrecognised card. */
  const DEFAULT_CARD_INFO: CardInfo :=
    CardInfo(Injury, Curse, Special, UNPLAYABLE, -3, false, false, false)

  /** `Power::default()`: the stand-in for an unrecognised power. */
  const DEFAULT_POWER: Power := Power(Unknown, 0, 0, None, 0, false)
}
