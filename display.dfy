/**
 * The short text forms of creatures, powers and cards
 * (src/simulation_state.rs:241-274), written piece by piece to a
 * formatter. Power and card ids are rendered by their debug names, which
 * this model takes as given in `Names`; numbers are written in decimal.
 */
module Display {
  import opened SimulationState

  /** How ids are named in text. */
  datatype Names = Names(power: PowerId -> string, card: CardId -> string)

  /** The formatter the text is written to. */
  class Formatter {
    var text: string

    constructor()
      ensures text == []
    {
      text := [];
    }

    method Write(s: string)
      modifies this
      ensures text == old(text) + s
    {
      text := text + s;
    }
  }

  // ----- decimal numbers -----

  function DigitChar(d: nat): (c: char)
    requires d < 10
    ensures '0' <= c <= '9'
  {
    "0123456789"[d]
  }

  function DigitValue(c: char): (d: nat)
    requires '0' <= c <= '9'
    ensures d < 10
  {
    (c - '0') as nat
  }

  predicate IsDigits(s: string)
  {
    forall i :: 0 <= i < |s| ==> '0' <= s[i] <= '9'
  }

  /** Decimal digits as `NatText` writes them: at least one, and no leading zero. */
  predicate IsNatText(s: string)
  {
    s != [] && IsDigits(s) && (|s| > 1 ==> s[0] != '0')
  }

  /** Decimal text as `IntText` writes it: a natural number, or `-` and a positive one. */
  predicate IsIntText(s: string)
  {
    IsNatText(s) || (|s| > 1 && s[0] == '-' && IsNatText(s[1..]) && s[1] != '0')
  }

  /** A natural number in decimal, most significant digit first, without leading zeros. */
  function NatText(n: nat): (s: string)
    ensures IsNatText(s)
    decreases n
  {
    if n < 10 then [DigitChar(n)] else NatText(n / 10) + [DigitChar(n % 10)]
  }

  /** An integer as `{}` prints it: a minus sign for negatives, then the digits. */
  function IntText(n: int): (s: string)
    ensures IsIntText(s)
    ensures n < 0 <==> s[0] == '-'
    ensures '0' <= s[|s| - 1] <= '9'
  {
    if n < 0 then
      var digits := NatText(-n);
      assert digits[0] != '0' by { NatTextLead(-n); }
      "-" + digits
    else NatText(n)
  }

  /** A positive number is written with a nonzero first digit. */
  lemma {:induction false} NatTextLead(n: nat)
    requires n > 0
    ensures NatText(n)[0] != '0'
    decreases n
  {
    if n < 10 {
      DigitRoundTrip(n);
    } else {
      NatTextLead(n / 10);
    }
  }

  /** Reads digits back as a number. */
  function NatValue(s: string): nat
    requires IsDigits(s)
  {
    if s == [] then 0 else 10 * NatValue(s[..|s| - 1]) + DigitValue(s[|s| - 1])
  }

  /** Reads an optional minus sign and digits back as a number. */
  function IntValue(s: string): int
    requires IsIntText(s)
  {
    if s[0] == '-' then 0 - NatValue(s[1..]) else NatValue(s)
  }

  lemma DigitRoundTrip(d: nat)
    requires d < 10
    ensures DigitValue(DigitChar(d)) == d
  {
    var c := DigitChar(d);
    assert c == "0123456789"[d];
    if d == 0 { assert c == '0'; } else if d == 1 { assert c == '1'; } else if d == 2 { assert c == '2'; }
    else if d == 3 { assert c == '3'; } else if d == 4 { assert c == '4'; } else if d == 5 { assert c == '5'; }
    else if d == 6 { assert c == '6'; } else if d == 7 { assert c == '7'; } else if d == 8 { assert c == '8'; }
    else { assert c == '9'; }
  }

  lemma {:induction false} NatRoundTrip(n: nat)
    ensures NatValue(NatText(n)) == n
    decreases n
  {
    var s := NatText(n);
    if n < 10 {
      DigitRoundTrip(n);
      assert s[..|s| - 1] == [];
    } else {
      NatRoundTrip(n / 10);
      DigitRoundTrip(n % 10);
      assert s[..|s| - 1] == NatText(n / 10);
    }
  }

  /** Printed numbers read back as themselves. */
  lemma IntRoundTrip(n: int)
    ensures IntValue(IntText(n)) == n
  {
    NatRoundTrip(if n < 0 then -n else n);
    if n < 0 {
      var digits := NatText(-n);
      var s := "-" + digits;
      assert s[0] == '-' && s[1..] == digits;
      assert IntValue(s) == 0 - NatValue(digits);
    } else {
      assert NatText(n)[0] != '-';
    }
  }

  /** Canonical decimal text reads back to the number that prints as it: printing is one-to-one onto it. */
  lemma IntTextUnique(s: string)
    requires IsIntText(s)
    ensures IntText(IntValue(s)) == s
  {
    if s[0] == '-' {
      var digits := s[1..];
      NatTextUnique(digits);
      NatValuePositive(digits);
      assert s == "-" + digits;
    } else {
      NatTextUnique(s);
    }
  }

  lemma {:induction false} NatTextUnique(s: string)
    requires IsNatText(s)
    ensures NatText(NatValue(s)) == s
    decreases |s|
  {
    var init, last := s[..|s| - 1], s[|s| - 1];
    DigitCharValue(last);
    if |s| == 1 {
      assert s == [last];
    } else {
      assert init[0] == s[0];
      assert IsNatText(init);
      NatTextUnique(init);
      NatValuePositive(init);
      var v := NatValue(s);
      assert v == 10 * NatValue(init) + DigitValue(last);
      assert v / 10 == NatValue(init) && v % 10 == DigitValue(last);
      assert s == init + [last];
    }
  }

  /** Digits with a nonzero lead read as a positive number. */
  lemma {:induction false} NatValuePositive(s: string)
    requires IsNatText(s) && s[0] != '0'
    ensures NatValue(s) > 0
    decreases |s|
  {
    if |s| > 1 {
      var init := s[..|s| - 1];
      assert init[0] == s[0];
      NatValuePositive(init);
    }
  }

  lemma DigitCharValue(c: char)
    requires '0' <= c <= '9'
    ensures DigitChar(DigitValue(c)) == c
  {
    var digits := "0123456789";
    assert forall d :: 0 <= d < 10 ==> digits[d] == ('0' as int + d) as char;
  }

  /** `s` is exactly the decimal text of `n`, read back. */
  predicate Shows(s: string, n: int)
  {
    IsIntText(s) && IntValue(s) == n
  }

  lemma ShowsText(n: int)
    ensures Shows(IntText(n), n)
  {
    IntRoundTrip(n);
  }

  /** A text shows `n` exactly when it is the printing of `n`. */
  lemma ShowsExactly(s: string, n: int)
    ensures Shows(s, n) <==> s == IntText(n)
  {
    IntRoundTrip(n);
    if Shows(s, n) {
      IntTextUnique(s);
    }
  }

  // ----- the text forms -----

  /**
   * A power: its name, then its amount unless the amount is 0, then `j`
   * when it was just applied.
   */
  function PowerText(names: Names, p: Power): (r: string)
    ensures |names.power(p.powerId)| <= |r| && r[..|names.power(p.powerId)|] == names.power(p.powerId)
    ensures p.justApplied ==> |r| > 0 && r[|r| - 1] == 'j'
    ensures p.amount == 0 ==> r == names.power(p.powerId) + (if p.justApplied then "j" else "")
    ensures p.amount != 0 ==>
      && |r| == |names.power(p.powerId)| + |IntText(p.amount)| + (if p.justApplied then 1 else 0)
      && (r[|r| - 1] == 'j' <==> p.justApplied)
  {
    names.power(p.powerId)
      + (if p.amount != 0 then IntText(p.amount) else "")
      + (if p.justApplied then "j" else "")
  }

  /** The amount of a power with a nonzero amount is shown in decimal between the name and the `j` mark. */
  lemma PowerTextShowsAmount(names: Names, p: Power)
    requires p.amount != 0
    ensures var r, name := PowerText(names, p), names.power(p.powerId);
      Shows(r[|name|..|r| - (if p.justApplied then 1 else 0)], p.amount)
  {
    var r, name := PowerText(names, p), names.power(p.powerId);
    assert r[|name|..|r| - (if p.justApplied then 1 else 0)] == IntText(p.amount);
    ShowsText(p.amount);
  }

  /** The upgrade mark of a card: nothing, `+` for one upgrade, `+n` for more. */
  function UpgradeText(upgrades: int): (r: string)
    ensures upgrades <= 0 <==> r == []
    ensures upgrades == 1 <==> r == "+"
    ensures upgrades > 1 ==> r[0] == '+' && Shows(r[1..], upgrades)
  {
    if upgrades > 1 then
      ShowsText(upgrades);
      assert ("+" + IntText(upgrades))[1..] == IntText(upgrades);
      "+" + IntText(upgrades)
    else if upgrades == 1 then "+"
    else ""
  }

  /** A card: its name, its upgrade mark, then its cost in parentheses. */
  function CardText(names: Names, c: SingleCard): string
  {
    names.card(c.cardInfo.id) + UpgradeText(c.upgrades) + "(" + IntText(c.cost) + ")"
  }

  /** The parts of a card's text: name, upgrade mark, and the cost in decimal in parentheses. */
  lemma CardTextParts(names: Names, c: SingleCard)
    ensures var r, name, mark := CardText(names, c), names.card(c.cardInfo.id), UpgradeText(c.upgrades);
      && |r| == |name| + |mark| + |IntText(c.cost)| + 2
      && r[..|name|] == name
      && r[|name|..|name| + |mark|] == mark
      && r[|name| + |mark|] == '(' && r[|r| - 1] == ')'
      && Shows(r[|name| + |mark| + 1..|r| - 1], c.cost)
  {
    CardParts(names.card(c.cardInfo.id), UpgradeText(c.upgrades), IntText(c.cost));
    ShowsText(c.cost);
  }

  /** `name`, `mark`, then `cost` in parentheses: each part is recovered by slicing. */
  lemma CardParts(name: string, mark: string, cost: string)
    ensures var r := name + mark + "(" + cost + ")";
      && |r| == |name| + |mark| + |cost| + 2
      && r[..|name|] == name
      && r[|name|..|name| + |mark|] == mark
      && r[|name| + |mark|] == '(' && r[|r| - 1] == ')'
      && r[|name| + |mark| + 1..|r| - 1] == cost
  {
    var r := name + mark + "(" + cost + ")";
    Piece(name, mark, "(" + cost + ")");
    assert r == name + mark + ("(" + cost + ")");
    assert r[|name| + |mark|..] == "(" + cost + ")";
  }

  /** The powers of a creature, each preceded by a space, in order. */
  function PowersText(names: Names, ps: seq<Power>): (r: string)
    ensures ps == [] <==> r == []
    ensures ps != [] ==> r[0] == ' '
  {
    if ps == [] then [] else PowersText(names, ps[..|ps| - 1]) + " " + PowerText(names, ps[|ps| - 1])
  }

  /** The block mark of a creature: `(+block)` when block is positive, else nothing. */
  function BlockText(block: int): (r: string)
    ensures block <= 0 <==> r == []
    ensures block > 0 ==> |r| >= 3 && r[..2] == "(+" && r[|r| - 1] == ')' && Shows(r[2..|r| - 1], block)
  {
    if block > 0 then
      var r := "(+" + IntText(block) + ")";
      assert r[2..|r| - 1] == IntText(block);
      ShowsText(block);
      r
    else []
  }

  /** A creature: `hp/max`, its block mark, then its powers. */
  function CreatureText(names: Names, c: Creature): string
  {
    IntText(c.hitpoints) + "/" + IntText(c.maxHitpoints) + BlockText(c.block) + PowersText(names, c.powers)
  }

  /** The `hp/max` head shows both numbers in decimal, around the slash. */
  lemma CreatureTextShowsHitpoints(names: Names, c: Creature)
    ensures var r, hp := CreatureText(names, c), IntText(c.hitpoints);
      && r[|hp|] == '/'
      && Shows(r[..|hp|], c.hitpoints)
      && Shows(r[|hp| + 1..|hp| + 1 + |IntText(c.maxHitpoints)|], c.maxHitpoints)
  {
    var x, y := IntText(c.hitpoints), IntText(c.maxHitpoints);
    var tail := BlockText(c.block) + PowersText(names, c.powers);
    assert CreatureText(names, c) == x + "/" + y + tail;
    FractionParts(x, y, tail);
    ShowsText(c.hitpoints);
    ShowsText(c.maxHitpoints);
  }

  /** `x/y` followed by anything: both parts are recovered by slicing. */
  lemma FractionParts(x: string, y: string, tail: string)
    ensures var r := x + "/" + y + tail;
      && r[|x|] == '/'
      && r[..|x|] == x
      && r[|x| + 1..|x| + 1 + |y|] == y
  {
    assert x + "/" + y + tail == x + "/" + (y + tail) == (x + "/") + y + tail;
    Piece(x, "/", y + tail);
    Piece(x + "/", y, tail);
  }

  /** The middle piece of a three-part text is recovered by slicing. */
  lemma Piece(front: string, middle: string, back: string)
    ensures (front + middle + back)[..|front|] == front
    ensures (front + middle + back)[|front|..|front| + |middle|] == middle
  {
    assert front + middle + back == front + (middle + back);
    assert (front + (middle + back))[|front|..] == middle + back;
    assert (middle + back)[..|middle|] == middle;
  }

  /** After the head come the block mark, shown only for positive block, and then one entry per power. */
  lemma CreatureTextTail(names: Names, c: Creature)
    ensures var r, head := CreatureText(names, c), IntText(c.hitpoints) + "/" + IntText(c.maxHitpoints);
      && |head| <= |r| && r[..|head|] == head
      && r[|head|..] == BlockText(c.block) + PowersText(names, c.powers)
      && (c.block <= 0 && c.powers == [] ==> r == head)
  {
    var r, head := CreatureText(names, c), IntText(c.hitpoints) + "/" + IntText(c.maxHitpoints);
    assert r == head + (BlockText(c.block) + PowersText(names, c.powers));
  }

  // ----- writing to a formatter -----

  /** `Display for Power`. */
  method FmtPower(f: Formatter, names: Names, p: Power)
    modifies f
    ensures f.text == old(f.text) + PowerText(names, p)
  {
    f.Write(names.power(p.powerId));
    if p.amount != 0 {
      f.Write(IntText(p.amount));
    }
    if p.justApplied {
      f.Write("j");
    }
  }

  /** `Display for SingleCard`. */
  method FmtCard(f: Formatter, names: Names, c: SingleCard)
    modifies f
    ensures f.text == old(f.text) + CardText(names, c)
  {
    f.Write(names.card(c.cardInfo.id));
    if c.upgrades > 1 {
      f.Write("+" + IntText(c.upgrades));
    } else if c.upgrades == 1 {
      f.Write("+");
    }
    assert f.text == old(f.text) + names.card(c.cardInfo.id) + UpgradeText(c.upgrades);
    f.Write("(" + IntText(c.cost) + ")");
    CardTextSplit(names, c, old(f.text));
  }

  /** The text of a card split after its name and after its upgrade mark. */
  lemma CardTextSplit(names: Names, c: SingleCard, written: string)
    ensures written + CardText(names, c)
      == (written + names.card(c.cardInfo.id) + UpgradeText(c.upgrades)) + ("(" + IntText(c.cost) + ")")
  {
  }

  /** One more power adds a space and its text, after whatever was written before. */
  lemma PowersTextStep(names: Names, ps: seq<Power>, i: nat, written: string)
    requires i < |ps|
    ensures PowersText(names, ps[..i + 1]) == PowersText(names, ps[..i]) + " " + PowerText(names, ps[i])
    ensures written + PowersText(names, ps[..i + 1]) == (written + PowersText(names, ps[..i])) + (" " + PowerText(names, ps[i]))
  {
    assert ps[..i + 1][..i] == ps[..i];
  }

  /** The text of a creature split where the powers begin. */
  lemma CreatureTextSplit(names: Names, c: Creature, written: string)
    ensures written + CreatureText(names, c)
      == (written + (IntText(c.hitpoints) + "/" + IntText(c.maxHitpoints) + BlockText(c.block))) + PowersText(names, c.powers)
  {
  }

  /** `Display for Creature`: the head, the block mark, then each power after a space. */
  method FmtCreature(f: Formatter, names: Names, c: Creature)
    modifies f
    ensures f.text == old(f.text) + CreatureText(names, c)
  {
    var hp, max := IntText(c.hitpoints), IntText(c.maxHitpoints);
    f.Write(hp + "/" + max);
    if c.block > 0 {
      f.Write("(+" + IntText(c.block) + ")");
    }
    assert f.text == old(f.text) + (hp + "/" + max + BlockText(c.block));
    FmtPowers(f, names, c.powers);
    CreatureTextSplit(names, c, old(f.text));
  }

  /** The loop of `Display for Creature`: each power after a space, in order. */
  method FmtPowers(f: Formatter, names: Names, ps: seq<Power>)
    modifies f
    ensures f.text == old(f.text) + PowersText(names, ps)
  {
    for i := 0 to |ps|
      invariant f.text == old(f.text) + PowersText(names, ps[..i])
    {
      FmtSpacedPower(f, names, ps[i]);
      PowersTextStep(names, ps, i, old(f.text));
    }
    assert ps[..|ps|] == ps;
  }

  /** One step of that loop: a space, then the power. */
  method FmtSpacedPower(f: Formatter, names: Names, p: Power)
    modifies f
    ensures f.text == old(f.text) + (" " + PowerText(names, p))
  {
    f.Write(" ");
    FmtPower(f, names, p);
  }
}
