/**
 * The kinds of character action reported by the server (`Action`), with
 * their serde wire names and the order derived from their declaration.
 */
module ActionModel {
  import opened Wrappers

  /** `Action`, its variants in declaration order. */
  datatype Action =
    | Movement
    | Fight
    | Crafting
    | Gathering
    | BuyGe
    | SellGe
    | BuyNpc
    | SellNpc
    | CancelGe
    | DeleteItem
    | Deposit
    | Withdraw
    | DepositGold
    | WithdrawGold
    | Equip
    | Unequip
    | Task
    | ChristmasExchange
    | Recycling
    | Rest
    | Use
    | BuyBankExpansion

  /** The variants in declaration order. */
  const Declared: seq<Action> := [
    Movement, Fight, Crafting, Gathering,
    BuyGe, SellGe, BuyNpc, SellNpc,
    CancelGe, DeleteItem, Deposit, Withdraw,
    DepositGold, WithdrawGold, Equip, Unequip,
    Task, ChristmasExchange, Recycling, Rest,
    Use, BuyBankExpansion
  ]

  /** The position of a variant in the declaration: its discriminant. */
  function Index(a: Action): (i: nat)
    ensures i < |Declared| && Declared[i] == a
  {
    match a
    case Movement => 0
    case Fight => 1
    case Crafting => 2
    case Gathering => 3
    case BuyGe => 4
    case SellGe => 5
    case BuyNpc => 6
    case SellNpc => 7
    case CancelGe => 8
    case DeleteItem => 9
    case Deposit => 10
    case Withdraw => 11
    case DepositGold => 12
    case WithdrawGold => 13
    case Equip => 14
    case Unequip => 15
    case Task => 16
    case ChristmasExchange => 17
    case Recycling => 18
    case Rest => 19
    case Use => 20
    case BuyBankExpansion => 21
  }

  /** The `#[serde(rename = ...)]` name of each variant. */
  function WireName(a: Action): string {
    match a
    case Movement => "movement"
    case Fight => "fight"
    case Crafting => "crafting"
    case Gathering => "gathering"
    case BuyGe => "buy_ge"
    case SellGe => "sell_ge"
    case BuyNpc => "buy_npc"
    case SellNpc => "sell_npc"
    case CancelGe => "cancel_ge"
    case DeleteItem => "delete_item"
    case Deposit => "deposit"
    case Withdraw => "withdraw"
    case DepositGold => "deposit_gold"
    case WithdrawGold => "withdraw_gold"
    case Equip => "equip"
    case Unequip => "unequip"
    case Task => "task"
    case ChristmasExchange => "christmas_exchange"
    case Recycling => "recycling"
    case Rest => "rest"
    case Use => "use"
    case BuyBankExpansion => "buy_bank_expansion"
  }

  /** Deserialisation of a wire name: exactly the declared names are accepted. */
  function FromWireName(s: string): (r: Option<Action>)
    ensures r.Some? ==> WireName(r.value) == s
    ensures r.None? ==> forall a :: WireName(a) != s
  {
    if s == "movement" then Some(Movement)
    else if s == "fight" then Some(Fight)
    else if s == "crafting" then Some(Crafting)
    else if s == "gathering" then Some(Gathering)
    else if s == "buy_ge" then Some(BuyGe)
    else if s == "sell_ge" then Some(SellGe)
    else if s == "buy_npc" then Some(BuyNpc)
    else if s == "sell_npc" then Some(SellNpc)
    else if s == "cancel_ge" then Some(CancelGe)
    else if s == "delete_item" then Some(DeleteItem)
    else if s == "deposit" then Some(Deposit)
    else if s == "withdraw" then Some(Withdraw)
    else if s == "deposit_gold" then Some(DepositGold)
    else if s == "withdraw_gold" then Some(WithdrawGold)
    else if s == "equip" then Some(Equip)
    else if s == "unequip" then Some(Unequip)
    else if s == "task" then Some(Task)
    else if s == "christmas_exchange" then Some(ChristmasExchange)
    else if s == "recycling" then Some(Recycling)
    else if s == "rest" then Some(Rest)
    else if s == "use" then Some(Use)
    else if s == "buy_bank_expansion" then Some(BuyBankExpansion)
    else None
  }

  /** Decoding an encoded action returns that action. */
  lemma DecodeEncode(a: Action)
    ensures FromWireName(WireName(a)) == Some(a)
  {
  }

  /** The wire names are pairwise distinct. */
  lemma WireNameInjective(a: Action, b: Action)
    requires WireName(a) == WireName(b)
    ensures a == b
  {
    DecodeEncode(a);
    DecodeEncode(b);
  }

  /** The declaration lists every variant exactly once, at its own index. */
  lemma IndexOfDeclared(i: nat)
    requires i < |Declared|
    ensures Index(Declared[i]) == i
  {
  }

  /** The derived `Ord`: variants compare by their declaration position. */
  predicate Less(a: Action, b: Action) {
    Index(a) < Index(b)
  }

  /** The derived order is a strict total order. */
  lemma LessIsStrictTotalOrder(a: Action, b: Action, c: Action)
    ensures !Less(a, a)
    ensures Less(a, b) && Less(b, c) ==> Less(a, c)
    ensures a != b ==> Less(a, b) || Less(b, a)
  {
    if a != b {
      assert Declared[Index(a)] == a && Declared[Index(b)] == b;
    }
  }

  /** The order follows the declaration: earlier variants are smaller. */
  lemma DeclarationOrder(i: nat, j: nat)
    requires i < j < |Declared|
    ensures Less(Declared[i], Declared[j])
  {
    IndexOfDeclared(i);
    IndexOfDeclared(j);
  }

  /** `Movement` is the least action and `BuyBankExpansion` the greatest. */
  lemma Extremes(a: Action)
    ensures a != Movement ==> Less(Movement, a)
    ensures a != BuyBankExpansion ==> Less(a, BuyBankExpansion)
  {
    assert Declared[Index(a)] == a;
  }
}
