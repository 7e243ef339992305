/**
 * The error taxonomy of the hand-written client: seven domain enums whose
 * variants carry the server's message and map to fixed status codes, and
 * `ApiError`, which wraps them all or falls back to an unknown status.
 */
module Errors {
  import opened Wrappers
  import opened Ints
  import opened Text

  // ---------------------------------------------------------------------------
  // The "[Error N]" header of a display text, read back as a number
  // ---------------------------------------------------------------------------

  /** The digits from position `i` up to the first `]`, accumulated onto `acc`; -1 if malformed. */
  function ReadCode(s: string, i: nat, acc: nat): int
    decreases |s| - i
  {
    if i >= |s| then -1
    else if s[i] == ']' then (if i == 7 then -1 else acc)
    else if '0' <= s[i] <= '9' then ReadCode(s, i + 1, acc * 10 + DigitValue(s[i]))
    else -1
  }

  /** The number a display text shows in its leading `[Error N]`, or -1 if it has none. */
  function ShownCode(s: string): int {
    if StartsWith(s, "[Error ") then ReadCode(s, 7, 0) else -1
  }

  lemma {:induction false} ReadCodeExtend(s: string, t: string, i: nat, acc: nat)
    requires ReadCode(s, i, acc) >= 0
    ensures ReadCode(s + t, i, acc) == ReadCode(s, i, acc)
    decreases |s| - i
  {
    if s[i] != ']' {
      ReadCodeExtend(s, t, i + 1, acc * 10 + DigitValue(s[i]));
    }
  }

  lemma {:induction false} OccursAtExtend(s: string, t: string, p: string, i: nat)
    requires OccursAt(s, p, 0, i)
    ensures OccursAt(s + t, p, 0, i)
    decreases |p| - i
  {
    if i < |p| {
      OccursAtExtend(s, t, p, i + 1);
    }
  }

  /** Text appended after a well-formed header does not change the number it shows. */
  lemma ShownCodeExtend(s: string, t: string)
    requires ShownCode(s) >= 0
    ensures ShownCode(s + t) == ShownCode(s)
  {
    OccursAtExtend(s, t, "[Error ", 0);
    ReadCodeExtend(s, t, 7, 0);
  }

  /** A display text `header + " " + desc + ": " + msg` shows the number of its header. */
  lemma ShownCodeOfDisplay(header: string, desc: string, msg: string)
    requires ShownCode(header) >= 0
    ensures ShownCode(header + " " + desc + ": " + msg) == ShownCode(header)
  {
    ShownCodeExtend(header, " " + desc + ": " + msg);
    assert header + " " + desc + ": " + msg == header + (" " + desc + ": " + msg);
  }

  /** General error codes (`GeneralError`). Each variant carries the server's message. */
  datatype GeneralError =
      InvalidPayload(msg: string)
    | TooManyRequests(msg: string)
    | NotFound(msg: string)
    | FatalError(msg: string)
  {
    /** `code()`: the status code of the variant. */
    function Code(): u16 {
      match this
      case InvalidPayload(_) => 422
      case TooManyRequests(_) => 429
      case NotFound(_) => 404
      case FatalError(_) => 500
    }

    /** `message()`: the wrapped message, unchanged. */
    function Message(): (m: string)
      ensures m == msg
    {
      match this
      case InvalidPayload(m) => m
      case TooManyRequests(m) => m
      case NotFound(m) => m
      case FatalError(m) => m
    }

    /** The `[Error N]` part of the variant's `#[error]` text. */
    function Header(): string {
      match this
      case InvalidPayload(_) => "[Error 422]"
      case TooManyRequests(_) => "[Error 429]"
      case NotFound(_) => "[Error 404]"
      case FatalError(_) => "[Error 500]"
    }

    /** The description that follows the header in the `#[error]` text. */
    function Label(): string {
      match this
      case InvalidPayload(_) => "Invalid payload"
      case TooManyRequests(_) => "Too many requests"
      case NotFound(_) => "Not found"
      case FatalError(_) => "Fatal error"
    }

    /** `to_string()`: the `#[error("[Error N] Label: {0}")]` text. */
    function ToString(): string {
      Header() + " " + Label() + ": " + msg
    }

    /** The variant with the given code, carrying `msg`; the inverse of `Code`. */
    static function FromCode(code: u16, msg: string): (r: Option<GeneralError>)
      ensures r.Some? ==> r.value.Code() == code && r.value.msg == msg
    {
      match code
      case 422 => Some(GeneralError.InvalidPayload(msg))
      case 429 => Some(GeneralError.TooManyRequests(msg))
      case 404 => Some(GeneralError.NotFound(msg))
      case 500 => Some(GeneralError.FatalError(msg))
      case _ => None
    }
  }

  /** The number in the display text of every `GeneralError` is its `code()`. */
  lemma GeneralShowsCode(e: GeneralError)
    ensures ShownCode(e.ToString()) == e.Code() as int
  {
    match e {
      case InvalidPayload(_) => assert ShownCode("[Error 422]") == 422;
      case TooManyRequests(_) => assert ShownCode("[Error 429]") == 429;
      case NotFound(_) => assert ShownCode("[Error 404]") == 404;
      case FatalError(_) => assert ShownCode("[Error 500]") == 500;
    }
    ShownCodeOfDisplay(e.Header(), e.Label(), e.msg);
  }

  /** Codes are distinct within `GeneralError`: a code and a message determine the variant. */
  lemma GeneralCodeDetermines(e: GeneralError)
    ensures GeneralError.FromCode(e.Code(), e.msg) == Some(e)
  {
    match e
    case InvalidPayload(_) =>
    case TooManyRequests(_) =>
    case NotFound(_) =>
    case FatalError(_) =>
  }

  /** Account related errors (`AccountError`). Each variant carries the server's message. */
  datatype AccountError =
      TokenInvalid(msg: string)
    | TokenExpired(msg: string)
    | TokenMissing(msg: string)
    | TokenGenerationFail(msg: string)
    | UsernameAlreadyUsed(msg: string)
    | EmailAlreadyUsed(msg: string)
    | SamePassword(msg: string)
    | CurrentPasswordInvalid(msg: string)
  {
    /** `code()`: the status code of the variant. */
    function Code(): u16 {
      match this
      case TokenInvalid(_) => 452
      case TokenExpired(_) => 453
      case TokenMissing(_) => 454
      case TokenGenerationFail(_) => 455
      case UsernameAlreadyUsed(_) => 456
      case EmailAlreadyUsed(_) => 457
      case SamePassword(_) => 458
      case CurrentPasswordInvalid(_) => 459
    }

    /** `message()`: the wrapped message, unchanged. */
    function Message(): (m: string)
      ensures m == msg
    {
      match this
      case TokenInvalid(m) => m
      case TokenExpired(m) => m
      case TokenMissing(m) => m
      case TokenGenerationFail(m) => m
      case UsernameAlreadyUsed(m) => m
      case EmailAlreadyUsed(m) => m
      case SamePassword(m) => m
      case CurrentPasswordInvalid(m) => m
    }

    /** The `[Error N]` part of the variant's `#[error]` text. */
    function Header(): string {
      match this
      case TokenInvalid(_) => "[Error 452]"
      case TokenExpired(_) => "[Error 453]"
      case TokenMissing(_) => "[Error 454]"
      case TokenGenerationFail(_) => "[Error 455]"
      case UsernameAlreadyUsed(_) => "[Error 456]"
      case EmailAlreadyUsed(_) => "[Error 457]"
      case SamePassword(_) => "[Error 458]"
      case CurrentPasswordInvalid(_) => "[Error 459]"
    }

    /** The description that follows the header in the `#[error]` text. */
    function Label(): string {
      match this
      case TokenInvalid(_) => "Token invalid"
      case TokenExpired(_) => "Token expired"
      case TokenMissing(_) => "Token missing"
      case TokenGenerationFail(_) => "Token generation failed"
      case UsernameAlreadyUsed(_) => "Username already used"
      case EmailAlreadyUsed(_) => "Email already used"
      case SamePassword(_) => "Same password"
      case CurrentPasswordInvalid(_) => "Current password invalid"
    }

    /** `to_string()`: the `#[error("[Error N] Label: {0}")]` text. */
    function ToString(): string {
      Header() + " " + Label() + ": " + msg
    }

    /** The variant with the given code, carrying `msg`; the inverse of `Code`. */
    static function FromCode(code: u16, msg: string): (r: Option<AccountError>)
      ensures r.Some? ==> r.value.Code() == code && r.value.msg == msg
    {
      match code
      case 452 => Some(AccountError.TokenInvalid(msg))
      case 453 => Some(AccountError.TokenExpired(msg))
      case 454 => Some(AccountError.TokenMissing(msg))
      case 455 => Some(AccountError.TokenGenerationFail(msg))
      case 456 => Some(AccountError.UsernameAlreadyUsed(msg))
      case 457 => Some(AccountError.EmailAlreadyUsed(msg))
      case 458 => Some(AccountError.SamePassword(msg))
      case 459 => Some(AccountError.CurrentPasswordInvalid(msg))
      case _ => None
    }
  }

  /** The number in the display text of every `AccountError` is its `code()`. */
  lemma AccountShowsCode(e: AccountError)
    ensures ShownCode(e.ToString()) == e.Code() as int
  {
    match e {
      case TokenInvalid(_) => assert ShownCode("[Error 452]") == 452;
      case TokenExpired(_) => assert ShownCode("[Error 453]") == 453;
      case TokenMissing(_) => assert ShownCode("[Error 454]") == 454;
      case TokenGenerationFail(_) => assert ShownCode("[Error 455]") == 455;
      case UsernameAlreadyUsed(_) => assert ShownCode("[Error 456]") == 456;
      case EmailAlreadyUsed(_) => assert ShownCode("[Error 457]") == 457;
      case SamePassword(_) => assert ShownCode("[Error 458]") == 458;
      case CurrentPasswordInvalid(_) => assert ShownCode("[Error 459]") == 459;
    }
    ShownCodeOfDisplay(e.Header(), e.Label(), e.msg);
  }

  /** Codes are distinct within `AccountError`: a code and a message determine the variant. */
  lemma AccountCodeDetermines(e: AccountError)
    ensures AccountError.FromCode(e.Code(), e.msg) == Some(e)
  {
    match e
    case TokenInvalid(_) =>
    case TokenExpired(_) =>
    case TokenMissing(_) =>
    case TokenGenerationFail(_) =>
    case UsernameAlreadyUsed(_) =>
    case EmailAlreadyUsed(_) =>
    case SamePassword(_) =>
    case CurrentPasswordInvalid(_) =>
  }

  /** Character related errors (`CharacterError`). Each variant carries the server's message. */
  datatype CharacterError =
      NotEnoughHp(msg: string)
    | MaximumUtilitiesEquipped(msg: string)
    | ItemAlreadyEquipped(msg: string)
    | Locked(msg: string)
    | NotThisTask(msg: string)
    | TooManyItemsTask(msg: string)
    | NoTask(msg: string)
    | TaskNotCompleted(msg: string)
    | AlreadyTask(msg: string)
    | AlreadyMap(msg: string)
    | SlotEquipmentError(msg: string)
    | GoldInsufficient(msg: string)
    | NotSkillLevelRequired(msg: string)
    | NameAlreadyUsed(msg: string)
    | MaxCharactersReached(msg: string)
    | NotLevelRequired(msg: string)
    | InventoryFull(msg: string)
    | NotFound(msg: string)
    | InCooldown(msg: string)
  {
    /** `code()`: the status code of the variant. */
    function Code(): u16 {
      match this
      case NotEnoughHp(_) => 483
      case MaximumUtilitiesEquipped(_) => 484
      case ItemAlreadyEquipped(_) => 485
      case Locked(_) => 486
      case NotThisTask(_) => 474
      case TooManyItemsTask(_) => 475
      case NoTask(_) => 487
      case TaskNotCompleted(_) => 488
      case AlreadyTask(_) => 489
      case AlreadyMap(_) => 490
      case SlotEquipmentError(_) => 491
      case GoldInsufficient(_) => 492
      case NotSkillLevelRequired(_) => 493
      case NameAlreadyUsed(_) => 494
      case MaxCharactersReached(_) => 495
      case NotLevelRequired(_) => 496
      case InventoryFull(_) => 497
      case NotFound(_) => 498
      case InCooldown(_) => 499
    }

    /** `message()`: the wrapped message, unchanged. */
    function Message(): (m: string)
      ensures m == msg
    {
      match this
      case NotEnoughHp(m) => m
      case MaximumUtilitiesEquipped(m) => m
      case ItemAlreadyEquipped(m) => m
      case Locked(m) => m
      case NotThisTask(m) => m
      case TooManyItemsTask(m) => m
      case NoTask(m) => m
      case TaskNotCompleted(m) => m
      case AlreadyTask(m) => m
      case AlreadyMap(m) => m
      case SlotEquipmentError(m) => m
      case GoldInsufficient(m) => m
      case NotSkillLevelRequired(m) => m
      case NameAlreadyUsed(m) => m
      case MaxCharactersReached(m) => m
      case NotLevelRequired(m) => m
      case InventoryFull(m) => m
      case NotFound(m) => m
      case InCooldown(m) => m
    }

    /** The `[Error N]` part of the variant's `#[error]` text. */
    function Header(): string {
      match this
      case NotEnoughHp(_) => "[Error 483]"
      case MaximumUtilitiesEquipped(_) => "[Error 484]"
      case ItemAlreadyEquipped(_) => "[Error 485]"
      case Locked(_) => "[Error 486]"
      case NotThisTask(_) => "[Error 474]"
      case TooManyItemsTask(_) => "[Error 475]"
      case NoTask(_) => "[Error 487]"
      case TaskNotCompleted(_) => "[Error 488]"
      case AlreadyTask(_) => "[Error 489]"
      case AlreadyMap(_) => "[Error 490]"
      case SlotEquipmentError(_) => "[Error 491]"
      case GoldInsufficient(_) => "[Error 492]"
      case NotSkillLevelRequired(_) => "[Error 493]"
      case NameAlreadyUsed(_) => "[Error 494]"
      case MaxCharactersReached(_) => "[Error 495]"
      case NotLevelRequired(_) => "[Error 496]"
      case InventoryFull(_) => "[Error 497]"
      case NotFound(_) => "[Error 498]"
      case InCooldown(_) => "[Error 499]"
    }

    /** The description that follows the header in the `#[error]` text. */
    function Label(): string {
      match this
      case NotEnoughHp(_) => "Not enough HP"
      case MaximumUtilitiesEquipped(_) => "Maximum utilities equipped"
      case ItemAlreadyEquipped(_) => "Item already equipped"
      case Locked(_) => "Character locked"
      case NotThisTask(_) => "Not this task"
      case TooManyItemsTask(_) => "Too many items for task"
      case NoTask(_) => "No task"
      case TaskNotCompleted(_) => "Task not completed"
      case AlreadyTask(_) => "Already has a task"
      case AlreadyMap(_) => "Already on map"
      case SlotEquipmentError(_) => "Slot equipment error"
      case GoldInsufficient(_) => "Gold insufficient"
      case NotSkillLevelRequired(_) => "Skill level not sufficient"
      case NameAlreadyUsed(_) => "Name already used"
      case MaxCharactersReached(_) => "Maximum characters reached"
      case NotLevelRequired(_) => "Level not sufficient"
      case InventoryFull(_) => "Inventory full"
      case NotFound(_) => "Character not found"
      case InCooldown(_) => "In cooldown"
    }

    /** `to_string()`: the `#[error("[Error N] Label: {0}")]` text. */
    function ToString(): string {
      Header() + " " + Label() + ": " + msg
    }

    /** The variant with the given code, carrying `msg`; the inverse of `Code`. */
    static function FromCode(code: u16, msg: string): (r: Option<CharacterError>)
      ensures r.Some? ==> r.value.Code() == code && r.value.msg == msg
    {
      match code
      case 483 => Some(CharacterError.NotEnoughHp(msg))
      case 484 => Some(CharacterError.MaximumUtilitiesEquipped(msg))
      case 485 => Some(CharacterError.ItemAlreadyEquipped(msg))
      case 486 => Some(CharacterError.Locked(msg))
      case 474 => Some(CharacterError.NotThisTask(msg))
      case 475 => Some(CharacterError.TooManyItemsTask(msg))
      case 487 => Some(CharacterError.NoTask(msg))
      case 488 => Some(CharacterError.TaskNotCompleted(msg))
      case 489 => Some(CharacterError.AlreadyTask(msg))
      case 490 => Some(CharacterError.AlreadyMap(msg))
      case 491 => Some(CharacterError.SlotEquipmentError(msg))
      case 492 => Some(CharacterError.GoldInsufficient(msg))
      case 493 => Some(CharacterError.NotSkillLevelRequired(msg))
      case 494 => Some(CharacterError.NameAlreadyUsed(msg))
      case 495 => Some(CharacterError.MaxCharactersReached(msg))
      case 496 => Some(CharacterError.NotLevelRequired(msg))
      case 497 => Some(CharacterError.InventoryFull(msg))
      case 498 => Some(CharacterError.NotFound(msg))
      case 499 => Some(CharacterError.InCooldown(msg))
      case _ => None
    }
  }

  /** The number in the display text of every `CharacterError` is its `code()`. */
  lemma CharacterShowsCode(e: CharacterError)
    ensures ShownCode(e.ToString()) == e.Code() as int
  {
    match e {
      case NotEnoughHp(_) => assert ShownCode("[Error 483]") == 483;
      case MaximumUtilitiesEquipped(_) => assert ShownCode("[Error 484]") == 484;
      case ItemAlreadyEquipped(_) => assert ShownCode("[Error 485]") == 485;
      case Locked(_) => assert ShownCode("[Error 486]") == 486;
      case NotThisTask(_) => assert ShownCode("[Error 474]") == 474;
      case TooManyItemsTask(_) => assert ShownCode("[Error 475]") == 475;
      case NoTask(_) => assert ShownCode("[Error 487]") == 487;
      case TaskNotCompleted(_) => assert ShownCode("[Error 488]") == 488;
      case AlreadyTask(_) => assert ShownCode("[Error 489]") == 489;
      case AlreadyMap(_) => assert ShownCode("[Error 490]") == 490;
      case SlotEquipmentError(_) => assert ShownCode("[Error 491]") == 491;
      case GoldInsufficient(_) => assert ShownCode("[Error 492]") == 492;
      case NotSkillLevelRequired(_) => assert ShownCode("[Error 493]") == 493;
      case NameAlreadyUsed(_) => assert ShownCode("[Error 494]") == 494;
      case MaxCharactersReached(_) => assert ShownCode("[Error 495]") == 495;
      case NotLevelRequired(_) => assert ShownCode("[Error 496]") == 496;
      case InventoryFull(_) => assert ShownCode("[Error 497]") == 497;
      case NotFound(_) => assert ShownCode("[Error 498]") == 498;
      case InCooldown(_) => assert ShownCode("[Error 499]") == 499;
    }
    ShownCodeOfDisplay(e.Header(), e.Label(), e.msg);
  }

  /** Codes are distinct within `CharacterError`: a code and a message determine the variant. */
  lemma CharacterCodeDetermines(e: CharacterError)
    ensures CharacterError.FromCode(e.Code(), e.msg) == Some(e)
  {
    match e
    case NotEnoughHp(_) =>
    case MaximumUtilitiesEquipped(_) =>
    case ItemAlreadyEquipped(_) =>
    case Locked(_) =>
    case NotThisTask(_) =>
    case TooManyItemsTask(_) =>
    case NoTask(_) =>
    case TaskNotCompleted(_) =>
    case AlreadyTask(_) =>
    case AlreadyMap(_) =>
    case SlotEquipmentError(_) =>
    case GoldInsufficient(_) =>
    case NotSkillLevelRequired(_) =>
    case NameAlreadyUsed(_) =>
    case MaxCharactersReached(_) =>
    case NotLevelRequired(_) =>
    case InventoryFull(_) =>
    case NotFound(_) =>
    case InCooldown(_) =>
  }

  /** Item related errors (`ItemError`). Each variant carries the server's message. */
  datatype ItemError =
      InsufficientQuantity(msg: string)
    | InvalidEquipment(msg: string)
    | RecyclingInvalidItem(msg: string)
    | InvalidConsumable(msg: string)
    | MissingItem(msg: string)
  {
    /** `code()`: the status code of the variant. */
    function Code(): u16 {
      match this
      case InsufficientQuantity(_) => 471
      case InvalidEquipment(_) => 472
      case RecyclingInvalidItem(_) => 473
      case InvalidConsumable(_) => 476
      case MissingItem(_) => 478
    }

    /** `message()`: the wrapped message, unchanged. */
    function Message(): (m: string)
      ensures m == msg
    {
      match this
      case InsufficientQuantity(m) => m
      case InvalidEquipment(m) => m
      case RecyclingInvalidItem(m) => m
      case InvalidConsumable(m) => m
      case MissingItem(m) => m
    }

    /** The `[Error N]` part of the variant's `#[error]` text. */
    function Header(): string {
      match this
      case InsufficientQuantity(_) => "[Error 471]"
      case InvalidEquipment(_) => "[Error 472]"
      case RecyclingInvalidItem(_) => "[Error 473]"
      case InvalidConsumable(_) => "[Error 476]"
      case MissingItem(_) => "[Error 478]"
    }

    /** The description that follows the header in the `#[error]` text. */
    function Label(): string {
      match this
      case InsufficientQuantity(_) => "Insufficient quantity"
      case InvalidEquipment(_) => "Invalid equipment"
      case RecyclingInvalidItem(_) => "Recycling invalid item"
      case InvalidConsumable(_) => "Invalid consumable"
      case MissingItem(_) => "Missing item"
    }

    /** `to_string()`: the `#[error("[Error N] Label: {0}")]` text. */
    function ToString(): string {
      Header() + " " + Label() + ": " + msg
    }

    /** The variant with the given code, carrying `msg`; the inverse of `Code`. */
    static function FromCode(code: u16, msg: string): (r: Option<ItemError>)
      ensures r.Some? ==> r.value.Code() == code && r.value.msg == msg
    {
      match code
      case 471 => Some(ItemError.InsufficientQuantity(msg))
      case 472 => Some(ItemError.InvalidEquipment(msg))
      case 473 => Some(ItemError.RecyclingInvalidItem(msg))
      case 476 => Some(ItemError.InvalidConsumable(msg))
      case 478 => Some(ItemError.MissingItem(msg))
      case _ => None
    }
  }

  /** The number in the display text of every `ItemError` is its `code()`. */
  lemma ItemShowsCode(e: ItemError)
    ensures ShownCode(e.ToString()) == e.Code() as int
  {
    match e {
      case InsufficientQuantity(_) => assert ShownCode("[Error 471]") == 471;
      case InvalidEquipment(_) => assert ShownCode("[Error 472]") == 472;
      case RecyclingInvalidItem(_) => assert ShownCode("[Error 473]") == 473;
      case InvalidConsumable(_) => assert ShownCode("[Error 476]") == 476;
      case MissingItem(_) => assert ShownCode("[Error 478]") == 478;
    }
    ShownCodeOfDisplay(e.Header(), e.Label(), e.msg);
  }

  /** Codes are distinct within `ItemError`: a code and a message determine the variant. */
  lemma ItemCodeDetermines(e: ItemError)
    ensures ItemError.FromCode(e.Code(), e.msg) == Some(e)
  {
    match e
    case InsufficientQuantity(_) =>
    case InvalidEquipment(_) =>
    case RecyclingInvalidItem(_) =>
    case InvalidConsumable(_) =>
    case MissingItem(_) =>
  }

  /** Grand Exchange related errors (`GrandExchangeError`). Each variant carries the server's message. */
  datatype GrandExchangeError =
      MaxQuantity(msg: string)
    | NotInStock(msg: string)
    | NotThePrice(msg: string)
    | TransactionInProgress(msg: string)
    | NoOrders(msg: string)
    | MaxOrders(msg: string)
    | TooManyItems(msg: string)
    | SameAccount(msg: string)
    | InvalidItem(msg: string)
    | NotYourOrder(msg: string)
  {
    /** `code()`: the status code of the variant. */
    function Code(): u16 {
      match this
      case MaxQuantity(_) => 479
      case NotInStock(_) => 480
      case NotThePrice(_) => 482
      case TransactionInProgress(_) => 436
      case NoOrders(_) => 431
      case MaxOrders(_) => 433
      case TooManyItems(_) => 434
      case SameAccount(_) => 435
      case InvalidItem(_) => 437
      case NotYourOrder(_) => 438
    }

    /** `message()`: the wrapped message, unchanged. */
    function Message(): (m: string)
      ensures m == msg
    {
      match this
      case MaxQuantity(m) => m
      case NotInStock(m) => m
      case NotThePrice(m) => m
      case TransactionInProgress(m) => m
      case NoOrders(m) => m
      case MaxOrders(m) => m
      case TooManyItems(m) => m
      case SameAccount(m) => m
      case InvalidItem(m) => m
      case NotYourOrder(m) => m
    }

    /** The `[Error N]` part of the variant's `#[error]` text. */
    function Header(): string {
      match this
      case MaxQuantity(_) => "[Error 479]"
      case NotInStock(_) => "[Error 480]"
      case NotThePrice(_) => "[Error 482]"
      case TransactionInProgress(_) => "[Error 436]"
      case NoOrders(_) => "[Error 431]"
      case MaxOrders(_) => "[Error 433]"
      case TooManyItems(_) => "[Error 434]"
      case SameAccount(_) => "[Error 435]"
      case InvalidItem(_) => "[Error 437]"
      case NotYourOrder(_) => "[Error 438]"
    }

    /** The description that follows the header in the `#[error]` text. */
    function Label(): string {
      match this
      case MaxQuantity(_) => "Max quantity exceeded"
      case NotInStock(_) => "Item not in stock"
      case NotThePrice(_) => "Price mismatch"
      case TransactionInProgress(_) => "Transaction in progress"
      case NoOrders(_) => "No orders"
      case MaxOrders(_) => "Max orders reached"
      case TooManyItems(_) => "Too many items"
      case SameAccount(_) => "Same account"
      case InvalidItem(_) => "Invalid item"
      case NotYourOrder(_) => "Not your order"
    }

    /** `to_string()`: the `#[error("[Error N] Label: {0}")]` text. */
    function ToString(): string {
      Header() + " " + Label() + ": " + msg
    }

    /** The variant with the given code, carrying `msg`; the inverse of `Code`. */
    static function FromCode(code: u16, msg: string): (r: Option<GrandExchangeError>)
      ensures r.Some? ==> r.value.Code() == code && r.value.msg == msg
    {
      match code
      case 479 => Some(GrandExchangeError.MaxQuantity(msg))
      case 480 => Some(GrandExchangeError.NotInStock(msg))
      case 482 => Some(GrandExchangeError.NotThePrice(msg))
      case 436 => Some(GrandExchangeError.TransactionInProgress(msg))
      case 431 => Some(GrandExchangeError.NoOrders(msg))
      case 433 => Some(GrandExchangeError.MaxOrders(msg))
      case 434 => Some(GrandExchangeError.TooManyItems(msg))
      case 435 => Some(GrandExchangeError.SameAccount(msg))
      case 437 => Some(GrandExchangeError.InvalidItem(msg))
      case 438 => Some(GrandExchangeError.NotYourOrder(msg))
      case _ => None
    }
  }

  /** The number in the display text of every `GrandExchangeError` is its `code()`. */
  lemma GrandExchangeShowsCode(e: GrandExchangeError)
    ensures ShownCode(e.ToString()) == e.Code() as int
  {
    match e {
      case MaxQuantity(_) => assert ShownCode("[Error 479]") == 479;
      case NotInStock(_) => assert ShownCode("[Error 480]") == 480;
      case NotThePrice(_) => assert ShownCode("[Error 482]") == 482;
      case TransactionInProgress(_) => assert ShownCode("[Error 436]") == 436;
      case NoOrders(_) => assert ShownCode("[Error 431]") == 431;
      case MaxOrders(_) => assert ShownCode("[Error 433]") == 433;
      case TooManyItems(_) => assert ShownCode("[Error 434]") == 434;
      case SameAccount(_) => assert ShownCode("[Error 435]") == 435;
      case InvalidItem(_) => assert ShownCode("[Error 437]") == 437;
      case NotYourOrder(_) => assert ShownCode("[Error 438]") == 438;
    }
    ShownCodeOfDisplay(e.Header(), e.Label(), e.msg);
  }

  /** Codes are distinct within `GrandExchangeError`: a code and a message determine the variant. */
  lemma GrandExchangeCodeDetermines(e: GrandExchangeError)
    ensures GrandExchangeError.FromCode(e.Code(), e.msg) == Some(e)
  {
    match e
    case MaxQuantity(_) =>
    case NotInStock(_) =>
    case NotThePrice(_) =>
    case TransactionInProgress(_) =>
    case NoOrders(_) =>
    case MaxOrders(_) =>
    case TooManyItems(_) =>
    case SameAccount(_) =>
    case InvalidItem(_) =>
    case NotYourOrder(_) =>
  }

  /** Bank related errors (`BankError`). Each variant carries the server's message. */
  datatype BankError =
      InsufficientGold(msg: string)
    | TransactionInProgress(msg: string)
    | Full(msg: string)
  {
    /** `code()`: the status code of the variant. */
    function Code(): u16 {
      match this
      case InsufficientGold(_) => 460
      case TransactionInProgress(_) => 461
      case Full(_) => 462
    }

    /** `message()`: the wrapped message, unchanged. */
    function Message(): (m: string)
      ensures m == msg
    {
      match this
      case InsufficientGold(m) => m
      case TransactionInProgress(m) => m
      case Full(m) => m
    }

    /** The `[Error N]` part of the variant's `#[error]` text. */
    function Header(): string {
      match this
      case InsufficientGold(_) => "[Error 460]"
      case TransactionInProgress(_) => "[Error 461]"
      case Full(_) => "[Error 462]"
    }

    /** The description that follows the header in the `#[error]` text. */
    function Label(): string {
      match this
      case InsufficientGold(_) => "Insufficient gold"
      case TransactionInProgress(_) => "Transaction in progress"
      case Full(_) => "Bank full"
    }

    /** `to_string()`: the `#[error("[Error N] Label: {0}")]` text. */
    function ToString(): string {
      Header() + " " + Label() + ": " + msg
    }

    /** The variant with the given code, carrying `msg`; the inverse of `Code`. */
    static function FromCode(code: u16, msg: string): (r: Option<BankError>)
      ensures r.Some? ==> r.value.Code() == code && r.value.msg == msg
    {
      match code
      case 460 => Some(BankError.InsufficientGold(msg))
      case 461 => Some(BankError.TransactionInProgress(msg))
      case 462 => Some(BankError.Full(msg))
      case _ => None
    }
  }

  /** The number in the display text of every `BankError` is its `code()`. */
  lemma BankShowsCode(e: BankError)
    ensures ShownCode(e.ToString()) == e.Code() as int
  {
    match e {
      case InsufficientGold(_) => assert ShownCode("[Error 460]") == 460;
      case TransactionInProgress(_) => assert ShownCode("[Error 461]") == 461;
      case Full(_) => assert ShownCode("[Error 462]") == 462;
    }
    ShownCodeOfDisplay(e.Header(), e.Label(), e.msg);
  }

  /** Codes are distinct within `BankError`: a code and a message determine the variant. */
  lemma BankCodeDetermines(e: BankError)
    ensures BankError.FromCode(e.Code(), e.msg) == Some(e)
  {
    match e
    case InsufficientGold(_) =>
    case TransactionInProgress(_) =>
    case Full(_) =>
  }

  /** Map related errors (`MapError`). Each variant carries the server's message. */
  datatype MapError =
      NotFound(msg: string)
    | ContentNotFound(msg: string)
  {
    /** `code()`: the status code of the variant. */
    function Code(): u16 {
      match this
      case NotFound(_) => 597
      case ContentNotFound(_) => 598
    }

    /** `message()`: the wrapped message, unchanged. */
    function Message(): (m: string)
      ensures m == msg
    {
      match this
      case NotFound(m) => m
      case ContentNotFound(m) => m
    }

    /** The `[Error N]` part of the variant's `#[error]` text. */
    function Header(): string {
      match this
      case NotFound(_) => "[Error 597]"
      case ContentNotFound(_) => "[Error 598]"
    }

    /** The description that follows the header in the `#[error]` text. */
    function Label(): string {
      match this
      case NotFound(_) => "Map not found"
      case ContentNotFound(_) => "Map content not found"
    }

    /** `to_string()`: the `#[error("[Error N] Label: {0}")]` text. */
    function ToString(): string {
      Header() + " " + Label() + ": " + msg
    }

    /** The variant with the given code, carrying `msg`; the inverse of `Code`. */
    static function FromCode(code: u16, msg: string): (r: Option<MapError>)
      ensures r.Some? ==> r.value.Code() == code && r.value.msg == msg
    {
      match code
      case 597 => Some(MapError.NotFound(msg))
      case 598 => Some(MapError.ContentNotFound(msg))
      case _ => None
    }
  }

  /** The number in the display text of every `MapError` is its `code()`. */
  lemma MapShowsCode(e: MapError)
    ensures ShownCode(e.ToString()) == e.Code() as int
  {
    match e {
      case NotFound(_) => assert ShownCode("[Error 597]") == 597;
      case ContentNotFound(_) => assert ShownCode("[Error 598]") == 598;
    }
    ShownCodeOfDisplay(e.Header(), e.Label(), e.msg);
  }

  /** Codes are distinct within `MapError`: a code and a message determine the variant. */
  lemma MapCodeDetermines(e: MapError)
    ensures MapError.FromCode(e.Code(), e.msg) == Some(e)
  {
    match e
    case NotFound(_) =>
    case ContentNotFound(_) =>
  }

  /** The overall error type: one of the domain errors, or an unrecognised status. */
  datatype ApiError =
      General(general: GeneralError)
    | Account(account: AccountError)
    | Character(character: CharacterError)
    | Item(item: ItemError)
    | GrandExchange(grandExchange: GrandExchangeError)
    | Bank(bank: BankError)
    | Map(mapError: MapError)
    | UnknownError(code: u16, message: string)
  {
    /** Wraps a domain error (not the unknown-status fallback). */
    predicate IsDomain() {
      !UnknownError?
    }

    /** `code()`: the wrapped error's code, or the stored code. */
    function Code(): u16 {
      match this
      case General(e) => e.Code()
      case Account(e) => e.Code()
      case Character(e) => e.Code()
      case Item(e) => e.Code()
      case GrandExchange(e) => e.Code()
      case Bank(e) => e.Code()
      case Map(e) => e.Code()
      case UnknownError(c, _) => c
    }

    /** `message()`: the wrapped error's display text, or the stored message. */
    function Message(): string {
      match this
      case General(e) => e.ToString()
      case Account(e) => e.ToString()
      case Character(e) => e.ToString()
      case Item(e) => e.ToString()
      case GrandExchange(e) => e.ToString()
      case Bank(e) => e.ToString()
      case Map(e) => e.ToString()
      case UnknownError(_, m) => m
    }

    /** The `#[error("... error: {0}")]` prefix naming the wrapped enum. */
    function Context(): string {
      match this
      case General(_) => "General error"
      case Account(_) => "Account error"
      case Character(_) => "Character error"
      case Item(_) => "Item error"
      case GrandExchange(_) => "Grand Exchange error"
      case Bank(_) => "Bank error"
      case Map(_) => "Map error"
      case UnknownError(_, _) => "Unknown error"
    }

    /** `to_string()` of an `ApiError`. */
    function ToString(): string {
      match this
      case UnknownError(c, m) => Context() + ": " + NatToString(c as nat) + " - " + m
      case _ => Context() + ": " + Message()
    }

    /** The message carried by the wrapped domain error. */
    function Payload(): (m: string)
      requires IsDomain()
    {
      match this
      case General(e) => e.msg
      case Account(e) => e.msg
      case Character(e) => e.msg
      case Item(e) => e.msg
      case GrandExchange(e) => e.msg
      case Bank(e) => e.msg
      case Map(e) => e.msg
    }

    /** The same domain variant carrying message `m` instead. */
    function WithPayload(m: string): (r: ApiError)
      requires IsDomain()
      ensures r.IsDomain() && r.Payload() == m
    {
      match this
      case General(e) => General(e.(msg := m))
      case Account(e) => Account(e.(msg := m))
      case Character(e) => Character(e.(msg := m))
      case Item(e) => Item(e.(msg := m))
      case GrandExchange(e) => GrandExchange(e.(msg := m))
      case Bank(e) => Bank(e.(msg := m))
      case Map(e) => Map(e.(msg := m))
    }

    /** The domain error with the given code and message: the inverse of `Code` over all seven enums. */
    static function FromDomainCode(code: u16, msg: string): (r: Option<ApiError>)
      ensures r.Some? ==> r.value.IsDomain() && r.value.Code() == code && r.value.Payload() == msg
    {
      if GeneralError.FromCode(code, msg).Some? then Some(General(GeneralError.FromCode(code, msg).value))
      else
      if AccountError.FromCode(code, msg).Some? then Some(Account(AccountError.FromCode(code, msg).value))
      else
      if CharacterError.FromCode(code, msg).Some? then Some(Character(CharacterError.FromCode(code, msg).value))
      else
      if ItemError.FromCode(code, msg).Some? then Some(Item(ItemError.FromCode(code, msg).value))
      else
      if GrandExchangeError.FromCode(code, msg).Some? then Some(GrandExchange(GrandExchangeError.FromCode(code, msg).value))
      else
      if BankError.FromCode(code, msg).Some? then Some(Bank(BankError.FromCode(code, msg).value))
      else
      if MapError.FromCode(code, msg).Some? then Some(Map(MapError.FromCode(code, msg).value))
      else
      None
    }
  }

  /** The code of a domain error does not depend on its message. */
  lemma CodeIgnoresPayload(e: ApiError, m: string)
    requires e.IsDomain()
    ensures e.WithPayload(m).Code() == e.Code()
  {
    match e
    case General(d) =>
      match d {
        case InvalidPayload(_) =>
        case TooManyRequests(_) =>
        case NotFound(_) =>
        case FatalError(_) =>
      }
    case Account(d) =>
      match d {
        case TokenInvalid(_) =>
        case TokenExpired(_) =>
        case TokenMissing(_) =>
        case TokenGenerationFail(_) =>
        case UsernameAlreadyUsed(_) =>
        case EmailAlreadyUsed(_) =>
        case SamePassword(_) =>
        case CurrentPasswordInvalid(_) =>
      }
    case Character(d) =>
      match d {
        case NotEnoughHp(_) =>
        case MaximumUtilitiesEquipped(_) =>
        case ItemAlreadyEquipped(_) =>
        case Locked(_) =>
        case NotThisTask(_) =>
        case TooManyItemsTask(_) =>
        case NoTask(_) =>
        case TaskNotCompleted(_) =>
        case AlreadyTask(_) =>
        case AlreadyMap(_) =>
        case SlotEquipmentError(_) =>
        case GoldInsufficient(_) =>
        case NotSkillLevelRequired(_) =>
        case NameAlreadyUsed(_) =>
        case MaxCharactersReached(_) =>
        case NotLevelRequired(_) =>
        case InventoryFull(_) =>
        case NotFound(_) =>
        case InCooldown(_) =>
      }
    case Item(d) =>
      match d {
        case InsufficientQuantity(_) =>
        case InvalidEquipment(_) =>
        case RecyclingInvalidItem(_) =>
        case InvalidConsumable(_) =>
        case MissingItem(_) =>
      }
    case GrandExchange(d) =>
      match d {
        case MaxQuantity(_) =>
        case NotInStock(_) =>
        case NotThePrice(_) =>
        case TransactionInProgress(_) =>
        case NoOrders(_) =>
        case MaxOrders(_) =>
        case TooManyItems(_) =>
        case SameAccount(_) =>
        case InvalidItem(_) =>
        case NotYourOrder(_) =>
      }
    case Bank(d) =>
      match d {
        case InsufficientGold(_) =>
        case TransactionInProgress(_) =>
        case Full(_) =>
      }
    case Map(d) =>
      match d {
        case NotFound(_) =>
        case ContentNotFound(_) =>
      }
  }

  /** No code of `AccountError` is a code of an enum looked up before it. */
  lemma AccountDisjoint(d: AccountError)
    ensures GeneralError.FromCode(d.Code(), d.msg).None?
  {
    match d
    case TokenInvalid(_) =>
    case TokenExpired(_) =>
    case TokenMissing(_) =>
    case TokenGenerationFail(_) =>
    case UsernameAlreadyUsed(_) =>
    case EmailAlreadyUsed(_) =>
    case SamePassword(_) =>
    case CurrentPasswordInvalid(_) =>
  }

  /** No code of `CharacterError` is a code of an enum looked up before it. */
  lemma CharacterDisjoint(d: CharacterError)
    ensures GeneralError.FromCode(d.Code(), d.msg).None?
    ensures AccountError.FromCode(d.Code(), d.msg).None?
  {
    match d
    case NotEnoughHp(_) =>
    case MaximumUtilitiesEquipped(_) =>
    case ItemAlreadyEquipped(_) =>
    case Locked(_) =>
    case NotThisTask(_) =>
    case TooManyItemsTask(_) =>
    case NoTask(_) =>
    case TaskNotCompleted(_) =>
    case AlreadyTask(_) =>
    case AlreadyMap(_) =>
    case SlotEquipmentError(_) =>
    case GoldInsufficient(_) =>
    case NotSkillLevelRequired(_) =>
    case NameAlreadyUsed(_) =>
    case MaxCharactersReached(_) =>
    case NotLevelRequired(_) =>
    case InventoryFull(_) =>
    case NotFound(_) =>
    case InCooldown(_) =>
  }

  /** No code of `ItemError` is a code of an enum looked up before it. */
  lemma ItemDisjoint(d: ItemError)
    ensures GeneralError.FromCode(d.Code(), d.msg).None?
    ensures AccountError.FromCode(d.Code(), d.msg).None?
    ensures CharacterError.FromCode(d.Code(), d.msg).None?
  {
    match d
    case InsufficientQuantity(_) =>
    case InvalidEquipment(_) =>
    case RecyclingInvalidItem(_) =>
    case InvalidConsumable(_) =>
    case MissingItem(_) =>
  }

  /** No code of `GrandExchangeError` is a code of an enum looked up before it. */
  lemma GrandExchangeDisjoint(d: GrandExchangeError)
    ensures GeneralError.FromCode(d.Code(), d.msg).None?
    ensures AccountError.FromCode(d.Code(), d.msg).None?
    ensures CharacterError.FromCode(d.Code(), d.msg).None?
    ensures ItemError.FromCode(d.Code(), d.msg).None?
  {
    match d
    case MaxQuantity(_) =>
    case NotInStock(_) =>
    case NotThePrice(_) =>
    case TransactionInProgress(_) =>
    case NoOrders(_) =>
    case MaxOrders(_) =>
    case TooManyItems(_) =>
    case SameAccount(_) =>
    case InvalidItem(_) =>
    case NotYourOrder(_) =>
  }

  /** No code of `BankError` is a code of an enum looked up before it. */
  lemma BankDisjoint(d: BankError)
    ensures GeneralError.FromCode(d.Code(), d.msg).None?
    ensures AccountError.FromCode(d.Code(), d.msg).None?
    ensures CharacterError.FromCode(d.Code(), d.msg).None?
    ensures ItemError.FromCode(d.Code(), d.msg).None?
    ensures GrandExchangeError.FromCode(d.Code(), d.msg).None?
  {
    match d
    case InsufficientGold(_) =>
    case TransactionInProgress(_) =>
    case Full(_) =>
  }

  /** No code of `MapError` is a code of an enum looked up before it. */
  lemma MapDisjoint(d: MapError)
    ensures GeneralError.FromCode(d.Code(), d.msg).None?
    ensures AccountError.FromCode(d.Code(), d.msg).None?
    ensures CharacterError.FromCode(d.Code(), d.msg).None?
    ensures ItemError.FromCode(d.Code(), d.msg).None?
    ensures GrandExchangeError.FromCode(d.Code(), d.msg).None?
    ensures BankError.FromCode(d.Code(), d.msg).None?
  {
    match d
    case NotFound(_) =>
    case ContentNotFound(_) =>
  }

  /** Codes are disjoint across the seven enums: a code and a message determine the domain error. */
  lemma DomainCodeDetermines(e: ApiError)
    requires e.IsDomain()
    ensures ApiError.FromDomainCode(e.Code(), e.Payload()) == Some(e)
  {
    match e {
      case General(d) => GeneralCodeDetermines(d);
      case Account(d) =>
        AccountDisjoint(d);
        AccountCodeDetermines(d);
      case Character(d) =>
        CharacterDisjoint(d);
        CharacterCodeDetermines(d);
      case Item(d) =>
        ItemDisjoint(d);
        ItemCodeDetermines(d);
      case GrandExchange(d) =>
        GrandExchangeDisjoint(d);
        GrandExchangeCodeDetermines(d);
      case Bank(d) =>
        BankDisjoint(d);
        BankCodeDetermines(d);
      case Map(d) =>
        MapDisjoint(d);
        MapCodeDetermines(d);
    }
  }

  /** A status code identifies at most one domain variant: equal codes mean equal variants. */
  lemma CodeIdentifiesVariant(a: ApiError, b: ApiError)
    requires a.IsDomain() && b.IsDomain() && a.Code() == b.Code()
    ensures a.WithPayload(b.Payload()) == b
  {
    var a' := a.WithPayload(b.Payload());
    CodeIgnoresPayload(a, b.Payload());
    DomainCodeDetermines(a');
    DomainCodeDetermines(b);
  }

  /** `ApiError::code` and `ApiError::message` of a wrapped error: the message is the inner
      display text, which shows the code, and lacks the outer context prefix. */
  lemma WrappedMessage(e: ApiError)
    requires e.IsDomain()
    ensures ShownCode(e.Message()) == e.Code() as int
    ensures StartsWith(e.Message(), "[Error ") && !StartsWith(e.Message(), e.Context())
    ensures e.ToString() == e.Context() + ": " + e.Message()
  {
    match e {
      case General(d) => GeneralShowsCode(d);
      case Account(d) => AccountShowsCode(d);
      case Character(d) => CharacterShowsCode(d);
      case Item(d) => ItemShowsCode(d);
      case GrandExchange(d) => GrandExchangeShowsCode(d);
      case Bank(d) => BankShowsCode(d);
      case Map(d) => MapShowsCode(d);
    }
    assert e.Message()[0] == '[';
    StartsWithSpec(e.Message(), e.Context());
  }

  /** The unknown-status fallback returns its stored code and message verbatim. */
  lemma UnknownErrorPassesThrough(code: u16, message: string)
    ensures UnknownError(code, message).Code() == code
    ensures UnknownError(code, message).Message() == message
    ensures UnknownError(code, message).ToString() == "Unknown error: " + NatToString(code as nat) + " - " + message
  {
  }
}
