# Artifacts MMO client: a verified model of its error tables, helpers and conversions

This project models the logic of an Artifacts MMO API client. Most of that client is HTTP
plumbing and a terminal UI. The parts modelled here are the pure tables and conversions:

- **The error taxonomy** (`Errors`). Seven domain enums each map a variant to a fixed status
  code and show that code in their display text (`[Error 499] In cooldown: …`). `ApiError`
  wraps all seven, falling back to `UnknownError { code, message }`.
- **The `make_error!` macro** (`MakeError`). It turns a list of `code => Variant => "message"`
  arms into a payload-free enum and a `TryFrom<StatusCode>`. A listed status gives its variant;
  anything else gives `Err(())`.
- **The character actions** (`MyCharacters`). This covers the four `make_error!` tables
  (get-characters, fight, rest, move), their agreement with the taxonomy, the request URLs and
  the request bodies.
- **The generated client's helpers** (`Apis`). This covers three things:
  - `parse_deep_object`, which flattens a JSON object into `prefix[key][sub]…` query pairs.
    It is an imperative, recursive method proved equal to a recursive specification.
  - the `ContentType` classifier;
  - the `Display` and `source` of the client error type.
- **Legacy-to-domain conversion** (`CharacterModel`). It covers `Position` and its tuple
  conversions, `Inventory::from_legacy`, and `Character::from_legacy`.
- **Wire-name enums** (`ActionModel`, `FightResultModel`). Their serde names, `Display`,
  `Default` and derived order.
- **Shared helpers.** `Wrappers` holds `Option`/`Result` and `Ints` holds the integer newtypes
  `u16`, `i32` and `i64`. `Text` holds prefix and substring search, and decimal rendering
  with its round trip.

A status code is a `u16`. The generated schema's integers are `i32` and the domain model's are
`i64`, so `.into()` is a widening (`Ints.Widen`) that never changes the value.

## Model

| member | source | states |
|---|---|---|
| Errors.GeneralError.Message | src/api/errors.rs:28-35 | `message()` returns the wrapped message unchanged |
| Errors.GeneralError.FromCode | src/api/errors.rs:18-25 | inverse of `code()`: any variant it returns has the requested code and carries the given message |
| Errors.GeneralShowsCode | src/api/errors.rs:5-25 | the number in every variant's `[Error N]` display text is its `code()` |
| Errors.GeneralCodeDetermines | src/api/errors.rs:18-25 | codes are distinct within the enum: decoding a variant's code with its message gives back that variant |
| Errors.AccountError.Message | src/api/errors.rs:75-86 | `message()` returns the wrapped message unchanged |
| Errors.AccountError.FromCode | src/api/errors.rs:61-72 | inverse of `code()`: any variant it returns has the requested code and the given message |
| Errors.AccountShowsCode | src/api/errors.rs:40-72 | the number in every variant's display text is its `code()` |
| Errors.AccountCodeDetermines | src/api/errors.rs:61-72 | codes are distinct within the enum; code and message determine the variant |
| Errors.CharacterError.Message | src/api/errors.rs:159-181 | `message()` returns the wrapped message unchanged |
| Errors.CharacterError.FromCode | src/api/errors.rs:134-156 | inverse of `code()`: any variant it returns has the requested code and the given message |
| Errors.CharacterShowsCode | src/api/errors.rs:91-156 | the number in every variant's display text is its `code()` (e.g. `[Error 499]` for `InCooldown`) |
| Errors.CharacterCodeDetermines | src/api/errors.rs:134-156 | codes are distinct within the enum; code and message determine the variant |
| Errors.ItemError.Message | src/api/errors.rs:212-220 | `message()` returns the wrapped message unchanged |
| Errors.ItemError.FromCode | src/api/errors.rs:201-209 | inverse of `code()`: any variant it returns has the requested code and the given message |
| Errors.ItemShowsCode | src/api/errors.rs:186-209 | the number in every variant's display text is its `code()` |
| Errors.ItemCodeDetermines | src/api/errors.rs:201-209 | codes are distinct within the enum; code and message determine the variant |
| Errors.GrandExchangeError.Message | src/api/errors.rs:266-279 | `message()` returns the wrapped message unchanged |
| Errors.GrandExchangeError.FromCode | src/api/errors.rs:250-262 | inverse of `code()`: any variant it returns has the requested code and the given message |
| Errors.GrandExchangeShowsCode | src/api/errors.rs:225-262 | the number in every variant's display text is its `code()` |
| Errors.GrandExchangeCodeDetermines | src/api/errors.rs:250-262 | codes are distinct within the enum; code and message determine the variant |
| Errors.BankError.Message | src/api/errors.rs:304-310 | `message()` returns the wrapped message unchanged |
| Errors.BankError.FromCode | src/api/errors.rs:295-301 | inverse of `code()`: any variant it returns has the requested code and the given message |
| Errors.BankShowsCode | src/api/errors.rs:284-301 | the number in every variant's display text is its `code()` |
| Errors.BankCodeDetermines | src/api/errors.rs:295-301 | codes are distinct within the enum; code and message determine the variant |
| Errors.MapError.Message | src/api/errors.rs:332-337 | `message()` returns the wrapped message unchanged |
| Errors.MapError.FromCode | src/api/errors.rs:324-329 | inverse of `code()`: any variant it returns has the requested code and the given message |
| Errors.MapShowsCode | src/api/errors.rs:315-329 | the number in every variant's display text is its `code()` |
| Errors.MapCodeDetermines | src/api/errors.rs:324-329 | codes are distinct within the enum; code and message determine the variant |
| Errors.ApiError.FromDomainCode | src/api/errors.rs:363-374 | looking a code up across all seven enums: any result is a domain error with that `code()` and that message |
| Errors.CodeIgnoresPayload | src/api/errors.rs:18-329 | a domain error's code depends only on its variant, never on its message |
| Errors.DomainCodeDetermines | src/api/errors.rs:18-329 | codes are disjoint across all seven enums: code and message determine the wrapped domain error |
| Errors.CodeIdentifiesVariant | src/api/errors.rs:18-329 | two domain errors with the same code are the same variant (they differ at most in message) |
| Errors.WrappedMessage | src/api/errors.rs:342-388 | for a wrapped error, `message()` is the inner display text: it shows `code()`, starts with `[Error ` and not with the outer `… error` context; the outer display is context + ": " + message |
| Errors.UnknownErrorPassesThrough | src/api/errors.rs:357-388 | `UnknownError` returns its stored code and message verbatim and displays as `Unknown error: {code} - {message}` |
| MakeError.Variants | src/macros.rs:9-14 | the generated enum has one variant per arm, in arm order |
| MakeError.TryFrom | src/macros.rs:16-25 | a result `Ok(v)` comes from the first arm with that status, and has that arm's variant; the result is `Err(())` exactly when the status is not listed |
| MakeError.Display | src/macros.rs:11-12 | a variant displays as a message declared for it |
| MakeError.TryFromListed | src/macros.rs:16-22 | with distinct codes, every listed code gives `Ok` of its arm's variant |
| MakeError.DisplayOfArm | src/macros.rs:11-12 | with distinct variants, each variant displays exactly as its own arm's message |
| MakeError.CodeOf | src/macros.rs:9-22 | the code declared for a variant comes from the arm that declares it |
| MakeError.TryFromCodeOf | src/macros.rs:16-22 | variant-to-code is a left inverse of `try_from` |
| MakeError.EmptyRecognisesNothing | src/macros.rs:3-25 | an invocation without arms has no variants and rejects every status |
| MyCharacters.GetCharactersTryFrom | src/api/my_characters.rs:12 | `GetCharactersError::try_from` fails on every status |
| MyCharacters.FightTable | src/api/my_characters.rs:14-25 | 486, 497, 498, 499 and 598 map to their declared variants; every other status is `Err(())` |
| MyCharacters.RestTable | src/api/my_characters.rs:27-34 | exactly 486, 498 and 499 are recognised (e.g. 490, 497, 404 and 598 are not) |
| MyCharacters.MoveTable | src/api/my_characters.rs:36-47 | exactly 404, 486, 490, 498 and 499 are recognised, with 404→`MapNotFound`, 490→`CharacterAlreadyAtLocation` |
| MyCharacters.FightWellFormed | src/api/my_characters.rs:14-25 | the fight table's codes and variants are distinct and it declares every variant |
| MyCharacters.RestWellFormed | src/api/my_characters.rs:27-34 | the rest table's codes and variants are distinct and it declares every variant |
| MyCharacters.MoveWellFormed | src/api/my_characters.rs:36-47 | the move table's codes and variants are distinct and it declares every variant |
| MyCharacters.TablesDisplay | src/api/my_characters.rs:14-47 | every variant of the three tables displays as the message written in its arm |
| MyCharacters.TablesLeftInverse | src/api/my_characters.rs:14-47 | in each table, `try_from` of a variant's code gives back that variant |
| MyCharacters.FightAgreesWithTaxonomy | src/api/my_characters.rs:14-25 | each fight code is the code of its taxonomy counterpart, e.g. 486→`Locked` and 598→`MapError::ContentNotFound` |
| MyCharacters.RestAgreesWithTaxonomy | src/api/my_characters.rs:27-34 | each rest code is the code of its taxonomy counterpart |
| MyCharacters.MoveAgreesWithTaxonomy | src/api/my_characters.rs:36-47 | each move code is the code of its taxonomy counterpart, e.g. 490→`AlreadyMap` and 404→`GeneralError::NotFound` |
| MyCharacters.GetCharactersUrl | src/api/my_characters.rs:56 | the listing URL is the base URL followed by exactly `/my/characters` |
| MyCharacters.ActionUrlDetermines | src/api/my_characters.rs:79-130 | for one base URL, an action URL determines both the character name and the action (fight, rest or move) |
| MyCharacters.GetCharactersUrlIsNoAction | src/api/my_characters.rs:56-130 | the listing URL never equals an action URL |
| MyCharacters.NameBody | src/api/my_characters.rs:75-77 | the fight and rest body is an object whose only key is `name`, holding the name |
| MyCharacters.MoveBody | src/api/my_characters.rs:125-128 | the move body is an object with exactly the keys `x` and `y`, holding the coordinates |
| Apis.ParseDeepObject | openapi/src/apis/mod.rs:73-102 | the loops and recursion compute exactly the pairs of the flattening specification; the input must be an object all the way down (the source panics otherwise) |
| Apis.PairsCount | openapi/src/apis/mod.rs:73-98 | the number of pairs equals the number of scalar leaves |
| Apis.KeysUnderPrefix | openapi/src/apis/mod.rs:73-98 | every output key starts with `prefix + "["` |
| Apis.PairsConcat | openapi/src/apis/mod.rs:77-96 | entries are flattened in order: the pairs of `a + b` are the pairs of `a` followed by those of `b` |
| Apis.StringLeaf | openapi/src/apis/mod.rs:91-93 | a string under `key` gives `(prefix[key], s)` with the raw string |
| Apis.ScalarLeaf | openapi/src/apis/mod.rs:94 | a null, boolean or number under `key` gives `(prefix[key], its JSON text)` |
| Apis.NestedObject | openapi/src/apis/mod.rs:79-82 | a nested object under `key` is flattened with prefix `prefix[key]` |
| Apis.ArrayElement | openapi/src/apis/mod.rs:83-90 | array element `i` under `key` is flattened with prefix `prefix[key][i]`, after elements `0..i` |
| Apis.ElementPrefixesDistinct | openapi/src/apis/mod.rs:84-86 | distinct array indices give distinct element prefixes `prefix[key][i]`, since decimal rendering is injective |
| Apis.ContentTypeFrom | openapi/src/apis/mod.rs:113-123 | an unsupported content type keeps the header text verbatim |
| Apis.ContentTypeSpec | openapi/src/apis/mod.rs:114-121 | `Json` iff the text starts with "application" and contains "json"; `Text` iff not `Json` and it starts with "text/plain"; otherwise `Unsupported` |
| Apis.OctetStreamUnsupported | openapi/src/apis/characters_api.rs:85-90 | the callers' default "application/octet-stream" is `Unsupported` |
| Apis.ApplicationJsonIsJson | openapi/src/apis/mod.rs:115-116 | "application/json" is `Json` |
| Apis.TextPlainIsText | openapi/src/apis/mod.rs:117-118 | "text/plain; charset=utf-8" is `Text` |
| Apis.TextJsonUnsupported | openapi/src/apis/mod.rs:115-120 | "text/json" is `Unsupported` (only the "application" family is JSON) |
| Apis.ClientError.Source | openapi/src/apis/mod.rs:33-43 | `source()` is absent exactly for `ResponseError`, and otherwise is the wrapped library error |
| Apis.ResponseErrorDisplay | openapi/src/apis/mod.rs:20-40 | a `ResponseError` displays as `error in response: status code` and its status, and has no source |
| CharacterModel.NewPosition | src/api/characters/models/character.rs:160-164 | `Position::new(x, y)` has exactly the coordinates `x` and `y` |
| CharacterModel.PositionFromTuple | src/api/characters/models/character.rs:166-170 | a tuple becomes the position with `x` first and `y` second, the same as `Position::new` |
| CharacterModel.PositionToTuple | src/api/characters/models/character.rs:172-176 | converting a position to a tuple and back gives the same position |
| CharacterModel.TupleRoundTrip | src/api/characters/models/character.rs:166-176 | converting a tuple to a position and back gives the same tuple |
| CharacterModel.PositionToTupleInjective | src/api/characters/models/character.rs:172-176 | distinct positions give distinct tuples |
| CharacterModel.InventoryFromLegacy | src/api/characters/models/character.rs:260-269 | slot, code and quantity are copied unchanged (the integers widened) |
| CharacterModel.InventoryFromLegacyInjective | src/api/characters/models/character.rs:260-269 | the conversion loses nothing: distinct legacy slots give distinct entries |
| CharacterModel.InventoryList | src/api/characters/models/character.rs:419-424 | the list conversion keeps length and order, and element `i` is `Inventory::from_legacy(list[i])` |
| CharacterModel.InventoryListQuantity | src/api/characters/models/character.rs:419-424 | the total item quantity is preserved |
| CharacterModel.InventoryListConcat | src/api/characters/models/character.rs:419-424 | the list conversion distributes over concatenation |
| CharacterModel.UnwrapOrEmpty | src/api/characters/models/character.rs:419-421 | `unwrap_or_default` of an optional list: `None` is empty, `Some(l)` is `l` |
| CharacterModel.CharacterFromLegacy | src/api/characters/models/character.rs:307-425 | name, account, level, xp, gold, position from `x`/`y`, `hp`/`max_hp`, cooldown, cooldown expiration and inventory size are carried over; a missing inventory is empty, a present one converted elementwise in order |
| CharacterModel.MissingInventoryIsEmpty | src/api/characters/models/character.rs:419-421 | a missing legacy inventory converts the same as an empty one |
| CharacterModel.CharacterQuantity | src/api/characters/models/character.rs:419-424 | the converted character holds as many items as the legacy one |
| CharacterModel.CharacterPositionTuple | src/api/characters/models/character.rs:319 | the converted position, as a tuple, is the widened legacy `(x, y)` |
| ActionModel.Index | src/api/characters/models/action.rs:3-49 | each variant sits at its declaration position in the list of all variants |
| ActionModel.FromWireName | src/api/characters/models/action.rs:3-49 | a decoded string re-encodes to itself, and a string that is no variant's wire name fails to decode |
| ActionModel.DecodeEncode | src/api/characters/models/action.rs:5-48 | decoding a variant's wire name (e.g. "buy_ge", "deposit_gold", "buy_bank_expansion") gives back that variant |
| ActionModel.WireNameInjective | src/api/characters/models/action.rs:5-48 | the 22 wire names are pairwise distinct |
| ActionModel.IndexOfDeclared | src/api/characters/models/action.rs:4-49 | the declaration lists every variant once, at its own index |
| ActionModel.LessIsStrictTotalOrder | src/api/characters/models/action.rs:3 | the derived order is irreflexive, transitive and total |
| ActionModel.DeclarationOrder | src/api/characters/models/action.rs:3-49 | the derived order follows declaration order, `Movement < Fight < … < BuyBankExpansion` |
| ActionModel.Extremes | src/api/characters/models/action.rs:4-49 | `Movement` is the least action and `BuyBankExpansion` the greatest |
| FightResultModel.FightResult.ToString | openapi/src/models/fight_result.rs:23-29 | `Display` equals the serde wire name ("win", "loss") and decodes back to the variant |
| FightResultModel.FromWireName | openapi/src/models/fight_result.rs:16-20 | a decoded string re-encodes to itself, and any other string fails to decode |
| FightResultModel.DecodeEncode | openapi/src/models/fight_result.rs:16-20 | decoding a variant's wire name gives back that variant |
| FightResultModel.Default | openapi/src/models/fight_result.rs:32-36 | the default is `Win`, the variant named "win" that is declared first |
| FightResultModel.OrderIsWinThenLoss | openapi/src/models/fight_result.rs:15-21 | the derived order has exactly `Win < Loss`, and is strict and total |
| FightResultModel.DefaultIsLeast | openapi/src/models/fight_result.rs:15-36 | the default is the least fight result |

## Left out

- HTTP requests are not modelled: the async bodies of the client methods, reqwest, the
  middleware and the configuration. They are network I/O; only their URL strings and JSON
  bodies are modelled.
- `urlencode` calls into the `url` crate, which is not part of this model.
- `ArtifactsApiResponse::parse_json` is not modelled. It wraps `resp.text()` and serde_json,
  both foreign.
- The serde-derived record shapes are not modelled. Their field mapping is done by serde, and
  the generated `new` constructors have nothing to state.
- The terminal UI, key handling, rendering and the process setup in `main` are not modelled.
- No retry or cooldown-aware fight loop exists in the source, so none is modelled.
- Apis.ClientError.ToString: the HTTP library's `Display` of a `StatusCode` is a parameter.
  That `Display` prints the number and the reason phrase (e.g. `404 Not Found`), not the bare
  number. The model does not fix that text.
- Apis.Value: JSON numbers are integers. Floating-point numbers and their text are left out.
- Apis.Value: an object is its entries in iteration order. serde_json's map orders its keys
  itself (sorted unless order preservation is enabled) and cannot hold a key twice. The model
  takes whatever order the map iterates in and does not constrain it.
- Apis.ParseDeepObject: the panic on a non-object (`unimplemented!`) is the precondition
  `Flattenable`, not a modelled failure. The source has no error path to model.
- Apis.ForeignError: a reqwest, serde or I/O error is reduced to its display text.
- MyCharacters.GetCharactersTryFrom: Dafny has no empty datatype, so `GetCharactersError` is
  the empty arm list. Its `try_from` is generic in the variant type.
- The `ArtifactsError` wrapper that the action methods return is not modelled: its definitions
  disagree between files, and only the tables and URLs are statable.
- CharacterModel.CharacterFromLegacy: `skin` is left out, because the generated skin enum's
  names are not part of this model. The other stats, attack, damage, resistance, skills,
  equipment slots and task fields are also left out. Each is the same widening field copy as
  the fields that are modelled.
- CharacterModel.CharacterSchema: the generated `CharacterSchema` and `InventorySlot`
  (openapi/src/models/character_schema.rs, inventory_slot.rs) are not part of this model. Their
  integer fields are taken as `i32`, the type the generator uses for integers, so `.into()`
  widens them to `i64`.
- `ContentType::from` is modelled on `char` sequences; byte-level UTF-8 matching is not
  modelled (both prefixes and "json" are ASCII).
