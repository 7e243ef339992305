/**
 * The per-action error tables of the character actions, built with
 * `make_error!`, and the URLs and bodies of the action requests.
 */
module MyCharacters {
  import opened Wrappers
  import opened Ints
  import opened MakeError
  import opened Errors
  import Apis
  import Text

  // ---------------------------------------------------------------------------
  // The make_error! tables
  // ---------------------------------------------------------------------------

  /** `make_error!(GetCharactersError)`: no arms, so no variants. */
  function GetCharactersArms<V>(): seq<Arm<V>> {
    []
  }

  /** `GetCharactersError::try_from`: fails on every status. */
  function GetCharactersTryFrom<V>(status: u16): (r: Result<V, ()>)
    ensures r == Err(())
  {
    TryFrom(GetCharactersArms(), status)
  }

  datatype CharacterFightError =
    | ActionAlreadyInProgressForCharacter
    | CharacterInventoryFull
    | CharacterNotFound
    | CharacterInCooldown
    | MonsterNotFound

  const FightArms: seq<Arm<CharacterFightError>> := [
    Arm(486, CharacterFightError.ActionAlreadyInProgressForCharacter, "Action already in progress for character"),
    Arm(497, CharacterFightError.CharacterInventoryFull, "Character inventory is full"),
    Arm(498, CharacterFightError.CharacterNotFound, "Character not found"),
    Arm(499, CharacterFightError.CharacterInCooldown, "Character is in cooldown"),
    Arm(598, CharacterFightError.MonsterNotFound, "Monster not found")
  ]

  datatype CharacterRestError =
    | ActionAlreadyInProgressForCharacter
    | CharacterNotFound
    | CharacterInCooldown

  const RestArms: seq<Arm<CharacterRestError>> := [
    Arm(486, CharacterRestError.ActionAlreadyInProgressForCharacter, "Action already in progress for character"),
    Arm(498, CharacterRestError.CharacterNotFound, "Character not found"),
    Arm(499, CharacterRestError.CharacterInCooldown, "Character is in cooldown")
  ]

  datatype CharacterMoveError =
    | MapNotFound
    | ActionAlreadyInProgressForCharacter
    | CharacterAlreadyAtLocation
    | CharacterNotFound
    | CharacterInCooldown

  const MoveArms: seq<Arm<CharacterMoveError>> := [
    Arm(404, CharacterMoveError.MapNotFound, "Map not found"),
    Arm(486, CharacterMoveError.ActionAlreadyInProgressForCharacter, "Action already in progress for character"),
    Arm(490, CharacterMoveError.CharacterAlreadyAtLocation, "Character already at location"),
    Arm(498, CharacterMoveError.CharacterNotFound, "Character not found"),
    Arm(499, CharacterMoveError.CharacterInCooldown, "Character is in cooldown")
  ]

  /** `CharacterFightError::try_from`: 486, 497, 498, 499 and 598 are recognised, nothing else. */
  lemma FightTable(status: u16)
    ensures TryFrom(FightArms, status) ==
              if status == 486 then Ok(CharacterFightError.ActionAlreadyInProgressForCharacter)
              else if status == 497 then Ok(CharacterFightError.CharacterInventoryFull)
              else if status == 498 then Ok(CharacterFightError.CharacterNotFound)
              else if status == 499 then Ok(CharacterFightError.CharacterInCooldown)
              else if status == 598 then Ok(CharacterFightError.MonsterNotFound)
              else Err(())
  {
    FightWellFormed();
    if status == 486 {
      TryFromListed(FightArms, 0);
    } else if status == 497 {
      TryFromListed(FightArms, 1);
    } else if status == 498 {
      TryFromListed(FightArms, 2);
    } else if status == 499 {
      TryFromListed(FightArms, 3);
    } else if status == 598 {
      TryFromListed(FightArms, 4);
    } else {
      assert Codes(FightArms) == [486, 497, 498, 499, 598];
      assert status !in Codes(FightArms);
    }
  }

  /** `CharacterRestError::try_from`: exactly 486, 498 and 499 (so not 490, 497, 404 or 598). */
  lemma RestTable(status: u16)
    ensures TryFrom(RestArms, status) ==
              if status == 486 then Ok(CharacterRestError.ActionAlreadyInProgressForCharacter)
              else if status == 498 then Ok(CharacterRestError.CharacterNotFound)
              else if status == 499 then Ok(CharacterRestError.CharacterInCooldown)
              else Err(())
  {
    RestWellFormed();
    if status == 486 {
      TryFromListed(RestArms, 0);
    } else if status == 498 {
      TryFromListed(RestArms, 1);
    } else if status == 499 {
      TryFromListed(RestArms, 2);
    } else {
      assert Codes(RestArms) == [486, 498, 499];
      assert status !in Codes(RestArms);
    }
  }

  /** `CharacterMoveError::try_from`: exactly 404, 486, 490, 498 and 499. */
  lemma MoveTable(status: u16)
    ensures TryFrom(MoveArms, status) ==
              if status == 404 then Ok(CharacterMoveError.MapNotFound)
              else if status == 486 then Ok(CharacterMoveError.ActionAlreadyInProgressForCharacter)
              else if status == 490 then Ok(CharacterMoveError.CharacterAlreadyAtLocation)
              else if status == 498 then Ok(CharacterMoveError.CharacterNotFound)
              else if status == 499 then Ok(CharacterMoveError.CharacterInCooldown)
              else Err(())
  {
    MoveWellFormed();
    if status == 404 {
      TryFromListed(MoveArms, 0);
    } else if status == 486 {
      TryFromListed(MoveArms, 1);
    } else if status == 490 {
      TryFromListed(MoveArms, 2);
    } else if status == 498 {
      TryFromListed(MoveArms, 3);
    } else if status == 499 {
      TryFromListed(MoveArms, 4);
    } else {
      assert Codes(MoveArms) == [404, 486, 490, 498, 499];
      assert status !in Codes(MoveArms);
    }
  }

  /** The fight table has distinct codes and declares every variant exactly once. */
  lemma FightWellFormed()
    ensures DistinctCodes(FightArms) && DistinctVariants(FightArms)
    ensures forall v: CharacterFightError :: v in Variants(FightArms)
  {
    assert Variants(FightArms) == [
      CharacterFightError.ActionAlreadyInProgressForCharacter, CharacterFightError.CharacterInventoryFull,
      CharacterFightError.CharacterNotFound, CharacterFightError.CharacterInCooldown,
      CharacterFightError.MonsterNotFound];
    forall v: CharacterFightError ensures v in Variants(FightArms) {
      match v
      case ActionAlreadyInProgressForCharacter => assert Variants(FightArms)[0] == v;
      case CharacterInventoryFull => assert Variants(FightArms)[1] == v;
      case CharacterNotFound => assert Variants(FightArms)[2] == v;
      case CharacterInCooldown => assert Variants(FightArms)[3] == v;
      case MonsterNotFound => assert Variants(FightArms)[4] == v;
    }
  }

  /** The rest table has distinct codes and declares every variant exactly once. */
  lemma RestWellFormed()
    ensures DistinctCodes(RestArms) && DistinctVariants(RestArms)
    ensures forall v: CharacterRestError :: v in Variants(RestArms)
  {
    assert Variants(RestArms) == [
      CharacterRestError.ActionAlreadyInProgressForCharacter, CharacterRestError.CharacterNotFound,
      CharacterRestError.CharacterInCooldown];
    forall v: CharacterRestError ensures v in Variants(RestArms) {
      match v
      case ActionAlreadyInProgressForCharacter => assert Variants(RestArms)[0] == v;
      case CharacterNotFound => assert Variants(RestArms)[1] == v;
      case CharacterInCooldown => assert Variants(RestArms)[2] == v;
    }
  }

  /** The move table has distinct codes and declares every variant exactly once. */
  lemma MoveWellFormed()
    ensures DistinctCodes(MoveArms) && DistinctVariants(MoveArms)
    ensures forall v: CharacterMoveError :: v in Variants(MoveArms)
  {
    assert Variants(MoveArms) == [
      CharacterMoveError.MapNotFound, CharacterMoveError.ActionAlreadyInProgressForCharacter,
      CharacterMoveError.CharacterAlreadyAtLocation, CharacterMoveError.CharacterNotFound,
      CharacterMoveError.CharacterInCooldown];
    forall v: CharacterMoveError ensures v in Variants(MoveArms) {
      match v
      case MapNotFound => assert Variants(MoveArms)[0] == v;
      case ActionAlreadyInProgressForCharacter => assert Variants(MoveArms)[1] == v;
      case CharacterAlreadyAtLocation => assert Variants(MoveArms)[2] == v;
      case CharacterNotFound => assert Variants(MoveArms)[3] == v;
      case CharacterInCooldown => assert Variants(MoveArms)[4] == v;
    }
  }

  /** Each variant of the three tables displays as the message written in its arm. */
  lemma TablesDisplay(i: nat)
    ensures i < |FightArms| ==> Display(FightArms, FightArms[i].variant) == FightArms[i].message
    ensures i < |RestArms| ==> Display(RestArms, RestArms[i].variant) == RestArms[i].message
    ensures i < |MoveArms| ==> Display(MoveArms, MoveArms[i].variant) == MoveArms[i].message
  {
    FightWellFormed();
    RestWellFormed();
    MoveWellFormed();
    if i < |FightArms| {
      DisplayOfArm(FightArms, i);
    }
    if i < |RestArms| {
      DisplayOfArm(RestArms, i);
    }
    if i < |MoveArms| {
      DisplayOfArm(MoveArms, i);
    }
  }

  /** Within each table, variant-to-code is a left inverse of `try_from`. */
  lemma TablesLeftInverse(f: CharacterFightError, r: CharacterRestError, m: CharacterMoveError)
    ensures TryFrom(FightArms, CodeOf(FightArms, f)) == Ok(f)
    ensures TryFrom(RestArms, CodeOf(RestArms, r)) == Ok(r)
    ensures TryFrom(MoveArms, CodeOf(MoveArms, m)) == Ok(m)
  {
    FightWellFormed();
    RestWellFormed();
    MoveWellFormed();
    TryFromCodeOf(FightArms, f);
    TryFromCodeOf(RestArms, r);
    TryFromCodeOf(MoveArms, m);
  }

  // ---------------------------------------------------------------------------
  // Agreement with the error taxonomy
  // ---------------------------------------------------------------------------

  /** The taxonomy error of a fight-table variant, carrying `msg`. */
  function FightCounterpart(v: CharacterFightError, msg: string): ApiError {
    match v
    case ActionAlreadyInProgressForCharacter => Character(CharacterError.Locked(msg))
    case CharacterInventoryFull => Character(CharacterError.InventoryFull(msg))
    case CharacterNotFound => Character(CharacterError.NotFound(msg))
    case CharacterInCooldown => Character(CharacterError.InCooldown(msg))
    case MonsterNotFound => Map(MapError.ContentNotFound(msg))
  }

  /** The taxonomy error of a rest-table variant, carrying `msg`. */
  function RestCounterpart(v: CharacterRestError, msg: string): ApiError {
    match v
    case ActionAlreadyInProgressForCharacter => Character(CharacterError.Locked(msg))
    case CharacterNotFound => Character(CharacterError.NotFound(msg))
    case CharacterInCooldown => Character(CharacterError.InCooldown(msg))
  }

  /** The taxonomy error of a move-table variant, carrying `msg`. */
  function MoveCounterpart(v: CharacterMoveError, msg: string): ApiError {
    match v
    case MapNotFound => General(GeneralError.NotFound(msg))
    case ActionAlreadyInProgressForCharacter => Character(CharacterError.Locked(msg))
    case CharacterAlreadyAtLocation => Character(CharacterError.AlreadyMap(msg))
    case CharacterNotFound => Character(CharacterError.NotFound(msg))
    case CharacterInCooldown => Character(CharacterError.InCooldown(msg))
  }

  /**
   * Every code of the fight table is the code of a taxonomy variant, and the
   * taxonomy's own lookup of that code yields exactly the counterpart.
   */
  lemma FightAgreesWithTaxonomy(i: nat, msg: string)
    requires i < |FightArms|
    ensures ApiError.FromDomainCode(FightArms[i].code, msg) == Some(FightCounterpart(FightArms[i].variant, msg))
  {
    DomainCodeDetermines(FightCounterpart(FightArms[i].variant, msg));
  }

  /** Every code of the rest table names its counterpart in the taxonomy. */
  lemma RestAgreesWithTaxonomy(i: nat, msg: string)
    requires i < |RestArms|
    ensures ApiError.FromDomainCode(RestArms[i].code, msg) == Some(RestCounterpart(RestArms[i].variant, msg))
  {
    DomainCodeDetermines(RestCounterpart(RestArms[i].variant, msg));
  }

  /** Every code of the move table names its counterpart in the taxonomy. */
  lemma MoveAgreesWithTaxonomy(i: nat, msg: string)
    requires i < |MoveArms|
    ensures ApiError.FromDomainCode(MoveArms[i].code, msg) == Some(MoveCounterpart(MoveArms[i].variant, msg))
  {
    DomainCodeDetermines(MoveCounterpart(MoveArms[i].variant, msg));
  }

  // ---------------------------------------------------------------------------
  // Request URLs and bodies
  // ---------------------------------------------------------------------------

  /** `format!("{}/my/characters", base_url)`. */
  function GetCharactersUrl(baseUrl: string): (url: string)
    ensures Text.StartsWith(url, baseUrl) && |url| == |baseUrl| + 14
    ensures url[..|baseUrl|] == baseUrl && url[|baseUrl|..] == "/my/characters"
  {
    var url := baseUrl + "/my/characters";
    Text.StartsWithConcat(baseUrl, "/my/characters");
    url
  }

  /** The character actions that are posted to `/my/{name}/action/...`. */
  datatype CharacterAction = Fight | Rest | Move {
    function Segment(): string {
      match this
      case Fight => "fight"
      case Rest => "rest"
      case Move => "move"
    }
  }

  /** `format!("{}/my/{}/action/fight", base_url, name)`, and likewise for rest and move. */
  function ActionUrl(baseUrl: string, name: string, action: CharacterAction): string {
    baseUrl + "/my/" + name + "/action/" + action.Segment()
  }

  /** The character at distance `k` from the end of a concatenation lies in its tail. */
  lemma FromEnd(x: string, s: string, k: nat)
    requires 1 <= k <= |s|
    ensures (x + s)[|x + s| - k] == s[|s| - k]
  {
  }

  /** For a fixed base URL, an action URL names exactly one character and one action. */
  lemma ActionUrlDetermines(baseUrl: string, n1: string, a1: CharacterAction, n2: string, a2: CharacterAction)
    requires ActionUrl(baseUrl, n1, a1) == ActionUrl(baseUrl, n2, a2)
    ensures n1 == n2 && a1 == a2
  {
    var head1, head2 := baseUrl + "/my/" + n1 + "/action/", baseUrl + "/my/" + n2 + "/action/";
    var s1, s2 := a1.Segment(), a2.Segment();
    assert ActionUrl(baseUrl, n1, a1) == head1 + s1;
    assert ActionUrl(baseUrl, n2, a2) == head2 + s2;
    FromEnd(head1, s1, 1);
    FromEnd(head1, s1, 2);
    FromEnd(head2, s2, 1);
    FromEnd(head2, s2, 2);
    assert s1[|s1| - 1] == s2[|s2| - 1] && s1[|s1| - 2] == s2[|s2| - 2];
    assert a1 == a2;
    var pre, post := baseUrl + "/my/", "/action/" + s1;
    assert head1 + s1 == pre + n1 + post;
    assert head2 + s2 == pre + n2 + post;
    assert |n1| == |n2|;
    var u := pre + n1 + post;
    assert u[|pre|..|pre| + |n1|] == n1;
    assert (pre + n2 + post)[|pre|..|pre| + |n2|] == n2;
  }

  /** The listing URL is never the URL of an action. */
  lemma GetCharactersUrlIsNoAction(baseUrl: string, name: string, action: CharacterAction)
    ensures GetCharactersUrl(baseUrl) != ActionUrl(baseUrl, name, action)
  {
    var head := baseUrl + "/my/" + name + "/action/";
    var s := action.Segment();
    assert ActionUrl(baseUrl, name, action) == head + s;
    FromEnd(head, s, 1);
    FromEnd(baseUrl, "/my/characters", 1);
  }

  /** The body of a fight or rest request: `{"name": name}`. */
  function NameBody(name: string): (body: Apis.Value)
    ensures body.Object? && Apis.Keys(body.entries) == ["name"]
    ensures Apis.Get(body.entries, "name") == Some(Apis.String(name))
  {
    Apis.Object([("name", Apis.String(name))])
  }

  /** The body of a move request: exactly the target `x` and `y`. */
  function MoveBody(x: i32, y: i32): (body: Apis.Value)
    ensures body.Object? && Apis.Keys(body.entries) == ["x", "y"]
    ensures Apis.Get(body.entries, "x") == Some(Apis.Number(x as int))
    ensures Apis.Get(body.entries, "y") == Some(Apis.Number(y as int))
  {
    Apis.Object([("x", Apis.Number(x as int)), ("y", Apis.Number(y as int))])
  }
}
