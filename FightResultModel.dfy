/**
 * The generated `FightResult` enum: its serde wire names, its `Display`,
 * its `Default` and its derived order.
 */
module FightResultModel {
  import opened Wrappers

  /** `FightResult`, its variants in declaration order. */
  datatype FightResult = Win | Loss {

    /** The `#[serde(rename = ...)]` name of each variant. */
    function WireName(): string {
      match this
      case Win => "win"
      case Loss => "loss"
    }

    /** The hand-written `Display`: it agrees with the wire name, and so it tells the variants apart. */
    function ToString(): (s: string)
      ensures s == WireName()
      ensures FromWireName(s) == Some(this)
    {
      match this
      case Win => "win"
      case Loss => "loss"
    }

    /** The derived discriminant. */
    function Index(): (i: nat)
      ensures i < 2
    {
      match this
      case Win => 0
      case Loss => 1
    }
  }

  /** Deserialisation: exactly "win" and "loss" are accepted, and they re-encode to themselves. */
  function FromWireName(s: string): (r: Option<FightResult>)
    ensures r.Some? ==> r.value.WireName() == s
    ensures r.None? ==> forall f: FightResult :: f.WireName() != s
  {
    if s == "win" then Some(Win)
    else if s == "loss" then Some(Loss)
    else None
  }

  /** Decoding an encoded result returns that result. */
  lemma DecodeEncode(f: FightResult)
    ensures FromWireName(f.WireName()) == Some(f)
  {
  }

  /** `impl Default for FightResult`: a fight is won unless said otherwise. */
  function Default(): (f: FightResult)
    ensures f.WireName() == "win" && f.Index() == 0
  {
    Win
  }

  /** The derived `Ord`: variants compare by declaration position. */
  predicate Less(a: FightResult, b: FightResult) {
    a.Index() < b.Index()
  }

  /** `Win < Loss`, and the order is strict and total. */
  lemma OrderIsWinThenLoss(a: FightResult, b: FightResult)
    ensures Less(a, b) <==> a == Win && b == Loss
    ensures a != b ==> Less(a, b) || Less(b, a)
    ensures !Less(a, a)
  {
  }

  /** The default is the least result. */
  lemma DefaultIsLeast(f: FightResult)
    ensures f != Default() ==> Less(Default(), f)
  {
  }
}
