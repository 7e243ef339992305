/**
 * The `make_error!` macro: from a list of `code => Variant => "message"` arms
 * it generates a payload-free enum whose variants display as their message,
 * and a `TryFrom<StatusCode>` that matches the numeric status against the
 * arms in order, falling back to `Err(())`.
 */
module MakeError {
  import opened Wrappers
  import opened Ints

  /** One `code => Variant => "message"` arm of a macro invocation. */
  datatype Arm<V> = Arm(code: u16, variant: V, message: string)

  /** The variants the macro declares, in order. */
  function Variants<V>(arms: seq<Arm<V>>): (vs: seq<V>)
    ensures |vs| == |arms|
    ensures forall i :: 0 <= i < |arms| ==> vs[i] == arms[i].variant
  {
    if arms == [] then [] else [arms[0].variant] + Variants(arms[1..])
  }

  /** The codes of the arms, in order. */
  function Codes<V>(arms: seq<Arm<V>>): (cs: seq<u16>)
    ensures |cs| == |arms|
    ensures forall i :: 0 <= i < |arms| ==> cs[i] == arms[i].code
  {
    if arms == [] then [] else [arms[0].code] + Codes(arms[1..])
  }

  /** No two arms share a code. */
  predicate DistinctCodes<V>(arms: seq<Arm<V>>) {
    forall i, j :: 0 <= i < j < |arms| ==> arms[i].code != arms[j].code
  }

  /** No two arms declare the same variant (Rust rejects duplicate variants). */
  ghost predicate DistinctVariants<V>(arms: seq<Arm<V>>) {
    forall i, j :: 0 <= i < j < |arms| ==> arms[i].variant != arms[j].variant
  }

  /** The generated `try_from`: the first arm whose code is `status`, else `Err(())`. */
  function TryFrom<V>(arms: seq<Arm<V>>, status: u16): (r: Result<V, ()>)
    ensures r.Ok? ==> exists i :: 0 <= i < |arms| && arms[i].code == status && arms[i].variant == r.value &&
                                  forall j :: 0 <= j < i ==> arms[j].code != status
    ensures r.Err? <==> status !in Codes(arms)
    ensures r.Err? ==> r == Err(())
  {
    if arms == [] then Err(())
    else if arms[0].code == status then Ok(arms[0].variant)
    else
      var r := TryFrom(arms[1..], status);
      assert Codes(arms) == [arms[0].code] + Codes(arms[1..]);
      assert r.Ok? ==> exists i :: 0 <= i < |arms| && arms[i].code == status && arms[i].variant == r.value &&
                                    forall j :: 0 <= j < i ==> arms[j].code != status by {
        if r.Ok? {
          var i :| 0 <= i < |arms[1..]| && arms[1..][i].code == status && arms[1..][i].variant == r.value &&
                   forall j :: 0 <= j < i ==> arms[1..][j].code != status;
          assert arms[i + 1].code == status && arms[i + 1].variant == r.value;
          forall j | 0 <= j < i + 1 ensures arms[j].code != status {
            if j > 0 {
              assert arms[j] == arms[1..][j - 1];
            }
          }
        }
      }
      r
  }

  /** The `#[error($msg)]` display text of a generated variant: its declared message. */
  function Display<V(==)>(arms: seq<Arm<V>>, v: V): (text: string)
    requires v in Variants(arms)
    ensures exists i :: 0 <= i < |arms| && arms[i].variant == v && arms[i].message == text
  {
    if arms[0].variant == v then arms[0].message
    else
      assert Variants(arms) == [arms[0].variant] + Variants(arms[1..]);
      var text := Display(arms[1..], v);
      assert exists i :: 0 <= i < |arms| && arms[i].variant == v && arms[i].message == text by {
        var i :| 0 <= i < |arms[1..]| && arms[1..][i].variant == v && arms[1..][i].message == text;
        assert arms[i + 1].variant == v && arms[i + 1].message == text;
      }
      text
  }

  /** Every listed code is recognised as the variant of its arm. */
  lemma {:induction false} TryFromListed<V>(arms: seq<Arm<V>>, i: nat)
    requires DistinctCodes(arms) && i < |arms|
    ensures TryFrom(arms, arms[i].code) == Ok(arms[i].variant)
  {
    if i > 0 {
      assert arms[0].code != arms[i].code;
      assert arms[1..][i - 1] == arms[i];
      TryFromListed(arms[1..], i - 1);
    }
  }

  /** Each variant displays exactly as the message of its own arm. */
  lemma {:induction false} DisplayOfArm<V>(arms: seq<Arm<V>>, i: nat)
    requires DistinctVariants(arms) && i < |arms|
    ensures arms[i].variant in Variants(arms)
    ensures Display(arms, arms[i].variant) == arms[i].message
  {
    assert Variants(arms)[i] == arms[i].variant;
    var text := Display(arms, arms[i].variant);
    var j :| 0 <= j < |arms| && arms[j].variant == arms[i].variant && arms[j].message == text;
    assert j == i;
  }

  /** The code declared for variant `v`: the arm that declares it. */
  function CodeOf<V(==)>(arms: seq<Arm<V>>, v: V): (c: u16)
    requires v in Variants(arms)
    ensures exists i :: 0 <= i < |arms| && arms[i].variant == v && arms[i].code == c
  {
    if arms[0].variant == v then arms[0].code
    else
      assert Variants(arms) == [arms[0].variant] + Variants(arms[1..]);
      var c := CodeOf(arms[1..], v);
      assert exists i :: 0 <= i < |arms| && arms[i].variant == v && arms[i].code == c by {
        var i :| 0 <= i < |arms[1..]| && arms[1..][i].variant == v && arms[1..][i].code == c;
        assert arms[i + 1].variant == v && arms[i + 1].code == c;
      }
      c
  }

  /** With distinct codes, variant-to-code is a left inverse of `try_from`. */
  lemma TryFromCodeOf<V>(arms: seq<Arm<V>>, v: V)
    requires DistinctCodes(arms) && v in Variants(arms)
    ensures TryFrom(arms, CodeOf(arms, v)) == Ok(v)
  {
    var c := CodeOf(arms, v);
    var i :| 0 <= i < |arms| && arms[i].variant == v && arms[i].code == c;
    TryFromListed(arms, i);
  }

  /** A macro invocation with no arms declares no variants and recognises no status. */
  lemma EmptyRecognisesNothing<V>(status: u16)
    ensures Variants<V>([]) == []
    ensures TryFrom<V>([], status) == Err(())
  {
  }
}
