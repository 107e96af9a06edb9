/**
 * The two pieces of JavaScript semantics the client leans on everywhere:
 * truthiness of strings and the value-returning `||` operator.
 *
 * Strings stand for string-typed JavaScript values; the empty string stands
 * for every falsy one (`undefined`, `null`, `""`), since `||` and `!` treat
 * them alike.
 */
module Js {
  import opened Wrappers

  /** `!!o` for an optional string: present and non-empty. */
  predicate Truthy(o: Option<string>) {
    o.Some? && o.value != ""
  }

  /**
   * `c0 || c1 || ... || last`: the first truthy operand, or the last operand
   * (truthy or not) when none of the earlier ones is.
   */
  function FirstTruthy(cands: seq<string>, last: string): (r: string)
    ensures r in cands || r == last
    ensures r == "" ==> last == "" && forall i | 0 <= i < |cands| :: cands[i] == ""
  {
    if cands == [] then last
    else if cands[0] != "" then cands[0]
    else FirstTruthy(cands[1..], last)
  }

  /** Reference definition of the `||` chain by the index of the first truthy operand. */
  ghost predicate IsFirstTruthy(cands: seq<string>, last: string, r: string) {
    if exists i | 0 <= i < |cands| :: cands[i] != "" then
      exists i | 0 <= i < |cands| ::
        cands[i] != "" && r == cands[i] && forall j | 0 <= j < i :: cands[j] == ""
    else
      r == last
  }

  lemma {:induction false} FirstTruthyMeetsSpec(cands: seq<string>, last: string)
    ensures IsFirstTruthy(cands, last, FirstTruthy(cands, last))
  {
    if cands == [] {
    } else if cands[0] != "" {
      assert cands[0] != "" && FirstTruthy(cands, last) == cands[0];
    } else {
      var tail := cands[1..];
      FirstTruthyMeetsSpec(tail, last);
      if exists i | 0 <= i < |tail| :: tail[i] != "" {
        var i :| 0 <= i < |tail| && tail[i] != "" && FirstTruthy(tail, last) == tail[i]
                 && forall j | 0 <= j < i :: tail[j] == "";
        assert cands[i + 1] == tail[i];
        forall j | 0 <= j < i + 1 ensures cands[j] == "" {
          if j > 0 { assert cands[j] == tail[j - 1]; }
        }
      } else {
        forall k | 0 <= k < |cands| ensures cands[k] == "" {
          if k > 0 { assert cands[k] == tail[k - 1]; }
        }
      }
    }
  }

  /** The chain stops at the first truthy operand, whatever follows it. */
  lemma {:induction false} FirstTruthyAt(cands: seq<string>, last: string, k: nat)
    requires k < |cands| && cands[k] != ""
    requires forall j | 0 <= j < k :: cands[j] == ""
    ensures FirstTruthy(cands, last) == cands[k]
  {
    if k > 0 {
      FirstTruthyAt(cands[1..], last, k - 1);
    }
  }
}
