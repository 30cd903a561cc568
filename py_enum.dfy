/**
 * Calling a Python `Enum` class on a value (`Mode(2)`): the lookup returns the
 * member whose value equals the argument (the first one declared, aliases being
 * resolved to it) and raises ValueError when no member has that value.
 */
module PyEnum {
  import opened Wrappers

  datatype LookupError = ValueError(value: int)

  /** No two members share a value, so the enumeration declares no aliases. */
  predicate Injective<E(==)>(members: seq<E>, value: E -> int) {
    forall i, j :: 0 <= i < |members| && 0 <= j < |members| && value(members[i]) == value(members[j]) ==>
      members[i] == members[j]
  }

  /** `EnumCls(v)` for an enum declaring `members` in this order. */
  function Lookup<E(==)>(members: seq<E>, value: E -> int, v: int): (r: Result<E, LookupError>)
    ensures r.Success? ==> r.value in members && value(r.value) == v
    ensures r.Failure? <==> forall i :: 0 <= i < |members| ==> value(members[i]) != v
    ensures r.Failure? ==> r.error == ValueError(v)
  {
    if members == [] then Failure(ValueError(v))
    else if value(members[0]) == v then Success(members[0])
    else
      var r := Lookup(members[1..], value, v);
      assert forall i :: 0 < i < |members| ==> members[i] == members[1..][i - 1];
      r
  }

  /** With distinct values, looking up a member's own value gives back that member. */
  lemma {:induction false} LookupOwnValue<E>(members: seq<E>, value: E -> int, i: nat)
    requires i < |members| && Injective(members, value)
    ensures Lookup(members, value, value(members[i])) == Success(members[i])
  {
    if value(members[0]) != value(members[i]) {
      assert Injective(members[1..], value) by {
        forall j, k | 0 <= j < |members| - 1 && 0 <= k < |members| - 1
          && value(members[1..][j]) == value(members[1..][k])
          ensures members[1..][j] == members[1..][k]
        {
          assert members[1..][j] == members[j + 1] && members[1..][k] == members[k + 1];
        }
      }
      LookupOwnValue(members[1..], value, i - 1);
    }
  }
}
