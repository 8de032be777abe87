/** The alias search shared by every `Command` revision: the first element of
    an options collection whose `Names` contain a name. The options are seen
    here only through their alias lists, in collection order. */
module Lookup {

  /** Position `k` holds the first alias list that contains `name`. */
  predicate IsFirstNamed(aliases: seq<seq<string>>, name: string, k: int) {
    0 <= k < |aliases| && name in aliases[k] &&
    forall j :: 0 <= j < k ==> name !in aliases[j]
  }

  /** Position of the first alias list containing `name`, or `|aliases|`
      when none does (the `FirstOrDefault` of the LINQ query). */
  function FirstNamed(aliases: seq<seq<string>>, name: string): (k: nat)
    ensures k <= |aliases|
    ensures k < |aliases| ==> IsFirstNamed(aliases, name, k)
    ensures k == |aliases| <==> forall j :: 0 <= j < |aliases| ==> name !in aliases[j]
  {
    if |aliases| == 0 then 0
    else if name in aliases[0] then 0
    else 1 + FirstNamed(aliases[1..], name)
  }

  /** No alias is shared by two options of the collection. */
  predicate DistinctAliases(aliases: seq<seq<string>>) {
    forall i, j, n :: 0 <= i < j < |aliases| && n in aliases[i] ==> n !in aliases[j]
  }

  /** With distinct aliases, every alias of the option at `k` finds `k`. */
  lemma EveryAliasFindsItsPosition(aliases: seq<seq<string>>, k: nat, name: string)
    requires k < |aliases| && DistinctAliases(aliases) && name in aliases[k]
    ensures FirstNamed(aliases, name) == k
  {
    var i := FirstNamed(aliases, name);
    assert i == k;
  }
}
