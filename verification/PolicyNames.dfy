/** How the backend reports a user's policies, and the difference between them and the spec. */
module PolicyNames {
  import opened Collections
  import opened Text
  import opened Model

  /** GetUserPolicies on the comma-joined list the backend reports. */
  function ParsePolicies(policyName: string): seq<string> {
    var parts := Split(TrimSpace(policyName), ',');
    if |parts| == 1 && "" in parts then [] else parts
  }

  lemma {:induction false} JoinKeepsEnds(names: seq<PolicyName>)
    requires names != []
    ensures
      var s := Join(names, ',');
      s != [] && s[0] == names[0][0] && s[|s| - 1] == names[|names| - 1][|names[|names| - 1]| - 1]
  {
    if |names| > 1 {
      JoinKeepsEnds(names[1..]);
    }
  }

  /** Parsing undoes joining, for every list of plain names; the empty list included. */
  lemma ParseUndoesJoin(names: seq<PolicyName>)
    ensures ParsePolicies(Join(names, ',')) == names
  {
    var s := Join(names, ',');
    if names == [] {
      assert TrimSpace(s) == [];
    } else {
      JoinKeepsEnds(names);
      assert TrimSpace(s) == s;
      SplitUndoesJoin(names, ',');
      assert PlainName(names[0]);
      if |names| == 1 {
        assert names[0] != "";
      }
    }
  }

  /** The two lists a policy update works from; duplicates in either input are allowed. */
  method PolicyDifference(current: seq<PolicyName>, wanted: seq<PolicyName>)
    returns (toDelete: seq<PolicyName>, toAdd: seq<PolicyName>)
    ensures SetOf(toDelete) == SetOf(current) - SetOf(wanted)
    ensures SetOf(toAdd) == SetOf(wanted) - SetOf(current)
    ensures NoDuplicates(current) ==> NoDuplicates(toDelete)
  {
    toDelete, toAdd := [], [];
    for i := 0 to |current|
      invariant forall p :: p in toDelete <==> p in current[..i] && p !in wanted
      invariant NoDuplicates(current) ==> NoDuplicates(toDelete)
    {
      if current[i] !in wanted {
        toDelete := toDelete + [current[i]];
      }
    }
    for i := 0 to |wanted|
      invariant forall p :: p in toAdd <==> p in wanted[..i] && p !in current
    {
      if wanted[i] !in current {
        toAdd := toAdd + [wanted[i]];
      }
    }
    assert current[..|current|] == current && wanted[..|wanted|] == wanted;
  }
}
