/**
 Comparing container ports: `containerPortsMatch` in pkg/controller/trustmanager/deployments.go
 and the port loop of `deploymentSpecModified` in pkg/controller/istiocsr/utils.go. Both check
 equal lengths and one-sided inclusion; a pigeonhole argument says when that is a permutation.
 */
module ContainerPorts {
  import opened Strings

  datatype Port = Port(number: int, name: string, protocol: string)

  datatype PortKey = PortKey(number: int, name: string)

  function KeyOf(p: Port): PortKey {
    PortKey(p.number, p.name)
  }

  ghost function Keys(ports: seq<Port>): seq<PortKey> {
    seq(|ports|, i requires 0 <= i < |ports| => KeyOf(ports[i]))
  }

  ghost function Numbers(ports: seq<Port>): seq<int> {
    seq(|ports|, i requires 0 <= i < |ports| => ports[i].number)
  }

  /** What the nested loops compute, on any kind of key. */
  ghost predicate Covers<T>(covering: seq<T>, covered: seq<T>) {
    |covering| == |covered| && forall i :: 0 <= i < |covered| ==> covered[i] in covering
  }

  ghost predicate Permutation<T>(a: seq<T>, b: seq<T>) {
    multiset(a) == multiset(b)
  }

  /** Some port of the list has this number and this name. */
  ghost predicate HasPort(ports: seq<Port>, number: int, name: string) {
    exists k :: 0 <= k < |ports| && ports[k].number == number && ports[k].name == name
  }

  ghost predicate HasNumber(ports: seq<Port>, number: int) {
    exists k :: 0 <= k < |ports| && ports[k].number == number
  }

  /** Covering on keys, said on the ports themselves. */
  lemma CoversPorts(covering: seq<Port>, covered: seq<Port>)
    ensures Covers(Keys(covering), Keys(covered)) <==>
            |covered| == |covering| && forall i :: 0 <= i < |covered| ==> HasPort(covering, covered[i].number, covered[i].name)
  {
    forall i | 0 <= i < |covered|
      ensures Keys(covered)[i] in Keys(covering) <==> HasPort(covering, covered[i].number, covered[i].name)
    {
      if k :| 0 <= k < |covering| && covering[k].number == covered[i].number && covering[k].name == covered[i].name {
        assert Keys(covering)[k] == Keys(covered)[i];
      }
    }
  }

  lemma CoversNumbers(covering: seq<Port>, covered: seq<Port>)
    ensures Covers(Numbers(covering), Numbers(covered)) <==>
            |covered| == |covering| && forall i :: 0 <= i < |covered| ==> HasNumber(covering, covered[i].number)
  {
    forall i | 0 <= i < |covered|
      ensures Numbers(covered)[i] in Numbers(covering) <==> HasNumber(covering, covered[i].number)
    {
      if k :| 0 <= k < |covering| && covering[k].number == covered[i].number {
        assert Numbers(covering)[k] == Numbers(covered)[i];
      }
    }
  }

  method ContainerPortsMatch(desired: seq<Port>, existing: seq<Port>) returns (r: bool)
    ensures r <==> Covers(Keys(existing), Keys(desired))
    ensures r <==> |desired| == |existing| && forall i :: 0 <= i < |desired| ==> HasPort(existing, desired[i].number, desired[i].name)
  {
    CoversPorts(existing, desired);
    if |desired| != |existing| {
      return false;
    }
    for i := 0 to |desired|
      invariant forall j :: 0 <= j < i ==> Keys(desired)[j] in Keys(existing)
    {
      var matched := false;
      for k := 0 to |existing|
        invariant !matched
        invariant forall l :: 0 <= l < k ==> Keys(existing)[l] != Keys(desired)[i]
      {
        if desired[i].number == existing[k].number && desired[i].name == existing[k].name {
          matched := true;
          assert Keys(existing)[k] == Keys(desired)[i];
          break;
        }
      }
      if !matched {
        assert Keys(desired)[i] !in Keys(existing);
        return false;
      }
    }
    return true;
  }

  /** The istio-csr comparison walks the fetched ports and looks at numbers only. */
  method FetchedPortsMatch(desired: seq<Port>, fetched: seq<Port>) returns (r: bool)
    ensures r <==> Covers(Numbers(desired), Numbers(fetched))
    ensures r <==> |desired| == |fetched| && forall i :: 0 <= i < |fetched| ==> HasNumber(desired, fetched[i].number)
  {
    CoversNumbers(desired, fetched);
    if |desired| != |fetched| {
      return false;
    }
    for i := 0 to |fetched|
      invariant forall j :: 0 <= j < i ==> Numbers(fetched)[j] in Numbers(desired)
    {
      var matched := false;
      for k := 0 to |desired|
        invariant !matched
        invariant forall l :: 0 <= l < k ==> Numbers(desired)[l] != Numbers(fetched)[i]
      {
        if fetched[i].number == desired[k].number {
          matched := true;
          assert Numbers(desired)[k] == Numbers(fetched)[i];
          break;
        }
      }
      if !matched {
        assert Numbers(fetched)[i] !in Numbers(desired);
        return false;
      }
    }
    return true;
  }

  lemma SubMultisetOfSameSize<T>(a: multiset<T>, b: multiset<T>)
    requires a <= b && |a| == |b|
    ensures a == b
  {
    assert b == a + (b - a);
  }

  lemma PermutationCovers<T>(a: seq<T>, b: seq<T>)
    requires Permutation(a, b)
    ensures Covers(a, b)
  {
    assert |a| == |multiset(a)| && |b| == |multiset(b)|;
    forall i | 0 <= i < |b|
      ensures b[i] in a
    {
      assert b[i] in multiset(b);
    }
  }

  /** Pigeonhole: distinct keys that are all found in a list of the same length fill it. */
  lemma DistinctCoveredIsPermutation<T>(covering: seq<T>, covered: seq<T>)
    requires Distinct(covered)
    ensures Covers(covering, covered) <==> Permutation(covering, covered)
  {
    if Covers(covering, covered) {
      forall x | x in multiset(covered)
        ensures multiset(covered)[x] <= multiset(covering)[x]
      {
        DistinctOccursOnce(covered, x);
        assert x in covered && x in covering;
        assert x in multiset(covering);
      }
      SubMultisetOfSameSize(multiset(covered), multiset(covering));
    }
    if Permutation(covering, covered) {
      PermutationCovers(covering, covered);
    }
  }

  /** With distinct desired ports the trust-manager check is exact on (port, name). */
  lemma DesiredPortsExact(desired: seq<Port>, existing: seq<Port>)
    requires Distinct(Keys(desired))
    ensures Covers(Keys(existing), Keys(desired)) <==> Permutation(Keys(existing), Keys(desired))
  {
    DistinctCoveredIsPermutation(Keys(existing), Keys(desired));
  }

  /** With distinct fetched port numbers the istio-csr check is exact on numbers. */
  lemma FetchedPortsExact(desired: seq<Port>, fetched: seq<Port>)
    requires Distinct(Numbers(fetched))
    ensures Covers(Numbers(desired), Numbers(fetched)) <==> Permutation(Numbers(desired), Numbers(fetched))
  {
    DistinctCoveredIsPermutation(Numbers(desired), Numbers(fetched));
  }

  function Above(ports: seq<Port>): (n: int)
    ensures forall i :: 0 <= i < |ports| ==> ports[i].number < n
  {
    if ports == [] then 0
    else
      var rest := Above(ports[1..]);
      assert forall i :: 1 <= i < |ports| ==> ports[i] == ports[1..][i - 1];
      if ports[0].number < rest then rest else ports[0].number + 1
  }

  /**
   Distinctness is not only sufficient: a desired list with a repeated key is satisfied by
   some existing list that is no permutation of it.
   */
  lemma ExactForAllOnlyIfDistinct(desired: seq<Port>)
    ensures Distinct(Keys(desired))
            <==> forall existing: seq<Port> :: Covers(Keys(existing), Keys(desired)) ==> Permutation(Keys(existing), Keys(desired))
  {
    if Distinct(Keys(desired)) {
      forall existing: seq<Port> | Covers(Keys(existing), Keys(desired))
        ensures Permutation(Keys(existing), Keys(desired))
      {
        DesiredPortsExact(desired, existing);
      }
    } else {
      var i, j :| 0 <= i < j < |desired| && Keys(desired)[i] == Keys(desired)[j];
      var intruder := Port(Above(desired), "", "");
      var existing := desired[j := intruder];
      forall k | 0 <= k < |desired|
        ensures Keys(desired)[k] in Keys(existing)
      {
        assert Keys(existing)[if k == j then i else k] == Keys(desired)[k];
      }
      assert Covers(Keys(existing), Keys(desired));
      assert Keys(existing)[j] == KeyOf(intruder) && KeyOf(intruder) in multiset(Keys(existing));
      assert KeyOf(intruder) !in Keys(desired);
      assert KeyOf(intruder) !in multiset(Keys(desired));
    }
  }
}
