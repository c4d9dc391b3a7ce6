/** The cells of the access matrix, from `g02_isolation.py`. */
module AccessContract {
  import opened Prelude
  import opened Json

  // ---------------------------------------------------------------------------------------------
  // The access cells.

  datatype Contract = Contract(cellId: string, target: string, probe: string, expectedAllow: bool) {
    function Fields(): Document {
      map["cell_id" := Text(cellId), "target" := Text(target), "probe" := Text(probe), "expected_allow" := Flag(expectedAllow)]
    }
  }

  /** Which probe may reach which target. */
  predicate ExpectedAllow(target: string, probe: string) {
    || probe == "canonical-owner"
    || (probe == "baseline-agent" && "obs:" <= target)
    || (probe == "cross-boundary" && target == "s3:g02/trials/")
  }

  function ContractOf(target: string, probe: string): Contract {
    Contract(target + "|" + probe, target, probe, ExpectedAllow(target, probe))
  }

  lemma {:induction false} CellIdsDiffer(a: string, p: string, b: string, q: string)
    requires '|' !in a && '|' !in b && a + "|" + p == b + "|" + q
    ensures a == b && p == q
    decreases |a|
  {
    var left, right := a + "|" + p, b + "|" + q;
    if a == "" || b == "" {
      assert left[0] == right[0];
      assert left[1..] == right[1..];
      assert a == "" && b == "" && left[1..] == p && right[1..] == q;
    } else {
      assert left[0] == a[0] && right[0] == b[0];
      assert left[1..] == a[1..] + "|" + p && right[1..] == b[1..] + "|" + q;
      CellIdsDiffer(a[1..], p, b[1..], q);
      assert a == [a[0]] + a[1..] && b == [b[0]] + b[1..];
    }
  }

  /** Contracts of cells, no identifier twice. */
  ghost predicate CellContracts(contracts: seq<Contract>) {
    && (forall i | 0 <= i < |contracts| ::
          contracts[i] == ContractOf(contracts[i].target, contracts[i].probe) && '|' !in contracts[i].target)
    && (forall i, j | 0 <= i < j < |contracts| :: contracts[i].cellId != contracts[j].cellId)
  }

  lemma {:induction false} OneMoreCell(contracts: seq<Contract>, target: string, probe: string)
    requires CellContracts(contracts) && '|' !in target
    requires forall i | 0 <= i < |contracts| :: contracts[i].target != target || contracts[i].probe != probe
    ensures CellContracts(contracts + [ContractOf(target, probe)])
  {
    forall i | 0 <= i < |contracts|
      ensures contracts[i].cellId != target + "|" + probe
    {
      if contracts[i].cellId == target + "|" + probe {
        CellIdsDiffer(contracts[i].target, contracts[i].probe, target, probe);
      }
    }
  }

  /** The probes a target lets through, by its kind. */
  ghost function Admitted(target: string): set<string> {
    set probe | probe in {"canonical-owner", "baseline-agent", "ordinary-developer", "cross-boundary"} && ExpectedAllow(target, probe)
  }

  /**
   * A schema and an ordinary prefix let their owner through alone; an observability target the baseline
   * agent as well; the trial prefix the cross-boundary probe as well.
   */
  lemma {:induction false} AdmittedProbes(name: string)
    ensures Admitted("schema:" + name) == {"canonical-owner"}
    ensures Admitted("s3:g02/" + name + "/") == if name == "trials" then {"canonical-owner", "cross-boundary"} else {"canonical-owner"}
    ensures Admitted("obs:" + name) == {"canonical-owner", "baseline-agent"}
  {
    var schema, prefix, observed := "schema:" + name, "s3:g02/" + name + "/", "obs:" + name;
    assert schema[0] == 's' && schema[1] == 'c' && prefix[0] == 's' && prefix[1] == '3' && observed[0] == 'o' && observed[..4] == "obs:";
    assert schema != "s3:g02/trials/" && observed != "s3:g02/trials/";
    assert prefix[7..|prefix| - 1] == name;
    assert "s3:g02/trials/"[7..13] == "trials" && "s3:g02/" + "trials" + "/" == "s3:g02/trials/";
  }

  /** `access_cell_contract`: one cell for each target and probe, under distinct identifiers. */
  method AccessCellContract(targets: seq<string>, probes: seq<string>) returns (contracts: seq<Contract>)
    requires Distinct(targets) && Distinct(probes) && forall i | 0 <= i < |targets| :: '|' !in targets[i]
    ensures CellContracts(contracts)
    ensures forall x | x in contracts :: x.target in targets && x.probe in probes
    ensures forall t, p | t in targets && p in probes :: ContractOf(t, p) in contracts
  {
    contracts := [];
    for i := 0 to |targets|
      invariant CellContracts(contracts)
      invariant forall x | x in contracts :: x.target in targets[..i] && x.probe in probes
      invariant forall t, p | t in targets[..i] && p in probes :: ContractOf(t, p) in contracts
    {
      assert targets[i] !in targets[..i];
      for j := 0 to |probes|
        invariant CellContracts(contracts)
        invariant forall x | x in contracts ::
                    (x.target in targets[..i] && x.probe in probes) || (x.target == targets[i] && x.probe in probes[..j])
        invariant forall t, p | t in targets[..i] && p in probes :: ContractOf(t, p) in contracts
        invariant forall p | p in probes[..j] :: ContractOf(targets[i], p) in contracts
      {
        assert probes[j] !in probes[..j];
        forall k | 0 <= k < |contracts|
          ensures contracts[k].target != targets[i] || contracts[k].probe != probes[j]
        {
          assert contracts[k] in contracts;
        }
        OneMoreCell(contracts, targets[i], probes[j]);
        contracts := contracts + [ContractOf(targets[i], probes[j])];
        assert probes[..j + 1] == probes[..j] + [probes[j]];
      }
      assert probes[..|probes|] == probes;
      assert targets[..i + 1] == targets[..i] + [targets[i]];
    }
    assert targets[..|targets|] == targets;
  }
}
