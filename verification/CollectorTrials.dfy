/** The trial names of the collectors: distinct for all units, so that every registered configuration is valid. */
module CollectorTrials {
  import opened Prelude
  import opened AccessContract
  import opened Collectors

  function DigitChar(d: nat): char
    requires d < 10
  {
    '0' + d as char
  }

  function Decimal(n: nat): (text: string)
    ensures text != ""
  {
    if n < 10 then [DigitChar(n)] else Decimal(n / 10) + [DigitChar(n % 10)]
  }

  /** `f"{n:02d}"`. */
  function Padded(n: nat): string {
    if n < 10 then "0" + Decimal(n) else Decimal(n)
  }

  /** The number a text of digits stands for. */
  function Parsed(text: string): int {
    if text == "" then 0 else 10 * Parsed(text[..|text| - 1]) + (text[|text| - 1] as int - '0' as int)
  }

  lemma {:induction false} DecimalReadsBack(n: nat)
    ensures Parsed(Decimal(n)) == n && '0' <= Decimal(n)[0] <= '9'
    decreases n
  {
    var text := Decimal(n);
    if n < 10 {
      assert text[..0] == "";
    } else {
      DecimalReadsBack(n / 10);
      assert text[..|text| - 1] == Decimal(n / 10);
    }
  }

  lemma {:induction false} PaddedReadsBack(n: nat)
    ensures Parsed(Padded(n)) == n && Padded(n) != "" && '0' <= Padded(n)[0] <= '9'
  {
    DecimalReadsBack(n);
    if n < 10 {
      assert Padded(n)[..1] == "0" && "0"[..0] == "";
    }
  }

  function TrialId(u: Unit): string {
    match u
    case Provisioning => "g02-provisioning"
    case Access(i) => "access-" + Padded(i + 1)
    case CanaryCollection => "canary-collection"
    case Canary(i) => "canary-" + Padded(i + 1)
  }

  lemma {:induction false} TrialIdsDiffer(a: Unit, b: Unit)
    requires TrialId(a) == TrialId(b)
    ensures a == b
  {
    var x, y := TrialId(a), TrialId(b);
    assert x[0] == y[0];
    if a.Access? {
      PaddedReadsBack(a.cell + 1);
      PaddedReadsBack(b.cell + 1);
      assert x[7..] == Padded(a.cell + 1) && y[7..] == Padded(b.cell + 1);
    } else if !a.Provisioning? {
      SuffixTells(a);
      SuffixTells(b);
    }
  }

  lemma {:induction false} SuffixTells(u: Unit)
    requires u.Canary? || u.CanaryCollection?
    ensures |TrialId(u)| > 7
    ensures u.CanaryCollection? ==> TrialId(u)[7] == 'c'
    ensures u.Canary? ==> TrialId(u)[7] <= '9' && Parsed(TrialId(u)[7..]) == u.surface + 1
  {
    if u.Canary? {
      PaddedReadsBack(u.surface + 1);
      assert TrialId(u)[7..] == Padded(u.surface + 1);
    }
  }

  /** Any contract of distinct cells and any distinct surfaces, under these names, are a valid configuration. */
  lemma {:induction false} RegisteredConfigIsValid(contracts: seq<Contract>, surfaces: seq<string>)
    requires CellContracts(contracts) && Distinct(surfaces)
    ensures Valid(Config(contracts, surfaces, TrialId))
  {
    forall a: Unit, b: Unit | TrialId(a) == TrialId(b)
      ensures a == b
    {
      TrialIdsDiffer(a, b);
    }
  }
}
