/** Contract symbols and point multipliers: futur3/execution/risk_manager.py. */
module Contracts {
  import opened Wrappers

  /** `<root><month code><2-digit year>`, for example "ESM26". */
  type Contract = string

  const SYMBOL_SUFFIX_LEN := 3

  function ContractRoot(c: Contract): Option<string> {
    if |c| <= SYMBOL_SUFFIX_LEN then None else Some(c[..|c| - SYMBOL_SUFFIX_LEN])
  }

  const ROOTS := 26

  /** USD per unit price move, by contract root. */
  function ContractMultiplier(i: nat): (string, real) {
    match i
    case 0 => ("ES", 50.0)
    case 1 => ("MES", 5.0)
    case 2 => ("NQ", 20.0)
    case 3 => ("MNQ", 2.0)
    case 4 => ("CL", 1000.0)
    case 5 => ("MCL", 100.0)
    case 6 => ("GC", 100.0)
    case 7 => ("MGC", 10.0)
    case 8 => ("MBT", 0.1)
    case 9 => ("MET", 0.1)
    case 10 => ("YM", 5.0)
    case 11 => ("RTY", 50.0)
    case 12 => ("6E", 125000.0)
    case 13 => ("6A", 100000.0)
    case 14 => ("ZN", 1000.0)
    case 15 => ("ZB", 1000.0)
    case 16 => ("6J", 12500000.0)
    case 17 => ("6B", 62500.0)
    case 18 => ("6C", 100000.0)
    case 19 => ("6S", 125000.0)
    case 20 => ("HG", 25000.0)
    case 21 => ("SI", 5000.0)
    case 22 => ("ZT", 2000.0)
    case 23 => ("ZF", 1000.0)
    case 24 => ("UB", 1000.0)
    case _ => ("NKD", 5.0)
  }

  function Lookup(root: string, n: nat): Option<real> {
    if n == 0 then None
    else if ContractMultiplier(n - 1).0 == root then Some(ContractMultiplier(n - 1).1)
    else Lookup(root, n - 1)
  }

  function MultiplierFor(c: Contract): Option<real> {
    match ContractRoot(c)
    case Some(root) => Lookup(root, ROOTS)
    case None => None
  }

  lemma {:induction false} LookupPositive(root: string, n: nat)
    ensures Lookup(root, n).Some? ==> Lookup(root, n).value > 0.0
  {
    if n > 0 {
      LookupPositive(root, n - 1);
    }
  }

  lemma MultiplierPositive(c: Contract)
    ensures MultiplierFor(c).Some? ==> MultiplierFor(c).value > 0.0
  {
    if ContractRoot(c).Some? {
      LookupPositive(ContractRoot(c).value, ROOTS);
    }
  }
}
