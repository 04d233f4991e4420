// What every part of the model shares: optional values and contract addresses.
module Common {
  datatype Option<+T> = None | Some(value: T)

  type Addr = nat

  const ZERO: Addr := 0
}
