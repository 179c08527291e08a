/** Shared vocabulary: options and the text of numbers. */
module Basics {
  datatype Option<+T> = None | Some(value: T)

  function NatText(n: nat): string {
    if n < 10 then [(n as char) + '0'] else NatText(n / 10) + [((n % 10) as char) + '0']
  }

  function IntText(n: int): string {
    if n < 0 then "-" + NatText(-n) else NatText(n)
  }
}
