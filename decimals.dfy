/** The balance type shared by the gateway and the console. */
module Decimals {

  /**
   * An abstract stand-in for the JavaScript number that carries a balance.
   * The core does no arithmetic on balances; IEEE rounding, infinities and
   * NaN are not represented.
   */
  type Decimal = real
}
