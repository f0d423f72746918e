/** The two chain slots, the two parties and the two kinds of spend (coordinator/swap.js). */
module Legs {
  datatype Leg = Btc | Qbit

  /** Every swap is btc2qbt: the initiator funds FROM and claims TO. */
  const FROM: Leg := Btc
  const TO: Leg := Qbit

  datatype Role = Alice | Bob

  datatype Kind = Claim | Refund

  /** One value per leg. */
  datatype Per<T> = Per(btc: T, qbit: T) {
    function Of(leg: Leg): T {
      if leg == Btc then btc else qbit
    }

    function With(leg: Leg, value: T): Per<T> {
      if leg == Btc then this.(btc := value) else this.(qbit := value)
    }
  }

  /** Which leg a party's claim or refund spends: Alice claims TO and refunds FROM, Bob the other way round. */
  function LegOf(role: Role, kind: Kind): Leg {
    if (role == Alice) == (kind == Claim) then TO else FROM
  }
}
