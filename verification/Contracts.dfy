/** Records and small helpers shared by every component.

    `stable_id` is modelled as an ideal hash: every identifier it builds is a value of a
    datatype whose constructor arguments are the hashed parts, so it is injective by
    construction. Prices, quantities and money are `real`; instants are `int`. */
module Contracts {

  datatype Option<+T> = None | Some(value: T)

  /** The exception classes the modelled operations raise. */
  datatype Error = ValueError | PermissionError | LookupError | WriteError

  datatype Result<+T> = Ok(value: T) | Err(error: Error)

  /** Seconds of a UTC day. */
  const DAY := 86400

  datatype Market = Nse | Forex | Crypto

  /** `ABSTAIN` never reaches the modelled code: intents and signals reject it on construction. */
  datatype Action = Buy | Sell

  function Opposite(action: Action): Action {
    if action.Buy? then Sell else Buy
  }

  function Abs(x: real): (r: real)
    ensures r >= 0.0 && (r == x || r == -x)
  {
    if x < 0.0 then -x else x
  }

  function Min(x: real, y: real): real {
    if x <= y then x else y
  }

  function Max(x: real, y: real): real {
    if x >= y then x else y
  }

  /** The quantity an order of `action` adds to a signed position. */
  function Signed(action: Action, quantity: real): real {
    if action.Buy? then quantity else -quantity
  }

  /** White space in the sense of `str.strip`, restricted to ASCII. */
  predicate IsSpace(c: char) {
    c in {' ', '\t', '\n', '\r'}
  }

  /** `not text.strip()` */
  predicate Blank(text: string) {
    forall i :: 0 <= i < |text| ==> IsSpace(text[i])
  }

  lemma {:induction false} SubsetSize<K>(a: set<K>, b: set<K>)
    requires a <= b
    ensures |a| <= |b|
  {
    assert b == a + (b - a);
  }
}
