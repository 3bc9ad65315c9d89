/** Characters as bytes. */
module Bytes {

  /** `tolower` on the capital letters. */
  function Lower(b: nat): nat {
    if 65 <= b <= 90 then b + 32 else b
  }
}
