/** One-time tokens, as every signed message in the repository carries one. */
module Nonces {
  predicate IsNonceChar(c: char) {
    'A' <= c <= 'Z' || 'a' <= c <= 'z' || '0' <= c <= '9' || c == '_' || c == '-'
  }

  predicate WellFormedNonce(nonce: string) {
    20 <= |nonce| <= 128 && forall i :: 0 <= i < |nonce| ==> IsNonceChar(nonce[i])
  }

  /** The nonces still remembered at `now`, when each is kept for `windowMs` after it was seen. */
  function Remembered(seen: map<string, int>, windowMs: int, now: int): map<string, int> {
    map n | n in seen && now - seen[n] <= windowMs :: seen[n]
  }
}
