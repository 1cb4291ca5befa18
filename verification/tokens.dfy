/**
 The credential bundle the refresh exchange produces. The `Token` struct is
 declared outside the refresh module; only the fields the exchange writes are
 modelled here, with Rust's `i64` as a bounded subset of `int`.
 */
module Tokens {
  import opened Wrappers

  /** True when `x` is representable as an `i64`. */
  predicate InI64(x: int) {
    -0x8000_0000_0000_0000 <= x < 0x8000_0000_0000_0000
  }

  /** Rust's `i64`. */
  type I64 = x: int | InI64(x)

  /**
   An OAuth2 token. `expires_in` is the relative lifetime in seconds as the
   server reported it; `expires_in_timestamp` is the absolute expiry instant in
   seconds since the Unix epoch.
   */
  datatype Token = Token(
    access_token: string,
    token_type: string,
    refresh_token: string,
    expires_in: Option<I64>,
    expires_in_timestamp: Option<I64>)

  /**
   Exactly one expiry representation is authoritative: the absolute instant is
   set and the relative lifetime is not.
   */
  predicate HasAbsoluteExpiry(t: Token) {
    t.expires_in.None? && t.expires_in_timestamp.Some?
  }
}
