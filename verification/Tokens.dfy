// The identity and token checks that the cell's contracts share: recreate_core.go and
// fleet_lifecycle_routes.go of pulp-cell.
module Tokens {
  import opened Text

  predicate TokenChar(c: char) {
    'a' <= c <= 'z' || 'A' <= c <= 'Z' || '0' <= c <= '9' || c in "-_.:"
  }

  // validRecreateToken
  predicate ValidToken(value: string) {
    0 < |value| <= 256 && forall c :: c in value ==> TokenChar(c)
  }

  predicate IsControl(c: char) {
    c < ' ' || '\U{7F}' <= c < '\U{A0}'
  }

  predicate HasDoubleDot(s: string) {
    exists i :: 0 <= i < |s| - 1 && s[i] == '.' && s[i + 1] == '.'
  }

  // validFleetEffectIdentity
  predicate ValidEffectIdentity(value: string) {
    0 < |value| <= 256 && Trimmed(value) && forall c :: c in value ==> !IsControl(c)
  }

  // validFleetIdentity
  predicate ValidIdentity(value: string) {
    ValidEffectIdentity(value) && !HasDoubleDot(value) && '/' !in value && '\\' !in value
  }
}
