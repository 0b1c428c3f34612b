/** The placeholder password scheme of `get_password_hash` and `verify_password`:
    keep the first 50 characters, append a fixed salt, hash. The hash (hex
    SHA-256 of the UTF-8 encoding) is a parameter of every member here; nothing
    is assumed about it, in particular not that it is injective. */
module Passwords {

  /** Hex digest of the UTF-8 encoding of a string. */
  type Digest = string -> string

  const MaxPasswordLength: nat := 50
  const Salt: string := "paquexpress_salt_2024"

  /** `password[:50]`. */
  function Truncate(password: string): (r: string)
    ensures |r| == if |password| < MaxPasswordLength then |password| else MaxPasswordLength
    ensures r <= password
  {
    if |password| <= MaxPasswordLength then password else password[..MaxPasswordLength]
  }

  function HashPassword(sha: Digest, password: string): string {
    sha(Truncate(password) + Salt)
  }

  predicate VerifyPassword(sha: Digest, plain: string, hashed: string) {
    sha(Truncate(plain) + Salt) == hashed
  }

  lemma TruncateIdempotent(password: string)
    ensures Truncate(Truncate(password)) == Truncate(password)
  {
  }

  /** A password always verifies against its own hash. */
  lemma VerifyOwnHash(sha: Digest, password: string)
    ensures VerifyPassword(sha, password, HashPassword(sha, password))
  {
  }

  /** Only the first 50 characters of a password matter: two passwords that
      agree on them have the same hash, and each verifies against the other's. */
  lemma SamePrefixIndistinguishable(sha: Digest, p: string, q: string)
    requires |p| >= MaxPasswordLength && |q| >= MaxPasswordLength
    requires p[..MaxPasswordLength] == q[..MaxPasswordLength]
    ensures HashPassword(sha, p) == HashPassword(sha, q)
    ensures VerifyPassword(sha, q, HashPassword(sha, p))
  {
    assert Truncate(p) == p[..MaxPasswordLength];
    assert Truncate(q) == q[..MaxPasswordLength];
  }
}
