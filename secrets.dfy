/** secrets/secrets.go: the no-op secrets backend. */
module Secrets {

  /** `Noop.Encrypt` hands back the data it receives. */
  function Encrypt(data: string): (r: string)
    ensures r == data
  {
    data
  }

  /** `Noop.Decrypt` hands back the data it receives. */
  function Decrypt(data: string): (r: string)
    ensures r == data
  {
    data
  }

  /** Decrypting what was encrypted gives the original back. */
  lemma RoundTrip(data: string)
    ensures Decrypt(Encrypt(data)) == data
  {
  }

  /** Encrypting twice is the same as encrypting once. */
  lemma EncryptIdempotent(data: string)
    ensures Encrypt(Encrypt(data)) == Encrypt(data)
  {
  }
}
