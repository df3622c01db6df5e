/**
 * What the login and OTP screens share: the encrypted exchange with the
 * server, and the five session keys written after "Login successful".
 * AES encryption is symbolic: a sealed payload decrypts to exactly what was
 * sealed, and a payload that does not decrypt to JSON makes `decryptData`
 * throw.
 */
module Session {
  import opened Wrappers
  import opened Json

  /** An `encryptedData` string, by what it decrypts to. */
  datatype Cipher = Sealed(plain: Obj) | Unreadable

  /** `encryptData(x)`. */
  function Encrypt(x: Obj): Cipher {
    Sealed(x)
  }

  /** `decryptData(c)`: `None` where it throws. */
  function Decrypt(c: Cipher): (r: Option<Obj>)
    ensures c.Sealed? <==> r.Some?
  {
    match c
    case Sealed(x) => Some(x)
    case Unreadable => None
  }

  lemma DecryptEncrypt(x: Obj)
    ensures Decrypt(Encrypt(x)) == Some(x)
  {
  }

  /** `axios.post(path, { encryptedData: encryptData(plain) })`. */
  datatype SealedPost = SealedPost(path: string, plain: Obj)

  /**
   * How an encrypted call ended: answered with `response.data.encryptedData`,
   * or rejected, with the error body's `encryptedData` when it is truthy.
   */
  datatype AuthReply = Answered(data: Cipher) | Rejected(sealed: Option<Cipher>)

  const LoginSuccessful := "Login successful"

  /** The session keys and the response fields they are written from. */
  const SessionKeys: seq<(string, string)> :=
    [("token", "token"), ("userid", "id"), ("emailid", "email"), ("mobileno", "mobile"), ("name", "name")]

  /**
   * The five `localStorage.setItem` calls after "Login successful", each
   * storing `String` of its response field.
   */
  function StoreSession(items: map<string, string>, d: Obj): (r: map<string, string>)
    ensures r.Keys == items.Keys + {"token", "userid", "emailid", "mobileno", "name"}
    ensures forall i :: 0 <= i < |SessionKeys| ==> r[SessionKeys[i].0] == ToText(Get(d, SessionKeys[i].1))
    ensures forall k :: k in items && k !in {"token", "userid", "emailid", "mobileno", "name"} ==> r[k] == items[k]
  {
    items["token" := ToText(Get(d, "token"))]["userid" := ToText(Get(d, "id"))]
      ["emailid" := ToText(Get(d, "email"))]["mobileno" := ToText(Get(d, "mobile"))]
      ["name" := ToText(Get(d, "name"))]
  }

  /**
   * The text the catch block shows: the decrypted server message when the
   * error body carries `encryptedData`, `fallback` otherwise; `None` where
   * decrypting it throws out of the handler.
   */
  function RejectionText(sealed: Option<Cipher>, fallback: string): (t: Option<Value>)
    ensures sealed.None? ==> t == Some(Str(fallback))
    ensures sealed.Some? && sealed.value.Sealed? ==> t == Some(Get(sealed.value.plain, "message"))
    ensures t.None? <==> sealed == Some(Unreadable)
  {
    match sealed
    case None => Some(Str(fallback))
    case Some(c) =>
      match Decrypt(c)
      case None => None
      case Some(d) => Some(Get(d, "message"))
  }
}
