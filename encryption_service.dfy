/**
 * The encryption service: the chat-key (AES-GCM) wrappers the encryption
 * context uses, the ECDH message and file wrappers, the password-based
 * storage encryption, and the two loops converting between byte buffers and
 * base64 text.
 *
 * Every wrapper catches its errors and falls back to a fixed value, except
 * decryptFromStorage, which lets them escape (modelled as Err). Randomness
 * (getRandomValues, generateKey) is a parameter: a function from position
 * to byte, or a secret string for ECDH key pairs.
 */
module EncryptionService {
  import opened Common
  import opened WebCrypto

  const ALGORITHM: string := "AES-GCM"
  const KEY_LENGTH: nat := 256
  const IV_LENGTH: nat := 12
  const SALT_LENGTH: nat := 16
  const PBKDF2_ITERATIONS: nat := 100000
  const PBKDF2_HASH: string := "SHA-256"

  /** The placeholders the decrypting wrappers show instead of throwing. */
  const UNABLE_TO_DECRYPT: string := "[Unable to decrypt message]"
  const ENCRYPTED_PLACEHOLDER: string := "[Encrypted message]"

  /** A source of random bytes, as crypto.getRandomValues reads them. */
  type Random = nat -> Byte

  /**
   * A message value as stored and passed around: null/undefined, a plain
   * string, or an object {encrypted, text, iv, data} whose fields may be
   * missing (None).
   */
  datatype Payload =
    | Absent
    | Str(s: string)
    | Obj(encrypted: bool, text: Option<string>, iv: Option<string>, data: Option<string>)

  /** What a decrypting call returns: a string, or (for `text || obj`) the object itself. */
  datatype Shown = Text(s: string) | Value(p: Payload)

  datatype File = File(bytes: seq<Byte>, mimeType: string, name: string)
  datatype Blob = Blob(bytes: seq<Byte>, mimeType: string)

  /**
   * The result of encrypting a file: the encrypted blob with its metadata
   * (the service also returns the IV in base64; the context frames it into
   * the blob instead), or {blob: file, encrypted: false}.
   */
  datatype FileEnvelope =
    | Sealed(blob: Blob, iv: Option<string>, originalType: string, originalName: string)
    | Unsealed(file: File)

  /** The object encryptForStorage returns: three base64 strings. */
  datatype StoredSecret = StoredSecret(salt: string, iv: string, data: string)

  /** The plaintext fallback {encrypted: false, text: message}. */
  function PlainPayload(message: string): (p: Payload)
    ensures p.Obj? && !p.encrypted && p.text == Some(message)
  {
    Obj(false, Some(message), None, None)
  }

  /** `obj.encrypted` is truthy. */
  predicate IsEncrypted(p: Payload)
  {
    p.Obj? && p.encrypted
  }


  /**
   * `obj?.text || obj || ''`: the text field when it is a non-empty string,
   * otherwise the value itself, and '' for null or an empty string.
   */
  function TextOrValue(p: Payload): (r: Shown)
    ensures p.Obj? && Truthy(p.text) ==> r == Text(p.text.value)
    ensures p.Obj? && !Truthy(p.text) ==> r == Value(p)
    ensures !p.Obj? ==> r.Text?
  {
    match p
    case Absent => Text("")
    case Str(s) => Text(s)
    case Obj(_, text, _, _) => if Truthy(text) then Text(text.value) else Value(p)
  }

  /** atob of a field; a missing field is converted to the string "undefined" first. */
  function FieldBytes(field: Option<string>): Option<seq<Byte>>
  {
    Base64Decode(match field case Some(s) => s case None => "undefined")
  }

  // ---------------------------------------------------------------- randomness and keys

  /** generateIV: twelve random bytes. */
  function GenerateIV(random: Random): (iv: seq<Byte>)
    ensures |iv| == IV_LENGTH
    ensures forall i :: 0 <= i < IV_LENGTH ==> iv[i] == random(i)
  {
    seq(IV_LENGTH, i requires 0 <= i < IV_LENGTH => random(i))
  }

  /** generateChatKey: a fresh 256-bit AES-GCM key exported as JWK text. */
  function GenerateChatKey(random: Random): (jwk: string)
    ensures ImportAesJwk(jwk).Some?
  {
    ExportAesJwk(seq(KEY_LENGTH / 8, i requires 0 <= i < KEY_LENGTH / 8 => random(i)))
  }

  /** generateKeyPair: an ECDH P-256 pair exported as two JWK texts. */
  function GenerateKeyPair(secret: string): (pair: KeyPair)
    ensures forall other: string {:trigger PublicJwk(other)} ::
      DeriveSharedKey(pair.privateKey, PublicJwk(other)).Some? &&
      DeriveSharedKey(pair.privateKey, PublicJwk(other)) == DeriveSharedKey(PrivateJwk(other), pair.publicKey)
  {
    forall other: string ensures DeriveSharedKey(PrivateJwk(secret), PublicJwk(other)).Some? &&
      DeriveSharedKey(PrivateJwk(secret), PublicJwk(other)) == DeriveSharedKey(PrivateJwk(other), PublicJwk(secret)) {
      SharedKeyAgrees(secret, other);
    }
    KeyPair(PublicJwk(secret), PrivateJwk(secret))
  }

  // ---------------------------------------------------------------- the two loops

  /** arrayBufferToBase64: one character per byte, then btoa. */
  method ArrayBufferToBase64(buffer: array<Byte>) returns (base64: string)
    ensures base64 == Base64Encode(buffer[..])
    ensures Base64Decode(base64) == Some(buffer[..])
  {
    var binary := "";
    for i := 0 to buffer.Length
      invariant |binary| == i
      invariant forall j :: 0 <= j < i ==> binary[j] as int == buffer[j]
    {
      binary := binary + [buffer[i] as char];
    }
    assert BinaryToBytes(binary) == buffer[..];
    base64 := Btoa(binary).value;
    Base64RoundTrip(buffer[..]);
  }

  /** base64ToArrayBuffer: atob, then one byte per character; None where strict decoding fails. */
  method Base64ToArrayBuffer(base64: string) returns (r: Option<array<Byte>>)
    ensures r.None? <==> Base64Decode(base64).None?
    ensures r.Some? ==> fresh(r.value) && Some(r.value[..]) == Base64Decode(base64)
  {
    var binary := Atob(base64);
    if binary.None? {
      return None;
    }
    var text := binary.value;
    var bytes := new Byte[|text|];
    for i := 0 to |text|
      invariant forall j :: 0 <= j < i ==> bytes[j] == text[j] as int
    {
      bytes[i] := text[i] as int;
    }
    assert bytes[..] == BinaryToBytes(text);
    assert BinaryToBytes(text) == Base64Decode(base64).value;
    r := Some(bytes);
  }

  // ---------------------------------------------------------------- chat-key wrappers

  /** encryptWithChatKey: {encrypted: true, iv, data} in base64, or the plaintext fallback when the key cannot be imported. */
  function EncryptWithChatKey(message: string, chatKey: string, random: Random): (p: Payload)
    ensures p.Obj? && (p.encrypted <==> ImportAesJwk(chatKey).Some?)
    ensures !p.encrypted ==> p == PlainPayload(message)
    ensures p.encrypted ==> p.text.None? && FieldBytes(p.iv) == Some(GenerateIV(random))
    ensures p.encrypted ==> FieldBytes(p.data).Some? && |FieldBytes(p.data).value| == 3 * |message| + TAG_LENGTH
  {
    match ImportAesJwk(chatKey)
    case None => PlainPayload(message)
    case Some(key) =>
      var iv := GenerateIV(random);
      var ct := Seal(key, iv, TextEncode(message));
      Base64RoundTrip(iv);
      Base64RoundTrip(ct);
      Obj(true, None, Some(Base64Encode(iv)), Some(Base64Encode(ct)))
  }

  /** The decrypting steps of a wrapper; None wherever one of them throws. */
  function OpenPayload(p: Payload, key: AesKey): Option<string>
    requires p.Obj?
  {
    match (FieldBytes(p.iv), FieldBytes(p.data))
    case (Some(iv), Some(ct)) =>
      (match Open(key, iv, ct)
       case Some(plain) => Some(TextDecode(plain))
       case None => None)
    case _ => None
  }

  /** decryptWithChatKey: passthrough for unencrypted values, "[Encrypted message]" on any failure. */
  function DecryptWithChatKey(p: Payload, chatKey: string): (r: Shown)
    ensures !IsEncrypted(p) ==> r == TextOrValue(p)
    ensures IsEncrypted(p) ==> r.Text?
    ensures IsEncrypted(p) && ImportAesJwk(chatKey).None? ==> r == Text(ENCRYPTED_PLACEHOLDER)
    ensures IsEncrypted(p) && ImportAesJwk(chatKey).Some? && OpenPayload(p, ImportAesJwk(chatKey).value).None?
      ==> r == Text(ENCRYPTED_PLACEHOLDER)
  {
    if !IsEncrypted(p) then TextOrValue(p)
    else
      match ImportAesJwk(chatKey)
      case None => Text(ENCRYPTED_PLACEHOLDER)
      case Some(key) =>
        match OpenPayload(p, key)
        case Some(text) => Text(text)
        case None => Text(ENCRYPTED_PLACEHOLDER)
  }

  /**
   * Encrypting and then decrypting with the same chat key gives the message
   * back; when the key cannot be imported, the plaintext fallback gives it back
   * unless the message is empty (then `text || obj` yields the object).
   */
  lemma ChatKeyRoundTrip(message: string, chatKey: string, random: Random)
    ensures ImportAesJwk(chatKey).Some? ==>
      DecryptWithChatKey(EncryptWithChatKey(message, chatKey, random), chatKey) == Text(message)
    ensures ImportAesJwk(chatKey).None? && message != "" ==>
      DecryptWithChatKey(EncryptWithChatKey(message, chatKey, random), chatKey) == Text(message)
    ensures ImportAesJwk(chatKey).None? && message == "" ==>
      DecryptWithChatKey(EncryptWithChatKey(message, chatKey, random), chatKey) == Value(PlainPayload(""))
  {
    if ImportAesJwk(chatKey).Some? {
      var key := ImportAesJwk(chatKey).value;
      var iv := GenerateIV(random);
      var plain := TextEncode(message);
      var ct := Seal(key, iv, plain);
      var p := EncryptWithChatKey(message, chatKey, random);
      Base64RoundTrip(iv);
      Base64RoundTrip(ct);
      assert FieldBytes(p.iv) == Some(iv) && FieldBytes(p.data) == Some(ct);
      OpenSeal(key, iv, plain);
      TextRoundTrip(message);
      assert OpenPayload(p, key) == Some(message);
    }
  }

  // ---------------------------------------------------------------- ECDH message and file wrappers

  /** encryptMessage (ECDH): like the chat-key wrapper, with the key derived from the two parties' keys. */
  function EncryptMessage(message: string, myPrivateKey: string, recipientPublicKey: string, random: Random): (p: Payload)
    ensures p.Obj? && (p.encrypted <==> DeriveSharedKey(myPrivateKey, recipientPublicKey).Some?)
    ensures !p.encrypted ==> p == PlainPayload(message)
    ensures p.encrypted ==> p.text.None? && FieldBytes(p.iv) == Some(GenerateIV(random))
  {
    match DeriveSharedKey(myPrivateKey, recipientPublicKey)
    case None => PlainPayload(message)
    case Some(key) =>
      var iv := GenerateIV(random);
      Base64RoundTrip(iv);
      Obj(true, None, Some(Base64Encode(iv)), Some(Base64Encode(Seal(key, iv, TextEncode(message)))))
  }

  /**
   * decryptMessage (ECDH): `obj.text || obj` for an unencrypted value and
   * "[Unable to decrypt message]" on any failure, including a null value,
   * whose `.encrypted` throws.
   */
  function DecryptMessage(p: Payload, myPrivateKey: string, senderPublicKey: string): (r: Shown)
    ensures p.Absent? ==> r == Text(UNABLE_TO_DECRYPT)
    ensures p.Str? ==> r == Text(p.s)
    ensures p.Obj? && !p.encrypted ==> r == TextOrValue(p)
    ensures IsEncrypted(p) && DeriveSharedKey(myPrivateKey, senderPublicKey).None? ==> r == Text(UNABLE_TO_DECRYPT)
    ensures IsEncrypted(p) && DeriveSharedKey(myPrivateKey, senderPublicKey).Some? &&
            OpenPayload(p, DeriveSharedKey(myPrivateKey, senderPublicKey).value).None?
            ==> r == Text(UNABLE_TO_DECRYPT)
  {
    match p
    case Absent => Text(UNABLE_TO_DECRYPT)
    case Str(s) => Text(s)
    case Obj(encrypted, _, _, _) =>
      if !encrypted then TextOrValue(p)
      else
        match DeriveSharedKey(myPrivateKey, senderPublicKey)
        case None => Text(UNABLE_TO_DECRYPT)
        case Some(key) =>
          match OpenPayload(p, key)
          case Some(text) => Text(text)
          case None => Text(UNABLE_TO_DECRYPT)
  }

  /** A message encrypted by one party for another decrypts, on the other side, to the message. */
  lemma EcdhRoundTrip(message: string, sender: string, recipient: string, random: Random)
    ensures DecryptMessage(
      EncryptMessage(message, GenerateKeyPair(sender).privateKey, GenerateKeyPair(recipient).publicKey, random),
      GenerateKeyPair(recipient).privateKey, GenerateKeyPair(sender).publicKey) == Text(message)
  {
    var a, b := GenerateKeyPair(sender), GenerateKeyPair(recipient);
    SharedKeyAgrees(sender, recipient);
    var key := DeriveSharedKey(a.privateKey, b.publicKey).value;
    assert DeriveSharedKey(b.privateKey, a.publicKey) == Some(key);
    var iv := GenerateIV(random);
    var plain := TextEncode(message);
    var ct := Seal(key, iv, plain);
    var p := EncryptMessage(message, a.privateKey, b.publicKey, random);
    Base64RoundTrip(iv);
    Base64RoundTrip(ct);
    assert FieldBytes(p.iv) == Some(iv) && FieldBytes(p.data) == Some(ct);
    OpenSeal(key, iv, plain);
    TextRoundTrip(message);
    assert OpenPayload(p, key) == Some(message);
  }

  /** encryptFile (ECDH): the ciphertext as an octet-stream blob, the IV in base64 and the original name and type. */
  function EncryptFile(file: File, myPrivateKey: string, recipientPublicKey: string, random: Random): (r: FileEnvelope)
    ensures r.Unsealed? <==> DeriveSharedKey(myPrivateKey, recipientPublicKey).None?
    ensures r.Unsealed? ==> r.file == file
    ensures r.Sealed? ==> r.originalType == file.mimeType && r.originalName == file.name
    ensures r.Sealed? ==> r.blob.mimeType == "application/octet-stream" && |r.blob.bytes| == |file.bytes| + TAG_LENGTH
    ensures r.Sealed? ==> r.iv.Some? && Base64Decode(r.iv.value) == Some(GenerateIV(random))
  {
    match DeriveSharedKey(myPrivateKey, recipientPublicKey)
    case None => Unsealed(file)
    case Some(key) =>
      var iv := GenerateIV(random);
      Base64RoundTrip(iv);
      Sealed(Blob(Seal(key, iv, file.bytes), "application/octet-stream"), Some(Base64Encode(iv)), file.mimeType, file.name)
  }

  /**
   * decryptFile (ECDH): the decrypted blob with the original type (its object
   * URL is not modelled); None when the download, the key derivation, the IV
   * or the decryption fails. `fetched` is the downloaded content, None when
   * the fetch fails.
   */
  function DecryptFile(fetched: Option<seq<Byte>>, iv: string, originalType: string,
                       myPrivateKey: string, senderPublicKey: string): (r: Option<Blob>)
    ensures fetched.None? || DeriveSharedKey(myPrivateKey, senderPublicKey).None? || Base64Decode(iv).None? ==> r.None?
    ensures r.Some? ==> r.value.mimeType == originalType
  {
    match (fetched, DeriveSharedKey(myPrivateKey, senderPublicKey), Base64Decode(iv))
    case (Some(data), Some(key), Some(ivBytes)) =>
      (match Open(key, ivBytes, data)
       case Some(plain) => Some(Blob(plain, originalType))
       case None => None)
    case _ => None
  }

  /** A file encrypted for a recipient and downloaded unchanged decrypts to the original bytes and type. */
  lemma FileRoundTrip(file: File, sender: string, recipient: string, random: Random)
    ensures var e := EncryptFile(file, GenerateKeyPair(sender).privateKey, GenerateKeyPair(recipient).publicKey, random);
      e.Sealed? &&
      DecryptFile(Some(e.blob.bytes), e.iv.value, e.originalType,
                  GenerateKeyPair(recipient).privateKey, GenerateKeyPair(sender).publicKey)
      == Some(Blob(file.bytes, file.mimeType))
  {
    var a, b := GenerateKeyPair(sender), GenerateKeyPair(recipient);
    SharedKeyAgrees(sender, recipient);
    var key := DeriveSharedKey(a.privateKey, b.publicKey).value;
    var iv := GenerateIV(random);
    Base64RoundTrip(iv);
    OpenSeal(key, iv, file.bytes);
  }

  // ---------------------------------------------------------------- storage encryption

  /** The key both storage functions derive: PBKDF2 with 100000 iterations of SHA-256. */
  function StorageKey(password: string, salt: seq<Byte>): AesKey
  {
    Pbkdf2(password, salt, PBKDF2_ITERATIONS, PBKDF2_HASH)
  }

  /** encryptForStorage: a random 16-byte salt, a random IV and the ciphertext, all in base64. */
  function EncryptForStorage(data: string, password: string, saltRandom: Random, ivRandom: Random): (r: StoredSecret)
    ensures Base64Decode(r.salt).Some? && |Base64Decode(r.salt).value| == SALT_LENGTH
    ensures Base64Decode(r.iv) == Some(GenerateIV(ivRandom))
  {
    var salt := seq(SALT_LENGTH, i requires 0 <= i < SALT_LENGTH => saltRandom(i));
    var iv := GenerateIV(ivRandom);
    Base64RoundTrip(salt);
    Base64RoundTrip(iv);
    StoredSecret(Base64Encode(salt), Base64Encode(iv),
                 Base64Encode(Seal(StorageKey(password, salt), iv, TextEncode(data))))
  }

  /** decryptFromStorage: the stored text; its errors are not caught, so a failure is an Err. */
  function DecryptFromStorage(obj: StoredSecret, password: string): (r: Result<string>)
    ensures Base64Decode(obj.salt).None? || Base64Decode(obj.iv).None? || Base64Decode(obj.data).None? ==> r.Err?
  {
    match (Base64Decode(obj.salt), Base64Decode(obj.iv), Base64Decode(obj.data))
    case (Some(salt), Some(iv), Some(ct)) =>
      (match Open(StorageKey(password, salt), iv, ct)
       case Some(plain) => Ok(TextDecode(plain))
       case None => Err("OperationError"))
    case _ => Err("InvalidCharacterError")
  }

  /** What was encrypted for storage decrypts under the same password. */
  lemma StorageRoundTrip(data: string, password: string, saltRandom: Random, ivRandom: Random)
    ensures DecryptFromStorage(EncryptForStorage(data, password, saltRandom, ivRandom), password) == Ok(data)
  {
    var salt := seq(SALT_LENGTH, i requires 0 <= i < SALT_LENGTH => saltRandom(i));
    var iv := GenerateIV(ivRandom);
    var ct := Seal(StorageKey(password, salt), iv, TextEncode(data));
    Base64RoundTrip(salt);
    Base64RoundTrip(iv);
    Base64RoundTrip(ct);
    OpenSeal(StorageKey(password, salt), iv, TextEncode(data));
    TextRoundTrip(data);
  }
}
