/**
 * The encryption context: the per-conversation chat keys, cached in React
 * state (`chatKeys`) and published in the database under `chatKeys/{chatId}`,
 * and the four operations built on them (encrypt and decrypt a message,
 * encrypt a file framed as IV followed by ciphertext, and decrypt a file
 * from its URL).
 *
 * The class holds the cache and the database node. Database failures are a
 * parameter (`fault`), the key generator's randomness and the clock are
 * parameters, and a download is its result (None when it fails).
 */
module EncryptionContext {
  import opened Common
  import opened WebCrypto
  import opened EncryptionService

  const KEY_NOT_AVAILABLE: string := "[Encryption key not available]"
  const ENCRYPTED_FILE_TYPE: string := "application/encrypted"

  /** The record stored under chatKeys/{chatId}; `key` is missing if the record was written without one. */
  datatype ChatKeyRecord = ChatKeyRecord(key: Option<string>, createdAt: int)

  /** Which database call throws during getChatKey, if any. */
  datatype StoreFault = NoFault | ReadFault | WriteFault

  /** The cache and the database node together. */
  datatype KeyState = KeyState(cache: map<string, Option<string>>, store: map<string, ChatKeyRecord>)

  /** What getChatKey returns (None for null or undefined) and the state after it. */
  datatype Lookup = Lookup(key: Option<string>, after: KeyState)

  /** What decryptFileUrl returns: the original URL, or an object URL for the decrypted blob. */
  datatype FileUrl = OriginalUrl(url: string) | ObjectUrl(blob: Blob)

  /** `chatKeys[chatId]` is truthy. */
  predicate CacheHit(s: KeyState, chatId: string)
  {
    chatId in s.cache && Truthy(s.cache[chatId])
  }

  /** Every usable cached key is the key stored for that conversation. */
  predicate CacheAgrees(s: KeyState)
  {
    forall id :: id in s.cache && Truthy(s.cache[id]) ==> id in s.store && s.store[id].key == s.cache[id]
  }

  /**
   * getChatKey: the cached key when it is truthy; otherwise the stored key
   * (cached, even when missing); otherwise a newly generated key, written
   * with its creation time and cached. A failed read or write gives null and
   * changes nothing.
   */
  function LookupChatKey(s: KeyState, chatId: string, fault: StoreFault, random: Random, now: int): (r: Lookup)
    ensures CacheHit(s, chatId) ==> r == Lookup(s.cache[chatId], s)
    ensures !CacheHit(s, chatId) && fault == ReadFault ==> r == Lookup(None, s)
    ensures !CacheHit(s, chatId) && fault != ReadFault && chatId in s.store ==> r.key == s.store[chatId].key
    ensures !CacheHit(s, chatId) && fault == NoFault && chatId !in s.store ==>
      r.key == Some(GenerateChatKey(random)) && r.after.store == s.store[chatId := ChatKeyRecord(r.key, now)]
    ensures !CacheHit(s, chatId) && fault == WriteFault && chatId !in s.store ==> r == Lookup(None, s)
    // A stored key is never replaced, and at most this conversation gains one.
    ensures forall id :: id in s.store ==> id in r.after.store && r.after.store[id] == s.store[id]
    ensures r.after.store.Keys <= s.store.Keys + {chatId}
    // A key that was not a cache hit is the stored one and is now cached.
    ensures !CacheHit(s, chatId) && r.key.Some? ==>
      chatId in r.after.store && r.after.store[chatId].key == r.key && chatId in r.after.cache && r.after.cache[chatId] == r.key
  {
    if CacheHit(s, chatId) then Lookup(s.cache[chatId], s)
    else if fault == ReadFault then Lookup(None, s)
    else if chatId in s.store then
      var key := s.store[chatId].key;
      Lookup(key, KeyState(s.cache[chatId := key], s.store))
    else if fault == WriteFault then Lookup(None, s)
    else
      var key := Some(GenerateChatKey(random));
      Lookup(key, KeyState(s.cache[chatId := key], s.store[chatId := ChatKeyRecord(key, now)]))
  }

  /** getChatKey keeps the cache in agreement with the store. */
  lemma LookupKeepsCacheAgreement(s: KeyState, chatId: string, fault: StoreFault, random: Random, now: int)
    requires CacheAgrees(s)
    ensures CacheAgrees(LookupChatKey(s, chatId, fault, random, now).after)
  {
    var r := LookupChatKey(s, chatId, fault, random, now);
    forall id | id in r.after.cache && Truthy(r.after.cache[id])
      ensures id in r.after.store && r.after.store[id].key == r.after.cache[id]
    {
      if id != chatId {
        assert r.after.cache[id] == s.cache[id];
      }
    }
  }

  /**
   * Once getChatKey has returned a usable key for a conversation, every later
   * call returns that same key, whatever faults, randomness or time it meets:
   * the conversation's key never changes.
   */
  lemma LookupIsStable(s: KeyState, chatId: string, f1: StoreFault, r1: Random, t1: int,
                       f2: StoreFault, r2: Random, t2: int)
    requires Truthy(LookupChatKey(s, chatId, f1, r1, t1).key)
    ensures LookupChatKey(LookupChatKey(s, chatId, f1, r1, t1).after, chatId, f2, r2, t2).key
         == LookupChatKey(s, chatId, f1, r1, t1).key
  {
  }

  /** encryptMessage once the key is known: plaintext fallback for a falsy key. */
  function EncryptForKey(message: string, key: Option<string>, random: Random): (p: Payload)
    ensures !Truthy(key) ==> p == PlainPayload(message)
    ensures Truthy(key) ==> p == EncryptWithChatKey(message, key.value, random)
  {
    if Truthy(key) then EncryptWithChatKey(message, key.value, random) else PlainPayload(message)
  }

  /** decryptMessage once the key is known (for an encrypted value). */
  function DecryptForKey(p: Payload, key: Option<string>): (r: Shown)
    requires IsEncrypted(p)
    ensures !Truthy(key) ==> r == Text(KEY_NOT_AVAILABLE)
    ensures Truthy(key) ==> r == DecryptWithChatKey(p, key.value)
  {
    if Truthy(key) then DecryptWithChatKey(p, key.value) else Text(KEY_NOT_AVAILABLE)
  }

  /**
   * A message encrypted in a conversation whose key is importable decrypts,
   * on a later lookup in the same conversation, to the message itself.
   */
  lemma MessageRoundTrip(s: KeyState, chatId: string, message: string, ivRandom: Random,
                         f1: StoreFault, r1: Random, t1: int, f2: StoreFault, r2: Random, t2: int)
    requires Truthy(LookupChatKey(s, chatId, f1, r1, t1).key)
    requires ImportAesJwk(LookupChatKey(s, chatId, f1, r1, t1).key.value).Some?
    ensures var first := LookupChatKey(s, chatId, f1, r1, t1);
      var p := EncryptForKey(message, first.key, ivRandom);
      IsEncrypted(p) &&
      DecryptForKey(p, LookupChatKey(first.after, chatId, f2, r2, t2).key) == Text(message)
  {
    var first := LookupChatKey(s, chatId, f1, r1, t1);
    LookupIsStable(s, chatId, f1, r1, t1, f2, r2, t2);
    ChatKeyRoundTrip(message, first.key.value, ivRandom);
  }

  /** A key this client generates can always be used. */
  lemma GeneratedKeyIsUsable(s: KeyState, chatId: string, random: Random, now: int)
    requires !CacheHit(s, chatId) && chatId !in s.store
    ensures Truthy(LookupChatKey(s, chatId, NoFault, random, now).key)
    ensures ImportAesJwk(LookupChatKey(s, chatId, NoFault, random, now).key.value).Some?
  {
    var jwk := GenerateChatKey(random);
    assert |jwk| >= 2 by { assert IsJwkObject(jwk); }
  }

  /** The file encryptFile produces: IV followed by ciphertext, typed application/encrypted. */
  function SealFile(file: File, key: Option<string>, random: Random): (r: FileEnvelope)
    ensures !Truthy(key) || ImportAesJwk(key.value).None? ==> r == Unsealed(file)
    ensures r.Sealed? ==> r.blob.mimeType == ENCRYPTED_FILE_TYPE && r.iv.None?
    ensures r.Sealed? ==> r.originalType == file.mimeType && r.originalName == file.name
    ensures r.Sealed? ==> |r.blob.bytes| == IV_LENGTH + |file.bytes| + TAG_LENGTH
    ensures r.Sealed? ==> r.blob.bytes[..IV_LENGTH] == GenerateIV(random)
  {
    if !Truthy(key) then Unsealed(file)
    else
      match ImportAesJwk(key.value)
      case None => Unsealed(file)
      case Some(k) =>
        var iv := GenerateIV(random);
        Sealed(Blob(iv + Seal(k, iv, file.bytes), ENCRYPTED_FILE_TYPE), None, file.mimeType, file.name)
  }

  /** decryptFileUrl once the key and the download are known: bytes [0, 12) are the IV, the rest the ciphertext. */
  function OpenFile(url: string, fetched: Option<seq<Byte>>, key: Option<string>, originalType: string): (r: FileUrl)
    ensures !Truthy(key) || fetched.None? ==> r == OriginalUrl(url)
    ensures r.ObjectUrl? ==> r.blob.mimeType == originalType
  {
    if !Truthy(key) || fetched.None? then OriginalUrl(url)
    else
      var data := fetched.value;
      var split := if |data| < IV_LENGTH then |data| else IV_LENGTH;
      match ImportAesJwk(key.value)
      case None => OriginalUrl(url)
      case Some(k) =>
        match Open(k, data[..split], data[split..])
        case Some(plain) => ObjectUrl(Blob(plain, originalType))
        case None => OriginalUrl(url)
  }

  /** Splitting at 12 inverts the framing: a sealed file downloaded unchanged decrypts to its bytes and type. */
  lemma FileFramingRoundTrip(url: string, file: File, key: Option<string>, random: Random)
    requires SealFile(file, key, random).Sealed?
    ensures OpenFile(url, Some(SealFile(file, key, random).blob.bytes), key, file.mimeType)
         == ObjectUrl(Blob(file.bytes, file.mimeType))
  {
    var k := ImportAesJwk(key.value).value;
    var iv := GenerateIV(random);
    var data := iv + Seal(k, iv, file.bytes);
    assert data[..IV_LENGTH] == iv && data[IV_LENGTH..] == Seal(k, iv, file.bytes);
    OpenSeal(k, iv, file.bytes);
  }

  /** The EncryptionProvider's state: the key cache and the chatKeys database node. */
  class EncryptionProvider {
    var chatKeys: map<string, Option<string>>
    var storedKeys: map<string, ChatKeyRecord>

    constructor(stored: map<string, ChatKeyRecord>)
      ensures chatKeys == map[] && storedKeys == stored
    {
      chatKeys := map[];
      storedKeys := stored;
    }

    function State(): KeyState
      reads this
    {
      KeyState(chatKeys, storedKeys)
    }

    method GetChatKey(chatId: string, fault: StoreFault, random: Random, now: int) returns (key: Option<string>)
      modifies this
      ensures Lookup(key, State()) == LookupChatKey(old(State()), chatId, fault, random, now)
    {
      if chatId in chatKeys && Truthy(chatKeys[chatId]) {
        return chatKeys[chatId];
      }
      if fault == ReadFault {
        return None;
      }
      if chatId in storedKeys {
        key := storedKeys[chatId].key;
        chatKeys := chatKeys[chatId := key];
        return;
      }
      if fault == WriteFault {
        return None;
      }
      key := Some(GenerateChatKey(random));
      storedKeys := storedKeys[chatId := ChatKeyRecord(key, now)];
      chatKeys := chatKeys[chatId := key];
    }

    method EncryptMessage(message: string, chatId: string, fault: StoreFault, keyRandom: Random, ivRandom: Random, now: int)
      returns (p: Payload)
      modifies this
      ensures var lookup := LookupChatKey(old(State()), chatId, fault, keyRandom, now);
        p == EncryptForKey(message, lookup.key, ivRandom) && State() == lookup.after
    {
      var key := GetChatKey(chatId, fault, keyRandom, now);
      if !Truthy(key) {
        return PlainPayload(message);
      }
      p := EncryptWithChatKey(message, key.value, ivRandom);
    }

    method DecryptMessage(obj: Payload, chatId: string, fault: StoreFault, keyRandom: Random, now: int)
      returns (r: Shown)
      modifies this
      ensures obj.Str? ==> r == Text(obj.s) && State() == old(State())
      ensures !obj.Str? && !IsEncrypted(obj) ==> r == TextOrValue(obj) && State() == old(State())
      ensures IsEncrypted(obj) ==>
        var lookup := LookupChatKey(old(State()), chatId, fault, keyRandom, now);
        r == DecryptForKey(obj, lookup.key) && State() == lookup.after
    {
      if obj.Str? {
        return Text(obj.s);
      }
      if !IsEncrypted(obj) {
        return TextOrValue(obj);
      }
      var key := GetChatKey(chatId, fault, keyRandom, now);
      if !Truthy(key) {
        return Text(KEY_NOT_AVAILABLE);
      }
      r := DecryptWithChatKey(obj, key.value);
    }

    method EncryptFile(file: File, chatId: string, fault: StoreFault, keyRandom: Random, ivRandom: Random, now: int)
      returns (r: FileEnvelope)
      modifies this
      ensures var lookup := LookupChatKey(old(State()), chatId, fault, keyRandom, now);
        r == SealFile(file, lookup.key, ivRandom) && State() == lookup.after
    {
      var key := GetChatKey(chatId, fault, keyRandom, now);
      if !Truthy(key) {
        return Unsealed(file);
      }
      var imported := ImportAesJwk(key.value);
      if imported.None? {
        return Unsealed(file);
      }
      var iv := GenerateIV(ivRandom);
      var encrypted := Seal(imported.value, iv, file.bytes);
      var combined := new Byte[|iv| + |encrypted|];
      forall i | 0 <= i < |iv| {
        combined[i] := iv[i];
      }
      forall i | 0 <= i < |encrypted| {
        combined[|iv| + i] := encrypted[i];
      }
      assert combined[..] == iv + encrypted;
      r := Sealed(Blob(combined[..], ENCRYPTED_FILE_TYPE), None, file.mimeType, file.name);
    }

    method DecryptFileUrl(url: string, chatId: string, originalType: string, fetched: Option<seq<Byte>>,
                          fault: StoreFault, keyRandom: Random, now: int)
      returns (r: FileUrl)
      modifies this
      ensures var lookup := LookupChatKey(old(State()), chatId, fault, keyRandom, now);
        r == OpenFile(url, fetched, lookup.key, originalType) && State() == lookup.after
    {
      var key := GetChatKey(chatId, fault, keyRandom, now);
      if !Truthy(key) || fetched.None? {
        return OriginalUrl(url);
      }
      var data := fetched.value;
      var split := if |data| < IV_LENGTH then |data| else IV_LENGTH;
      var iv, ct := data[..split], data[split..];
      var imported := ImportAesJwk(key.value);
      if imported.None? {
        return OriginalUrl(url);
      }
      var plain := Open(imported.value, iv, ct);
      if plain.None? {
        return OriginalUrl(url);
      }
      r := ObjectUrl(Blob(plain.value, originalType));
    }
  }
}
