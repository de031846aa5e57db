/**
 * The client's key management: the process-wide `EncryptionService`, its
 * loaded RSA key, the private key kept in the browser's local storage under
 * `rsa_private_key`, and the requests it sends to the server's key
 * directory. RSA itself is opaque: importing a PEM text and decrypting with
 * a key are functions the service is given; fetch results are parameters.
 */
module Encryption {
  import opened Base

  /** An RSA key as NodeRSA holds it, by its exported public and private PEM texts. */
  datatype KeyPair = KeyPair(publicKey: string, privateKey: string)

  /** A request sent to the key directory: `POST /api/keys/save` or `GET /api/keys/:userId`. */
  datatype KeyRequest = SaveKey(userId: string, publicKey: string) | GetKey(userId: string)

  /**
   * How a fetch ended: a response with its `ok` flag whose body, when read,
   * parses; an ok response whose JSON body does not parse; or a rejected
   * promise.
   */
  datatype FetchResult = Response(ok: bool) | UnreadableBody | NetworkError

  /**
   * How a public-key lookup ended: a response whose body parses, with its
   * `publicKey` field; an ok response whose JSON body does not parse; or a
   * rejected promise.
   */
  datatype LookupResult = LookupResponse(ok: bool, publicKey: string) | LookupUnreadableBody | LookupNetworkError

  const NotLoadedError: string := "Private key not loaded"
  const ImportFailedError: string := "Invalid RSA key"
  const DecryptFailedError: string := "RSA decryption failed"
  const SaveFailedError: string := "Failed to save public key to server"
  const FetchKeyFailedError: string := "Failed to fetch recipient public key"
  /** The rejection of a `fetch` that gets no response. */
  const NetworkFailedError: string := "Failed to fetch"
  /** The rejection of `response.json()` on a body that is not JSON. */
  const BodyParseError: string := "Unexpected token in JSON"

  class EncryptionService {
    /** `new NodeRSA(pem)`: the key the text imports to, or None when the constructor throws. */
    const importKey: string -> Option<KeyPair>
    /** `key.decrypt(data, 'utf8')`: the plaintext, or None when decryption throws. */
    const rsaDecrypt: (KeyPair, string) -> Option<string>

    /** The loaded key, `null` until one is generated or loaded. */
    var keyPair: Option<KeyPair>
    /** `localStorage.getItem('rsa_private_key')`. */
    var storedKey: Option<string>
    /** Every request sent to the key directory, in order. */
    var sent: seq<KeyRequest>

    constructor (importKey: string -> Option<KeyPair>, rsaDecrypt: (KeyPair, string) -> Option<string>,
                 storedKey: Option<string>)
      ensures this.importKey == importKey && this.rsaDecrypt == rsaDecrypt
      ensures keyPair == None && this.storedKey == storedKey && sent == []
    {
      this.importKey := importKey;
      this.rsaDecrypt := rsaDecrypt;
      keyPair := None;
      this.storedKey := storedKey;
      sent := [];
    }

    /** A stored key that `loadPrivateKey` accepts: present, non-empty, and importable. */
    predicate Loadable(stored: Option<string>)
    {
      Present(stored) && importKey(stored.value).Some?
    }

    /**
     * `loadPrivateKey`: loads the stored key. A stored key that does not
     * import is removed from storage; the loaded key is then left as it was.
     */
    method LoadPrivateKey() returns (loaded: bool)
      modifies this`keyPair, this`storedKey
      ensures loaded <==> Loadable(old(storedKey))
      ensures loaded ==> keyPair == importKey(old(storedKey).value) && storedKey == old(storedKey)
      ensures !loaded ==> keyPair == old(keyPair)
      ensures !loaded && Present(old(storedKey)) ==> storedKey == None
      ensures !Present(old(storedKey)) ==> storedKey == old(storedKey)
    {
      if Present(storedKey) {
        var key := importKey(storedKey.value);
        if key.Some? {
          keyPair := key;
          return true;
        }
        storedKey := None;
      }
      return false;
    }

    /**
     * `savePrivateKey`: stores the text, then imports it as the loaded key.
     * When the import throws, the text stays stored.
     */
    method SavePrivateKey(privateKey: string) returns (outcome: Result<()>)
      modifies this`keyPair, this`storedKey
      ensures storedKey == Some(privateKey)
      ensures outcome.Success? <==> importKey(privateKey).Some?
      ensures outcome.Success? ==> keyPair == importKey(privateKey)
      ensures outcome.Failure? ==> keyPair == old(keyPair) && outcome.error == ImportFailedError
    {
      storedKey := Some(privateKey);
      var key := importKey(privateKey);
      if key.None? {
        return Failure(ImportFailedError);
      }
      keyPair := key;
      return Success(());
    }

    /** `generateKeyPair`: `generated` is the pair a new 2048-bit NodeRSA key yields; it becomes the loaded key. */
    method GenerateKeyPair(generated: KeyPair) returns (pair: KeyPair)
      modifies this`keyPair
      ensures keyPair == Some(generated) && pair == generated
    {
      keyPair := Some(generated);
      pair := generated;
    }

    /** `getPublicKey`: the loaded key's public text, `null` when none is loaded or it is empty. */
    function PublicKey(): (r: Option<string>)
      reads this
      ensures r.Some? <==> keyPair.Some? && keyPair.value.publicKey != ""
      ensures r.Some? ==> r.value == keyPair.value.publicKey
    {
      if keyPair.Some? && keyPair.value.publicKey != "" then Some(keyPair.value.publicKey) else None
    }

    /** `decryptAESKey`: refuses to run without a loaded key. */
    function DecryptAESKey(encryptedAESKey: string): (r: Result<string>)
      reads this
      ensures keyPair.None? <==> r == Failure(NotLoadedError)
      ensures r.Success? <==> keyPair.Some? && rsaDecrypt(keyPair.value, encryptedAESKey).Some?
      ensures r.Success? ==> r.value == rsaDecrypt(keyPair.value, encryptedAESKey).value
    {
      if keyPair.None? then Failure(NotLoadedError)
      else match rsaDecrypt(keyPair.value, encryptedAESKey)
        case Some(aesKey) => Success(aesKey)
        case None => Failure(DecryptFailedError)
    }

    /**
     * `initializeUserKeys(userId)`. Without a loadable stored key: a new pair
     * (`generated`) is generated, its private half stored, and only then its
     * public half published; a refused publish, a network failure or an ok
     * answer whose body is not JSON throws, with the key kept.
     * With one: the directory is asked for the user's key, and only when the
     * answer is not ok is the loaded public key uploaded (the lookup's body
     * is never read, so an unreadable one counts as ok); every failure on
     * this path is logged, never thrown, and the directory's key is never
     * compared with the local one.
     */
    method InitializeUserKeys(userId: string, generated: KeyPair, saveResult: FetchResult, lookupResult: FetchResult)
      returns (outcome: Result<()>)
      modifies this`keyPair, this`storedKey, this`sent
      ensures !Loadable(old(storedKey)) ==> storedKey == Some(generated.privateKey)
      ensures !Loadable(old(storedKey)) && importKey(generated.privateKey).None? ==>
                keyPair == Some(generated) && sent == old(sent) && outcome == Failure(ImportFailedError)
      ensures !Loadable(old(storedKey)) && importKey(generated.privateKey).Some? ==>
                && keyPair == importKey(generated.privateKey)
                && sent == old(sent) + [SaveKey(userId, generated.publicKey)]
                && (outcome.Success? <==> saveResult == Response(true))
                && (saveResult == Response(false) ==> outcome == Failure(SaveFailedError))
                && (saveResult == UnreadableBody ==> outcome == Failure(BodyParseError))
                && (saveResult == NetworkError ==> outcome == Failure(NetworkFailedError))
      ensures Loadable(old(storedKey)) ==>
                && outcome.Success?
                && storedKey == old(storedKey)
                && keyPair == importKey(old(storedKey).value)
                && sent == old(sent) + [GetKey(userId)]
                          + if lookupResult == Response(false) && PublicKey().Some?
                            then [SaveKey(userId, PublicKey().value)] else []
    {
      var hasPrivateKey := LoadPrivateKey();
      if !hasPrivateKey {
        var pair := GenerateKeyPair(generated);
        var saved := SavePrivateKey(pair.privateKey);
        if saved.Failure? {
          return saved;
        }
        sent := sent + [SaveKey(userId, pair.publicKey)];
        match saveResult
        case NetworkError =>
          return Failure(NetworkFailedError);
        case Response(ok) =>
          return if ok then Success(()) else Failure(SaveFailedError);
        case UnreadableBody =>
          return Failure(BodyParseError);
      }
      sent := sent + [GetKey(userId)];
      if lookupResult == Response(false) {
        var publicKey := PublicKey();
        if publicKey.Some? {
          // the upload's own result is only logged
          sent := sent + [SaveKey(userId, publicKey.value)];
        }
      }
      return Success(());
    }

    /** `getRecipientPublicKey(userId)`: throws unless the lookup answers ok. */
    method GetRecipientPublicKey(userId: string, response: LookupResult) returns (key: Result<string>)
      modifies this`sent
      ensures sent == old(sent) + [GetKey(userId)]
      ensures key.Success? <==> response.LookupResponse? && response.ok
      ensures key.Success? ==> key.value == response.publicKey
      ensures response.LookupResponse? && !response.ok ==> key == Failure(FetchKeyFailedError)
      ensures response.LookupUnreadableBody? ==> key == Failure(BodyParseError)
      ensures response.LookupNetworkError? ==> key == Failure(NetworkFailedError)
    {
      sent := sent + [GetKey(userId)];
      match response
      case LookupNetworkError =>
        key := Failure(NetworkFailedError);
      case LookupUnreadableBody =>
        key := Failure(BodyParseError);
      case LookupResponse(ok, publicKey) =>
        key := if ok then Success(publicKey) else Failure(FetchKeyFailedError);
    }
  }

  /** The `EncryptionService.instance` slot behind `getInstance`. */
  class ServiceSlot {
    const importKey: string -> Option<KeyPair>
    const rsaDecrypt: (KeyPair, string) -> Option<string>
    /** What local storage holds when the service is first created. */
    const initialStorage: Option<string>
    var instance: EncryptionService?

    constructor (importKey: string -> Option<KeyPair>, rsaDecrypt: (KeyPair, string) -> Option<string>,
                 initialStorage: Option<string>)
      ensures this.importKey == importKey && this.rsaDecrypt == rsaDecrypt
      ensures this.initialStorage == initialStorage && instance == null
    {
      this.importKey := importKey;
      this.rsaDecrypt := rsaDecrypt;
      this.initialStorage := initialStorage;
      instance := null;
    }

    /** `getInstance`: creates the service on the first call and returns that same object ever after. */
    method GetInstance() returns (s: EncryptionService)
      modifies this`instance
      ensures instance == s
      ensures old(instance) != null ==> s == old(instance)
      ensures old(instance) == null ==> fresh(s) && s.keyPair.None? && s.sent == []
                                        && s.storedKey == initialStorage
    {
      if instance == null {
        instance := new EncryptionService(importKey, rsaDecrypt, initialStorage);
      }
      s := instance;
    }
  }

  /** Two calls to `getInstance` yield one and the same service. */
  method GetInstanceTwice(slot: ServiceSlot) returns (a: EncryptionService, b: EncryptionService)
    modifies slot
    ensures a == b
  {
    a := slot.GetInstance();
    b := slot.GetInstance();
  }
}
