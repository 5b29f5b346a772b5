/**
 * The Firefox Accounts credential and assertion lifecycle, as the xpcshell
 * account tests drive it: a signed-in-user record cached in memory over a
 * one-slot storage, verification polling, key derivation from fetched key
 * material, and a key pair plus certificate provisioned lazily and reused
 * while they are still valid.
 *
 * The collaborators the tests inject through `_MockFXA` are fields of the
 * same object: the settable clock, the fetchKeys answer, the
 * checkEmailStatus flag and the log of certificate-signing calls.
 */
module FxAccountsModel {
  import opened Wrappers
  import opened HexUtil

  /** Key pair lifetime in milliseconds: 12 hours. */
  const KEY_LIFETIME: int := 12 * 3600 * 1000
  /** Certificate lifetime in milliseconds: 6 hours. */
  const CERT_LIFETIME: int := 6 * 3600 * 1000
  /** The signing algorithm named in every assertion header. */
  const ASSERTION_ALG: string := "DS128"

  /** The signed-in user's account data; a JavaScript property that is absent is None. */
  datatype Credentials = Credentials(
    email: Option<string>,
    uid: Option<string>,
    assertion: Option<string>,
    sessionToken: Option<string>,
    keyFetchToken: Option<string>,
    unwrapBKey: Option<string>,
    kA: Option<string>,
    kB: Option<string>,
    isVerified: bool)

  /** A record with every property absent; records are built from it by update. */
  const EmptyRecord: Credentials := Credentials(None, None, None, None, None, None, None, None, false)

  /** JavaScript truthiness of an optional string: present and not empty. */
  predicate Truthy(s: Option<string>) {
    s.Some? && s.value != ""
  }

  /** What fetchKeys resolves with: the byte strings kA and wrapKB. */
  datatype KeyBundle = KeyBundle(kA: seq<Byte>, wrapKB: seq<Byte>)

  /** A generated key pair; `id` stands for its public half, which generation makes unique. */
  datatype KeyPair = KeyPair(id: nat, validUntil: int)

  /** A signed certificate over the public key `keyId`. */
  datatype Cert = Cert(blob: string, keyId: nat, validUntil: int)

  /** The arguments of one getCertificateSigned call, as the mock logs them. */
  datatype SignCall = SignCall(sessionToken: Option<string>, publicKey: nat)

  datatype Header = Header(alg: string)
  datatype Payload = Payload(aud: string)

  /** `cert~header.payload.signature`, kept as its parts; `signedBy` names the signing key. */
  datatype Assertion = Assertion(cert: string, header: Header, payload: Payload, signedBy: nat)

  datatype Error = NotSignedIn | MissingToken | BadKeyMaterial | RemoteCallError

  /** `isUserEmailVerified`: a record is present and its isVerified is set. */
  predicate IsUserEmailVerified(data: Option<Credentials>): (r: bool)
    ensures data.None? ==> !r
    ensures forall c :: data == Some(c) ==> (r <==> c.isVerified)
  {
    data.Some? && data.value.isVerified
  }

  /** The derived keys are already there. */
  predicate HasKeys(data: Credentials) {
    Truthy(data.kA) && Truthy(data.kB)
  }

  /** The cached key pair may be used at time `now`. */
  predicate KeyPairUsable(kp: Option<KeyPair>, now: int) {
    kp.Some? && now < kp.value.validUntil
  }

  /** The cached certificate certifies `kp` and may be used at time `now`. */
  predicate CertUsable(c: Option<Cert>, kp: KeyPair, now: int) {
    c.Some? && c.value.keyId == kp.id && now < c.value.validUntil
  }

  /** The assertion for `audience`, from a certificate blob and the key that signs it. */
  function BuildAssertion(certBlob: string, kp: KeyPair, audience: string): (a: Assertion)
    ensures a.cert == certBlob && a.header.alg == ASSERTION_ALG
    ensures a.payload.aud == audience && a.signedBy == kp.id
  {
    Assertion(certBlob, Header(ASSERTION_ALG), Payload(audience), kp.id)
  }

  /**
   * Key derivation once fetchKeys has answered: kA is the fetched kA in hex,
   * kB is wrapKB exclusive-or the decoded unwrapBKey in hex, and the
   * key-fetch token is consumed. Fails when unwrapBKey does not decode to a
   * byte string as long as wrapKB.
   */
  function DeriveKeys(data: Credentials, bundle: KeyBundle): (r: Result<Credentials, Error>)
    ensures r.Failure? <==>
      (data.unwrapBKey.None? || HexToBytes(data.unwrapBKey.value).None?
       || |HexToBytes(data.unwrapBKey.value).value| != |bundle.wrapKB|)
    ensures r.Failure? ==> r.error == BadKeyMaterial
    ensures r.Success? ==>
      var unwrapB := HexToBytes(data.unwrapBKey.value).value;
      && r.value == data.(kA := r.value.kA, kB := r.value.kB, keyFetchToken := None)
      && r.value.kA == Some(BytesToHex(bundle.kA))
      && r.value.kB.Some? && HexToBytes(r.value.kB.value) == Some(Xor(bundle.wrapKB, unwrapB))
  {
    if data.unwrapBKey.None? then Failure(BadKeyMaterial)
    else match HexToBytes(data.unwrapBKey.value)
      case None => Failure(BadKeyMaterial)
      case Some(unwrapB) =>
        if |unwrapB| != |bundle.wrapKB| then Failure(BadKeyMaterial)
        else
          var kB := Xor(bundle.wrapKB, unwrapB);
          HexRoundTrip(kB);
          Success(data.(kA := Some(BytesToHex(bundle.kA)), kB := Some(BytesToHex(kB)), keyFetchToken := None))
  }

  /**
   * The outcome of getKeys for the stored record `user` when fetchKeys
   * answers `response` (None: it never answers).
   */
  function KeysOutcome(user: Option<Credentials>, response: Option<KeyBundle>): (r: Result<Credentials, Error>)
    ensures user.None? ==> r == Failure(NotSignedIn)
    ensures user.Some? && HasKeys(user.value) ==> r == Success(user.value)
    ensures user.Some? && !HasKeys(user.value) && !Truthy(user.value.keyFetchToken) ==> r == Failure(MissingToken)
    ensures user.Some? && !HasKeys(user.value) && Truthy(user.value.keyFetchToken) ==>
      r == if response.None? then Failure(RemoteCallError) else DeriveKeys(user.value, response.value)
  {
    if user.None? then Failure(NotSignedIn)
    else if HasKeys(user.value) then Success(user.value)
    else if !Truthy(user.value.keyFetchToken) then Failure(MissingToken)
    else if response.None? then Failure(RemoteCallError)
    else DeriveKeys(user.value, response.value)
  }

  /**
   * The key unwrapping can be undone: xoring the stored kB with wrapKB gives
   * back unwrapBKey, and a record that had no keys ends with both keys and
   * no key-fetch token, everything else as it was.
   */
  lemma GetKeysDerivation(user: Credentials, bundle: KeyBundle)
    requires !HasKeys(user) && Truthy(user.keyFetchToken)
    requires KeysOutcome(Some(user), Some(bundle)).Success?
    ensures var data := KeysOutcome(Some(user), Some(bundle)).value;
      && data.keyFetchToken.None?
      && data.kA == Some(BytesToHex(bundle.kA))
      && data.kB.Some? && HexToBytes(data.kB.value).Some?
      && data.isVerified == user.isVerified && data.email == user.email
      && data.sessionToken == user.sessionToken && data.unwrapBKey == user.unwrapBKey
      && Xor(bundle.wrapKB, HexToBytes(data.kB.value).value) == HexToBytes(user.unwrapBKey.value).value
  {
  }

  /** The mocked signed-in-user storage: one slot, initially empty. */
  class Storage<T> {
    var data: Option<T>

    constructor ()
      ensures data == None
    {
      data := None;
    }

    /** Overwrites the slot. */
    method Set(contents: Option<T>)
      modifies this
      ensures data == contents
    {
      data := contents;
    }

    /** Reads the slot: what the last Set wrote, or None before any Set. */
    method Get() returns (r: Option<T>)
      ensures r == data
    {
      r := data;
    }
  }

  class FxAccounts {
    // The system under test.
    const storage: Storage<Credentials>
    var signedInUser: Option<Credentials>
    var keyPair: Option<KeyPair>
    var cert: Option<Cert>
    /** Key pairs generated so far; the next one gets this number as its id. */
    var keysGenerated: nat

    // The injected collaborators of `_MockFXA`.
    var nowIs: int
    /** What the fetchKeys deferred has been resolved with, if anything. */
    var fetchKeysResponse: Option<KeyBundle>
    /** What the signCertificate deferred has been resolved with, if anything. */
    var signResponse: Option<string>
    var signCalls: seq<SignCall>
    var checkCount: bool

    /**
     * The memory cache is either empty or agrees with storage, and the
     * certificate always certifies the current key pair.
     */
    ghost predicate Valid()
      reads this, storage
    {
      && (signedInUser.Some? ==> signedInUser == storage.data)
      && (cert.Some? ==> keyPair.Some? && cert.value.keyId == keyPair.value.id)
      && (keyPair.Some? ==> keyPair.value.id < keysGenerated)
    }

    /** A fresh instance at clock value `now`, with nothing signed in and nothing logged. */
    constructor (now: int)
      ensures Valid() && fresh(storage)
      ensures storage.data == None && signedInUser == None
      ensures keyPair == None && cert == None && keysGenerated == 0
      ensures nowIs == now && fetchKeysResponse == None && signResponse == None
      ensures signCalls == [] && !checkCount
    {
      storage := new Storage();
      signedInUser := None;
      keyPair := None;
      cert := None;
      keysGenerated := 0;
      nowIs := now;
      fetchKeysResponse := None;
      signResponse := None;
      signCalls := [];
      checkCount := false;
    }

    /** The mock's checkEmailStatus: false on the first call, true on every later one. */
    method CheckEmailStatus(sessionToken: Option<string>) returns (verified: bool)
      modifies this`checkCount
      ensures verified == old(checkCount) && checkCount
    {
      if checkCount {
        return true;
      }
      checkCount := true;
      return false;
    }

    /** The mock's getCertificateSigned: logs the call and answers with the resolved blob. */
    method GetCertificateSigned(sessionToken: Option<string>, publicKey: nat) returns (blob: Option<string>)
      modifies this`signCalls
      ensures signCalls == old(signCalls) + [SignCall(sessionToken, publicKey)]
      ensures blob == signResponse
    {
      signCalls := signCalls + [SignCall(sessionToken, publicKey)];
      blob := signResponse;
    }

    /** Caches a copy of the record and writes it to storage. */
    method SetSignedInUser(credentials: Credentials)
      requires Valid()
      modifies this`signedInUser, storage
      ensures Valid()
      ensures signedInUser == Some(credentials) && storage.data == Some(credentials)
    {
      signedInUser := Some(credentials);
      storage.Set(Some(credentials));
    }

    /** The signed-in user from the cache, or from storage (filling the cache); None if nobody is. */
    method GetSignedInUser() returns (r: Option<Credentials>)
      requires Valid()
      modifies this`signedInUser
      ensures Valid()
      ensures r == storage.data && signedInUser == r
    {
      if signedInUser.Some? {
        r := signedInUser;
      } else {
        r := storage.Get();
        signedInUser := r;
      }
    }

    /** Drops the memory cache, as `delete account.internal.signedInUser` does. */
    method EvictCache()
      requires Valid()
      modifies this`signedInUser
      ensures Valid() && signedInUser == None
    {
      signedInUser := None;
    }

    /** Clears the cache, the stored record and the provisioned key pair and certificate. */
    method SignOut()
      requires Valid()
      modifies this`signedInUser, this`keyPair, this`cert, storage
      ensures Valid()
      ensures signedInUser == None && storage.data == None && keyPair == None && cert == None
    {
      signedInUser := None;
      keyPair := None;
      cert := None;
      storage.Set(None);
    }

    /**
     * Returns the record with the keys derived, fetching and unwrapping them
     * if they are not there yet; on failure nothing is written.
     */
    method GetKeys() returns (r: Result<Credentials, Error>)
      requires Valid()
      modifies this`signedInUser, storage
      ensures Valid()
      ensures r == KeysOutcome(old(storage.data), fetchKeysResponse)
      ensures storage.data == (if r.Success? then Some(r.value) else old(storage.data))
      ensures signedInUser == storage.data
    {
      var data := GetSignedInUser();
      if data.None? {
        return Failure(NotSignedIn);
      }
      var user := data.value;
      if HasKeys(user) {
        return Success(user);
      }
      if !Truthy(user.keyFetchToken) {
        return Failure(MissingToken);
      }
      var response := fetchKeysResponse;
      if response.None? {
        return Failure(RemoteCallError);
      }
      r := DeriveKeys(user, response.value);
      if r.Success? {
        SetSignedInUser(r.value);
      }
    }

    /**
     * Polls checkEmailStatus until it says verified, then marks the stored
     * record verified and yields it. A record that is already verified is
     * yielded at once without polling.
     */
    method WhenVerified(data: Credentials) returns (r: Option<Credentials>)
      requires Valid()
      modifies this`checkCount, this`signedInUser, storage
      ensures Valid()
      ensures data.isVerified ==>
        && r == Some(data) && checkCount == old(checkCount)
        && storage.data == old(storage.data) && signedInUser == old(signedInUser)
      ensures !data.isVerified ==>
        && checkCount
        && r == (if old(storage.data).None? then None else Some(old(storage.data).value.(isVerified := true)))
        && storage.data == r && signedInUser == r
      ensures r.Some? ==> IsUserEmailVerified(r)
    {
      if data.isVerified {
        return Some(data);
      }
      var verified := false;
      while !verified
        invariant Valid()
        invariant storage.data == old(storage.data) && signedInUser == old(signedInUser)
        invariant verified ==> checkCount
        decreases (if checkCount then 0 else 1) + (if verified then 0 else 1)
      {
        verified := CheckEmailStatus(data.sessionToken);
      }
      var current := GetSignedInUser();
      if current.None? {
        return None;
      }
      var updated := current.value.(isVerified := true);
      SetSignedInUser(updated);
      r := Some(updated);
    }

    /**
     * The assertion for `audience`: None when nobody verified is signed in;
     * otherwise the key pair is reused while the clock is before its
     * validUntil (else a new one valid for KEY_LIFETIME replaces it and
     * drops the certificate), the certificate is reused while it certifies
     * that key pair and the clock is before its validUntil (else one signing
     * call is made and the new certificate is valid for CERT_LIFETIME), and
     * the assertion joins the certificate with a statement for `audience`.
     */
    method GetAssertion(audience: string) returns (r: Result<Option<Assertion>, Error>)
      requires Valid()
      modifies this`signedInUser, this`keyPair, this`cert, this`keysGenerated, this`signCalls
      ensures Valid()
      ensures signedInUser == storage.data
      ensures !IsUserEmailVerified(storage.data) ==>
        && r == Success(None)
        && keyPair == old(keyPair) && cert == old(cert)
        && keysGenerated == old(keysGenerated) && signCalls == old(signCalls)
      ensures IsUserEmailVerified(storage.data) ==>
        var reuseKey := KeyPairUsable(old(keyPair), nowIs);
        var kp := if reuseKey then old(keyPair).value else KeyPair(old(keysGenerated), nowIs + KEY_LIFETIME);
        && keyPair == Some(kp)
        && keysGenerated == old(keysGenerated) + (if reuseKey then 0 else 1)
        && if CertUsable(old(cert), kp, nowIs) then
             && cert == old(cert) && signCalls == old(signCalls)
             && r == Success(Some(BuildAssertion(old(cert).value.blob, kp, audience)))
           else
             && signCalls == old(signCalls) + [SignCall(storage.data.value.sessionToken, kp.id)]
             && if signResponse.Some? then
                  && cert == Some(Cert(signResponse.value, kp.id, nowIs + CERT_LIFETIME))
                  && r == Success(Some(BuildAssertion(signResponse.value, kp, audience)))
                else
                  && cert == (if reuseKey then old(cert) else None)
                  && r == Failure(RemoteCallError)
    {
      var data := GetSignedInUser();
      if !IsUserEmailVerified(data) {
        return Success(None);
      }
      var now := nowIs;
      if !KeyPairUsable(keyPair, now) {
        keyPair := Some(KeyPair(keysGenerated, now + KEY_LIFETIME));
        keysGenerated := keysGenerated + 1;
        cert := None;
      }
      var kp := keyPair.value;
      if !CertUsable(cert, kp, now) {
        var blob := GetCertificateSigned(data.value.sessionToken, kp.id);
        if blob.None? {
          return Failure(RemoteCallError);
        }
        cert := Some(Cert(blob.value, kp.id, now + CERT_LIFETIME));
      }
      r := Success(Some(BuildAssertion(cert.value.blob, kp, audience)));
    }
  }

  /** The remote-server URI check: only an `https:` URL is accepted. */
  function GetAccountsURI(remoteUrl: string): (r: Result<string, string>)
    ensures r.Success? <==> (|remoteUrl| >= 6 && remoteUrl[..6] == "https:")
    ensures r.Success? ==> r.value == remoteUrl
    ensures r.Failure? ==> r.error == INSECURE_SERVER_MESSAGE
  {
    if |remoteUrl| >= 6 && remoteUrl[..6] == "https:" then Success(remoteUrl)
    else Failure(INSECURE_SERVER_MESSAGE)
  }

  const INSECURE_SERVER_MESSAGE: string := "Firefox Accounts server must use HTTPS"

  /** Every `http:` URL is refused with the HTTPS message, whatever follows the scheme. */
  lemma HttpUrlRefused(remoteUrl: string)
    requires |remoteUrl| >= 5 && remoteUrl[..5] == "http:"
    ensures GetAccountsURI(remoteUrl) == Failure(INSECURE_SERVER_MESSAGE)
  {
    if |remoteUrl| >= 6 {
      assert remoteUrl[4] == ':';
      assert remoteUrl[..6][4] != "https:"[4];
    }
  }
}
