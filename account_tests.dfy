/**
 * The xpcshell account tests, each as a client of the model whose
 * postconditions are the checks the test makes.
 */
module AccountTests {
  import opened Wrappers
  import opened HexUtil
  import opened FxAccountsModel

  /** The credentials of test_get_signed_in_user_initially_unset. */
  const FooCredentials: Credentials := EmptyRecord.(
    email := Some("foo@example.com"), uid := Some("1234@lcip.org"),
    assertion := Some("foobar"), sessionToken := Some("dead"),
    kA := Some("beef"), kB := Some("cafe"), isVerified := true)

  /** The remote URL test_non_https_remote_server_uri configures. */
  const TestRemoteUrl: string :=
    "http:" + "//example.com/browser/browser/base/content/test/general/accounts_testRemoteCommands.html"

  /** That `http:` URL is refused with the HTTPS message. */
  lemma NonHttpsRemoteServerUri()
    ensures GetAccountsURI(TestRemoteUrl) == Failure("Firefox Accounts server must use HTTPS")
  {
    assert TestRemoteUrl[..5] == "http:";
    HttpUrlRefused(TestRemoteUrl);
  }

  /** The Storage mock reads back exactly the last value written, and nothing before any write. */
  method StorageReadsLastWrite<T>(x: T, y: T) returns (before: Option<T>, afterX: Option<T>, afterY: Option<T>)
    ensures before == None && afterX == Some(x) && afterY == Some(y)
  {
    var s := new Storage<T>();
    before := s.Get();
    s.Set(Some(x));
    afterX := s.Get();
    s.Set(Some(y));
    afterY := s.Get();
  }

  /** `expandHex("44")` is 64 characters and encodes 32 bytes 0x44. */
  lemma ExpandHexOfTwoDigits()
    ensures |ExpandHex("44")| == 64
    ensures HexToBytes(ExpandHex("44")) == Some(RepeatByte(0x44, 32))
  {
    assert ByteToHex(0x44) == "44";
    ExpandBytesDecodes(0x44);
  }

  /**
   * Nothing signed in at first; after setSignedInUser the record reads back
   * from the cache and again after the cache is evicted; nothing after signOut.
   */
  method GetSignedInUserInitiallyUnset()
    returns (initial: Option<Credentials>, cached: Option<Credentials>,
             reloaded: Option<Credentials>, afterSignOut: Option<Credentials>)
    ensures initial == None
    ensures cached.Some? && cached.value.email == Some("foo@example.com")
    ensures cached.value.assertion == Some("foobar") && cached.value.kB == Some("cafe")
    ensures cached == Some(FooCredentials)
    ensures reloaded == cached
    ensures afterSignOut == None
  {
    var account := new FxAccounts(0);
    initial := account.GetSignedInUser();
    account.SetSignedInUser(FooCredentials);
    cached := account.GetSignedInUser();
    account.EvictCache();
    reloaded := account.GetSignedInUser();
    account.SignOut();
    afterSignOut := account.GetSignedInUser();
  }

  /**
   * A record set without isVerified reads back unverified; whenVerified
   * polls past the mock's first "not verified" and yields a verified record.
   */
  method VerificationPoll(start: int)
    returns (stored: Option<Credentials>, signedIn: Option<Credentials>, verified: Option<Credentials>)
    ensures stored.Some? && !stored.value.isVerified
    ensures signedIn.Some?
    ensures IsUserEmailVerified(verified) && verified.value.isVerified
    ensures verified.value == signedIn.value.(isVerified := true)
  {
    var a := new FxAccounts(start);
    var creds := EmptyRecord.(sessionToken := Some("sessionToken"),
      keyFetchToken := Some("keyFetchToken"), unwrapBKey := Some(ExpandHex("44")));
    a.SetSignedInUser(creds);
    stored := a.GetSignedInUser();
    signedIn := a.GetSignedInUser();
    verified := a.WhenVerified(signedIn.value);
  }

  /**
   * getKeys for a verified record with a key-fetch token and unwrapBKey =
   * expandHex of the byte `u`, when fetchKeys answers kA = expandBytes of
   * `k` and wrapKB = expandBytes of `w`: the stored kA is expandHex of `k`,
   * kB is expandHex of `w` xor `u`, keyFetchToken is gone and the record is
   * still verified.
   */
  method GetKeysTest(start: int, k: Byte, w: Byte, u: Byte) returns (data: Option<Credentials>)
    ensures IsUserEmailVerified(data) && data.value.isVerified
    ensures data.value.kA == Some(ExpandHex(ByteToHex(k)))
    ensures data.value.kB == Some(ExpandHex(ByteToHex(w ^ u)))
    ensures data.value.keyFetchToken == None
  {
    var a := new FxAccounts(start);
    var creds := EmptyRecord.(sessionToken := Some("sessionToken"),
      keyFetchToken := Some("keyFetchToken"), unwrapBKey := Some(ExpandHex(ByteToHex(u))),
      isVerified := true);
    ExpandBytesDecodes(k);
    ExpandBytesDecodes(w);
    ExpandBytesDecodes(u);
    a.fetchKeysResponse := Some(KeyBundle(ExpandBytes(ByteToHex(k)).value, ExpandBytes(ByteToHex(w)).value));

    a.SetSignedInUser(creds);
    var _ := a.GetKeys();
    data := a.GetSignedInUser();

    XorRepeat(w, u, 32);
    ExpandHexEncodes(k);
    ExpandHexEncodes(w ^ u);
  }

  /** The test's values: kA = expandHex("11") and kB = expandHex("66"), since 0x22 xor 0x44 = 0x66. */
  method GetKeysTestVector() returns (data: Option<Credentials>)
    ensures IsUserEmailVerified(data) && data.value.keyFetchToken == None
    ensures data.value.kA == Some(ExpandHex("11")) && data.value.kB == Some(ExpandHex("66"))
  {
    data := GetKeysTest(0, 0x11, 0x22, 0x44);
    assert ByteToHex(0x11) == "11";
    assert ByteToHex(0x22 ^ 0x44) == "66";
  }

  /**
   * No assertion and no signing call without a user. Then at `now`: one
   * signing call with the session token, the key pair valid 12 h and the
   * certificate 6 h from `now`, the assertion carrying "cert1", DS128 and
   * the audience; a second audience at the same `now` makes no new call
   * and generates no key pair; at `now` + 24 h a new key pair, exactly one
   * more call, "cert2", and both lifetimes measured from the new clock value.
   */
  method GetAssertionTest(now: int)
    returns (noData: Result<Option<Assertion>, Error>, callsBefore: nat,
             first: Result<Option<Assertion>, Error>, callsAfterFirst: seq<SignCall>,
             keyUntil1: int, certUntil1: int, keyAfterFirst: Option<KeyPair>,
             second: Result<Option<Assertion>, Error>, callsAfterSecond: seq<SignCall>,
             keyAfterSecond: Option<KeyPair>,
             third: Result<Option<Assertion>, Error>, callsAfterThird: seq<SignCall>,
             keyUntil3: int, certUntil3: int, keyAfterThird: Option<KeyPair>)
    ensures noData == Success(None) && callsBefore == 0
    ensures first.Success? && first.value.Some?
    ensures first.value.value.cert == "cert1" && first.value.value.header.alg == "DS128"
    ensures first.value.value.payload.aud == "audience.example.com"
    ensures |callsAfterFirst| == 1 && callsAfterFirst[0].sessionToken == Some("sessionToken")
    ensures keyUntil1 == now + 12 * 3600 * 1000 && certUntil1 == now + 6 * 3600 * 1000
    ensures second.Success? && second.value.Some? && second.value.value.payload.aud == "other.example.com"
    ensures callsAfterSecond == callsAfterFirst
    ensures keyAfterSecond == keyAfterFirst && second.value.value.signedBy == first.value.value.signedBy
    ensures third.Success? && third.value.Some? && third.value.value.cert == "cert2"
    ensures third.value.value.payload.aud == "third.example.com"
    ensures |callsAfterThird| == 2 && callsAfterThird[1].sessionToken == Some("sessionToken")
    ensures keyUntil3 == now + 24 * 3600 * 1000 + 12 * 3600 * 1000
    ensures certUntil3 == now + 24 * 3600 * 1000 + 6 * 3600 * 1000
    ensures keyAfterThird.Some? && keyAfterFirst.Some? && keyAfterThird.value.id != keyAfterFirst.value.id
    ensures third.value.value.signedBy == keyAfterThird.value.id
  {
    var a := new FxAccounts(now);
    noData := a.GetAssertion("nonaudience");
    callsBefore := |a.signCalls|;

    var creds := EmptyRecord.(sessionToken := Some("sessionToken"),
      kA := Some(ExpandHex("11")), kB := Some(ExpandHex("66")), isVerified := true);
    a.SetSignedInUser(creds);

    a.nowIs := now;
    a.signResponse := Some("cert1");
    first := a.GetAssertion("audience.example.com");
    callsAfterFirst := a.signCalls;
    keyUntil1 := a.keyPair.value.validUntil;
    certUntil1 := a.cert.value.validUntil;
    keyAfterFirst := a.keyPair;

    a.signResponse := None;
    second := a.GetAssertion("other.example.com");
    callsAfterSecond := a.signCalls;
    keyAfterSecond := a.keyPair;

    a.nowIs := now + 24 * 3600 * 1000;
    a.signResponse := Some("cert2");
    third := a.GetAssertion("third.example.com");
    callsAfterThird := a.signCalls;
    keyUntil3 := a.keyPair.value.validUntil;
    certUntil3 := a.cert.value.validUntil;
    keyAfterThird := a.keyPair;
  }
}
