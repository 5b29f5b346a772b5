/**
 * Sync's XPCOM service object: which identity provider to use (the
 * `fxAccountsEnabled` getter, which sniffs the legacy username preference
 * on first run and writes its answer back), and the guards that decide
 * whether the startup timer and the account login/logout notifications
 * load any Sync code.
 */
module Weave {
  import opened Wrappers

  datatype PrefValue = BoolValue(b: bool) | CharValue(s: string)

  /** The preference service: default values, overridden by user values. */
  datatype Prefs = Prefs(defaults: map<string, PrefValue>, user: map<string, PrefValue>) {

    /** The effective value of `name`: its user value if it has one, else its default. */
    function Lookup(name: string): (r: Option<PrefValue>)
      ensures r.Some? <==> (name in user || name in defaults)
      ensures name in user ==> r == Some(user[name])
      ensures name !in user && name in defaults ==> r == Some(defaults[name])
    {
      if name in user then Some(user[name])
      else if name in defaults then Some(defaults[name])
      else None
    }

    /** getBoolPref; None where the service throws (no such preference, or not a boolean). */
    function GetBoolPref(name: string): (r: Option<bool>)
      ensures r.Some? <==> Lookup(name).Some? && Lookup(name).value.BoolValue?
      ensures forall b :: r == Some(b) <==> Lookup(name) == Some(BoolValue(b))
    {
      match Lookup(name)
      case Some(BoolValue(b)) => Some(b)
      case _ => None
    }

    /** getCharPref; None where the service throws (no such preference, or not a string). */
    function GetCharPref(name: string): (r: Option<string>)
      ensures r.Some? <==> Lookup(name).Some? && Lookup(name).value.CharValue?
      ensures forall s :: r == Some(s) <==> Lookup(name) == Some(CharValue(s))
    {
      match Lookup(name)
      case Some(CharValue(s)) => Some(s)
      case _ => None
    }

    /** prefHasUserValue: a user value is set, and it is what every read sees. */
    predicate PrefHasUserValue(name: string): (r: bool)
      ensures r ==> name in user && Lookup(name) == Some(user[name])
      ensures !r ==> Lookup(name) == (if name in defaults then Some(defaults[name]) else None)
    {
      name in user
    }

    /** setBoolPref: gives `name` the user value `v` and touches no other preference. */
    function SetBoolPref(name: string, v: bool): (p: Prefs)
      ensures p.GetBoolPref(name) == Some(v) && p.PrefHasUserValue(name)
      ensures p.defaults == defaults
      ensures forall n :: n != name ==> p.Lookup(n) == Lookup(n)
      ensures forall n :: n != name ==> (p.PrefHasUserValue(n) <==> PrefHasUserValue(n))
    {
      Prefs(defaults, user[name := BoolValue(v)])
    }
  }

  const SYNC_PREFS_BRANCH: string := "services.sync."
  const USERNAME_PREF: string := SYNC_PREFS_BRANCH + "username"
  const FXA_ENABLED_PREF: string := "identity.fxaccounts.enabled"

  /**
   * The first-run guess when the explicit preference is missing: no
   * username preference means Sync is not configured, so accounts are
   * used; a username means the legacy provider, unless it is empty
   * (`!""` is true in JavaScript).
   */
  function SniffFxAccountsEnabled(username: Option<string>): (r: bool)
    ensures !r <==> (username.Some? && |username.value| > 0)
  {
    match username
    case None => true
    case Some(u) => u == ""
  }

  /**
   * The `fxAccountsEnabled` getter on preferences `p`: its answer and the
   * preferences afterwards. An explicit boolean preference is trusted and
   * nothing is written; otherwise the sniffed answer is written back.
   */
  function ReadFxAccountsEnabled(p: Prefs): (res: (bool, Prefs))
    ensures p.GetBoolPref(FXA_ENABLED_PREF).Some? ==> res == (p.GetBoolPref(FXA_ENABLED_PREF).value, p)
    ensures p.GetBoolPref(FXA_ENABLED_PREF).None? ==>
      && (res.0 <==> (p.GetCharPref(USERNAME_PREF).None? || p.GetCharPref(USERNAME_PREF) == Some("")))
      && res.1 == p.SetBoolPref(FXA_ENABLED_PREF, res.0)
    ensures res.1.GetBoolPref(FXA_ENABLED_PREF) == Some(res.0)
  {
    match p.GetBoolPref(FXA_ENABLED_PREF)
    case Some(enabled) => (enabled, p)
    case None =>
      var enabled := SniffFxAccountsEnabled(p.GetCharPref(USERNAME_PREF));
      (enabled, p.SetBoolPref(FXA_ENABLED_PREF, enabled))
  }

  /** Once read, the answer is stable: a second read gives the same value and writes nothing. */
  lemma ReadFxAccountsEnabledIsStable(p: Prefs)
    ensures var (enabled, p1) := ReadFxAccountsEnabled(p);
      ReadFxAccountsEnabled(p1) == (enabled, p1)
  {
  }

  /** The write-back changes no preference but the explicit one, so the username is still there. */
  lemma ReadFxAccountsEnabledKeepsOtherPrefs(p: Prefs, name: string)
    requires name != FXA_ENABLED_PREF
    ensures ReadFxAccountsEnabled(p).1.Lookup(name) == p.Lookup(name)
    ensures ReadFxAccountsEnabled(p).1.PrefHasUserValue(name) == p.PrefHasUserValue(name)
  {
  }

  /** What `Weave.Status.checkSetup()` reports; only CLIENT_NOT_CONFIGURED is singled out. */
  datatype SetupStatus = ClientNotConfigured | OtherSetupStatus(name: string)

  /** The startup timer loads Sync only if a username has a user value and setup is not "not configured". */
  predicate StartupLoads(p: Prefs, status: SetupStatus): (r: bool)
    ensures r ==> USERNAME_PREF in p.user && p.Lookup(USERNAME_PREF) == Some(p.user[USERNAME_PREF])
    ensures status == ClientNotConfigured ==> !r
    ensures !(USERNAME_PREF in p.user) ==> !r
  {
    p.PrefHasUserValue(USERNAME_PREF) && status != ClientNotConfigured
  }

  class WeaveService {
    var ready: bool
    var prefs: Prefs
    /** resource://services-sync/main.js has been imported. */
    var mainImported: bool
    /** Number of ensureLoaded calls (each initializes the identity manager). */
    var loadCount: nat

    constructor (prefs: Prefs)
      ensures !ready && this.prefs == prefs && !mainImported && loadCount == 0
    {
      ready := false;
      this.prefs := prefs;
      mainImported := false;
      loadCount := 0;
    }

    /** Imports Sync's main module and initializes the identity manager. */
    method EnsureLoaded()
      modifies this`mainImported, this`loadCount
      ensures mainImported && loadCount == old(loadCount) + 1
    {
      mainImported := true;
      loadCount := loadCount + 1;
    }

    /** The `fxAccountsEnabled` getter. */
    method FxAccountsEnabled() returns (enabled: bool)
      modifies this`prefs
      ensures (enabled, prefs) == ReadFxAccountsEnabled(old(prefs))
    {
      var explicit := prefs.GetBoolPref(FXA_ENABLED_PREF);
      if explicit.Some? {
        return explicit.value;
      }
      enabled := SniffFxAccountsEnabled(prefs.GetCharPref(USERNAME_PREF));
      prefs := prefs.SetBoolPref(FXA_ENABLED_PREF, enabled);
    }

    /**
     * The startup timer's callback: nothing at all without a username user
     * value; otherwise Sync's main module is imported and ensureLoaded runs
     * unless `status` is CLIENT_NOT_CONFIGURED.
     */
    method NotifyStartupTimer(status: SetupStatus)
      modifies this`mainImported, this`loadCount
      ensures !prefs.PrefHasUserValue(USERNAME_PREF) ==>
        mainImported == old(mainImported) && loadCount == old(loadCount)
      ensures prefs.PrefHasUserValue(USERNAME_PREF) ==> mainImported
      ensures loadCount == old(loadCount) + (if StartupLoads(prefs, status) then 1 else 0)
    {
      if !prefs.PrefHasUserValue(USERNAME_PREF) {
        return;
      }
      mainImported := true;
      if status != ClientNotConfigured {
        EnsureLoaded();
      }
    }

    /** The fxaccounts:onlogin handler: returns at once when accounts are disabled, and does nothing else either. */
    method OnLogin()
      modifies this`prefs
      ensures prefs == ReadFxAccountsEnabled(old(prefs)).1
    {
      var enabled := FxAccountsEnabled();
      if !enabled {
        return;
      }
    }

    /** The fxaccounts:onlogout handler: returns at once when accounts are disabled, else imports Sync's main module. */
    method OnLogout()
      modifies this`prefs, this`mainImported
      ensures prefs == ReadFxAccountsEnabled(old(prefs)).1
      ensures mainImported == (old(mainImported) || ReadFxAccountsEnabled(old(prefs)).0)
    {
      var enabled := FxAccountsEnabled();
      if !enabled {
        return;
      }
      mainImported := true;
    }
  }

  /** Reading `fxAccountsEnabled` twice on a fresh service: same answer, and the second read writes nothing. */
  method ReadEnabledTwice(p: Prefs) returns (first: bool, second: bool, afterFirst: Prefs, afterSecond: Prefs)
    ensures first == second && afterSecond == afterFirst
    ensures afterFirst.GetBoolPref(FXA_ENABLED_PREF) == Some(first)
    ensures p.GetBoolPref(FXA_ENABLED_PREF).Some? ==> afterFirst == p
  {
    var service := new WeaveService(p);
    first := service.FxAccountsEnabled();
    afterFirst := service.prefs;
    second := service.FxAccountsEnabled();
    afterSecond := service.prefs;
  }
}
