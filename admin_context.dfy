/** The admin session of src/contexts/admin-context.tsx: a logged-in flag coupled to
    the `admin_session` entry of the browser's key-value store. */
module AdminContext {
  import StorageManager
  import Seqs

  const AdminPassword: string := "223344"

  /** The value `login` stores under the session key. */
  const LoggedInValue: string := "logged_in"

  /** The stored entry that makes a freshly mounted provider consider itself logged in. */
  predicate SessionActive(local: map<string, string>)
  {
    StorageManager.AdminSessionKey in local && local[StorageManager.AdminSessionKey] == LoggedInValue
  }

  /** The provider's state: `isLoggedIn`, over the shared browser storage. */
  class AdminState {
    var isLoggedIn: bool
    const storage: StorageManager.BrowserStorage

    /** Mounting the provider: `isLoggedIn` starts false and the mount effect sets it
        exactly when the stored session entry is `"logged_in"`. */
    constructor (storage: StorageManager.BrowserStorage)
      ensures this.storage == storage
      ensures isLoggedIn == SessionActive(storage.local)
    {
      this.storage := storage;
      var adminSession := if StorageManager.AdminSessionKey in storage.local
                          then storage.local[StorageManager.AdminSessionKey] else "";
      isLoggedIn := StorageManager.AdminSessionKey in storage.local && adminSession == LoggedInValue;
    }

    /** `login`: succeeds exactly for the configured password; on success it sets the
        flag and writes the session entry, touching no other key; on failure nothing
        changes. */
    method Login(password: string) returns (ok: bool)
      modifies this, storage`local
      ensures ok <==> password == AdminPassword
      ensures ok ==> isLoggedIn && storage.local == old(storage.local)[StorageManager.AdminSessionKey := LoggedInValue]
      ensures !ok ==> isLoggedIn == old(isLoggedIn) && storage.local == old(storage.local)
    {
      if password == AdminPassword {
        isLoggedIn := true;
        storage.local := storage.local[StorageManager.AdminSessionKey := LoggedInValue];
        return true;
      }
      return false;
    }

    /** `logout`: clears the flag and removes the session entry only. */
    method Logout()
      modifies this, storage`local
      ensures !isLoggedIn
      ensures storage.local == old(storage.local) - {StorageManager.AdminSessionKey}
    {
      isLoggedIn := false;
      storage.local := storage.local - {StorageManager.AdminSessionKey};
    }
  }

  /** The store `login` writes carries an active session, whatever it held before,
      and every other key keeps its value. */
  lemma LoginEstablishesSession(local: map<string, string>)
    ensures SessionActive(local[StorageManager.AdminSessionKey := LoggedInValue])
    ensures forall k :: k != StorageManager.AdminSessionKey ==>
              (k in local <==> k in local[StorageManager.AdminSessionKey := LoggedInValue]) &&
              (k in local ==> local[StorageManager.AdminSessionKey := LoggedInValue][k] == local[k])
  {
  }

  /** After `logout` no session is active, and a second `logout` changes nothing. */
  lemma LogoutEndsSession(local: map<string, string>)
    ensures !SessionActive(local - {StorageManager.AdminSessionKey})
    ensures (local - {StorageManager.AdminSessionKey}) - {StorageManager.AdminSessionKey} ==
            local - {StorageManager.AdminSessionKey}
  {
  }

  /** Both cleanup tiers keep the session key with its value, so an active session
      is still active after soft cleanup or emergency cleanup (each as written or as
      intended), and after soft followed by emergency cleanup. */
  lemma SessionSurvivesCleanup(local: map<string, string>)
    requires SessionActive(local)
    ensures SessionActive(StorageManager.SoftRetain(local))
    ensures SessionActive(StorageManager.EmergencyRetain(local))
    ensures SessionActive(StorageManager.EmergencyRetain(StorageManager.SoftRetain(local)))
    ensures SessionActive(StorageManager.SoftRetainAsWritten(local))
    ensures SessionActive(StorageManager.EmergencyRetain(StorageManager.SoftRetainAsWritten(local)))
    ensures SessionActive(StorageManager.EmergencyRetainAsWritten(local))
    ensures SessionActive(StorageManager.EmergencyRetainAsWritten(StorageManager.SoftRetainAsWritten(local)))
  {
  }

  /** A login followed by soft cleanup and then emergency cleanup: a provider mounted
      afterwards on the same storage is logged in. */
  method LoginSurvivesCleanup(storage: StorageManager.BrowserStorage, cacheFails: set<string>, dbFails: set<string>)
    returns (remounted: AdminState)
    modifies storage
    ensures fresh(remounted) && remounted.storage == storage
    ensures remounted.isLoggedIn && SessionActive(storage.local)
    ensures storage.local == StorageManager.EmergencyRetainAsWritten(StorageManager.SoftRetainAsWritten(
              old(storage.local)[StorageManager.AdminSessionKey := LoggedInValue]))
    ensures storage.session == map[] && storage.caches == old(storage.caches) * cacheFails
    ensures storage.databases == Seqs.Filter(old(storage.databases), StorageManager.Survives(false, dbFails))
  {
    var admin := new AdminState(storage);
    var ok := admin.Login(AdminPassword);
    ghost var afterLogin := storage.local;
    LoginEstablishesSession(old(storage.local));
    storage.ClearCaches(cacheFails);
    SessionSurvivesCleanup(afterLogin);
    var attempted := storage.EmergencyCleanup(cacheFails, dbFails);
    remounted := new AdminState(storage);
  }
}
