/**
 * The session store: who is logged in (`currentUser`), as what (`userType`),
 * whether the start-up restore has run (`loading`), and the one record kept in
 * the browser's localStorage under the key `bloodlink_user`.
 */
module Auth {
  import opened Wrappers

  /** The two kinds of account. Routes and stored records spell them "donor" and "bloodbank". */
  datatype UserType = Donor | BloodBank {
    function Name(): (s: string)
      ensures s == "donor" || s == "bloodbank"
    {
      match this
      case Donor => "donor"
      case BloodBank => "bloodbank"
    }
  }

  /** The role-specific part of a user record; a login builds a record with none. */
  datatype Profile =
    | NoProfile
    | DonorProfile(age: string, bloodGroup: string, mobileNumber: string)
    | BankProfile(address: string, contactNumber: string, licenseNumber: string)

  datatype User = User(id: string, name: string, email: string, profile: Profile)

  /**
   * What the `bloodlink_user` key can hold: the JSON record a login writes, the
   * empty string (falsy, so never parsed), or text that `JSON.parse` rejects.
   */
  datatype StoredItem = SessionRecord(user: User, userType: UserType) | EmptyText | Malformed

  /** The `bloodlink_user` entry of localStorage, which outlives every page load. */
  class BrowserStorage {
    var item: Option<StoredItem>

    constructor (initial: Option<StoredItem>)
      ensures item == initial
    {
      item := initial;
    }
  }

  /** What the start-up effect does with the stored entry. */
  datatype RestoreStep = Rehydrate(user: User, userType: UserType) | NothingStored | ParseThrows

  /** A missing or empty entry restores nothing; a login record restores its session; anything else throws. */
  function RestoreFrom(item: Option<StoredItem>): (step: RestoreStep)
    ensures step.Rehydrate? <==> item.Some? && item.value.SessionRecord?
    ensures step.Rehydrate? ==> item == Some(SessionRecord(step.user, step.userType))
    ensures step == ParseThrows <==> item == Some(Malformed)
  {
    match item
    case None => NothingStored
    case Some(EmptyText) => NothingStored
    case Some(SessionRecord(u, t)) => Rehydrate(u, t)
    case Some(Malformed) => ParseThrows
  }

  class AuthProvider {
    var currentUser: Option<User>
    var userType: Option<UserType>
    var loading: bool
    const storage: BrowserStorage

    /** A user is present exactly when a type is. */
    ghost predicate Valid()
      reads this
    {
      currentUser.Some? == userType.Some?
    }

    /** A fresh provider: no session, and loading until the restore has run. */
    constructor (storage: BrowserStorage)
      ensures Valid()
      ensures currentUser == None && userType == None && loading
      ensures this.storage == storage
    {
      currentUser := None;
      userType := None;
      loading := true;
      this.storage := storage;
    }

    /**
     * The start-up effect. It reads the stored entry and, when it holds a
     * record, takes its user and type; then it clears `loading`. When
     * `JSON.parse` throws, nothing after it runs and `loading` stays as it was.
     */
    method Restore() returns (completed: bool)
      requires Valid()
      modifies this
      ensures Valid()
      ensures completed <==> RestoreFrom(storage.item) != ParseThrows
      ensures match RestoreFrom(storage.item)
        case Rehydrate(u, t) => currentUser == Some(u) && userType == Some(t) && !loading
        case NothingStored => currentUser == old(currentUser) && userType == old(userType) && !loading
        case ParseThrows => currentUser == old(currentUser) && userType == old(userType) && loading == old(loading)
    {
      match storage.item {
        case None =>
        case Some(EmptyText) =>
        case Some(SessionRecord(u, t)) =>
          currentUser := Some(u);
          userType := Some(t);
        case Some(Malformed) =>
          return false;
      }
      loading := false;
      completed := true;
    }

    /** `login(user, type)`: becomes the session, overwrites the stored record, and reports success. */
    method Login(user: User, t: UserType) returns (success: bool)
      modifies this, storage
      ensures Valid()
      ensures currentUser == Some(user) && userType == Some(t) && loading == old(loading)
      ensures storage.item == Some(SessionRecord(user, t))
      ensures success
    {
      currentUser := Some(user);
      userType := Some(t);
      storage.item := Some(SessionRecord(user, t));
      success := true;
    }

    /** `register(user, type)`: the same effect and result as `login`. */
    method Register(user: User, t: UserType) returns (success: bool)
      modifies this, storage
      ensures Valid()
      ensures currentUser == Some(user) && userType == Some(t) && loading == old(loading)
      ensures storage.item == Some(SessionRecord(user, t))
      ensures success
    {
      currentUser := Some(user);
      userType := Some(t);
      storage.item := Some(SessionRecord(user, t));
      success := true;
    }

    /** `logout()`: no session, and the stored record is removed. */
    method Logout()
      modifies this, storage
      ensures Valid()
      ensures currentUser == None && userType == None && loading == old(loading)
      ensures storage.item == None
    {
      currentUser := None;
      userType := None;
      storage.item := None;
    }
  }

  /** Log in, then load the page again: the new provider restores the same user and type. */
  method LoginThenReload(initial: Option<StoredItem>, user: User, t: UserType)
    returns (restoredUser: Option<User>, restoredType: Option<UserType>, stillLoading: bool)
    ensures restoredUser == Some(user) && restoredType == Some(t) && !stillLoading
  {
    var storage := new BrowserStorage(initial);
    var page := new AuthProvider(storage);
    var ok := page.Login(user, t);
    var reloaded := new AuthProvider(storage);
    var completed := reloaded.Restore();
    restoredUser, restoredType, stillLoading := reloaded.currentUser, reloaded.userType, reloaded.loading;
  }

  /** Log out, then load the page again: the session is empty and loading is over. */
  method LogoutThenReload(initial: Option<StoredItem>)
    returns (restoredUser: Option<User>, restoredType: Option<UserType>, stillLoading: bool)
    ensures restoredUser == None && restoredType == None && !stillLoading
  {
    var storage := new BrowserStorage(initial);
    var page := new AuthProvider(storage);
    page.Logout();
    var reloaded := new AuthProvider(storage);
    var completed := reloaded.Restore();
    restoredUser, restoredType, stillLoading := reloaded.currentUser, reloaded.userType, reloaded.loading;
  }

  /** A login followed by a registration: the later one is the session now and after a reload. */
  method LastWriteWins(initial: Option<StoredItem>, first: User, t1: UserType, second: User, t2: UserType)
    returns (liveUser: Option<User>, restoredUser: Option<User>, restoredType: Option<UserType>)
    ensures liveUser == Some(second)
    ensures restoredUser == Some(second) && restoredType == Some(t2)
  {
    var storage := new BrowserStorage(initial);
    var page := new AuthProvider(storage);
    var ok := page.Login(first, t1);
    ok := page.Register(second, t2);
    liveUser := page.currentUser;
    var reloaded := new AuthProvider(storage);
    var completed := reloaded.Restore();
    restoredUser, restoredType := reloaded.currentUser, reloaded.userType;
  }

  /** A page load over an entry that `JSON.parse` rejects: the restore aborts and `loading` stays true. */
  method ReloadOverMalformedEntry()
    returns (completed: bool, restoredUser: Option<User>, stillLoading: bool)
    ensures !completed && restoredUser == None && stillLoading
  {
    var storage := new BrowserStorage(Some(Malformed));
    var page := new AuthProvider(storage);
    completed := page.Restore();
    restoredUser, stillLoading := page.currentUser, page.loading;
  }
}
