/**
 * The user slice (`src/store/slices/userSlice.ts`): the signed-in user, the
 * authenticated flag that follows it, and a shallow merge of preference updates.
 */
module UserSlice {
  import opened Common
  import opened Types

  /**
   * `Partial<UserPreferences>`: `None` for a key the update leaves out. The optional
   * `defaultWatchlist` is itself an option, so an update can set it, clear it or omit it.
   */
  datatype PreferencesPatch = PreferencesPatch(
    theme: Option<Theme>,
    currency: Option<string>,
    notifications: Option<NotificationSettings>,
    defaultWatchlist: Option<Option<string>>)

  const EmptyPatch := PreferencesPatch(None, None, None, None)

  /**
   * `{ ...prefs, ...patch }`: each key the patch carries replaces the old value whole,
   * nested notification settings included; the keys it leaves out are kept.
   */
  function MergePreferences(prefs: UserPreferences, patch: PreferencesPatch): (r: UserPreferences)
    ensures patch.theme.Some? ==> r.theme == patch.theme.value
    ensures patch.theme.None? ==> r.theme == prefs.theme
    ensures patch.currency.Some? ==> r.currency == patch.currency.value
    ensures patch.currency.None? ==> r.currency == prefs.currency
    ensures patch.notifications.Some? ==> r.notifications == patch.notifications.value
    ensures patch.notifications.None? ==> r.notifications == prefs.notifications
    ensures patch.defaultWatchlist.Some? ==> r.defaultWatchlist == patch.defaultWatchlist.value
    ensures patch.defaultWatchlist.None? ==> r.defaultWatchlist == prefs.defaultWatchlist
  {
    UserPreferences(
      if patch.theme.Some? then patch.theme.value else prefs.theme,
      if patch.currency.Some? then patch.currency.value else prefs.currency,
      if patch.notifications.Some? then patch.notifications.value else prefs.notifications,
      if patch.defaultWatchlist.Some? then patch.defaultWatchlist.value else prefs.defaultWatchlist)
  }

  /** Right-biased union of two patches: what spreading `a` then `b` would carry. */
  function Then(a: PreferencesPatch, b: PreferencesPatch): PreferencesPatch
  {
    PreferencesPatch(
      if b.theme.Some? then b.theme else a.theme,
      if b.currency.Some? then b.currency else a.currency,
      if b.notifications.Some? then b.notifications else a.notifications,
      if b.defaultWatchlist.Some? then b.defaultWatchlist else a.defaultWatchlist)
  }

  /** An empty update changes nothing. */
  lemma MergeEmpty(prefs: UserPreferences)
    ensures MergePreferences(prefs, EmptyPatch) == prefs
  {
  }

  /** Applying the same update twice is applying it once. */
  lemma MergeIdempotent(prefs: UserPreferences, patch: PreferencesPatch)
    ensures MergePreferences(MergePreferences(prefs, patch), patch) == MergePreferences(prefs, patch)
  {
  }

  /** Two updates in a row are one update with the later keys winning. */
  lemma MergeSequence(prefs: UserPreferences, a: PreferencesPatch, b: PreferencesPatch)
    ensures MergePreferences(MergePreferences(prefs, a), b) == MergePreferences(prefs, Then(a, b))
  {
  }

  /** A patch carrying every key replaces the preferences outright. */
  lemma MergeFull(prefs: UserPreferences, next: UserPreferences)
    ensures MergePreferences(prefs, PreferencesPatch(Some(next.theme), Some(next.currency),
      Some(next.notifications), Some(next.defaultWatchlist))) == next
  {
  }

  /** `UserState` */
  class UserState {
    var user: Option<User>
    var isAuthenticated: bool
    var loading: bool
    var error: Option<string>

    /** The authenticated flag is set exactly when a user is signed in. */
    ghost predicate Valid()
      reads this
    {
      isAuthenticated == user.Some?
    }

    /** `initialState` */
    constructor()
      ensures Valid()
      ensures user == None && !isAuthenticated && !loading && error == None
    {
      user := None;
      isAuthenticated := false;
      loading := false;
      error := None;
    }

    /** `setUser` */
    method SetUser(u: User)
      requires Valid()
      modifies this
      ensures Valid()
      ensures user == Some(u) && isAuthenticated
      ensures loading == old(loading) && error == old(error)
    {
      user := Some(u);
      isAuthenticated := true;
    }

    /** `updatePreferences`: no effect when signed out. */
    method UpdatePreferences(patch: PreferencesPatch)
      requires Valid()
      modifies this
      ensures Valid()
      ensures old(user).None? ==> user == None
      ensures old(user).Some? ==>
        user == Some(old(user).value.(preferences := MergePreferences(old(user).value.preferences, patch)))
      ensures isAuthenticated == old(isAuthenticated) && loading == old(loading) && error == old(error)
    {
      if user.Some? {
        var u := user.value;
        user := Some(u.(preferences := MergePreferences(u.preferences, patch)));
      }
    }

    /** `logout` */
    method Logout()
      requires Valid()
      modifies this
      ensures Valid()
      ensures user == None && !isAuthenticated
      ensures loading == old(loading) && error == old(error)
    {
      user := None;
      isAuthenticated := false;
    }

    /** `setLoading` */
    method SetLoading(value: bool)
      requires Valid()
      modifies this
      ensures Valid()
      ensures loading == value
      ensures user == old(user) && isAuthenticated == old(isAuthenticated) && error == old(error)
    {
      loading := value;
    }

    /** `setError`: `None` clears the error. */
    method SetError(value: Option<string>)
      requires Valid()
      modifies this
      ensures Valid()
      ensures error == value
      ensures user == old(user) && isAuthenticated == old(isAuthenticated) && loading == old(loading)
    {
      error := value;
    }
  }
}
