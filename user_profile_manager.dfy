/**
 * The persisted user profile (`UserProfileManager`).
 *
 * The profile records whether onboarding is done and the user's average
 * calculation time. It is kept in the browser's local storage under one key.
 * The storage is modelled as a dictionary from keys to the profile each
 * stored text parses to (serialisation is taken to round-trip).
 */
module UserProfile {
  import opened Wrappers

  /** The storage key of the profile. */
  const UserProfileKey: string := "aiAvatarUserProfile"

  /** `averageCalculationTime` is `None` where the JavaScript profile object holds `null`. */
  datatype Profile = Profile(onboardingComplete: bool, averageCalculationTime: Option<real>)

  /** The profile of a user with nothing stored. */
  const DefaultProfile: Profile := Profile(false, None)

  /** The browser's local storage. */
  class LocalStorage {
    var items: map<string, Profile>

    constructor (items: map<string, Profile>)
      ensures this.items == items
    {
      this.items := items;
    }
  }

  /** The profile `loadProfile` yields from the storage contents: the stored one, or the default. */
  function ProfileIn(items: map<string, Profile>): (r: Profile)
    ensures UserProfileKey !in items ==> r == DefaultProfile
    ensures r.onboardingComplete || r.averageCalculationTime.Some? ==> UserProfileKey in items
  {
    if UserProfileKey in items then items[UserProfileKey] else DefaultProfile
  }

  /** A profile written under the key is the one read back, whatever else is stored. */
  lemma ProfileInAfterStore(items: map<string, Profile>, p: Profile)
    ensures ProfileIn(items[UserProfileKey := p]) == p
  {
  }

  class UserProfileManager {
    const storage: LocalStorage
    var profile: Profile

    /** Starts from the stored profile, or from the default when none is stored. */
    constructor (storage: LocalStorage)
      ensures this.storage == storage
      ensures UserProfileKey in storage.items ==> profile == storage.items[UserProfileKey]
      ensures UserProfileKey !in storage.items ==> profile == DefaultProfile
    {
      this.storage := storage;
      profile := ProfileIn(storage.items);
    }

    /** What `loadProfile` returns now; reading changes nothing. */
    function LoadProfile(): (r: Profile)
      reads storage
      ensures UserProfileKey !in storage.items ==> r == DefaultProfile
      ensures UserProfileKey in storage.items ==> r in storage.items.Values
    {
      ProfileIn(storage.items)
    }

    /** Writes the current profile under the profile key and no other. */
    method SaveProfile()
      modifies storage
      ensures storage.items == old(storage.items)[UserProfileKey := profile]
      ensures forall key :: key != UserProfileKey ==>
                (key in storage.items <==> key in old(storage.items)) &&
                (key in storage.items ==> storage.items[key] == old(storage.items)[key])
      ensures LoadProfile() == profile
    {
      storage.items := storage.items[UserProfileKey := profile];
      ProfileInAfterStore(old(storage.items), profile);
    }

    /** Marks onboarding complete with the measured average, and saves. */
    method CompleteOnboarding(averageTime: real)
      modifies this, storage
      ensures profile == Profile(true, Some(averageTime))
      ensures storage.items == old(storage.items)[UserProfileKey := profile]
      ensures IsOnboardingComplete() && GetAverageCalculationTime() == Some(averageTime)
      ensures LoadProfile() == profile
    {
      profile := profile.(onboardingComplete := true);
      profile := profile.(averageCalculationTime := Some(averageTime));
      SaveProfile();
    }

    /** A user still on the default profile has not finished onboarding. */
    function IsOnboardingComplete(): (b: bool)
      reads this
      ensures profile == DefaultProfile ==> !b
    {
      profile.onboardingComplete
    }

    /** A user still on the default profile has no measured average. */
    function GetAverageCalculationTime(): (t: Option<real>)
      reads this
      ensures profile == DefaultProfile ==> t == None
    {
      profile.averageCalculationTime
    }
  }
}
