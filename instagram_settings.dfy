/** The admin panel of components/instagram-settings.tsx: a working copy of the
    Instagram settings that is edited field by field and saved to, or reset
    from, the defaults. */
module InstagramSettingsEditor {
  import opened Common
  import opened Instagram

  /** The range of the "Number of Posts to Display" slider. */
  const SliderMin: int := 3
  const SliderMax: int := 12

  /** The label of the save button. */
  function SaveLabel(hasChanges: bool): string {
    if hasChanges then "Save Changes" else "Saved"
  }

  /** A count the slider can produce shows exactly that many posts once enabled. */
  lemma SliderCountIsShown(s: InstagramSettings)
    requires s.enabled && SliderMin <= s.displayCount <= SliderMax
    ensures |FetchPosts(s)| == s.displayCount
    ensures FetchPosts(s) == MockPosts[..s.displayCount]
  {
    FetchPostsCount(s);
  }

  class Editor {
    const onServer: bool
    var settings: InstagramSettings
    var hasChanges: bool
    var originalSettings: Option<InstagramSettings>
    /** The "instagramSettings" storage entry. */
    var stored: Option<StoredText>

    /** Whenever the panel shows "Saved" after loading or saving, the working
        copy is the original and is what the store reads back as. */
    predicate InSync()
      reads this
    {
      !hasChanges && originalSettings.Some? ==>
        settings == originalSettings.value && Load(onServer, stored) == Loaded(settings)
    }

    /** Before the mount effect: the defaults, unchanged, with no original. */
    constructor(onServer: bool, stored: Option<StoredText>)
      ensures this.onServer == onServer && this.stored == stored
      ensures settings == Defaults && !hasChanges && originalSettings.None?
      ensures InSync()
    {
      this.onServer := onServer;
      this.stored := stored;
      settings := Defaults;
      hasChanges := false;
      originalSettings := None;
    }

    /** The mount effect: load the settings as working copy and original. A
        malformed entry makes the load throw, and nothing changes. */
    method Mount()
      requires InSync()
      modifies this
      ensures Load(onServer, stored).Loaded? ==>
                settings == Load(onServer, stored).settings && originalSettings == Some(settings)
      ensures Load(onServer, stored).ParseError? ==>
                settings == old(settings) && originalSettings == old(originalSettings)
      ensures stored == old(stored) && hasChanges == old(hasChanges)
      ensures InSync()
    {
      var current := Load(onServer, stored);
      if current.ParseError? {
        return;
      }
      settings := current.settings;
      originalSettings := Some(current.settings);
    }

    /** `handleSettingsChange`: overlay the change and mark the copy changed; the
        store is not touched. */
    method ChangeSettings(p: SettingsPatch)
      modifies this
      ensures settings == Overlay(old(settings), p) && hasChanges
      ensures stored == old(stored) && originalSettings == old(originalSettings)
      ensures InSync()
    {
      settings := Overlay(settings, p);
      hasChanges := true;
    }

    /** The slider: a count from 3 to 12. */
    method ChangeDisplayCount(v: int)
      requires SliderMin <= v <= SliderMax
      modifies this
      ensures settings == old(settings).(displayCount := v) && hasChanges
      ensures stored == old(stored) && originalSettings == old(originalSettings)
      ensures InSync()
    {
      ChangeSettings(SettingsPatch(None, Some(v), None, None, None));
    }

    /** The fields below the "enabled" switch are shown only while it is on. */
    predicate DetailsShown()
      reads this
    {
      settings.enabled
    }

    /** The save button is enabled only with unsaved changes. */
    predicate CanSave()
      reads this
    {
      hasChanges
    }

    /** `handleSave`: store the working copy and make it the original. */
    method Save()
      modifies this
      ensures stored == Instagram.Save(onServer, old(stored), old(settings)) && settings == old(settings)
      ensures originalSettings == Some(settings) && !hasChanges
      ensures !onServer ==> InSync()
    {
      stored := Instagram.Save(onServer, stored, settings);
      originalSettings := Some(settings);
      hasChanges := false;
      SaveThenLoad(onServer, old(stored), settings);
    }

    /** `handleReset`: back to the defaults, marked changed, store untouched. */
    method Reset()
      modifies this
      ensures settings == Defaults && hasChanges
      ensures stored == old(stored) && originalSettings == old(originalSettings)
      ensures InSync()
    {
      settings := Defaults;
      hasChanges := true;
    }
  }
}
