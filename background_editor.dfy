/** The admin background editor of components/background-settings.tsx: edits a
    working copy of the settings, can preview them live by writing them to the
    store, and saves or resets them. */
module BackgroundEditor {
  import opened Common
  import opened Strings
  import opened BackgroundSettings

  /** The image the upload widget shows before a real one is chosen. */
  const PlaceholderUrl: string := "/placeholder.svg?height=400&width=800"

  /** The light gray of an empty preview. */
  const EmptyPreview: Style := NoStyle.(backgroundColor := Some("#f3f4f6"))

  /** `getPreviewStyle`: the background style without the positioning, except that
      an image without a real URL, or an unknown kind, shows light gray. */
  function PreviewStyle(s: Settings): Style {
    if s.kind == "color" then NoStyle.(backgroundColor := Some(OrElse(s.color, "#ffffff")))
    else if s.kind == "gradient" then NoStyle.(backgroundImage := Some(GradientImage(s)))
    else if s.kind == "image" && HasImage(s) && s.imageUrl.value != PlaceholderUrl then
      ImageStyle(s.imageUrl.value, s, false)
    else EmptyPreview
  }

  /** The preview agrees with the page for colors and gradients and for real
      images (apart from the positioning the overlay needs); it shows light gray
      for a missing or placeholder image and for any other kind. */
  lemma PreviewMatchesPage(s: Settings)
    ensures s.kind == "color" || s.kind == "gradient" ==> PreviewStyle(s) == BackgroundStyle(s)
    ensures s.kind == "image" && HasImage(s) && s.imageUrl.value != PlaceholderUrl ==>
              PreviewStyle(s) == BackgroundStyle(s).(position := None)
    ensures s.kind == "image" && (!HasImage(s) || s.imageUrl.value == PlaceholderUrl) ==> PreviewStyle(s) == EmptyPreview
    ensures s.kind !in {"color", "gradient", "image"} ==> PreviewStyle(s) == EmptyPreview
    ensures PreviewStyle(s).position.None?
  {
  }

  /** The editor's state, and the stored settings it writes (localStorage). */
  class Editor {
    var settings: Settings
    var previewMode: bool
    var hasChanges: bool
    var originalSettings: Option<Settings>
    var stored: Option<Settings>

    /** Before the mount effect: the default gradient, nothing changed, no original. */
    constructor(stored: Option<Settings>)
      ensures settings == Defaults && !previewMode && !hasChanges && originalSettings.None?
      ensures this.stored == stored
    {
      settings := Defaults;
      previewMode := false;
      hasChanges := false;
      originalSettings := None;
      this.stored := stored;
    }

    /** The mount effect: both the working copy and the original become what the
        store holds. */
    method Mount()
      modifies this
      ensures settings == Load(false, old(stored)) && originalSettings == Some(settings)
      ensures stored == old(stored) && previewMode == old(previewMode) && hasChanges == old(hasChanges)
    {
      var current := Load(false, stored);
      settings := current;
      originalSettings := Some(current);
    }

    /** `handleSettingsChange`: overlay the change on the working copy and mark it
        changed; in preview mode the store follows at once. */
    method ChangeSettings(p: SettingsPatch)
      modifies this
      ensures settings == Overlay(old(settings), p) && hasChanges
      ensures stored == if previewMode then Some(settings) else old(stored)
      ensures previewMode == old(previewMode) && originalSettings == old(originalSettings)
    {
      var updated := Overlay(settings, p);
      settings := updated;
      hasChanges := true;
      if previewMode {
        stored := Some(updated);
      }
    }

    /** The Save button is enabled only with unsaved changes. */
    predicate CanSave()
      reads this
    {
      hasChanges
    }

    /** `handleSave`: store the working copy, leave preview mode and make the copy
        the new original. */
    method Save()
      modifies this
      ensures stored == Some(old(settings)) && settings == old(settings)
      ensures !previewMode && originalSettings == Some(settings) && !hasChanges
    {
      stored := Some(settings);
      previewMode := false;
      originalSettings := Some(settings);
      hasChanges := false;
    }

    /** `handlePreview`: toggle preview mode. Turning it on stores the working
        copy; turning it off stores the original again, if there is one, without
        reverting the working copy. */
    method TogglePreview()
      modifies this
      ensures previewMode == !old(previewMode)
      ensures settings == old(settings) && hasChanges == old(hasChanges) && originalSettings == old(originalSettings)
      ensures !old(previewMode) ==> stored == Some(settings)
      ensures old(previewMode) ==> stored == if originalSettings.Some? then originalSettings else old(stored)
    {
      var wasPreviewing := previewMode;
      previewMode := !previewMode;
      if !wasPreviewing {
        stored := Some(settings);
      } else if originalSettings.Some? {
        stored := originalSettings;
      }
    }

    /** `handleReset`: back to the default gradient, marked changed; the store is
        not written, even in preview mode. */
    method Reset()
      modifies this
      ensures settings == Defaults && hasChanges
      ensures stored == old(stored) && previewMode == old(previewMode) && originalSettings == old(originalSettings)
    {
      settings := Defaults;
      hasChanges := true;
    }
  }
}
