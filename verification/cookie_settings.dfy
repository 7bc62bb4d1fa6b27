/**
 * The cookie settings panel: it shows the stored consent, lets the visitor switch categories (each change is
 * stored at once) and resets everything.
 */
module CookieSettings {
  import opened JsValues
  import opened Preferences
  import CookiesConsent

  /** What the visitor can click on the rendered panel. */
  datatype SettingsAction =
    | ShowSettingsClicked           // "Show Settings" / "Hide Settings"
    | SwitchToggled(key: Category)  // a category switch, only while the settings are shown
    | ResetClicked                  // "Reset All Cookie Preferences"

  class SettingsPanel {
    const storage: Store
    var preferences: Prefs
    var showSettings: bool
    var hasConsent: bool

    /** Necessary cookies are on, in memory and in the stored record. */
    ghost predicate Sound()
      reads this, storage
    {
      preferences.necessary && StoreSound(storage.items)
    }

    /** The component before its mount effect has run. */
    constructor (storage: Store)
      ensures this.storage == storage
      ensures preferences == Defaults && !showSettings && !hasConsent
      ensures StoreSound(storage.items) ==> Sound()
    {
      this.storage := storage;
      preferences := Defaults;
      showSettings := false;
      hasConsent := false;
    }

    /**
     * The mount effect: a stored record becomes the preferences and marks
     * consent as given; with nothing stored (or an empty value) nothing
     * changes, and a value that is not a record fails to parse and changes
     * nothing either.
     */
    method Mount()
      modifies this`preferences, this`hasConsent
      ensures StoredConsent(storage.items).Some? ==>
                hasConsent && preferences == StoredConsent(storage.items).value
      ensures StoredConsent(storage.items).None? ==>
                hasConsent == old(hasConsent) && preferences == old(preferences)
      ensures old(Sound()) ==> Sound()
    {
      var consent := storage.GetItem(ConsentKey);
      match consent
      case None =>
      case Some(ConsentRecord(saved)) =>
        preferences := saved;
        hasConsent := true;
      case Some(Timestamp(_)) =>
    }

    /**
     * A category switch: refused for necessary cookies (neither memory nor
     * storage changes); otherwise that one category flips and the new
     * record is stored at once, with the time of the change.
     */
    method HandlePreferenceChange(key: Category, now: string)
      modifies this`preferences, storage
      ensures key == Necessary ==> preferences == old(preferences) && storage.items == old(storage.items)
      ensures key != Necessary ==> preferences == Flipped(old(preferences), key)
      ensures key != Necessary ==>
                storage.items == old(storage.items)[ConsentKey := ConsentRecord(preferences)]
                                                   [ConsentDateKey := Timestamp(now)]
      ensures key != Necessary ==> StoredConsent(storage.items) == Some(preferences)
      ensures old(Sound()) ==> Sound()
    {
      if key == Necessary {
        return;
      }
      var newPreferences := Flipped(preferences, key);
      preferences := newPreferences;
      storage.SetItem(ConsentKey, ConsentRecord(newPreferences));
      storage.SetItem(ConsentDateKey, Timestamp(now));
    }

    /**
     * Removes the stored consent and its time stamp, forgets the consent
     * and restores the default preferences (the page reload that follows
     * is not modelled).
     */
    method ClearAllCookies()
      modifies this`preferences, this`hasConsent, storage
      ensures storage.items == old(storage.items) - {ConsentKey, ConsentDateKey}
      ensures StoredConsent(storage.items).None?
      ensures !hasConsent && preferences == Defaults
      ensures Sound()
    {
      storage.RemoveItem(ConsentKey);
      storage.RemoveItem(ConsentDateKey);
      hasConsent := false;
      preferences := Defaults;
    }

    /** Shows or hides the category switches. */
    method ToggleShowSettings()
      modifies this`showSettings
      ensures showSettings == !old(showSettings)
    {
      showSettings := !showSettings;
    }

    /**
     * One click on what is rendered. Without consent only a notice is
     * rendered, so no click reaches any handler; the switches exist only
     * while the settings are shown.
     */
    method Dispatch(action: SettingsAction, now: string)
      modifies this`preferences, this`showSettings, this`hasConsent, storage
      ensures !old(hasConsent) ==> unchanged(this) && unchanged(storage)
      ensures !old(showSettings) && action.SwitchToggled? ==> unchanged(this) && unchanged(storage)
      ensures old(hasConsent) && action.ShowSettingsClicked? ==>
                showSettings == !old(showSettings) && hasConsent &&
                preferences == old(preferences) && unchanged(storage)
      ensures old(hasConsent) && old(showSettings) && action.SwitchToggled? && action.key == Necessary ==>
                unchanged(this) && storage.items == old(storage.items)
      ensures old(hasConsent) && old(showSettings) && action.SwitchToggled? && action.key != Necessary ==>
                hasConsent && showSettings &&
                preferences == Flipped(old(preferences), action.key) &&
                storage.items == old(storage.items)[ConsentKey := ConsentRecord(preferences)]
                                                   [ConsentDateKey := Timestamp(now)]
      ensures old(hasConsent) && action.ResetClicked? ==>
                storage.items == old(storage.items) - {ConsentKey, ConsentDateKey} &&
                !hasConsent && preferences == Defaults && showSettings == old(showSettings)
      ensures old(Sound()) ==> Sound()
    {
      if !hasConsent {
        return;
      }
      match action
      case ShowSettingsClicked =>
        ToggleShowSettings();
      case SwitchToggled(key) =>
        if showSettings {
          HandlePreferenceChange(key, now);
        }
      case ResetClicked =>
        ClearAllCookies();
    }
  }

  /**
   * A reset followed by the page reload its handler intends: the consent banner,
   * mounted afresh on the same storage, finds no consent and shows itself
   * with the default preferences.
   */
  method ResetAndReload(panel: SettingsPanel) returns (banner: CookiesConsent.Banner)
    modifies panel, panel.storage
    ensures fresh(banner) && banner.storage == panel.storage
    ensures StoredConsent(panel.storage.items).None? && !panel.hasConsent
    ensures banner.showBanner && !banner.showPreferences && banner.preferences == Defaults
    ensures banner.Sound()
  {
    panel.ClearAllCookies();
    banner := new CookiesConsent.Banner(panel.storage);
    banner.Mount();
  }
}
