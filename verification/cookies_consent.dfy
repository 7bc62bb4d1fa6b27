/**
 * The cookie-consent banner: shown on a first visit, it records the
 * visitor's choice (accept all, necessary only, or a custom selection made
 * in its preferences dialog) in local storage and hides itself.
 */
module CookiesConsent {
  import opened JsValues
  import opened Preferences

  /** What the visitor can click while the banner (and maybe the dialog) is on screen. */
  datatype BannerAction =
    | CustomizeClicked              // toggles the preferences dialog
    | NecessaryOnlyClicked
    | AcceptAllClicked
    | CloseClicked                  // the dialog's close and cancel buttons
    | SwitchToggled(key: Category)  // one of the dialog's category switches
    | SaveClicked                   // the dialog's save button

  class Banner {
    const storage: Store
    var showBanner: bool
    var showPreferences: bool
    var preferences: Prefs

    /**
     * Necessary cookies are on, in memory and in the stored record. The
     * initial state has it, every handler keeps it, and the handlers that
     * write a record establish it whatever came before.
     */
    ghost predicate Sound()
      reads this, storage
    {
      preferences.necessary && StoreSound(storage.items)
    }

    /** The component before its mount effect has run. */
    constructor (storage: Store)
      ensures this.storage == storage
      ensures !showBanner && !showPreferences && preferences == Defaults
      ensures StoreSound(storage.items) ==> Sound()
    {
      this.storage := storage;
      showBanner := false;
      showPreferences := false;
      preferences := Defaults;
    }

    /**
     * The mount effect. With no stored consent the banner is shown (the
     * one-second delay is not modelled) and the preferences keep their
     * values; a stored record replaces the preferences and the banner stays
     * hidden. A stored value that is not a record fails to parse and
     * changes nothing, unless it is empty, which counts as no consent.
     */
    method Mount()
      modifies this`showBanner, this`preferences
      ensures StoredConsent(storage.items).Some? ==>
                preferences == StoredConsent(storage.items).value && showBanner == old(showBanner)
      ensures ConsentKey !in storage.items || storage.items[ConsentKey] == Timestamp("") ==>
                showBanner && preferences == old(preferences)
      ensures ConsentKey in storage.items && storage.items[ConsentKey].Timestamp? &&
              storage.items[ConsentKey] != Timestamp("") ==>
                showBanner == old(showBanner) && preferences == old(preferences)
      ensures old(Sound()) ==> Sound()
    {
      var consent := storage.GetItem(ConsentKey);
      match consent
      case None =>
        showBanner := true;
      case Some(ConsentRecord(saved)) =>
        preferences := saved;
      case Some(Timestamp(text)) =>
        if text == "" {
          showBanner := true;
        }
    }

    /** Records and applies consent to every category, then hides both panels. */
    method AcceptAll(now: string)
      modifies this`preferences, this`showBanner, this`showPreferences, storage
      ensures preferences == AllAccepted
      ensures storage.items == old(storage.items)[ConsentKey := ConsentRecord(AllAccepted)]
                                                 [ConsentDateKey := Timestamp(now)]
      ensures !showBanner && !showPreferences
      ensures Sound()
    {
      var allAccepted := AllAccepted;
      preferences := allAccepted;
      storage.SetItem(ConsentKey, ConsentRecord(allAccepted));
      storage.SetItem(ConsentDateKey, Timestamp(now));
      showBanner := false;
      showPreferences := false;
    }

    /** Records and applies consent to necessary cookies only, then hides both panels. */
    method AcceptNecessary(now: string)
      modifies this`preferences, this`showBanner, this`showPreferences, storage
      ensures preferences == NecessaryOnly
      ensures storage.items == old(storage.items)[ConsentKey := ConsentRecord(NecessaryOnly)]
                                                 [ConsentDateKey := Timestamp(now)]
      ensures !showBanner && !showPreferences
      ensures Sound()
    {
      var necessaryOnly := NecessaryOnly;
      preferences := necessaryOnly;
      storage.SetItem(ConsentKey, ConsentRecord(necessaryOnly));
      storage.SetItem(ConsentDateKey, Timestamp(now));
      showBanner := false;
      showPreferences := false;
    }

    /** Records the preferences as they are in memory, then hides both panels. */
    method SavePreferences(now: string)
      modifies this`showBanner, this`showPreferences, storage
      ensures preferences == old(preferences)
      ensures storage.items == old(storage.items)[ConsentKey := ConsentRecord(preferences)]
                                                 [ConsentDateKey := Timestamp(now)]
      ensures !showBanner && !showPreferences
      ensures old(preferences.necessary) ==> Sound()
    {
      storage.SetItem(ConsentKey, ConsentRecord(preferences));
      storage.SetItem(ConsentDateKey, Timestamp(now));
      showBanner := false;
      showPreferences := false;
    }

    /**
     * A category switch: refused for necessary cookies, otherwise flips
     * that one category in memory; nothing is stored until a save.
     */
    method HandlePreferenceChange(key: Category)
      modifies this`preferences
      ensures key == Necessary ==> preferences == old(preferences)
      ensures key != Necessary ==> preferences == Flipped(old(preferences), key)
      ensures old(Sound()) ==> Sound()
    {
      if key == Necessary {
        return;
      }
      preferences := Flipped(preferences, key);
    }

    /** The "Customize" button opens or closes the dialog. */
    method ToggleCustomize()
      modifies this`showPreferences
      ensures showPreferences == !old(showPreferences)
    {
      showPreferences := !showPreferences;
    }

    /** The dialog's close and cancel buttons. */
    method ClosePreferences()
      modifies this`showPreferences
      ensures !showPreferences
    {
      showPreferences := false;
    }

    /**
     * One click on what is rendered. A hidden banner renders nothing, so no
     * click reaches any handler; the switches, save and close buttons exist
     * only while the dialog is open.
     */
    method Dispatch(action: BannerAction, now: string)
      modifies this`preferences, this`showBanner, this`showPreferences, storage
      ensures !old(showBanner) ==> unchanged(this) && unchanged(storage)
      ensures !old(showPreferences) && (action.SwitchToggled? || action.SaveClicked? || action.CloseClicked?) ==>
                unchanged(this) && unchanged(storage)
      ensures storage.items != old(storage.items) ==>
                old(showBanner) && !showBanner && !showPreferences &&
                StoredConsent(storage.items) == Some(preferences)
      ensures old(showBanner) && action.CustomizeClicked? ==>
                showBanner && showPreferences == !old(showPreferences) &&
                preferences == old(preferences) && unchanged(storage)
      ensures old(showBanner) && action.NecessaryOnlyClicked? ==>
                preferences == NecessaryOnly && !showBanner && !showPreferences &&
                storage.items == old(storage.items)[ConsentKey := ConsentRecord(NecessaryOnly)]
                                                   [ConsentDateKey := Timestamp(now)]
      ensures old(showBanner) && action.AcceptAllClicked? ==>
                preferences == AllAccepted && !showBanner && !showPreferences &&
                storage.items == old(storage.items)[ConsentKey := ConsentRecord(AllAccepted)]
                                                   [ConsentDateKey := Timestamp(now)]
      ensures old(showBanner) && old(showPreferences) && action.CloseClicked? ==>
                showBanner && !showPreferences && preferences == old(preferences) && unchanged(storage)
      ensures old(showBanner) && old(showPreferences) && action.SwitchToggled? ==>
                showBanner && showPreferences && unchanged(storage) &&
                preferences == (if action.key == Necessary then old(preferences)
                                else Flipped(old(preferences), action.key))
      ensures old(showBanner) && old(showPreferences) && action.SaveClicked? ==>
                preferences == old(preferences) && !showBanner && !showPreferences &&
                storage.items == old(storage.items)[ConsentKey := ConsentRecord(old(preferences))]
                                                   [ConsentDateKey := Timestamp(now)]
      ensures old(Sound()) ==> Sound()
    {
      if !showBanner {
        return;
      }
      match action
      case CustomizeClicked =>
        ToggleCustomize();
      case NecessaryOnlyClicked =>
        AcceptNecessary(now);
      case AcceptAllClicked =>
        AcceptAll(now);
      case CloseClicked =>
        if showPreferences {
          ClosePreferences();
        }
      case SwitchToggled(key) =>
        if showPreferences {
          HandlePreferenceChange(key);
        }
      case SaveClicked =>
        if showPreferences {
          SavePreferences(now);
        }
    }
  }
}
