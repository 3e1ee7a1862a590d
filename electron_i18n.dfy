/**
 * The Electron shell's own language state: a module-level language that
 * starts as English, the tray-menu labels for each language, and the
 * optional persistent store the choice is saved to.
 */
module ElectronI18n {
  import opened Wrappers
  import opened Languages

  /** The tray menu labels. */
  datatype TrayLabels = TrayLabels(
    hideWindow: string, showWindow: string, dashboard: string, pos: string,
    notifications: string, showAllNotifications: string, enableNotifications: string,
    about: string, quit: string)

  /** The fixed label table, one entry per language. */
  function Translations(l: Lang): (labels: TrayLabels)
    ensures labels.hideWindow != "" && labels.showWindow != "" && labels.dashboard != "" && labels.pos != ""
    ensures labels.notifications != "" && labels.showAllNotifications != "" && labels.enableNotifications != ""
    ensures labels.about != "" && labels.quit != ""
  {
    match l
    case En => TrayLabels("Hide Window", "Show Window", "Dashboard", "POS", "Notifications",
                          "Show All Notifications", "Enable Notifications", "About", "Quit")
    case Ar => TrayLabels("إخفاء النافذة", "إظهار النافذة", "لوحة القيادة", "نقطة البيع", "الإشعارات",
                          "إظهار جميع الإشعارات", "تمكين الإشعارات", "حول", "إنهاء")
  }

  /** The store's `'language'` key: absent, a string, or some other stored value. */
  datatype Saved = Absent | Text(s: string) | Other

  /**
   * `store.get('language', 'en')` checked against the two codes: the saved
   * code when it is `'en'` or `'ar'`, English for anything else.
   */
  function SavedLanguage(saved: Saved): (l: Lang)
    ensures l == Ar <==> saved == Text(Code(Ar))
    ensures forall m :: saved == Text(Code(m)) ==> l == m
  {
    match saved
    case Absent => En
    case Other => En
    case Text(s) => if s == "ar" then Ar else En
  }

  class I18n {
    /** `currentLanguage`; its type keeps it one of the two languages. */
    var currentLanguage: Lang
    /** `store`: `None` until initialisation has created it; otherwise the `'language'` key's content. */
    var store: Option<Saved>

    constructor ()
      ensures currentLanguage == En && store == None
    {
      currentLanguage := En;
      store := None;
    }

    /** `setLanguage(lang)`: always the language, and the store only once it exists. */
    method SetLanguage(l: Lang)
      modifies this
      ensures currentLanguage == l
      ensures old(store).None? ==> store == None
      ensures old(store).Some? ==> store == Some(Text(Code(l)))
    {
      currentLanguage := l;
      if store.Some? {
        store := Some(Text(Code(l)));
      }
    }

    method GetCurrentLanguage() returns (l: Lang)
      ensures l == currentLanguage
    {
      return currentLanguage;
    }

    /** `getTranslations()`: the label table of the current language. */
    method GetTranslations() returns (labels: TrayLabels)
      ensures labels == Translations(currentLanguage)
      ensures currentLanguage == Ar ==> labels.quit == "إنهاء"
    {
      return Translations(currentLanguage);
    }

    /**
     * `initializeI18n()`: open the store whose `'language'` key holds `onDisk`
     * and adopt the saved language. `storeFails` says `new Store()` throws;
     * the `catch` then falls back to English and the store stays as it was.
     */
    method InitializeI18n(onDisk: Saved, storeFails: bool)
      modifies this
      ensures storeFails ==> currentLanguage == En && store == old(store)
      ensures !storeFails ==> store == Some(onDisk) && currentLanguage == SavedLanguage(onDisk)
    {
      if storeFails {
        currentLanguage := En;
        return;
      }
      store := Some(onDisk);
      var saved := SavedLanguage(onDisk);
      currentLanguage := saved;
    }
  }

  /**
   * A choice made after initialisation survives a restart: a fresh process
   * that initialises from the same store comes up in the chosen language
   * and labels its menus from that language's table.
   */
  method SetThenRestart(app: I18n, l: Lang) returns (restarted: I18n, now: Lang, labels: TrayLabels)
    requires app.store.Some?
    modifies app
    ensures now == l && restarted.currentLanguage == l
    ensures labels == Translations(l)
  {
    app.SetLanguage(l);
    restarted := new I18n();
    restarted.InitializeI18n(app.store.value, false);
    now := restarted.GetCurrentLanguage();
    labels := restarted.GetTranslations();
  }
}
