/**
 * The language context provider (i18n/I18nProvider.tsx): its React state, the
 * initialisation effect, the locale and sync setters and the app-state listener.
 * Every handler is modelled as running to completion before the next event.
 */
module LocaleProvider {
  import opened Wrappers
  import Storage
  import opened Locale

  const SyncWithSystemKey: string := "@rosebudai:syncWithSystem"

  /** React Native's AppStateStatus values. */
  datatype AppStatus = Active | Background | Inactive | Unknown | Extension

  /** `status.match(/inactive|background/)` over the statuses above. */
  predicate IsBackgrounded(status: AppStatus)
  {
    status == Inactive || status == Background
  }

  /** The string `setSyncWithSystem` stores for a flag. */
  function SyncValue(sync: bool): string
  {
    if sync then "true" else "false"
  }

  /** The flag the init effect reads back: only the exact string 'true' turns sync on. */
  function SyncFlag(stored: Option<string>): (sync: bool)
    ensures sync <==> stored == Some("true")
  {
    stored.Some? && stored.value == "true"
  }

  /** `isRTL`: the code's first two characters (`substring(0, 2)`) name a right-to-left script. */
  function IsRtlCode(code: string): bool
  {
    var head := if |code| < 2 then code else code[..2];
    head in ["ar", "he", "fa"]
  }

  class I18nProvider {
    var locale: Language
    var loading: bool
    var syncWithSystem: bool
    var systemLanguage: Language
    /** The `appState` ref: the last status the listener saw. */
    var appState: AppStatus
    const runtime: I18nRuntime

    /** The provider's first render. */
    constructor (runtime: I18nRuntime, lookup: Option<string>, status: AppStatus)
      ensures this.runtime == runtime
      ensures locale == runtime.locale && loading && !syncWithSystem
      ensures systemLanguage == DeviceLanguage(lookup) && appState == status
    {
      this.runtime := runtime;
      locale := runtime.locale;
      loading := true;
      syncWithSystem := false;
      systemLanguage := DeviceLanguage(lookup);
      appState := status;
    }

    /** `handleSetLocale`: the global locale and the context locale both become `language`. */
    method SetLocale(language: Language, storage: Storage.KeyValueStore, writeOk: bool)
      modifies this, runtime, storage
      ensures locale == language && runtime.locale == language
      ensures storage.items == if writeOk then old(storage.items)[LanguageStorageKey := Code(language)]
                               else old(storage.items)
      ensures loading == old(loading) && syncWithSystem == old(syncWithSystem)
      ensures systemLanguage == old(systemLanguage) && appState == old(appState)
    {
      runtime.SetLanguage(language, storage, writeOk);
      locale := language;
    }

    /**
     * The init effect. `syncReadOk` is false when reading the sync flag rejects, which
     * sends control to the catch block; `langReadOk` and `langWriteOk` are the outcomes
     * of the stored-language read and write inside `initializeLanguage` and `setLanguage`.
     */
    method Init(storage: Storage.KeyValueStore, syncReadOk: bool, langReadOk: bool,
                langWriteOk: bool, lookup: Option<string>)
      modifies this, runtime, storage
      ensures !loading
      ensures locale == runtime.locale
      ensures syncWithSystem == if syncReadOk then SyncFlag(old(storage.GetItem(SyncWithSystemKey)))
                                else old(syncWithSystem)
      ensures syncReadOk && syncWithSystem ==> locale == DeviceLanguage(lookup)
      ensures !(syncReadOk && syncWithSystem) ==>
                locale == InitialLanguage(if langReadOk then old(storage.GetItem(LanguageStorageKey)) else None, lookup)
      ensures storage.items == if syncReadOk && syncWithSystem && langWriteOk
                               then old(storage.items)[LanguageStorageKey := Code(DeviceLanguage(lookup))]
                               else old(storage.items)
      ensures systemLanguage == old(systemLanguage) && appState == old(appState)
    {
      if syncReadOk {
        var shouldSync := SyncFlag(storage.GetItem(SyncWithSystemKey));
        syncWithSystem := shouldSync;
        if shouldSync {
          var deviceLang := DeviceLanguage(lookup);
          runtime.SetLanguage(deviceLang, storage, langWriteOk);
          locale := deviceLang;
        } else {
          var language := runtime.InitializeLanguage(storage, langReadOk, lookup);
          locale := language;
        }
      } else {
        var language := runtime.InitializeLanguage(storage, langReadOk, lookup);
        locale := language;
      }
      loading := false;
    }

    /**
     * `handleSetSyncWithSystem`. The flag is set first; if writing it to storage
     * rejects (`syncWriteOk` false), the promise rejects (`rejected`) and nothing further happens.
     */
    method SetSyncWithSystem(sync: bool, storage: Storage.KeyValueStore, syncWriteOk: bool,
                             lookup: Option<string>, langWriteOk: bool)
      returns (rejected: bool)
      modifies this, runtime, storage
      ensures syncWithSystem == sync && rejected == !syncWriteOk
      ensures var written := if syncWriteOk then old(storage.items)[SyncWithSystemKey := SyncValue(sync)]
                             else old(storage.items);
              storage.items == if sync && !rejected && langWriteOk
                               then written[LanguageStorageKey := Code(DeviceLanguage(lookup))]
                               else written
      ensures sync && !rejected ==>
                systemLanguage == DeviceLanguage(lookup) && locale == DeviceLanguage(lookup)
                && runtime.locale == DeviceLanguage(lookup)
      ensures !(sync && !rejected) ==>
                systemLanguage == old(systemLanguage) && locale == old(locale)
                && runtime.locale == old(runtime.locale)
      ensures loading == old(loading) && appState == old(appState)
    {
      syncWithSystem := sync;
      storage.SetItem(SyncWithSystemKey, SyncValue(sync), syncWriteOk);
      rejected := !syncWriteOk;
      if rejected {
        return;
      }
      if sync {
        var deviceLang := DeviceLanguage(lookup);
        systemLanguage := deviceLang;
        SetLocale(deviceLang, storage, langWriteOk);
      }
    }

    /**
     * The app-state listener. Only a return to the foreground from the inactive or
     * background state consults the device language; the ref always records `next`.
     */
    method OnAppStateChange(next: AppStatus, lookup: Option<string>,
                            storage: Storage.KeyValueStore, writeOk: bool)
      modifies this, runtime, storage
      ensures appState == next
      ensures var foreground := IsBackgrounded(old(appState)) && next == Active;
              var switch := foreground && syncWithSystem && DeviceLanguage(lookup) != old(runtime.locale);
              && systemLanguage == (if foreground then DeviceLanguage(lookup) else old(systemLanguage))
              && (switch ==> locale == DeviceLanguage(lookup) && runtime.locale == DeviceLanguage(lookup)
                             && storage.items == if writeOk
                                                 then old(storage.items)[LanguageStorageKey := Code(DeviceLanguage(lookup))]
                                                 else old(storage.items))
              && (!switch ==> locale == old(locale) && runtime.locale == old(runtime.locale)
                              && storage.items == old(storage.items))
      ensures syncWithSystem == old(syncWithSystem) && loading == old(loading)
    {
      if IsBackgrounded(appState) && next == Active {
        var check := runtime.CheckSystemLanguageChanged(lookup);
        systemLanguage := check.newLanguage;
        if syncWithSystem && check.changed {
          SetLocale(check.newLanguage, storage, writeOk);
        }
      }
      appState := next;
    }

    /** `isRTL`, which no supported language makes true. */
    function IsRTL(): (rtl: bool)
      reads this
      ensures !rtl
    {
      NoSupportedLanguageIsRtl(locale);
      IsRtlCode(Code(locale))
    }
  }

  // ---- Properties ----

  /** The stored sync value reads back as the flag that was stored. */
  lemma SyncValueRoundTrip(sync: bool)
    ensures SyncFlag(Some(SyncValue(sync))) == sync
  {
  }

  /** None of the supported languages is written right to left. */
  lemma NoSupportedLanguageIsRtl(l: Language)
    ensures !IsRtlCode(Code(l))
  {
    match l
    case EnUS => assert Code(l)[..2] == "en";
    case PtBR => assert Code(l)[..2] == "pt";
    case EsES => assert Code(l)[..2] == "es";
  }

  /** A right-to-left code is one whose first two characters are 'ar', 'he' or 'fa'. */
  lemma RtlPrefixes(code: string)
    ensures IsRtlCode(code) <==> StartsWith(code, "ar") || StartsWith(code, "he") || StartsWith(code, "fa")
  {
  }
}
