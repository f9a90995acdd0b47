/**
 * Language resolution and the global translator's locale (i18n/i18n.ts).
 * The native locale lookup is an input: `Some(raw)` is the string the platform
 * reported, `None` a lookup that failed (or a platform with no lookup), after which
 * `getDeviceLanguage` keeps its 'en-US' default.
 */
module Locale {
  import opened Wrappers
  import Storage

  /** The three supported languages (i18n/translations/types.ts). */
  datatype Language = EnUS | PtBR | EsES

  function Code(l: Language): string
  {
    match l
    case EnUS => "en-US"
    case PtBR => "pt-BR"
    case EsES => "es-ES"
  }

  /** The keys of the translations table, in declaration order. */
  const TranslationKeys: seq<string> := [Code(EnUS), Code(PtBR), Code(EsES)]

  const LanguageStorageKey: string := "@rosebudai:language"

  /** The value `deviceLanguage` starts with before the native lookup. */
  const DefaultDeviceLocale: string := "en-US"

  predicate StartsWith(s: string, prefix: string)
  {
    |prefix| <= |s| && s[..|prefix|] == prefix
  }

  /** `s.indexOf(c)`: the first position of `c` in `s`, or -1. */
  function IndexOf(s: string, c: char): (i: int)
    ensures -1 <= i < |s|
    ensures i == -1 <==> c !in s
    ensures 0 <= i ==> s[i] == c && c !in s[..i]
  {
    if s == [] then -1
    else if s[0] == c then 0
    else
      var j := IndexOf(s[1..], c);
      if j == -1 then -1 else j + 1
  }

  /** `s.replace(from, to)` with a one-character string pattern: only the first occurrence changes. */
  function ReplaceFirst(s: string, from: char, to: char): (r: string)
    ensures |r| == |s|
    ensures from !in s ==> r == s
    ensures from in s ==> r[IndexOf(s, from)] == to
    ensures forall k :: 0 <= k < |s| && k != IndexOf(s, from) ==> r[k] == s[k]
  {
    var i := IndexOf(s, from);
    if i < 0 then s else s[..i] + [to] + s[i + 1..]
  }

  /** The prefix test at the end of `getDeviceLanguage`. */
  function ResolveLocale(s: string): Language
  {
    if StartsWith(s, "pt") then PtBR
    else if StartsWith(s, "es") then EsES
    else EnUS
  }

  /** `getDeviceLanguage` as a function of the native lookup's result. */
  function DeviceLanguage(lookup: Option<string>): (l: Language)
    ensures lookup.None? ==> l == EnUS
    ensures lookup.Some? ==> l == ResolveLocale(lookup.value)
  {
    match lookup
    case None => FailedLookupIsEnglish(); ResolveLocale(DefaultDeviceLocale)
    case Some(raw) => NormalisationIsIrrelevant(raw); ResolveLocale(ReplaceFirst(raw, '_', '-'))
  }

  /** `Object.keys(translations).includes(s)`, with the language the key names. */
  function ParseLanguage(s: string): (r: Option<Language>)
    ensures r.Some? <==> s in TranslationKeys
    ensures r.Some? ==> Code(r.value) == s
  {
    if s == Code(EnUS) then Some(EnUS)
    else if s == Code(PtBR) then Some(PtBR)
    else if s == Code(EsES) then Some(EsES)
    else None
  }

  /** The language `initializeLanguage` settles on, given what `getStoredLanguage` returned. */
  function InitialLanguage(stored: Option<string>, lookup: Option<string>): Language
  {
    if stored.Some? && stored.value != "" && ParseLanguage(stored.value).Some?
    then ParseLanguage(stored.value).value
    else DeviceLanguage(lookup)
  }

  /** `getStoredLanguage`: a failed read yields null. */
  function StoredLanguage(storage: Storage.KeyValueStore, readOk: bool): (r: Option<string>)
    reads storage
    ensures r.Some? ==> readOk && LanguageStorageKey in storage.items
    ensures r.Some? ==> r.value == storage.items[LanguageStorageKey]
    ensures readOk && LanguageStorageKey in storage.items ==> r.Some?
  {
    if readOk then storage.GetItem(LanguageStorageKey) else None
  }

  /** The record `checkSystemLanguageChanged` returns. */
  datatype LanguageCheck = LanguageCheck(changed: bool, newLanguage: Language)

  /** The global translator object; only its `locale` is modelled. */
  class I18nRuntime {
    var locale: Language

    /** Module initialisation: `i18n.locale = getDeviceLanguage()`. */
    constructor (lookup: Option<string>)
      ensures locale == DeviceLanguage(lookup)
    {
      locale := DeviceLanguage(lookup);
    }

    /** `setLanguage`: the locale changes first; a rejected storage write is swallowed. */
    method SetLanguage(language: Language, storage: Storage.KeyValueStore, writeOk: bool)
      modifies this, storage
      ensures locale == language
      ensures storage.items == if writeOk then old(storage.items)[LanguageStorageKey := Code(language)]
                               else old(storage.items)
    {
      locale := language;
      storage.SetItem(LanguageStorageKey, Code(language), writeOk);
    }

    /** `initializeLanguage`: a valid stored language wins, otherwise the device language. */
    method InitializeLanguage(storage: Storage.KeyValueStore, readOk: bool, lookup: Option<string>)
      returns (language: Language)
      modifies this
      ensures language == InitialLanguage(StoredLanguage(storage, readOk), lookup)
      ensures locale == language
    {
      var stored := StoredLanguage(storage, readOk);
      if stored.Some? && stored.value != "" && ParseLanguage(stored.value).Some? {
        language := ParseLanguage(stored.value).value;
        locale := language;
        return;
      }
      language := DeviceLanguage(lookup);
      locale := language;
    }

    /** `checkSystemLanguageChanged`: compares the device language with the current locale. */
    function CheckSystemLanguageChanged(lookup: Option<string>): (r: LanguageCheck)
      reads this
      ensures r.newLanguage == DeviceLanguage(lookup)
      ensures r.changed <==> DeviceLanguage(lookup) != locale
    {
      var systemLanguage := DeviceLanguage(lookup);
      LanguageCheck(systemLanguage != locale, systemLanguage)
    }
  }

  // ---- Properties of the resolution ----

  /** Only a 'pt' prefix gives pt-BR and only an 'es' prefix gives es-ES; everything else is en-US. */
  lemma ResolveLocaleRules(s: string)
    ensures ResolveLocale(s) == PtBR <==> StartsWith(s, "pt")
    ensures ResolveLocale(s) == EsES <==> StartsWith(s, "es")
    ensures ResolveLocale(s) == EnUS <==> !StartsWith(s, "pt") && !StartsWith(s, "es")
  {
  }

  /** A failed lookup keeps the default, which resolves to en-US. */
  lemma FailedLookupIsEnglish()
    ensures ResolveLocale(DefaultDeviceLocale) == EnUS
  {
    assert DefaultDeviceLocale[..2] == "en";
  }

  /** Replacing the first '_' by '-' never changes which prefix a string has. */
  lemma NormalisationIsIrrelevant(raw: string)
    ensures ResolveLocale(ReplaceFirst(raw, '_', '-')) == ResolveLocale(raw)
  {
    var i := IndexOf(raw, '_');
    var r := ReplaceFirst(raw, '_', '-');
    if 0 <= i {
      assert r == raw[..i] + ['-'] + raw[i + 1..];
      assert |r| == |raw|;
      if i < 2 {
        // Position i holds '_' in raw and '-' in r: neither prefix fits either string.
        assert raw[i] == '_' && r[i] == '-';
        if 2 <= |raw| {
          assert raw[..2][i] == '_' && r[..2][i] == '-';
        }
      } else {
        assert r[..2] == raw[..2];
      }
    }
  }

  /** Resolving a supported code gives that code back: the mapping is a fixpoint on its outputs. */
  lemma ResolveCodeFixpoint(l: Language)
    ensures ResolveLocale(Code(l)) == l
    ensures DeviceLanguage(Some(Code(l))) == l
  {
    match l
    case EnUS => assert Code(l)[..2] == "en";
    case PtBR => assert Code(l)[..2] == "pt";
    case EsES => assert Code(l)[..2] == "es";
  }

  /** A stored preference is a key of the table exactly when it is the code of a language. */
  lemma StoredPreferenceValid(s: string)
    ensures ParseLanguage(s).Some? <==> exists l :: Code(l) == s
  {
    if exists l :: Code(l) == s {
      var l :| Code(l) == s;
      assert s in TranslationKeys;
    }
  }

  /** What `setLanguage` stores, `initializeLanguage` reads back as the same language. */
  lemma InitialLanguageRoundTrip(l: Language, lookup: Option<string>)
    ensures InitialLanguage(Some(Code(l)), lookup) == l
  {
    assert Code(l) in TranslationKeys;
  }

  /** A stored value that is not a key falls back to the device language. */
  lemma InitialLanguageFallback(stored: Option<string>, lookup: Option<string>)
    requires stored.None? || stored.value !in TranslationKeys
    ensures InitialLanguage(stored, lookup) == DeviceLanguage(lookup)
  {
  }
}
