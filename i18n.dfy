/** Language selection for the translations (`lib/i18n/index.ts`): the four
    languages with translations, the device-locale fallback, the saved
    preference and the current locale of the shared translator. The device
    locale is an input and the key-value storage a map. */
module I18n {
  import opened Wrappers
  import opened Text
  import opened Languages

  /** `LANGUAGE_OPTIONS`: the languages that have translations. */
  const LanguageOptions: seq<LanguageInfo> := [
    LanguageInfo("en", "English", "🇺🇸", false, "English"),
    LanguageInfo("ta", "Tamil", "🇮🇳", false, "தமிழ்"),
    LanguageInfo("hi", "Hindi", "🇮🇳", false, "हिन्दी"),
    LanguageInfo("ar", "Arabic", "🇸🇦", true, "العربية")
  ]

  /** The storage key of the saved preference. */
  const LanguageStorageKey: string := "app_language"

  predicate Supported(code: string) {
    code == "en" || code == "ta" || code == "hi" || code == "ar"
  }

  /** `Supported` is the same as finding the code among the options, whose
      codes are distinct. */
  lemma SupportedIsFound(code: string)
    ensures Supported(code) <==> Find(LanguageOptions, code).Some?
    ensures forall a, b :: 0 <= a < b < |LanguageOptions| ==> LanguageOptions[a].code != LanguageOptions[b].code
  {
  }

  /** `getDeviceLocale`: the language part of the device locale (the text
      before the first `-`) when it has translations, English otherwise. */
  function GetDeviceLocale(deviceLocale: string): (code: string)
    ensures Supported(code)
    ensures Supported(Split(deviceLocale, '-')[0]) ==> code == deviceLocale[..IndexOf(deviceLocale, '-')]
    ensures !Supported(Split(deviceLocale, '-')[0]) ==> code == "en"
  {
    var languageCode := Split(deviceLocale, '-')[0];
    SupportedIsFound(languageCode);
    if Find(LanguageOptions, languageCode).Some? then languageCode else "en"
  }

  /** `loadSavedLanguage`: the saved preference when it names a language
      with translations; otherwise (nothing saved, something else saved, or a
      failed read) the device's language. */
  function LoadSavedLanguage(storage: map<string, string>, readFails: bool, deviceLocale: string): (code: string)
    ensures Supported(code)
    ensures !readFails && LanguageStorageKey in storage && Supported(storage[LanguageStorageKey]) ==>
      code == storage[LanguageStorageKey]
    ensures readFails || LanguageStorageKey !in storage || !Supported(storage[LanguageStorageKey]) ==>
      code == GetDeviceLocale(deviceLocale)
  {
    if !readFails && LanguageStorageKey in storage && storage[LanguageStorageKey] != "" &&
       Find(LanguageOptions, storage[LanguageStorageKey]).Some?
    then
      SupportedIsFound(storage[LanguageStorageKey]);
      storage[LanguageStorageKey]
    else
      SupportedIsFound(if LanguageStorageKey in storage then storage[LanguageStorageKey] else "");
      GetDeviceLocale(deviceLocale)
  }

  /** The shared translator's locale and the app's key-value storage. */
  class Translator {
    var locale: string
    var storage: map<string, string>

    /** The translator starts in English; `storage` is what is already
        stored. */
    constructor (storage: map<string, string>)
      ensures locale == "en" && this.storage == storage
    {
      locale := "en";
      this.storage := storage;
    }

    /** `getCurrentLanguageInfo`: the option of the current locale, or the
        first (English) option when the locale has none. */
    function CurrentLanguageInfo(): (info: LanguageInfo)
      reads this
      ensures info in LanguageOptions
      ensures Supported(locale) ==> info.code == locale
      ensures !Supported(locale) ==> info == LanguageOptions[0]
    {
      SupportedIsFound(locale);
      Find(LanguageOptions, locale).GetOr(LanguageOptions[0])
    }

    /** `isRTL`: whether the current language is written right to left,
        which is the case for Arabic only. */
    function IsRTL(): (b: bool)
      reads this
      ensures b == CurrentLanguageInfo().rtl
      ensures b <==> locale == "ar"
    {
      CurrentLanguageInfo().rtl
    }

    /** `initializeI18n`: switch to the loaded language and return it. */
    method InitializeI18n(readFails: bool, deviceLocale: string) returns (code: string)
      modifies this`locale
      ensures code == LoadSavedLanguage(storage, readFails, deviceLocale)
      ensures locale == code && Supported(locale)
    {
      code := LoadSavedLanguage(storage, readFails, deviceLocale);
      locale := code;
    }

    /** `changeLanguage`: an unsupported code changes nothing; otherwise the
        locale is switched and then saved (a failed save keeps the switch
        but stores nothing). */
    method ChangeLanguage(code: string, saveFails: bool)
      modifies this
      ensures !Supported(code) ==> locale == old(locale) && storage == old(storage)
      ensures Supported(code) ==> locale == code
      ensures Supported(code) && !saveFails ==> storage == old(storage)[LanguageStorageKey := code]
      ensures Supported(code) && saveFails ==> storage == old(storage)
    {
      SupportedIsFound(code);
      if Find(LanguageOptions, code).None? {
        return;
      }
      locale := code;
      if !saveFails {
        storage := storage[LanguageStorageKey := code];
      }
    }
  }

  /** A saved change survives a restart: after a successful change to a
      supported language, loading the preference gives that language back
      whatever the device locale. */
  lemma ChangeThenLoad(storage: map<string, string>, code: string, deviceLocale: string)
    requires Supported(code)
    ensures LoadSavedLanguage(storage[LanguageStorageKey := code], false, deviceLocale) == code
  {
  }

  /** A device locale with a region uses its language part. */
  lemma RegionalDeviceLocale()
    ensures GetDeviceLocale("ta-IN") == "ta"
  {
    assert "ta-IN" == "ta" + "-IN";
    IndexOfPrefix("ta", '-', "-IN");
  }

  /** A language without translations falls back to English. */
  lemma UntranslatedDeviceLocale()
    ensures GetDeviceLocale("fr-FR") == "en"
  {
    assert "fr-FR" == "fr" + "-FR";
    IndexOfPrefix("fr", '-', "-FR");
  }
}
