/** The language table of `lib/constants.ts`: the supported languages, the
    default one and the lookups by code. */
module Languages {
  import opened Wrappers

  datatype LanguageInfo = LanguageInfo(code: string, name: string, flag: string, rtl: bool, nativeName: string)

  /** Entry i is the first entry of the list with that code. */
  predicate FirstWithCode(list: seq<LanguageInfo>, code: string, i: int) {
    0 <= i < |list| && list[i].code == code && forall j :: 0 <= j < i ==> list[j].code != code
  }

  /** `list.find(lang => lang.code === code)`: the first entry with that
      code. */
  function Find(list: seq<LanguageInfo>, code: string): (r: Option<LanguageInfo>)
    ensures r.None? <==> forall i :: 0 <= i < |list| ==> list[i].code != code
    ensures r.Some? ==> exists i :: FirstWithCode(list, code, i) && list[i] == r.value
  {
    if list == [] then None
    else if list[0].code == code then Some(list[0])
    else
      Find(list[1..], code)
  }

  /** In a table with distinct codes, the entry found is the one entry with
      that code. */
  lemma FindUnique(list: seq<LanguageInfo>, code: string, i: nat)
    requires forall a, b :: 0 <= a < b < |list| ==> list[a].code != list[b].code
    requires i < |list| && list[i].code == code
    ensures Find(list, code) == Some(list[i])
  {
    var r := Find(list, code);
    var k :| FirstWithCode(list, code, k) && list[k] == r.value;
  }

  /** `SUPPORTED_LANGUAGES`. */
  const SupportedLanguages: seq<LanguageInfo> := [
    LanguageInfo("en", "English", "🇺🇸", false, "English"),
    LanguageInfo("es", "Español", "🇪🇸", false, "Español"),
    LanguageInfo("fr", "Français", "🇫🇷", false, "Français"),
    LanguageInfo("de", "Deutsch", "🇩🇪", false, "Deutsch"),
    LanguageInfo("hi", "हिन्दी", "🇮🇳", false, "हिन्दी"),
    LanguageInfo("zh", "中文", "🇨🇳", false, "中文"),
    LanguageInfo("ja", "日本語", "🇯🇵", false, "日本語"),
    LanguageInfo("ar", "العربية", "🇸🇦", true, "العربية")
  ]

  /** `DEFAULT_LANGUAGE`. */
  const DefaultLanguage: string := "en"

  /** The table's codes are pairwise distinct, the first entry is the
      default language and only Arabic is written right to left. */
  lemma SupportedLanguagesWellFormed()
    ensures forall a, b :: 0 <= a < b < |SupportedLanguages| ==> SupportedLanguages[a].code != SupportedLanguages[b].code
    ensures SupportedLanguages[0].code == DefaultLanguage
    ensures forall i :: 0 <= i < |SupportedLanguages| ==> (SupportedLanguages[i].rtl <==> SupportedLanguages[i].code == "ar")
  {
  }

  /** `getLanguageInfo`: the entry with that code, or the first (English)
      entry when there is none. */
  function GetLanguageInfo(code: string): (info: LanguageInfo)
    ensures info in SupportedLanguages
    ensures (exists i :: 0 <= i < |SupportedLanguages| && SupportedLanguages[i].code == code) ==> info.code == code
    ensures (forall i :: 0 <= i < |SupportedLanguages| ==> SupportedLanguages[i].code != code) ==> info == SupportedLanguages[0]
  {
    Find(SupportedLanguages, code).GetOr(SupportedLanguages[0])
  }

  /** `isRTL`: the direction of the entry `getLanguageInfo` picks; only
      Arabic is right to left. */
  function IsRTL(code: string): (b: bool)
    ensures b == GetLanguageInfo(code).rtl
    ensures b <==> code == "ar"
  {
    SupportedLanguagesWellFormed();
    GetLanguageInfo(code).rtl
  }
}
