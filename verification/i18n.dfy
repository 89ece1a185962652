/** Locale selection and text lookup of src/ui/i18n/i18n.js.  The
    dictionaries (English and Russian in the application) are a parameter:
    a map from locale to a map from key to translated string.  The current
    locale is the state threaded through the calls. */
module I18n {
  import opened Js

  type Dictionaries = map<string, map<string, string>>

  /** `let locale = "en"`. */
  const InitialLocale: string := "en"

  /** `setLocale(next)`: the requested locale when a dictionary exists for
      it, else "en".  The result is both the new state and the return
      value, so `getLocale()` afterwards yields it. */
  function SetLocale(dicts: Dictionaries, next: string): (locale: string)
    ensures locale == next <==> next in dicts || next == "en"
    ensures locale != next ==> locale == "en"
    ensures "en" in dicts ==> locale in dicts
  {
    if next in dicts then next else "en"
  }

  /** `dictionaries[locale]?.[key]`, `None` when either lookup misses. */
  function Entry(dicts: Dictionaries, locale: string, key: string): Option<string> {
    if locale in dicts && key in dicts[locale] then Some(dicts[locale][key]) else None
  }

  /** `t(key)`: the entry (even an empty one, since `??` only replaces
      null and undefined), else the key itself. */
  function T(dicts: Dictionaries, locale: string, key: string): (s: string)
    ensures Entry(dicts, locale, key).Some? ==> s == Entry(dicts, locale, key).value
    ensures Entry(dicts, locale, key).None? ==> s == key
  {
    Entry(dicts, locale, key).GetOr(key)
  }

  /** `resolveText(value)` for null/undefined (`None`), a string, or a
      `{ en, ru, ... }` object.  A string is translated only when its
      dictionary entry is non-empty; an object gives its entry for the
      locale, else its "en" entry, else "[object Object]". */
  function ResolveText(dicts: Dictionaries, locale: string, value: Option<Text>): (s: string)
    ensures value.None? ==> s == ""
    ensures value.Some? && value.value.Plain? ==>
      var e := Entry(dicts, locale, value.value.s);
      s == if e.Some? && e.value != "" then e.value else value.value.s
    ensures value.Some? && value.value.Keyed? ==>
      var tr := value.value.tr;
      && (locale in tr && tr[locale] != "" ==> s == tr[locale])
      && (!(locale in tr && tr[locale] != "") && "en" in tr && tr["en"] != "" ==> s == tr["en"])
      && (!(locale in tr && tr[locale] != "") && !("en" in tr && tr["en"] != "") ==> s == "[object Object]")
  {
    match value
    case None => ""
    case Some(Plain(str)) =>
      var e := Entry(dicts, locale, str);
      if e.Some? && e.value != "" then T(dicts, locale, str) else str
    case Some(Keyed(tr)) =>
      if locale in tr && tr[locale] != "" then tr[locale]
      else if "en" in tr && tr["en"] != "" then tr["en"]
      else "[object Object]"
  }

  /** Setting the locale `setLocale` just returned changes nothing. */
  lemma SetLocaleIdempotent(dicts: Dictionaries, next: string)
    requires "en" in dicts
    ensures SetLocale(dicts, SetLocale(dicts, next)) == SetLocale(dicts, next)
  {
  }

  /** A locale without a dictionary falls back to the initial "en". */
  lemma UnknownLocaleFallsBack(dicts: Dictionaries, next: string)
    requires next !in dicts
    ensures SetLocale(dicts, next) == InitialLocale
  {
  }

  /** A non-empty text never resolves to the empty string, and a string
      without a dictionary entry is shown as written. */
  lemma ResolveNonEmpty(dicts: Dictionaries, locale: string, value: Text)
    requires value.Plain? ==> value.s != ""
    ensures ResolveText(dicts, locale, Some(value)) != ""
    ensures value.Plain? && Entry(dicts, locale, value.s).None? ==> ResolveText(dicts, locale, Some(value)) == value.s
  {
  }

  /** Resolving a string agrees with `t` whenever `t` finds a non-empty
      entry, and an object's own translation wins over the dictionary. */
  lemma ResolveAgreesWithT(dicts: Dictionaries, locale: string, key: string, tr: map<string, string>)
    ensures T(dicts, locale, key) != "" && Entry(dicts, locale, key).Some? ==>
      ResolveText(dicts, locale, Some(Plain(key))) == T(dicts, locale, key)
    ensures locale in tr && tr[locale] != "" ==> ResolveText(dicts, locale, Some(Keyed(tr))) == tr[locale]
  {
  }
}
