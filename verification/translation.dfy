/** `translate_text`: English is returned as is without calling the translation
    service; any other language goes to the service, and a failure of the
    translate call falls back to the original text. The service is a
    parameter: it returns `None` where the real translate call raises. */
module Translation {
  import opened Wrappers

  /** The outcome, telling a translation apart from the fallback. */
  datatype Translated = Translated(text: string) | Unchanged(text: string)

  function TranslateText(text: string, dest: string, service: (string, string) -> Option<string>): (r: Translated)
    ensures dest == "en" ==> r == Unchanged(text)
    ensures r.Unchanged? ==> r.text == text
    ensures r.Translated? ==> dest != "en" && service(text, dest) == Some(r.text)
  {
    if dest == "en" then Unchanged(text)
    else
      match service(text, dest)
      case Some(translated) => Translated(translated)
      case None => Unchanged(text)
  }

  /** English never consults the service: any two services give the same text. */
  lemma EnglishIgnoresService(text: string, f: (string, string) -> Option<string>, g: (string, string) -> Option<string>)
    ensures TranslateText(text, "en", f) == TranslateText(text, "en", g)
  {
  }

  /** Whenever `translate_text` returns, the original text comes back exactly
      when the language is English or the translate call failed; otherwise it
      is the service's answer. */
  lemma UnchangedIffEnglishOrServiceFailed(text: string, dest: string, service: (string, string) -> Option<string>)
    ensures var r := TranslateText(text, dest, service);
            r.Unchanged? <==> dest == "en" || service(text, dest).None?
  {
  }
}
