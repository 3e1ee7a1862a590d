/** The closed language set `'en' | 'ar'` shared by the front end and the Electron shell. */
module Languages {
  import opened Wrappers

  /** English is the source language the interface is written in; Arabic is the alternate one. */
  datatype Lang = En | Ar

  /** The language code used in attributes, events and storage. */
  function Code(l: Lang): string {
    match l
    case En => "en"
    case Ar => "ar"
  }

  /** Reads a stored or transmitted code back; only `"en"` and `"ar"` name a language. */
  function ParseLang(s: string): (r: Option<Lang>)
    ensures forall l :: r == Some(l) <==> s == Code(l)
  {
    if s == "en" then Some(En) else if s == "ar" then Some(Ar) else None
  }

  /** The document direction for a language: right-to-left exactly for Arabic. */
  function Dir(l: Lang): (d: string)
    ensures d == "rtl" <==> l == Ar
    ensures d == "rtl" || d == "ltr"
  {
    if l == Ar then "rtl" else "ltr"
  }
}
