/**
 * The producer of language changes: the switcher sets the i18n context's
 * language, writes the document `lang` and `dir` attributes, then announces
 * the change with a `'languageChanged'` event.
 */
module LanguageSwitching {
  import opened Languages
  import opened SmartTranslation

  /** The i18n context's current language; the context provider itself is not part of this model. */
  class LanguageContext {
    var language: Lang

    constructor (l: Lang)
      ensures language == l
    {
      language := l;
    }
  }

  /**
   * `handleLanguageChange(newLanguage)`: context first, then `lang`, then
   * `dir`, then one event whose `detail.language` is the new code. Every
   * listener has resolved against the new language when it returns.
   */
  method HandleLanguageChange(ctx: LanguageContext, doc: Document, l: Lang, arabic: string -> string)
    requires doc.Valid()
    modifies ctx, doc`lang, doc`dir, doc`langMutationPending, doc`events, doc.listeners
    ensures ctx.language == l && doc.lang == Code(l) && doc.dir == Dir(l)
    ensures doc.events == old(doc.events) + [LanguageEvent(Code(l), Code(l))]
    ensures doc.Valid() && doc.langMutationPending && doc.listeners == old(doc.listeners)
    ensures forall b :: b in doc.listeners ==> b.shown == Resolve(Code(l), b.source, arabic)
  {
    ctx.language := l;
    doc.WriteLang(Code(l));
    doc.WriteDir(Dir(l));
    doc.Dispatch(Code(l), arabic);
  }

  /**
   * A switch followed by the attribute observers' delivery: exactly one event,
   * and every mounted binding, `SmartText` or placeholder, shows its source
   * resolved for the new language.
   */
  method ChangeAndSettle(ctx: LanguageContext, doc: Document, l: Lang, arabic: string -> string)
    requires doc.Valid()
    modifies ctx, doc`lang, doc`dir, doc`langMutationPending, doc`events, doc.listeners
    ensures doc.Valid() && !doc.langMutationPending && |doc.events| == |old(doc.events)| + 1
    ensures doc.events[|doc.events| - 1] == LanguageEvent(Code(l), Code(l))
    ensures forall b :: b in doc.mounted ==> b.shown == Resolve(Code(l), b.source, arabic)
  {
    HandleLanguageChange(ctx, doc, l, arabic);
    doc.DeliverMutations(arabic);
  }

  /** The buttons drawn with the active style: the English one when the language is `'en'`, the Arabic one when it is `'ar'`. */
  function ActiveButtons(language: Lang): (active: seq<Lang>)
    ensures active == [language]
  {
    (if language == En then [En] else []) + (if language == Ar then [Ar] else [])
  }
}
