/**
 * The binding layer of the front end: `SmartText` and `useSmartPlaceholder`
 * each bind one source string and re-resolve it when the language changes;
 * `useSmartTranslation` is the hook form.
 *
 * The page's root element is a `Document` with its `lang` and `dir`
 * attributes, the live `'languageChanged'` listeners and the live `lang`
 * attribute observers. A `Binding` is one mounted `SmartText` or placeholder
 * with the text it currently shows. The value `autoTranslator.translate`
 * resolves to for Arabic is an input, `arabic`.
 */
module SmartTranslation {
  import opened Wrappers
  import opened Languages
  import opened AutoTranslation

  /**
   * What a binding shows for `source` once the language it reacts to is
   * `lang`: the Arabic translation for `"ar"`, and the untouched source text
   * for anything else (`"en"`, an empty or unknown attribute).
   */
  function Resolve(lang: string, source: string, arabic: string -> string): (shown: string)
    ensures lang == Code(Ar) ==> shown == arabic(source)
    ensures lang != Code(Ar) ==> shown == source
    ensures ParseLang(lang) != Some(Ar) ==> shown == source
  {
    if lang == "ar" then arabic(source) else source
  }

  /** One `'languageChanged'` event: its `detail.language`, and the document `lang` when it was dispatched. */
  datatype LanguageEvent = LanguageEvent(language: string, langAtDispatch: string)

  /** One mounted `SmartText` (`observes`) or `useSmartPlaceholder` (not `observes`). */
  class Binding {
    /** The captured source string (`children`, or the placeholder's `text`). */
    const source: string
    /** `SmartText` also watches the `lang` attribute; the placeholder hook only listens for the event. */
    const observes: bool
    /** The `translatedText` state. */
    var shown: string

    /** `useState(children)`: a binding first shows its source text. */
    constructor (source0: string, observes0: bool)
      ensures source == source0 && observes == observes0 && shown == source0
    {
      source := source0;
      observes := observes0;
      shown := source0;
    }
  }

  class Document {
    /** `document.documentElement.lang` */
    var lang: string
    /** `document.documentElement.dir` */
    var dir: string
    /** Live `'languageChanged'` listeners on `window`. */
    var listeners: set<Binding>
    /** Live `MutationObserver`s filtered on the `lang` attribute. */
    var observers: set<Binding>
    /** A `lang` write not yet delivered to the observers. */
    var langMutationPending: bool
    /** Every `'languageChanged'` event dispatched, in order. */
    var events: seq<LanguageEvent>
    /** The bindings currently mounted. */
    ghost var mounted: set<Binding>

    /** Live subscriptions are exactly the mounted bindings: every one listens, and the `SmartText` ones also observe. */
    ghost predicate Valid()
      reads this
    {
      && listeners == mounted
      && observers <= listeners
      && forall b :: b in listeners ==> (b in observers <==> b.observes)
    }

    constructor (lang0: string, dir0: string)
      ensures lang == lang0 && dir == dir0 && events == [] && !langMutationPending
      ensures mounted == {} && Valid()
    {
      lang := lang0;
      dir := dir0;
      listeners := {};
      observers := {};
      langMutationPending := false;
      events := [];
      mounted := {};
    }

    /**
     * The effects of a binding on mount (or on a change of its source, which
     * React runs as cleanup followed by mount): resolve against the current
     * document `lang`, add the `'languageChanged'` listener and, for
     * `SmartText`, the attribute observer.
     */
    method Mount(b: Binding, arabic: string -> string)
      requires Valid()
      modifies this`listeners, this`observers, this`mounted, b`shown
      ensures Valid() && mounted == old(mounted) + {b}
      ensures listeners == old(listeners) + {b}
      ensures b.observes ==> observers == old(observers) + {b}
      ensures !b.observes ==> observers == old(observers) - {b}
      ensures b.shown == Resolve(lang, b.source, arabic)
    {
      b.shown := Resolve(lang, b.source, arabic);
      listeners := listeners + {b};
      if b.observes {
        observers := observers + {b};
      }
      mounted := mounted + {b};
    }

    /** The effect cleanup: disconnect the observer and remove the listener. */
    method Unmount(b: Binding)
      requires Valid()
      modifies this`listeners, this`observers, this`mounted
      ensures Valid() && mounted == old(mounted) - {b}
      ensures b !in listeners && b !in observers
      ensures listeners == old(listeners) - {b} && observers == old(observers) - {b}
    {
      listeners := listeners - {b};
      observers := observers - {b};
      mounted := mounted - {b};
    }

    /** Writing the `lang` attribute queues a record for the attribute observers. */
    method WriteLang(value: string)
      modifies this`lang, this`langMutationPending
      ensures lang == value && langMutationPending
    {
      lang := value;
      langMutationPending := true;
    }

    method WriteDir(value: string)
      modifies this`dir
      ensures dir == value
    {
      dir := value;
    }

    /**
     * `window.dispatchEvent(new CustomEvent('languageChanged', { detail: { language } }))`:
     * every live listener resolves its own source against `detail.language`,
     * not against the document attribute.
     */
    method Dispatch(language: string, arabic: string -> string)
      requires Valid()
      modifies this`events, listeners
      ensures Valid()
      ensures events == old(events) + [LanguageEvent(language, lang)]
      ensures forall b :: b in listeners ==> b.shown == Resolve(language, b.source, arabic)
    {
      events := events + [LanguageEvent(language, lang)];
      var todo := listeners;
      while todo != {}
        invariant todo <= listeners
        invariant events == old(events) + [LanguageEvent(language, lang)]
        invariant forall b :: b in listeners && b !in todo ==> b.shown == Resolve(language, b.source, arabic)
        decreases todo
      {
        var b :| b in todo;
        b.shown := Resolve(language, b.source, arabic);
        todo := todo - {b};
      }
    }

    /**
     * The attribute observers run after the synchronous code that wrote
     * `lang`: each re-reads the document `lang`. Listeners that do not
     * observe keep what they show.
     */
    method DeliverMutations(arabic: string -> string)
      requires Valid()
      modifies this`langMutationPending, observers
      ensures Valid() && !langMutationPending
      ensures old(langMutationPending) ==>
        forall b :: b in observers ==> b.shown == Resolve(lang, b.source, arabic)
      ensures !old(langMutationPending) ==> forall b :: b in observers ==> b.shown == old(b.shown)
    {
      if !langMutationPending {
        return;
      }
      var todo := observers;
      while todo != {}
        invariant todo <= observers
        invariant forall b :: b in observers && b !in todo ==> b.shown == Resolve(lang, b.source, arabic)
        decreases todo
      {
        var b :| b in todo;
        b.shown := Resolve(lang, b.source, arabic);
        todo := todo - {b};
      }
      langMutationPending := false;
    }
  }

  /** `useSmartTranslation(options)`: the hook's state. */
  class Hook {
    /** `currentLanguage`, starting at `'en'`. */
    var currentLanguage: Lang
    var isTranslating: bool
    /** Every value handed to `setIsTranslating`, in order. */
    var translatingWrites: seq<bool>
    /** `options.enableAutoTranslate`; unset counts as off. */
    const enableAutoTranslate: bool

    constructor (enable: bool)
      ensures currentLanguage == En && !isTranslating && translatingWrites == []
      ensures enableAutoTranslate == enable
    {
      currentLanguage := En;
      isTranslating := false;
      translatingWrites := [];
      enableAutoTranslate := enable;
    }

    /**
     * `t(text)`: the text itself in English or with auto-translation off;
     * otherwise the translator's answer for the current language, with
     * `isTranslating` raised around the call and lowered in `finally`.
     */
    method T(translator: Translator, text: string, google: Reply, libre: Reply, saveFails: bool)
      returns (r: string)
      modifies this`isTranslating, this`translatingWrites, translator`cache, translator`slot, translator`calls
      ensures currentLanguage == En || !enableAutoTranslate ==>
        && r == text && translatingWrites == old(translatingWrites) && isTranslating == old(isTranslating)
        && translator.cache == old(translator.cache) && translator.calls == old(translator.calls)
        && translator.slot == old(translator.slot)
      ensures currentLanguage != En && enableAutoTranslate ==>
        && translatingWrites == old(translatingWrites) + [true, false] && !isTranslating
      ensures currentLanguage != En && enableAutoTranslate && Hit(old(translator.cache), Key(text), currentLanguage).Some? ==>
        && r == Hit(old(translator.cache), Key(text), currentLanguage).value
        && translator.cache == old(translator.cache) && translator.calls == old(translator.calls)
        && translator.slot == old(translator.slot)
      ensures currentLanguage != En && enableAutoTranslate && Hit(old(translator.cache), Key(text), currentLanguage).None? ==>
        (if translator.isOnline && !saveFails then r == Chain(text, google, libre) else r == text)
      ensures currentLanguage != En && enableAutoTranslate && Hit(old(translator.cache), Key(text), currentLanguage).None?
              && !translator.isOnline ==>
        && translator.cache == old(translator.cache) && translator.calls == old(translator.calls)
        && translator.slot == old(translator.slot)
      ensures currentLanguage != En && enableAutoTranslate && Hit(old(translator.cache), Key(text), currentLanguage).None?
              && translator.isOnline ==>
        && translator.cache == Put(old(translator.cache), Key(text), currentLanguage, Chain(text, google, libre))
        && translator.calls == old(translator.calls) + Consulted(text, currentLanguage, google, libre)
        && translator.slot == (if saveFails then old(translator.slot) else Some(Json(translator.cache)))
    {
      if currentLanguage == En {
        return text;
      }
      if !enableAutoTranslate {
        return text;
      }
      isTranslating := true;
      translatingWrites := translatingWrites + [true];
      r := translator.Translate(text, currentLanguage, google, libre, saveFails);
      isTranslating := false;
      translatingWrites := translatingWrites + [false];
    }

    /**
     * `switchLanguage(lang)`: the hook's own language, then `dir`, then
     * `lang`. No `'languageChanged'` event is dispatched, so only the
     * attribute observers will follow.
     */
    method SwitchLanguage(doc: Document, l: Lang)
      modifies this`currentLanguage, doc`dir, doc`lang, doc`langMutationPending
      ensures currentLanguage == l && doc.lang == Code(l) && doc.dir == Dir(l)
      ensures doc.langMutationPending
      ensures doc.events == old(doc.events) && doc.listeners == old(doc.listeners)
    {
      currentLanguage := l;
      doc.WriteDir(Dir(l));
      doc.WriteLang(Code(l));
    }
  }

  /** `tSync(text)`: both branches hand back the text, so it is the identity whatever the language. */
  function TSync(currentLanguage: Lang, text: string): (r: string)
    ensures r == text
  {
    if currentLanguage == En then text else text
  }

  /**
   * `switchLanguage` followed by the observer delivery: every `SmartText`
   * follows the new language, while a placeholder keeps showing what it
   * showed, because no event reaches it.
   */
  method SwitchAndSettle(hook: Hook, doc: Document, l: Lang, arabic: string -> string)
    requires doc.Valid()
    modifies hook`currentLanguage, doc`dir, doc`lang, doc`langMutationPending, doc.observers
    ensures doc.Valid() && hook.currentLanguage == l && doc.events == old(doc.events)
    ensures forall b :: b in doc.listeners && b.observes ==> b.shown == Resolve(Code(l), b.source, arabic)
    ensures forall b :: b in doc.listeners && !b.observes ==> b.shown == old(b.shown)
  {
    hook.SwitchLanguage(doc, l);
    doc.DeliverMutations(arabic);
  }
}
