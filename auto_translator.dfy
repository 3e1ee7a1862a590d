/**
 * The on-demand translation cache of the front end (`AutoTranslator`): a table
 * from normalised source text to language to translation, kept in memory,
 * written through to one storage slot, and filled from an ordered chain of
 * translation providers when the network is reachable.
 *
 * The providers are network calls; each call's outcome is an input (`Reply`).
 * The storage slot holds a `Payload`; JSON encoding is left abstract.
 */
module AutoTranslation {
  import opened Wrappers
  import opened Text
  import opened Languages

  /** normalised text -> language -> translated text */
  type CacheTable = map<string, map<Lang, string>>

  /** The storage key the whole table is written under. */
  const StorageKey := "translation_cache"

  /**
   * What `localStorage.getItem('translation_cache')` can hand back besides `null`:
   * the empty string, the JSON text of a table, or text that `JSON.parse` rejects.
   */
  datatype Payload = Blank | Json(table: CacheTable) | Malformed

  datatype Loaded = Table(table: CacheTable) | ParseError

  /**
   * `loadCache`: a missing or empty payload leaves the table empty, a JSON
   * payload becomes the table, and a malformed one makes `JSON.parse` throw.
   */
  function LoadCache(slot: Option<Payload>): (r: Loaded)
    ensures r.ParseError? <==> slot == Some(Malformed)
    ensures slot == None || slot == Some(Blank) ==> r == Table(map[])
    ensures forall t :: slot == Some(Json(t)) ==> r == Table(t)
  {
    match slot
    case None => Table(map[])
    case Some(Blank) => Table(map[])
    case Some(Json(t)) => Table(t)
    case Some(Malformed) => ParseError
  }

  /** The cache key: `text.toLowerCase().trim()`. */
  function Key(text: string): (k: string)
    ensures |k| <= |text|
    ensures k == [] || (!IsSpace(k[0]) && !IsSpace(k[|k| - 1]))
  {
    Trim(Lower(text))
  }

  /** Texts that differ only in letter case or in surrounding white space share one key. */
  lemma KeyIgnoresCaseAndPadding(text: string, pre: string, post: string)
    requires AllSpace(pre) && AllSpace(post)
    ensures Key(pre + text + post) == Key(text)
    ensures Key(Upper(text)) == Key(text)
  {
    LowerAppend(pre, text);
    LowerAppend(pre + text, post);
    LowerKeepsSpaces(pre);
    LowerKeepsSpaces(post);
    TrimIgnoresPadding(pre, Lower(text), post);
    LowerForgetsCase(text);
  }

  /** Normalising a key again changes nothing. */
  lemma KeyIdempotent(text: string)
    ensures Key(Key(text)) == Key(text)
  {
    var low := Lower(text);
    var k := Trim(low);
    TrimCuts(low);
    LowerForgetsCase(text);
    LowerCutIsLower(low, k, |low| - |TrimStart(low)|);
    assert Lower(k) == k;
    TrimIdempotent(low);
    assert Trim(k) == k;
  }

  /** A stretch of an already lower-cased string is lower-cased. */
  lemma LowerCutIsLower(low: string, k: string, i: int)
    requires Lower(low) == low && CutFrom(low, k, i)
    ensures Lower(k) == k
  {
    LowerSlice(low, i, i + |k|);
  }

  /** The two spellings `"Hello"` and `"  hello  "` share their entry. */
  lemma HelloSharesEntry()
    ensures Key("  hello  ") == Key("Hello")
  {
    assert "  " + "hello" + "  " == "  hello  ";
    KeyIgnoresCaseAndPadding("hello", "  ", "  ");
    LowerHello();
  }

  lemma LowerHello()
    ensures Lower("Hello") == Lower("hello")
  {
    assert LowerChar('H') == 'h';
    assert Lower("Hello") == "hello";
  }

  /** `cache[key]?.[lang]` read as a condition: a missing or empty entry is no hit. */
  function Hit(cache: CacheTable, key: string, lang: Lang): (r: Option<string>)
    ensures r.Some? ==> key in cache && lang in cache[key] && r.value == cache[key][lang] && r.value != ""
    ensures r.None? ==> key !in cache || lang !in cache[key] || cache[key][lang] == ""
  {
    if key in cache && lang in cache[key] && cache[key][lang] != "" then Some(cache[key][lang]) else None
  }

  /** `cache[key] ??= {}; cache[key][lang] = value` */
  function Put(cache: CacheTable, key: string, lang: Lang, value: string): (updated: CacheTable)
    ensures updated.Keys == cache.Keys + {key}
    ensures lang in updated[key] && updated[key][lang] == value
    ensures updated[key].Keys == (if key in cache then cache[key].Keys else {}) + {lang}
  {
    var entry := if key in cache then cache[key] else map[];
    cache[key := entry[lang := value]]
  }

  /** After a write, the written entry answers with the value (unless it is empty) and every other entry answers as before. */
  lemma PutThenHit(cache: CacheTable, key: string, lang: Lang, value: string, key': string, lang': Lang)
    ensures Hit(Put(cache, key, lang, value), key', lang') ==
      if key' == key && lang' == lang then (if value == "" then None else Some(value))
      else Hit(cache, key', lang')
  {
  }

  /** A write keeps every other entry and adds exactly one (key, language) pair. */
  lemma PutKeepsOthers(cache: CacheTable, key: string, lang: Lang, value: string)
    ensures Put(cache, key, lang, value).Keys == cache.Keys + {key}
    ensures forall k, l :: k in cache && l in cache[k] && (k, l) != (key, lang) ==>
      l in Put(cache, key, lang, value)[k] && Put(cache, key, lang, value)[k][l] == cache[k][l]
  {
  }

  /** No entry for the source language: English text is never looked up or stored. */
  ghost predicate NoSourceEntries(cache: CacheTable) {
    forall k :: k in cache ==> En !in cache[k]
  }

  /** Writing a translation into a non-source language keeps the source language out of the table. */
  lemma {:induction false} PutKeepsNoSourceEntries(cache: CacheTable, key: string, lang: Lang, value: string)
    requires NoSourceEntries(cache) && lang != En
    ensures NoSourceEntries(Put(cache, key, lang, value))
  {
    var c := Put(cache, key, lang, value);
    forall k | k in c
      ensures En !in c[k]
    {
      if k != key {
        assert c[k] == cache[k];
      } else if key in cache {
        assert c[k] == cache[key][lang := value];
      }
    }
  }

  /** The providers, in the order they are tried. */
  datatype Provider = Google | Microsoft | Libre

  const ProviderOrder: seq<Provider> := [Google, Microsoft, Libre]

  /** How one provider call ended: it threw, or it resolved to a string or to `null`. */
  datatype Reply = Threw | Answered(value: Option<string>)

  /** A provider request, as sent: the original text, not its cache key. */
  datatype Call = Call(provider: Provider, text: string, lang: Lang)

  /**
   * What the chain sees from one provider: its own `try`/`catch` turns a throw
   * into `null`, and `|| null` turns an empty answer into `null`.
   */
  function Guard(r: Reply): (answer: Option<string>)
    ensures answer.Some? <==> r.Answered? && r.value.Some? && r.value.value != ""
    ensures answer.Some? ==> answer == r.value
  {
    match r
    case Threw => None
    case Answered(Some(s)) => if s == "" then None else Some(s)
    case Answered(None) => None
  }

  /** `tryMicrosoftTranslate` is a placeholder that always resolves to `null`. */
  function MicrosoftReply(): Reply {
    Answered(None)
  }

  /** The position of the first provider with a usable answer, or the number of providers when none has one. */
  function FirstSuccess(replies: seq<Reply>): (n: nat)
    ensures n <= |replies|
    ensures forall j :: 0 <= j < n ==> Guard(replies[j]).None?
    ensures n < |replies| ==> Guard(replies[n]).Some?
  {
    if replies == [] then 0
    else if Guard(replies[0]).Some? then 0
    else 1 + FirstSuccess(replies[1..])
  }

  /** The replies of Google, Microsoft and Libre, in chain order. */
  function Replies(google: Reply, libre: Reply): seq<Reply> {
    [google, MicrosoftReply(), libre]
  }

  /**
   * `await google || await microsoft || await libre || text`: the first usable
   * answer in provider order, else the original text. Microsoft never answers.
   */
  function Chain(text: string, google: Reply, libre: Reply): (r: string)
    ensures Guard(google).Some? ==> r == Guard(google).value
    ensures Guard(google).None? && Guard(libre).Some? ==> r == Guard(libre).value
    ensures Guard(google).None? && Guard(libre).None? ==> r == text
    ensures r == text || r != ""
  {
    var replies := Replies(google, libre);
    assert replies[0] == google && replies[1] == MicrosoftReply() && replies[2] == libre;
    var n := FirstSuccess(replies);
    if n < |replies| then Guard(replies[n]).value else text
  }

  /** The provider calls the chain makes: every provider up to and including the first that answers. */
  function Consulted(text: string, lang: Lang, google: Reply, libre: Reply): (calls: seq<Call>)
    ensures 1 <= |calls| <= 3
    ensures forall j :: 0 <= j < |calls| ==> calls[j] == Call(ProviderOrder[j], text, lang)
    ensures |calls| == 1 <==> Guard(google).Some?
    ensures |calls| == 3 <==> Guard(google).None?
  {
    var replies := Replies(google, libre);
    assert replies[0] == google && replies[1] == MicrosoftReply() && replies[2] == libre;
    var n := FirstSuccess(replies);
    var k := if n < 3 then n + 1 else 3;
    seq(k, j requires 0 <= j < k => Call(ProviderOrder[j], text, lang))
  }

  /** The chain as the source writes it: Google alone when it answers, otherwise all three providers. */
  lemma ChainSteps(text: string, lang: Lang, google: Reply, libre: Reply)
    ensures Guard(google).Some? ==>
      Chain(text, google, libre) == Guard(google).value && Consulted(text, lang, google, libre) == [Call(Google, text, lang)]
    ensures Guard(google).None? ==>
      && Chain(text, google, libre) == Guard(libre).GetOr(text)
      && Consulted(text, lang, google, libre) == [Call(Google, text, lang), Call(Microsoft, text, lang), Call(Libre, text, lang)]
  {
  }

  class Translator {
    /** The in-memory table. */
    var cache: CacheTable
    /** `navigator.onLine`, then the latest `online`/`offline` event. */
    var isOnline: bool
    /** The storage slot `'translation_cache'`; `None` when the key is absent. */
    var slot: Option<Payload>
    /** Every provider request made, in order. */
    var calls: seq<Call>

    /** Reloading storage would give back exactly the in-memory table. */
    ghost predicate Persisted()
      reads this
    {
      LoadCache(slot) == Table(cache)
    }

    constructor (table: CacheTable, slot0: Option<Payload>, online: bool)
      requires LoadCache(slot0) == Table(table)
      ensures cache == table && slot == slot0 && isOnline == online && calls == []
      ensures Persisted()
    {
      cache := table;
      slot := slot0;
      isOnline := online;
      calls := [];
    }

    /**
     * `new AutoTranslator()`: load the table from storage. A malformed payload
     * makes `JSON.parse` throw out of the constructor, so no translator exists.
     */
    static method Create(slot0: Option<Payload>, online: bool) returns (t: Option<Translator>)
      ensures t.None? <==> slot0 == Some(Malformed)
      ensures t.Some? ==> fresh(t.value) && t.value.slot == slot0 && t.value.isOnline == online
      ensures t.Some? ==> t.value.cache == LoadCache(slot0).table && t.value.calls == [] && t.value.Persisted()
    {
      var loaded := LoadCache(slot0);
      if loaded.ParseError? {
        return None;
      }
      var tr := new Translator(loaded.table, slot0, online);
      return Some(tr);
    }

    /** The `online` window event. */
    method GoOnline()
      modifies this`isOnline
      ensures isOnline
    {
      isOnline := true;
    }

    /** The `offline` window event. */
    method GoOffline()
      modifies this`isOnline
      ensures !isOnline
    {
      isOnline := false;
    }

    /** `clearCache`: empty the table and remove the storage key. */
    method ClearCache()
      modifies this`cache, this`slot
      ensures cache == map[] && slot == None
      ensures forall k, l :: Hit(cache, k, l).None?
      ensures Persisted()
    {
      cache := map[];
      slot := None;
    }

    /**
     * `translate(text, targetLang)`. `google` and `libre` are the outcomes the
     * two network providers would have; `saveFails` says whether writing the
     * storage slot throws (a full storage quota), which the outer `catch`
     * turns into returning the original text after the table was updated.
     */
    method Translate(text: string, target: Lang, google: Reply, libre: Reply, saveFails: bool) returns (r: string)
      modifies this`cache, this`slot, this`calls
      ensures target == En ==> r == text
      ensures target != En && Hit(old(cache), Key(text), target).Some? ==>
        r == Hit(old(cache), Key(text), target).value
      ensures target != En && Hit(old(cache), Key(text), target).None? && !isOnline ==> r == text
      ensures target == En || Hit(old(cache), Key(text), target).Some? || !isOnline ==>
        cache == old(cache) && slot == old(slot) && calls == old(calls)
      ensures target != En && Hit(old(cache), Key(text), target).None? && isOnline ==>
        && calls == old(calls) + Consulted(text, target, google, libre)
        && cache == Put(old(cache), Key(text), target, Chain(text, google, libre))
        && (saveFails ==> r == text && slot == old(slot))
        && (!saveFails ==> r == Chain(text, google, libre) && slot == Some(Json(cache)))
      ensures old(Persisted()) && !saveFails ==> Persisted()
      ensures old(NoSourceEntries(cache)) ==> NoSourceEntries(cache)
    {
      if target == En {
        return text;
      }
      var key := Key(text);
      var hit := Hit(cache, key, target);
      if hit.Some? {
        return hit.value;
      }
      if !isOnline {
        return text;
      }
      // Google, then Microsoft, then Libre: `||` stops at the first usable answer.
      calls := calls + [Call(Google, text, target)];
      var answer := Guard(google);
      if answer.None? {
        calls := calls + [Call(Microsoft, text, target)];
        answer := Guard(MicrosoftReply());
        if answer.None? {
          calls := calls + [Call(Libre, text, target)];
          answer := Guard(libre);
        }
      }
      var translated := answer.GetOr(text);
      ChainSteps(text, target, google, libre);
      cache := Put(cache, key, target, translated);
      assert old(NoSourceEntries(cache)) ==> NoSourceEntries(cache) by {
        if NoSourceEntries(old(cache)) {
          PutKeepsNoSourceEntries(old(cache), key, target, translated);
        }
      }
      if saveFails {
        return text;
      }
      slot := Some(Json(cache));
      r := translated;
    }
  }

  /**
   * Cache-hit idempotence: once an online miss has filled the entry with a
   * non-empty value, translating the same text again gives that value and
   * calls no provider, whatever the providers and the network would do now.
   */
  method TranslateTwice(t: Translator, text: string, google: Reply, libre: Reply,
                        google': Reply, libre': Reply, online': bool)
    returns (first: string, second: string)
    requires Chain(text, google, libre) != ""
    requires t.isOnline && Hit(t.cache, Key(text), Ar).None?
    modifies t
    ensures second == first == Chain(text, google, libre)
    ensures t.calls == old(t.calls) + Consulted(text, Ar, google, libre)
  {
    first := t.Translate(text, Ar, google, libre, false);
    t.isOnline := online';
    PutThenHit(old(t.cache), Key(text), Ar, first, Key(text), Ar);
    second := t.Translate(text, Ar, google', libre', false);
  }
}
