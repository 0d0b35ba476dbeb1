/** The language context of lib/language-context.tsx: three tables of interface
    texts, the visitor's chosen language kept under the localStorage key
    "preferred-language", and the lookup `t` that falls back from the chosen
    language to English, to the caller's fallback and finally to the key. */
module Language {
  import opened Common
  import opened Strings

  /** The keys every table translates, in the tables' order. */
  const Keys: seq<string> := [
    "site.title", "site.subtitle", "nav.home", "nav.recipes", "nav.about", "nav.faq",
    "nav.disclaimer", "hero.title", "hero.subtitle", "featured.title", "featured.subtitle",
    "search.placeholder", "filter.categories", "filter.difficulty", "filter.time", "footer.rights"]

  /** Each table holds one text per key, in the order of `Keys`. */
  const English: seq<string> := [
    "Delicious Recipes", "Cooking Made Easy", "Home", "Recipes", "About Us", "FAQ",
    "Disclaimer", "Discover Amazing Recipes", "From quick weeknight dinners to special occasion treats",
    "Featured Recipes", "Hand-picked recipes that change daily", "Search recipes...",
    "Categories", "Difficulty", "Time", "All rights reserved"]

  const Spanish: seq<string> := [
    "Recetas Deliciosas", "Cocinar Hecho Fácil", "Inicio", "Recetas", "Acerca de", "Preguntas",
    "Descargo", "Descubre Recetas Increíbles", "Desde cenas rápidas hasta delicias especiales",
    "Recetas Destacadas", "Recetas seleccionadas que cambian diariamente", "Buscar recetas...",
    "Categorías", "Dificultad", "Tiempo", "Todos los derechos reservados"]

  const French: seq<string> := [
    "Recettes Délicieuses", "Cuisine Facile", "Accueil", "Recettes", "À Propos", "FAQ",
    "Avertissement", "Découvrez des Recettes Incroyables", "Des dîners rapides aux délices spéciaux",
    "Recettes Vedettes", "Recettes sélectionnées qui changent quotidiennement", "Rechercher des recettes...",
    "Catégories", "Difficulté", "Temps", "Tous droits réservés"]

  /** `translations[lang]`: the table of a known language code. */
  function Table(lang: string): (t: Option<seq<string>>)
    ensures t.Some? <==> lang in {"en", "es", "fr"}
  {
    if lang == "en" then Some(English)
    else if lang == "es" then Some(Spanish)
    else if lang == "fr" then Some(French)
    else None
  }

  /** The position of a key in `Keys`, if it is one. */
  function IndexOf(keys: seq<string>, key: string): (k: Option<nat>)
    ensures k.None? <==> key !in keys
    ensures k.Some? ==> k.value < |keys| && keys[k.value] == key
  {
    if keys == [] then None
    else if keys[0] == key then Some(0)
    else
      var rest := IndexOf(keys[1..], key);
      if rest.None? then None else Some(rest.value + 1)
  }

  /** `translations[lang]?.[key]`. */
  function Entry(lang: string, key: string): (e: Option<string>)
    ensures e.Some? <==> Table(lang).Some? && key in Keys
  {
    var t := Table(lang);
    var k := IndexOf(Keys, key);
    if t.None? || k.None? then None
    else
      TablesComplete();
      Some(t.value[k.value])
  }

  /** Every table has a non-empty text for each key, and the keys are distinct. */
  lemma TablesComplete()
    ensures |Keys| == 16 && |English| == 16 && |Spanish| == 16 && |French| == 16
    ensures forall i :: 0 <= i < 16 ==> English[i] != "" && Spanish[i] != "" && French[i] != ""
    ensures forall i, j :: 0 <= i < j < |Keys| ==> Keys[i] != Keys[j]
  {
  }

  /** `t(key, fallback)`: the first non-empty text among the chosen language's,
      the English one and the fallback, and otherwise the key. */
  function Translate(lang: string, key: string, fallback: Option<string>): string {
    OrElse(Entry(lang, key), OrElse(Entry("en", key), OrElse(fallback, key)))
  }

  /** The i-th key translates to the i-th text of a known language, and to the
      English text in an unknown one; a key in no table gives the fallback when
      it is non-empty and the key itself otherwise. */
  lemma TranslateCorrect(lang: string, i: nat, fallback: Option<string>)
    requires i < |Keys|
    ensures Table(lang).Some? ==> Translate(lang, Keys[i], fallback) == Table(lang).value[i]
    ensures Table(lang).None? ==> Translate(lang, Keys[i], fallback) == English[i]
  {
    TablesComplete();
    var k := IndexOf(Keys, Keys[i]);
    assert k.value == i;
  }

  lemma TranslateUnknownKey(lang: string, key: string, fallback: Option<string>)
    requires key !in Keys
    ensures fallback.Some? && fallback.value != "" ==> Translate(lang, key, fallback) == fallback.value
    ensures fallback.None? || fallback.value == "" ==> Translate(lang, key, fallback) == key
  {
  }

  /** The language choice and its stored copy. */
  class Provider {
    var currentLanguage: string
    var saved: Option<string>

    /** English until the mount effect has run. */
    constructor(saved: Option<string>)
      ensures currentLanguage == "en" && this.saved == saved
    {
      currentLanguage := "en";
      this.saved := saved;
    }

    /** The mount effect: adopt the stored choice when it names a known table. */
    method Mount()
      modifies this
      ensures saved == old(saved)
      ensures currentLanguage == if saved.Some? && Table(saved.value).Some? then saved.value else old(currentLanguage)
    {
      if saved.Some? && saved.value != "" && Table(saved.value).Some? {
        currentLanguage := saved.value;
      }
    }

    /** `setLanguage`: any code is taken and stored, known or not. */
    method SetLanguage(lang: string)
      modifies this
      ensures currentLanguage == lang && saved == Some(lang)
    {
      currentLanguage := lang;
      saved := Some(lang);
    }

    function T(key: string, fallback: Option<string>): string
      reads this
    {
      Translate(currentLanguage, key, fallback)
    }
  }

  /** A stored choice survives the next visit exactly when it is a known code:
      a fresh provider that mounts with it uses it, and otherwise stays on
      English. */
  method Revisit(lang: string) returns (current: string)
    ensures Table(lang).Some? ==> current == lang
    ensures Table(lang).None? ==> current == "en"
  {
    var p := new Provider(Some(lang));
    p.Mount();
    current := p.currentLanguage;
  }
}
