/**
 * The browser-side data store `window.FIXO` (public/js/fixo-data-loader.js):
 * `initData` copies the globals the data scripts define, `t` looks a text up
 * through a chain of fallbacks, and `getRepair` / `getRepairsByCategory` read
 * the repair catalogue. The language and category lists are never inspected,
 * so their element types are parameters.
 */
module DataLoader {
  import opened Wrappers
  import opened Js
  import opened Catalog

  /** The globals `FIXO_LANGUAGES` … `FIXO_CATEGORIES`; `None` where `typeof` gives `'undefined'`. */
  datatype Globals<Language, CategoryInfo> = Globals(
    languages: Option<seq<Language>>,
    originalTexts: Option<Entries<string>>,
    translations: Option<Entries<Entries<string>>>,
    repairDatabase: Option<RepairMap>,
    categories: Option<seq<CategoryInfo>>)

  /**
   * Entries of `o` whose `category` is `category` (`===`), in `o`'s order;
   * `None` is `undefined`, so it selects the entries without a category.
   */
  function InCategory(o: RepairMap, category: Option<string>): (r: RepairMap)
    ensures |r| <= |o|
  {
    if o == [] then []
    else
      var last := o[|o| - 1];
      InCategory(o[..|o| - 1], category) + (if last.1.category == category then [last] else [])
  }

  /** The filter keeps exactly the matching entries, keys and values alike. */
  lemma {:induction false} InCategoryMembers(o: RepairMap, category: Option<string>)
    ensures forall e :: e in InCategory(o, category) <==> e in o && e.1.category == category
  {
    if o != [] {
      InCategoryMembers(o[..|o| - 1], category);
      assert o == o[..|o| - 1] + [o[|o| - 1]];
    }
  }

  /** The filter only drops entries, so a catalogue without duplicate keys gives a filtered object without them. */
  lemma {:induction false} InCategoryKeysDistinct(o: RepairMap, category: Option<string>)
    requires DistinctKeys(o)
    ensures DistinctKeys(InCategory(o, category))
  {
    if o != [] {
      var init := o[..|o| - 1];
      DistinctKeysPrefix(o, |o| - 1);
      InCategoryKeysDistinct(init, category);
      InCategoryMembers(init, category);
      var last := o[|o| - 1];
      forall e | e in init ensures e.0 != last.0 {
        var i :| 0 <= i < |init| && init[i] == e;
        assert o[i] == e;
      }
    }
  }

  /** In a well-formed catalogue, a key of the filtered object maps to the catalogue's record. */
  lemma CategoryLookup(o: RepairMap, category: Option<string>, key: string, r: Repair)
    requires DistinctKeys(o)
    ensures Get(InCategory(o, category), key) == Some(r) <==> Get(o, key) == Some(r) && r.category == category
  {
    InCategoryKeysDistinct(o, category);
    InCategoryMembers(o, category);
    GetEntry(o, key, r);
    GetEntry(InCategory(o, category), key, r);
  }

  /** Called with no argument, the filter returns exactly the repairs that have no category. */
  lemma MissingCategorySelectsUncategorised(o: RepairMap)
    ensures forall e :: e in InCategory(o, None) <==> e in o && e.1.category.None?
  {
    InCategoryMembers(o, None);
  }

  class FixoData<Language, CategoryInfo> {
    var languages: seq<Language>
    var originalTexts: Entries<string>
    var translations: Entries<Entries<string>>
    var repairDatabase: RepairMap
    var categories: seq<CategoryInfo>

    /** `window.FIXO = window.FIXO || {}`, with its data fields still empty. */
    constructor ()
      ensures languages == [] && originalTexts == [] && translations == []
      ensures repairDatabase == [] && categories == []
    {
      languages := [];
      originalTexts := [];
      translations := [];
      repairDatabase := [];
      categories := [];
    }

    /** `initData()`: every field is its global when defined, else an empty array or object. */
    method InitData(g: Globals<Language, CategoryInfo>)
      modifies this
      ensures languages == ObjOr(g.languages, [])
      ensures originalTexts == ObjOr(g.originalTexts, [])
      ensures translations == ObjOr(g.translations, [])
      ensures repairDatabase == ObjOr(g.repairDatabase, [])
      ensures categories == ObjOr(g.categories, [])
    {
      languages := if g.languages.Some? then g.languages.value else [];
      originalTexts := if g.originalTexts.Some? then g.originalTexts.value else [];
      translations := if g.translations.Some? then g.translations.value else [];
      repairDatabase := if g.repairDatabase.Some? then g.repairDatabase.value else [];
      categories := if g.categories.Some? then g.categories.value else [];
    }

    /** The table `t` reads: `translations[lang] || translations.cs || originalTexts`. */
    function TextTable(lang: Option<string>): (table: Entries<string>)
      reads this
      ensures var l := StrOr(lang, "cs");
        && (Get(translations, l).Some? ==> table == Get(translations, l).value)
        && (Get(translations, l).None? && Get(translations, "cs").Some? ==> table == Get(translations, "cs").value)
        && (Get(translations, l).None? && Get(translations, "cs").None? ==> table == originalTexts)
    {
      match Get(translations, StrOr(lang, "cs"))
      case Some(table) => table
      case None =>
        match Get(translations, "cs")
        case Some(table) => table
        case None => originalTexts
    }

    /** `t(key, lang)`: the chosen table's text, else the original text, else the key. */
    function T(key: string, lang: Option<string>): (text: string)
      reads this
      ensures StrTruthy(Get(TextTable(lang), key)) ==> text == Get(TextTable(lang), key).value
      ensures !StrTruthy(Get(TextTable(lang), key)) && StrTruthy(Get(originalTexts, key)) ==>
        text == Get(originalTexts, key).value
      ensures !StrTruthy(Get(TextTable(lang), key)) && !StrTruthy(Get(originalTexts, key)) ==> text == key
      ensures text == "" ==> key == ""
    {
      StrOr(Get(TextTable(lang), key), StrOr(Get(originalTexts, key), key))
    }

    /** `getRepair(id)`: the record stored under `id`, else `null`. */
    function GetRepair(id: string): (r: Option<Repair>)
      reads this
      ensures r.Some? ==> (id, r.value) in repairDatabase
      ensures r.None? ==> forall e :: e in repairDatabase ==> e.0 != id
    {
      Get(repairDatabase, id)
    }

    /**
     * `getRepairsByCategory(category)`: the whole catalogue for `'all'`, else the
     * `forEach` filter; a missing argument is `None`.
     */
    method GetRepairsByCategory(category: Option<string>) returns (filtered: RepairMap)
      ensures category == Some("all") ==> filtered == repairDatabase
      ensures category != Some("all") ==> filtered == InCategory(repairDatabase, category)
    {
      if category == Some("all") {
        return repairDatabase;
      }
      filtered := [];
      var i := 0;
      while i < |repairDatabase|
        invariant 0 <= i <= |repairDatabase|
        invariant filtered == InCategory(repairDatabase[..i], category)
      {
        var entry := repairDatabase[i];
        assert repairDatabase[..i + 1][..i] == repairDatabase[..i];
        if entry.1.category == category {
          filtered := filtered + [entry];
        }
        i := i + 1;
      }
      assert repairDatabase[..i] == repairDatabase;
    }
  }

  /** With no language and nothing translated, `t` falls back to the original texts and then to the key. */
  lemma UntranslatedFallsBack<L, C>(d: FixoData<L, C>, key: string)
    requires d.translations == []
    ensures d.T(key, None) == StrOr(Get(d.originalTexts, key), key)
  {
  }

  /** An empty language code is read as Czech. */
  lemma EmptyLanguageIsCzech<L, C>(d: FixoData<L, C>, key: string)
    ensures d.T(key, Some("")) == d.T(key, Some("cs")) == d.T(key, None)
  {
  }
}
