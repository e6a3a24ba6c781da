/**
 * The database seed script (fixo-v2/prisma/seed.ts): it upserts the fixed
 * category table, then every repair of the catalogue file (or of the built-in
 * catalogue when the file cannot be read) whose category exists, with its
 * issues, the issues' steps and their tools, and finally the demo user.
 *
 * Each loop of the script is a method proved equal to a specification
 * function that folds one row's upsert over the rows seen so far; the
 * properties of the seeding are lemmas about those functions.
 */
module Seed {
  import opened Wrappers
  import opened Js
  import opened Catalog
  import opened Store

  // ---------------------------------------------------------------------------
  // Constants

  /** `categoryMap`: slug to name, icon and description. */
  const CategoryMap: Entries<CategoryRow> := [
    ("voda", CategoryRow("Voda a instalatérství", "🚰", "Kohoutky, WC, odpady, trubky a vodovodní instalace")),
    ("elektrina", CategoryRow("Elektřina", "⚡", "Zásuvky, vypínače, osvětlení a elektrické obvody")),
    ("topeni", CategoryRow("Topení a klimatizace", "🌡️", "Radiátory, kotle, termostaty a klimatizační jednotky")),
    ("dvere_okna", CategoryRow("Dveře a okna", "🚪", "Panty, zámky, těsnění a sklo")),
    ("nabytek", CategoryRow("Nábytek", "🪑", "Skříně, stoly, židle a montáž nábytku")),
    ("spotrebice", CategoryRow("Spotřebiče", "📺", "Pračky, myčky, lednice a drobné spotřebiče"))
  ]

  // `getBuiltInRepairs()`, one repair at a time.

  const Kohoutek: Repair :=
    Repair("Kohoutek", Some("voda"), Some("🚰"), Some([
      IssueRecord("leak", "Kapající kohoutek", Some("Netěsnící těsnění nebo O-kroužek"), Some(2), Some("Nízká"), Some("15 min"),
        Some(["Klíč", "Šroubovák", "Nové těsnění"]),
        Some([
          StepRecord(1, "Zavřete hlavní přívod vody", Some("1 min"), Some("🚰"), None),
          StepRecord(2, "Otevřete kohoutek pro uvolnění tlaku", Some("30 s"), Some("💧"), None),
          StepRecord(3, "Odšroubujte hlavici kohoutku", Some("2 min"), Some("🔧"), None),
          StepRecord(4, "Vyjměte staré těsnění", Some("2 min"), Some("⚙️"), None),
          StepRecord(5, "Nasaďte nové těsnění", Some("2 min"), Some("🔩"), None),
          StepRecord(6, "Sestavte kohoutek zpět", Some("3 min"), Some("🔧"), None),
          StepRecord(7, "Pusťte vodu a zkontrolujte", Some("2 min"), Some("✅"), None)]),
        Some(["Vždy nejdříve zavřete hlavní přívod vody", "Mějte připravený kbelík"]))]))

  const Toaleta: Repair :=
    Repair("Toaleta", Some("voda"), Some("🚽"), Some([
      IssueRecord("running", "Protékající WC", Some("Vadný plovák nebo těsnění"), Some(2), Some("Střední"), Some("20 min"),
        Some(["Klíč", "Nový plovák"]),
        Some([
          StepRecord(1, "Zavřete přívod vody k WC", Some("1 min"), Some("🚰"), None),
          StepRecord(2, "Vyprázdněte nádržku", Some("1 min"), Some("🚽"), None),
          StepRecord(3, "Zkontrolujte plovák", Some("5 min"), Some("🔍"), None),
          StepRecord(4, "Vyměňte vadné díly", Some("10 min"), Some("🔧"), None),
          StepRecord(5, "Otestujte", Some("3 min"), Some("✅"), None)]),
        Some(["Použijte gumové rukavice"]))]))

  const Dvere: Repair :=
    Repair("Dveře", Some("dvere_okna"), Some("🚪"), Some([
      IssueRecord("squeaky", "Vrzající dveře", Some("Suché panty potřebují namazání"), Some(1), Some("Velmi nízká"), Some("5 min"),
        Some(["WD-40 nebo olej", "Hadřík"]),
        Some([
          StepRecord(1, "Otevřete dveře", Some("10 s"), Some("🚪"), None),
          StepRecord(2, "Nastříkejte mazivo na panty", Some("1 min"), Some("🛢️"), None),
          StepRecord(3, "Pohybujte dveřmi", Some("1 min"), Some("↔️"), None),
          StepRecord(4, "Setřete přebytečné mazivo", Some("1 min"), Some("🧹"), None)]),
        Some(["Větrejte při použití sprejů"]))]))

  const Radiator: Repair :=
    Repair("Radiátor", Some("topeni"), Some("🌡️"), Some([
      IssueRecord("cold", "Studený radiátor", Some("Vzduch v topném systému"), Some(2), Some("Nízká"), Some("10 min"),
        Some(["Odvzdušňovací klíč", "Kbelík"]),
        Some([
          StepRecord(1, "Vypněte topení", Some("1 min"), Some("❄️"), None),
          StepRecord(2, "Najděte odvzdušňovací ventil", Some("1 min"), Some("🔍"), None),
          StepRecord(3, "Umístěte nádobu pod ventil", Some("30 s"), Some("🪣"), None),
          StepRecord(4, "Pomalu otevřete ventil", Some("2 min"), Some("🔧"), None),
          StepRecord(5, "Až poteče voda, zavřete", Some("30 s"), Some("✅"), None)]),
        Some(["Pozor na horkou vodu"]))]))

  const Zasuvka: Repair :=
    Repair("Elektrická zásuvka", Some("elektrina"), Some("🔌"), Some([
      IssueRecord("not-working", "Nefunkční zásuvka", Some("Přerušený obvod nebo poškozený kontakt"), Some(8), Some("Vysoká"), Some("30 min"),
        Some(["Tester napětí", "Šroubovák"]),
        Some([
          StepRecord(1, "⚠️ VYPNĚTE JISTIČ!", Some("1 min"), Some("⚡"), None),
          StepRecord(2, "Ověřte testerem beznapěťový stav", Some("2 min"), Some("🔌"), None),
          StepRecord(3, "Demontujte kryt zásuvky", Some("2 min"), Some("🔧"), None),
          StepRecord(4, "Zkontrolujte zapojení", Some("5 min"), Some("🔍"), None),
          StepRecord(5, "Opravte nebo vyměňte", Some("15 min"), Some("⚙️"), None),
          StepRecord(6, "Zapněte jistič a otestujte", Some("2 min"), Some("✅"), None)]),
        Some(["⚠️ POZOR! Práce s elektřinou může být životu nebezpečná!", "Vždy vypněte jistič"]))]))

  /** `getBuiltInRepairs()`. */
  const BuiltInRepairs: RepairMap := [
    ("kohoutek", Kohoutek), ("wc", Toaleta), ("dvere", Dvere), ("radiator", Radiator), ("zasuvka", Zasuvka)
  ]

  /** `difficultyMap[name] || "MEDIUM"`. */
  function DifficultyOf(name: Option<string>): (d: Difficulty)
    ensures name == Some("Velmi nízká") <==> d == VeryEasy
    ensures name == Some("Nízká") <==> d == Easy
    ensures name == Some("Vysoká") <==> d == Hard
    ensures name == Some("Velmi vysoká") <==> d == VeryHard
    ensures d == Medium <==>
      name != Some("Velmi nízká") && name != Some("Nízká") && name != Some("Vysoká") && name != Some("Velmi vysoká")
  {
    match name
    case Some("Velmi nízká") => VeryEasy
    case Some("Nízká") => Easy
    case Some("Střední") => Medium
    case Some("Vysoká") => Hard
    case Some("Velmi vysoká") => VeryHard
    case _ => Medium
  }

  /** `parseInt(timeEstimate) || 15`: `NaN` and `0` give 15. */
  function TimeEstimate(text: Option<string>): (minutes: int)
    ensures minutes != 0
    ensures text.Some? && ParseInt(text.value).Some? && ParseInt(text.value).value != 0 ==>
      minutes == ParseInt(text.value).value
    ensures text.None? || ParseInt(text.value).None? || ParseInt(text.value) == Some(0) ==> minutes == 15
  {
    if text.None? then 15 else IntOr(ParseInt(text.value), 15)
  }

  /** An estimate written as a number of minutes is read as that number, unless it is zero. */
  lemma TimeEstimateOfMinutes(n: nat)
    ensures TimeEstimate(Some(Decimal(n) + " min")) == if n == 0 then 15 else n
  {
    ParseIntOfDecimal(n, " min");
  }

  // ---------------------------------------------------------------------------
  // One row at a time

  /** `category.upsert({ where: { slug }, update: {}, create })`. */
  function UpsertCategory(categories: map<string, CategoryRow>, slug: string, row: CategoryRow)
    : (r: map<string, CategoryRow>)
    ensures r.Keys == categories.Keys + {slug}
    ensures slug in categories ==> r == categories
    ensures slug !in categories ==> r[slug] == row
    ensures forall s :: s in categories ==> r[s] == categories[s]
  {
    if slug in categories then categories else categories[slug := row]
  }

  /**
   * `repair.upsert({ where: { slug: id }, update: { name, icon }, create })`: an
   * update leaves `categoryId` alone, and an `undefined` icon leaves the icon alone.
   */
  function UpsertRepair(repairs: map<string, RepairRow>, id: string, repair: Repair, categoryId: string)
    : (r: map<string, RepairRow>)
    ensures r.Keys == repairs.Keys + {id}
    ensures forall other :: other in repairs && other != id ==> r[other] == repairs[other]
    ensures id in repairs ==>
      && r[id].categoryId == repairs[id].categoryId
      && r[id].name == repair.name
      && r[id].icon == (if repair.icon.Some? then repair.icon else repairs[id].icon)
    ensures id !in repairs ==> r[id] == RepairRow(repair.name, repair.icon, categoryId)
  {
    if id in repairs
    then repairs[id := repairs[id].(name := repair.name, icon := if repair.icon.Some? then repair.icon else repairs[id].icon)]
    else repairs[id := RepairRow(repair.name, repair.icon, categoryId)]
  }

  /** The issue row an upsert leaves: `riskScore || 1`, `safetyWarnings || []`, and an `undefined` description kept. */
  function IssueRowFrom(prior: Option<IssueRow>, issue: IssueRecord): (row: IssueRow)
    ensures row.name == issue.name
    ensures row.riskScore != 0 && row.riskScore == IntOr(issue.riskScore, 1)
    ensures row.difficulty == DifficultyOf(issue.difficulty)
    ensures row.timeEstimate != 0 && row.timeEstimate == TimeEstimate(issue.timeEstimate)
    ensures row.safetyWarnings == ObjOr(issue.safetyWarnings, [])
    ensures issue.description.Some? ==> row.description == issue.description
    ensures issue.description.None? ==> row.description == (if prior.Some? then prior.value.description else None)
  {
    IssueRow(
      issue.name,
      if issue.description.Some? then issue.description else if prior.Some? then prior.value.description else None,
      IntOr(issue.riskScore, 1),
      DifficultyOf(issue.difficulty),
      TimeEstimate(issue.timeEstimate),
      ObjOr(issue.safetyWarnings, []))
  }

  /** `step.create`: `time || "1 min"`, `icon || "🔧"`. */
  function StepRowFrom(step: StepRecord): (row: StepRow)
    ensures row.stepNumber == step.step && row.action == step.action && row.hint == step.hint
    ensures row.time != "" && row.icon != ""
    ensures StrTruthy(step.time) ==> row.time == step.time.value
    ensures !StrTruthy(step.time) ==> row.time == "1 min"
    ensures StrTruthy(step.icon) ==> row.icon == step.icon.value
    ensures !StrTruthy(step.icon) ==> row.icon == "🔧"
  {
    StepRow(step.step, step.action, StrOr(step.time, "1 min"), StrOr(step.icon, "🔧"), step.hint)
  }

  /** The rows created for a list of steps, in order. */
  function StepRows(steps: seq<StepRecord>): (rows: seq<StepRow>)
    ensures |rows| == |steps|
    ensures forall i :: 0 <= i < |steps| ==> rows[i] == StepRowFrom(steps[i])
  {
    seq(|steps|, i requires 0 <= i < |steps| => StepRowFrom(steps[i]))
  }

  // ---------------------------------------------------------------------------
  // The seeded tables as a value

  datatype Tables = Tables(
    categories: map<string, CategoryRow>,
    repairs: map<string, RepairRow>,
    issues: map<IssueKey, IssueRow>,
    steps: map<IssueKey, seq<StepRow>>,
    tools: map<IssueKey, seq<string>>)

  function Snapshot(db: Database): Tables
    reads db
  {
    Tables(db.categories, db.repairs, db.issues, db.steps, db.tools)
  }

  /** One pass of the category loop over `entries`. */
  function SeedCategories(categories: map<string, CategoryRow>, entries: Entries<CategoryRow>)
    : map<string, CategoryRow>
  {
    if entries == [] then categories
    else
      var last := entries[|entries| - 1];
      UpsertCategory(SeedCategories(categories, entries[..|entries| - 1]), last.0, last.1)
  }

  /** One issue: its upsert, then its steps and its tools replaced by the records'. */
  function SeedIssue(t: Tables, repairId: string, issue: IssueRecord): Tables {
    var k := (repairId, issue.id);
    t.(issues := t.issues[k := IssueRowFrom(if k in t.issues then Some(t.issues[k]) else None, issue)],
       steps := t.steps[k := StepRows(ObjOr(issue.steps, []))],
       tools := t.tools[k := ObjOr(issue.tools, [])])
  }

  function SeedIssues(t: Tables, repairId: string, issues: seq<IssueRecord>): Tables {
    if issues == [] then t
    else SeedIssue(SeedIssues(t, repairId, issues[..|issues| - 1]), repairId, issues[|issues| - 1])
  }

  datatype SeedState = SeedState(tables: Tables, repairCount: nat, issueCount: nat)

  /** Whether the repair's category is in the category table (`findUnique` found a row). */
  predicate CategoryKnown(categories: map<string, CategoryRow>, repair: Repair) {
    repair.category.Some? && repair.category.value in categories
  }

  /** One pass of the repair loop's body. */
  function SeedRepair(st: SeedState, entry: (string, Repair)): SeedState {
    var (id, repair) := entry;
    if !CategoryKnown(st.tables.categories, repair) then st
    else
      var issues := ObjOr(repair.issues, []);
      var t := st.tables.(repairs := UpsertRepair(st.tables.repairs, id, repair, repair.category.value));
      SeedState(SeedIssues(t, id, issues), st.repairCount + 1, st.issueCount + |issues|)
  }

  function SeedRepairs(st: SeedState, entries: RepairMap): SeedState {
    if entries == [] then st
    else SeedRepair(SeedRepairs(st, entries[..|entries| - 1]), entries[|entries| - 1])
  }

  // ---------------------------------------------------------------------------
  // Reference definitions for the counts

  /** The catalogue entries whose category the table knows, in order. */
  function Seeded(categories: map<string, CategoryRow>, entries: RepairMap): (r: RepairMap)
    ensures forall e :: e in r <==> e in entries && CategoryKnown(categories, e.1)
  {
    if entries == [] then []
    else
      var last := entries[|entries| - 1];
      assert forall e :: e in entries <==> e in entries[..|entries| - 1] || e == last;
      Seeded(categories, entries[..|entries| - 1]) + (if CategoryKnown(categories, last.1) then [last] else [])
  }

  /** The number of issues the entries list. */
  function IssueTotal(entries: RepairMap): nat {
    if entries == [] then 0
    else IssueTotal(entries[..|entries| - 1]) + |ObjOr(entries[|entries| - 1].1.issues, [])|
  }

  // ---------------------------------------------------------------------------
  // Properties of the seeding

  /** The category upserts never change an existing row, and add every slug of the list. */
  lemma {:induction false} SeedCategoriesKeepsExisting(categories: map<string, CategoryRow>, entries: Entries<CategoryRow>)
    ensures var r := SeedCategories(categories, entries);
      && (forall s :: s in r <==> s in categories || exists e :: e in entries && e.0 == s)
      && (forall s :: s in categories ==> r[s] == categories[s])
  {
    if entries != [] {
      var init := entries[..|entries| - 1];
      SeedCategoriesKeepsExisting(categories, init);
      assert forall e :: e in entries <==> e in init || e == entries[|entries| - 1];
    }
  }

  /** In a table without duplicate slugs, every slug the table did not have gets the listed row. */
  lemma {:induction false} SeedCategoriesAddsMissing(categories: map<string, CategoryRow>, entries: Entries<CategoryRow>)
    requires DistinctKeys(entries)
    ensures forall e :: e in entries && e.0 !in categories ==>
      e.0 in SeedCategories(categories, entries) && SeedCategories(categories, entries)[e.0] == e.1
  {
    if entries != [] {
      var init := entries[..|entries| - 1];
      var last := entries[|entries| - 1];
      var before := SeedCategories(categories, init);
      assert SeedCategories(categories, entries) == UpsertCategory(before, last.0, last.1);
      DistinctKeysPrefix(entries, |entries| - 1);
      SeedCategoriesAddsMissing(categories, init);
      SeedCategoriesKeepsExisting(categories, init);
      forall e | e in entries && e.0 !in categories
        ensures e.0 in SeedCategories(categories, entries) && SeedCategories(categories, entries)[e.0] == e.1
      {
        if e == last {
          assert last.0 !in before by {
            forall x | x in init ensures x.0 != last.0 {
              var i :| 0 <= i < |init| && init[i] == x;
              assert entries[i] == x;
            }
          }
        } else {
          assert e in init by {
            var i :| 0 <= i < |entries| && entries[i] == e;
            assert i < |init| && init[i] == e;
          }
        }
      }
    }
  }

  /** Seeding an issue replaces its steps and tools outright and touches no other issue. */
  lemma SeedIssueReplaces(t: Tables, repairId: string, issue: IssueRecord)
    ensures var r, k := SeedIssue(t, repairId, issue), (repairId, issue.id);
      && r.steps[k] == StepRows(ObjOr(issue.steps, []))
      && r.tools[k] == ObjOr(issue.tools, [])
      && r.issues[k] == IssueRowFrom(if k in t.issues then Some(t.issues[k]) else None, issue)
      && (forall k' :: k' != k ==> (k' in r.steps <==> k' in t.steps) && (k' in t.steps ==> r.steps[k'] == t.steps[k']))
      && (forall k' :: k' != k ==> (k' in r.tools <==> k' in t.tools) && (k' in t.tools ==> r.tools[k'] == t.tools[k']))
      && (forall k' :: k' != k ==> (k' in r.issues <==> k' in t.issues) && (k' in t.issues ==> r.issues[k'] == t.issues[k']))
      && r.categories == t.categories && r.repairs == t.repairs
  {
  }

  /** The last issue of the list with a given id, if any. */
  /** `issues[j]` has that id and no later record does. */
  predicate IsLastWithId(issues: seq<IssueRecord>, j: int, id: string) {
    0 <= j < |issues| && issues[j].id == id && forall k :: j < k < |issues| ==> issues[k].id != id
  }

  function LastWithId(issues: seq<IssueRecord>, id: string): (r: Option<IssueRecord>)
    ensures r.Some? ==> r.value in issues && r.value.id == id
    ensures r.Some? ==> exists j :: IsLastWithId(issues, j, id) && issues[j] == r.value
    ensures r.None? ==> forall i :: i in issues ==> i.id != id
  {
    if issues == [] then None
    else if issues[|issues| - 1].id == id then
      assert IsLastWithId(issues, |issues| - 1, id);
      Some(issues[|issues| - 1])
    else
      var front := issues[..|issues| - 1];
      assert forall i :: i in issues ==> i in front || i == issues[|issues| - 1];
      var r := LastWithId(front, id);
      if r.None? then r
      else
        var j :| IsLastWithId(front, j, id) && front[j] == r.value;
        assert IsLastWithId(issues, j, id);
        r
  }

  /**
   * After an issue loop, an issue id's steps and tools are those of the last
   * record with that id (earlier ones are gone); ids the loop did not see, and
   * other repairs' issues, keep what they had.
   */
  lemma {:induction false} SeedIssuesLastWins(t: Tables, repairId: string, issues: seq<IssueRecord>, id: string)
    ensures var r, k := SeedIssues(t, repairId, issues), (repairId, id);
      && (LastWithId(issues, id).Some? ==>
            && k in r.steps && r.steps[k] == StepRows(ObjOr(LastWithId(issues, id).value.steps, []))
            && k in r.tools && r.tools[k] == ObjOr(LastWithId(issues, id).value.tools, [])
            && k in r.issues && r.issues[k].name == LastWithId(issues, id).value.name)
      && (LastWithId(issues, id).None? ==>
            && (k in r.steps <==> k in t.steps) && (k in t.steps ==> r.steps[k] == t.steps[k])
            && (k in r.tools <==> k in t.tools) && (k in t.tools ==> r.tools[k] == t.tools[k])
            && (k in r.issues <==> k in t.issues) && (k in t.issues ==> r.issues[k] == t.issues[k]))
      && r.categories == t.categories && r.repairs == t.repairs
  {
    if issues != [] {
      SeedIssuesLastWins(t, repairId, issues[..|issues| - 1], id);
    }
  }

  /** Issues of other repairs are untouched by a repair's issue loop. */
  lemma {:induction false} SeedIssuesKeepsOtherRepairs(t: Tables, repairId: string, issues: seq<IssueRecord>, k: IssueKey)
    requires k.0 != repairId
    ensures var r := SeedIssues(t, repairId, issues);
      && (k in r.steps <==> k in t.steps) && (k in t.steps ==> r.steps[k] == t.steps[k])
      && (k in r.tools <==> k in t.tools) && (k in t.tools ==> r.tools[k] == t.tools[k])
      && (k in r.issues <==> k in t.issues) && (k in t.issues ==> r.issues[k] == t.issues[k])
  {
    if issues != [] {
      SeedIssuesKeepsOtherRepairs(t, repairId, issues[..|issues| - 1], k);
    }
  }

  /**
   * The repair loop leaves the category table alone, counts exactly the
   * repairs whose category exists, and counts every issue of those repairs.
   */
  lemma {:induction false} SeedRepairsCounts(st: SeedState, entries: RepairMap)
    ensures var r := SeedRepairs(st, entries);
      && r.tables.categories == st.tables.categories
      && r.repairCount == st.repairCount + |Seeded(st.tables.categories, entries)|
      && r.issueCount == st.issueCount + IssueTotal(Seeded(st.tables.categories, entries))
  {
    if entries != [] {
      var init := entries[..|entries| - 1];
      SeedRepairsCounts(st, init);
      var mid := SeedRepairs(st, init);
      var last := entries[|entries| - 1];
      if CategoryKnown(st.tables.categories, last.1) {
        var t := mid.tables.(repairs := UpsertRepair(mid.tables.repairs, last.0, last.1, last.1.category.value));
        SeedIssuesLastWins(t, last.0, ObjOr(last.1.issues, []), "");
        var s := Seeded(st.tables.categories, init);
        assert Seeded(st.tables.categories, entries) == s + [last];
        assert (s + [last])[..|s|] == s;
        assert IssueTotal(s + [last]) == IssueTotal(s) + |ObjOr(last.1.issues, [])|;
      } else {
        var s := Seeded(st.tables.categories, init);
        assert s + [] == s;
        assert Seeded(st.tables.categories, entries) == s;
      }
    }
  }

  /** A repair whose category does not exist changes nothing and is not counted. */
  lemma UnknownCategorySkipped(st: SeedState, id: string, repair: Repair)
    requires !CategoryKnown(st.tables.categories, repair)
    ensures SeedRepair(st, (id, repair)) == st
  {
  }

  /** Once a repair row exists, no later upsert changes its category. */
  lemma {:induction false} SeedRepairsKeepsCategoryId(st: SeedState, entries: RepairMap, id: string)
    requires id in st.tables.repairs
    ensures var r := SeedRepairs(st, entries).tables.repairs;
      id in r && r[id].categoryId == st.tables.repairs[id].categoryId
  {
    if entries != [] {
      var init := entries[..|entries| - 1];
      SeedRepairsKeepsCategoryId(st, init, id);
      var mid := SeedRepairs(st, init);
      var last := entries[|entries| - 1];
      if CategoryKnown(mid.tables.categories, last.1) {
        var t := mid.tables.(repairs := UpsertRepair(mid.tables.repairs, last.0, last.1, last.1.category.value));
        SeedIssuesLastWins(t, last.0, ObjOr(last.1.issues, []), "");
      }
    }
  }

  // ---------------------------------------------------------------------------
  // Data source

  /** What reading `repairs_expanded.json` gave. `asRepairs` is the parsed object read as a repair map. */
  datatype RepairsFile = ReadFailed | Parsed(repairs: Option<RepairMap>, asRepairs: RepairMap)

  /** The map the repair loop walks: the built-in catalogue on a read failure, else `data.repairs || data`. */
  function EffectiveRepairs(file: RepairsFile): (r: RepairMap)
    ensures file.ReadFailed? ==> r == BuiltInRepairs
    ensures file.Parsed? && file.repairs.Some? ==> r == file.repairs.value
    ensures file.Parsed? && file.repairs.None? ==> r == file.asRepairs
  {
    match file
    case ReadFailed => BuiltInRepairs
    case Parsed(repairs, whole) => ObjOr(repairs, whole)
  }

  /** The category table the script creates in an empty database. */
  function FreshCategories(): map<string, CategoryRow> {
    SeedCategories(map[], CategoryMap)
  }

  /** In an empty database the category loop stores exactly `categoryMap`. */
  lemma FreshCategoriesContents()
    ensures forall e :: e in CategoryMap ==> e.0 in FreshCategories() && FreshCategories()[e.0] == e.1
    ensures forall s :: s in FreshCategories() ==> exists e :: e in CategoryMap && e.0 == s
  {
    SeedCategoriesAddsMissing(map[], CategoryMap);
    SeedCategoriesKeepsExisting(map[], CategoryMap);
  }

  lemma FreshCategoriesCoverBuiltIn()
    ensures "voda" in FreshCategories() && "elektrina" in FreshCategories()
    ensures "topeni" in FreshCategories() && "dvere_okna" in FreshCategories()
  {
    var cats := FreshCategories();
    FreshCategoriesContents();
    var voda, elektrina, topeni, dvereOkna := CategoryMap[0], CategoryMap[1], CategoryMap[2], CategoryMap[3];
    assert voda in CategoryMap && voda.0 == "voda";
    assert elektrina in CategoryMap && elektrina.0 == "elektrina";
    assert topeni in CategoryMap && topeni.0 == "topeni";
    assert dvereOkna in CategoryMap && dvereOkna.0 == "dvere_okna";
  }

  /** When every entry's category exists, every entry is seeded. */
  lemma {:induction false} SeededAllKnown(categories: map<string, CategoryRow>, entries: RepairMap)
    requires forall e :: e in entries ==> CategoryKnown(categories, e.1)
    ensures Seeded(categories, entries) == entries
  {
    if entries != [] {
      var init := entries[..|entries| - 1];
      assert forall e :: e in init ==> e in entries;
      SeededAllKnown(categories, init);
      assert entries == init + [entries[|entries| - 1]];
    }
  }

  /** A catalogue of repairs with one issue each lists as many issues as repairs. */
  lemma {:induction false} IssueTotalOfSingles(entries: RepairMap)
    requires forall e :: e in entries ==> |ObjOr(e.1.issues, [])| == 1
    ensures IssueTotal(entries) == |entries|
  {
    if entries != [] {
      var init := entries[..|entries| - 1];
      assert forall e :: e in init ==> e in entries;
      IssueTotalOfSingles(init);
    }
  }

  /** Each built-in repair has one issue and a category of `categoryMap`. */
  lemma BuiltInShape()
    ensures forall e :: e in BuiltInRepairs ==>
      && |ObjOr(e.1.issues, [])| == 1
      && e.1.category.Some?
      && e.1.category.value in {"voda", "elektrina", "topeni", "dvere_okna"}
  {
    assert |ObjOr(Kohoutek.issues, [])| == 1 && Kohoutek.category == Some("voda");
    assert |ObjOr(Toaleta.issues, [])| == 1 && Toaleta.category == Some("voda");
    assert |ObjOr(Dvere.issues, [])| == 1 && Dvere.category == Some("dvere_okna");
    assert |ObjOr(Radiator.issues, [])| == 1 && Radiator.category == Some("topeni");
    assert |ObjOr(Zasuvka.issues, [])| == 1 && Zasuvka.category == Some("elektrina");
  }

  /** Every built-in repair belongs to a seeded category, so a fresh database gets all five repairs and five issues. */
  lemma BuiltInFullySeeded(t: Tables)
    requires t.categories == FreshCategories()
    ensures SeedRepairs(SeedState(t, 0, 0), BuiltInRepairs).repairCount == 5
    ensures SeedRepairs(SeedState(t, 0, 0), BuiltInRepairs).issueCount == 5
  {
    var cats := FreshCategories();
    FreshCategoriesCoverBuiltIn();
    BuiltInShape();
    assert forall e :: e in BuiltInRepairs ==> CategoryKnown(cats, e.1);
    SeededAllKnown(cats, BuiltInRepairs);
    IssueTotalOfSingles(BuiltInRepairs);
    SeedRepairsCounts(SeedState(t, 0, 0), BuiltInRepairs);
  }

  // ---------------------------------------------------------------------------
  // The loops

  /** The category loop. */
  method SeedCategoryTable(db: Database)
    modifies db`categories
    ensures db.categories == SeedCategories(old(db.categories), CategoryMap)
  {
    var i := 0;
    while i < |CategoryMap|
      invariant 0 <= i <= |CategoryMap|
      invariant db.categories == SeedCategories(old(db.categories), CategoryMap[..i])
    {
      var (slug, category) := CategoryMap[i];
      assert CategoryMap[..i + 1][..i] == CategoryMap[..i];
      db.categories := UpsertCategory(db.categories, slug, category);
      i := i + 1;
    }
    assert CategoryMap[..i] == CategoryMap;
  }

  /** `step.deleteMany` for the issue, then one `step.create` per step. */
  method ReplaceSteps(db: Database, k: IssueKey, steps: seq<StepRecord>)
    modifies db`steps
    ensures db.steps == old(db.steps)[k := StepRows(steps)]
  {
    db.steps := db.steps[k := []];
    var i := 0;
    while i < |steps|
      invariant 0 <= i <= |steps|
      invariant db.steps == old(db.steps)[k := StepRows(steps[..i])]
    {
      assert StepRows(steps[..i + 1]) == StepRows(steps[..i]) + [StepRowFrom(steps[i])];
      db.steps := db.steps[k := db.steps[k] + [StepRowFrom(steps[i])]];
      i := i + 1;
    }
    assert steps[..i] == steps;
  }

  /** `issueTool.deleteMany` for the issue, then one `issueTool.create` per tool. */
  method ReplaceTools(db: Database, k: IssueKey, tools: seq<string>)
    modifies db`tools
    ensures db.tools == old(db.tools)[k := tools]
  {
    db.tools := db.tools[k := []];
    var i := 0;
    while i < |tools|
      invariant 0 <= i <= |tools|
      invariant db.tools == old(db.tools)[k := tools[..i]]
    {
      assert tools[..i + 1] == tools[..i] + [tools[i]];
      db.tools := db.tools[k := db.tools[k] + [tools[i]]];
      i := i + 1;
    }
    assert tools[..i] == tools;
  }

  /** The issue loop of one repair; `issueCount` goes up once per issue. */
  method SeedIssueRows(db: Database, repairId: string, issues: seq<IssueRecord>, countBefore: nat)
    returns (issueCount: nat)
    modifies db`issues, db`steps, db`tools
    ensures Snapshot(db) == SeedIssues(old(Snapshot(db)), repairId, issues)
    ensures issueCount == countBefore + |issues|
  {
    issueCount := countBefore;
    var i := 0;
    while i < |issues|
      invariant 0 <= i <= |issues|
      invariant Snapshot(db) == SeedIssues(old(Snapshot(db)), repairId, issues[..i])
      invariant issueCount == countBefore + i
    {
      var issue := issues[i];
      assert issues[..i + 1][..i] == issues[..i];
      var k := (repairId, issue.id);
      db.issues := db.issues[k := IssueRowFrom(if k in db.issues then Some(db.issues[k]) else None, issue)];
      issueCount := issueCount + 1;
      ReplaceSteps(db, k, ObjOr(issue.steps, []));
      ReplaceTools(db, k, ObjOr(issue.tools, []));
      i := i + 1;
    }
    assert issues[..i] == issues;
  }

  /** The repair loop, with its two counters. */
  method SeedRepairTable(db: Database, entries: RepairMap) returns (repairCount: nat, issueCount: nat)
    modifies db`repairs, db`issues, db`steps, db`tools
    ensures SeedState(Snapshot(db), repairCount, issueCount) == SeedRepairs(SeedState(old(Snapshot(db)), 0, 0), entries)
  {
    repairCount, issueCount := 0, 0;
    var i := 0;
    while i < |entries|
      invariant 0 <= i <= |entries|
      invariant db.categories == old(db.categories)
      invariant SeedState(Snapshot(db), repairCount, issueCount) == SeedRepairs(SeedState(old(Snapshot(db)), 0, 0), entries[..i])
    {
      var (id, repair) := entries[i];
      assert entries[..i + 1][..i] == entries[..i];
      if CategoryKnown(db.categories, repair) {
        db.repairs := UpsertRepair(db.repairs, id, repair, repair.category.value);
        repairCount := repairCount + 1;
        issueCount := SeedIssueRows(db, id, ObjOr(repair.issues, []), issueCount);
      }
      i := i + 1;
    }
    assert entries[..i] == entries;
  }

  const DemoEmail := "demo@fixo.cz"

  /** The demo user the script creates when no user has its address. */
  const DemoUser := UserRow(Some(DemoEmail), Some("Demo Uživatel"), None, "FREE", 0, 3, None)

  /** `main()`: categories, repairs with their issues, then the demo user. */
  method RunSeed(db: Database, file: RepairsFile, demoId: string)
    returns (repairCount: nat, issueCount: nat)
    requires demoId !in db.users
    modifies db`categories, db`repairs, db`issues, db`steps, db`tools, db`users
    ensures var start := old(Snapshot(db)).(categories := SeedCategories(old(db.categories), CategoryMap));
      SeedState(Snapshot(db), repairCount, issueCount) == SeedRepairs(SeedState(start, 0, 0), EffectiveRepairs(file))
    ensures HasEmail(old(db.users), DemoEmail) ==> db.users == old(db.users)
    ensures !HasEmail(old(db.users), DemoEmail) ==> db.users == old(db.users)[demoId := DemoUser]
  {
    SeedCategoryTable(db);
    repairCount, issueCount := SeedRepairTable(db, EffectiveRepairs(file));
    var _ := UpsertUserByEmail(db, DemoEmail, DemoUser, demoId);
  }
}
