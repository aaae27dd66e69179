/**
 * The skills page: the lookup that turns a skill's `text-…` colour token into
 * the `bg-…` token of its level bar, and the static table of skill categories
 * whose invariants make that lookup and the level bars well behaved.
 */
module Skills {
  import opened Wrappers

  /** The colour object literal of the lookup, one (key, value) pair per line, in source order. */
  const ColorTable: seq<(string, string)> := [
    ("text-[#61DAFB]", "bg-[#61DAFB]"),
    ("text-white", "bg-white"),
    ("text-[#3178C6]", "bg-[#3178C6]"),
    ("text-[#F7DF1E]", "bg-[#F7DF1E]"),
    ("text-[#38BDF8]", "bg-[#38BDF8]"),
    ("text-[#339933]", "bg-[#339933]"),
    ("text-[#6DB33F]", "bg-[#6DB33F]"),
    ("text-[#FF2D20]", "bg-[#FF2D20]"),
    ("text-[#47A248]", "bg-[#47A248]"),
    ("text-[#4169E1]", "bg-[#4169E1]"),
    ("text-[#4479A1]", "bg-[#4479A1]"),
    ("text-[#F05032]", "bg-[#F05032]"),
    ("text-[#2496ED]", "bg-[#2496ED]"),
    ("text-[#F24E1E]", "bg-[#F24E1E]"),
    ("text-[#00599C]", "bg-[#00599C]"),
    ("text-[#3776AB]", "bg-[#3776AB]"),
    ("text-[#007396]", "bg-[#007396]"),
    ("text-[#777BB4]", "bg-[#777BB4]"),
    ("text-[#239120]", "bg-[#239120]"),
    ("text-[#A8B9CC]", "bg-[#A8B9CC]")
  ]

  /** The class used when the table has no (truthy) entry for a token. */
  const Fallback: string := "bg-blue-500"

  /**
   * Property names every JavaScript object literal inherits from
   * Object.prototype. Indexing the colour object with one of them yields a
   * truthy function (or the prototype itself), not the fallback; the model
   * leaves these names outside the lookup's domain.
   */
  const PrototypeNames: set<string> := {
    "constructor", "hasOwnProperty", "isPrototypeOf", "propertyIsEnumerable",
    "toLocaleString", "toString", "valueOf", "__proto__",
    "__defineGetter__", "__defineSetter__", "__lookupGetter__", "__lookupSetter__"
  }

  /** `t` has the key `key` somewhere. */
  predicate HasKey(t: seq<(string, string)>, key: string) {
    exists i :: 0 <= i < |t| && t[i].0 == key
  }

  /**
   * The position of the definition of `key` that property access on an object
   * literal built from `t` sees: the last one, or -1 when there is none.
   */
  function LastIndexOf(t: seq<(string, string)>, key: string): (k: int)
    ensures -1 <= k < |t|
    ensures k >= 0 ==> t[k].0 == key
    ensures forall j :: k < j < |t| ==> t[j].0 != key
  {
    if t == [] then -1
    else if t[|t| - 1].0 == key then |t| - 1
    else LastIndexOf(t[..|t| - 1], key)
  }

  /** Property access on an object literal built from `t`. */
  function Lookup(t: seq<(string, string)>, key: string): (r: Option<string>)
    ensures r.None? <==> !HasKey(t, key)
    ensures r.Some? ==> (key, r.value) in t
  {
    var k := LastIndexOf(t, key);
    if k < 0 then None else Some(t[k].1)
  }

  /** With distinct keys, the lookup finds a key's only value, and nothing for a missing key. */
  lemma LookupDistinct(t: seq<(string, string)>, key: string)
    requires KeysDistinct(t)
    ensures !HasKey(t, key) ==> Lookup(t, key) == None
    ensures forall i :: 0 <= i < |t| && t[i].0 == key ==> Lookup(t, key) == Some(t[i].1)
  {
  }

  /** Every key of `t` is "text-S" and its value is "bg-S", with the same suffix S. */
  predicate SameSuffix(t: seq<(string, string)>) {
    forall i :: 0 <= i < |t| ==> SuffixPair(t[i])
  }

  /** No key of `t` occurs twice. */
  predicate KeysDistinct(t: seq<(string, string)>) {
    forall i, j :: 0 <= i < j < |t| ==> t[i].0 != t[j].0
  }

  /** `p` is ("text-S", "bg-S") for some suffix S. */
  predicate SuffixPair(p: (string, string)) {
    |p.0| >= 5 && p.0[..5] == "text-" && p.1 == "bg-" + p.0[5..]
  }

  lemma ColorTableSameSuffixFrom0()
    ensures forall i :: 0 <= i < 5 ==> SuffixPair(ColorTable[i])
  {
    assert SuffixPair(ColorTable[0]);
    assert SuffixPair(ColorTable[1]);
    assert SuffixPair(ColorTable[2]);
    assert SuffixPair(ColorTable[3]);
    assert SuffixPair(ColorTable[4]);
  }

  lemma ColorTableSameSuffixFrom5()
    ensures forall i :: 5 <= i < 10 ==> SuffixPair(ColorTable[i])
  {
    assert SuffixPair(ColorTable[5]);
    assert SuffixPair(ColorTable[6]);
    assert SuffixPair(ColorTable[7]);
    assert SuffixPair(ColorTable[8]);
    assert SuffixPair(ColorTable[9]);
  }

  lemma ColorTableSameSuffixFrom10()
    ensures forall i :: 10 <= i < 15 ==> SuffixPair(ColorTable[i])
  {
    assert SuffixPair(ColorTable[10]);
    assert SuffixPair(ColorTable[11]);
    assert SuffixPair(ColorTable[12]);
    assert SuffixPair(ColorTable[13]);
    assert SuffixPair(ColorTable[14]);
  }

  lemma ColorTableSameSuffixFrom15()
    ensures forall i :: 15 <= i < 20 ==> SuffixPair(ColorTable[i])
  {
    assert SuffixPair(ColorTable[15]);
    assert SuffixPair(ColorTable[16]);
    assert SuffixPair(ColorTable[17]);
    assert SuffixPair(ColorTable[18]);
    assert SuffixPair(ColorTable[19]);
  }

  lemma ColorTableSameSuffix()
    ensures SameSuffix(ColorTable)
  {
    ColorTableSameSuffixFrom0();
    ColorTableSameSuffixFrom5();
    ColorTableSameSuffixFrom10();
    ColorTableSameSuffixFrom15();
  }

  lemma ColorTableKeysDistinctLow()
    ensures forall i, j :: 0 <= i < j < 10 ==> ColorTable[i].0 != ColorTable[j].0
  {
  }

  lemma ColorTableKeysDistinctHigh()
    ensures forall i, j :: 10 <= i < j < 20 ==> ColorTable[i].0 != ColorTable[j].0
  {
  }

  lemma ColorTableKeysDistinctAcross(lo: nat)
    requires lo == 0 || lo == 5
    ensures forall i, j :: lo <= i < lo + 5 && 10 <= j < 20 ==> ColorTable[i].0 != ColorTable[j].0
  {
  }

  lemma ColorTableKeysDistinct()
    ensures KeysDistinct(ColorTable)
  {
    ColorTableKeysDistinctLow();
    ColorTableKeysDistinctHigh();
    ColorTableKeysDistinctAcross(0);
    ColorTableKeysDistinctAcross(5);
  }

  /**
   * `colorMap[textColor] || "bg-blue-500"`: the table's value when it has one
   * that is not the empty string (JavaScript's `||` treats "" as false),
   * otherwise the fallback.
   */
  function GetBgColorFromTextColor(textColor: string): (r: string)
    requires textColor !in PrototypeNames
    ensures |r| > 3 && r[..3] == "bg-"
    ensures HasKey(ColorTable, textColor) ==> |textColor| >= 5 && r == "bg-" + textColor[5..]
    ensures !HasKey(ColorTable, textColor) ==> r == Fallback
  {
    ColorTableSameSuffix();
    match Lookup(ColorTable, textColor)
    case None => Fallback
    case Some(v) => if v == "" then Fallback else v
  }

  /** One skill card: its display name, icon colour token and proficiency level. */
  datatype Skill = Skill(name: string, color: string, level: int)

  /** One titled group of skill cards. */
  datatype Category = Category(title: string, skills: seq<Skill>)

  /** The static skill table of the page, icons left out. */
  const SkillCategories: seq<Category> := [
    Category("Frontend", [
      Skill("React", "text-[#61DAFB]", 95),
      Skill("Next.js", "text-white", 90),
      Skill("TypeScript", "text-[#3178C6]", 88),
      Skill("JavaScript", "text-[#F7DF1E]", 92),
      Skill("Tailwind", "text-[#38BDF8]", 94),
      Skill("Framer Motion", "text-white", 89)
    ]),
    Category("Backend", [
      Skill("Node.js", "text-[#339933]", 90),
      Skill("Express", "text-white", 88),
      Skill("Spring Boot", "text-[#6DB33F]", 85),
      Skill("Laravel", "text-[#FF2D20]", 82)
    ]),
    Category("Programming Languages", [
      Skill("C++", "text-[#00599C]", 92),
      Skill("Python", "text-[#3776AB]", 90),
      Skill("Java", "text-[#007396]", 88),
      Skill("PHP", "text-[#777BB4]", 85),
      Skill("C#", "text-[#239120]", 80),
      Skill("C", "text-[#A8B9CC]", 75)
    ]),
    Category("Database", [
      Skill("MongoDB", "text-[#47A248]", 86),
      Skill("PostgreSQL", "text-[#4169E1]", 85),
      Skill("MySQL", "text-[#4479A1]", 88)
    ]),
    Category("Tools & DevOps", [
      Skill("Git", "text-[#F05032]", 92),
      Skill("GitHub", "text-white", 90),
      Skill("Docker", "text-[#2496ED]", 78),
      Skill("Figma", "text-[#F24E1E]", 75)
    ])
  ]

  /** Every level is a percentage, since it is rendered as a bar width and a "%" label. */
  predicate LevelsArePercentages(cats: seq<Category>) {
    forall c, k :: 0 <= c < |cats| && 0 <= k < |cats[c].skills| ==> 0 <= cats[c].skills[k].level <= 100
  }

  /** Category titles are distinct; they are the keys of the category list. */
  predicate TitlesDistinct(cats: seq<Category>) {
    forall i, j :: 0 <= i < j < |cats| ==> cats[i].title != cats[j].title
  }

  /** Within one category, skill names are distinct; they are the keys of its card list. */
  predicate NamesDistinct(skills: seq<Skill>) {
    forall i, j :: 0 <= i < j < |skills| ==> skills[i].name != skills[j].name
  }

  /** Every skill colour is a key of the colour table. */
  predicate ColorsInTable(cats: seq<Category>) {
    forall c, k :: 0 <= c < |cats| && 0 <= k < |cats[c].skills| ==> HasKey(ColorTable, cats[c].skills[k].color)
  }

  lemma ColorsInTableAt0()
    ensures forall k :: 0 <= k < |SkillCategories[0].skills| ==> HasKey(ColorTable, SkillCategories[0].skills[k].color)
  {
    assert SkillCategories[0].skills[0].color == ColorTable[0].0;
    assert SkillCategories[0].skills[1].color == ColorTable[1].0;
    assert SkillCategories[0].skills[2].color == ColorTable[2].0;
    assert SkillCategories[0].skills[3].color == ColorTable[3].0;
    assert SkillCategories[0].skills[4].color == ColorTable[4].0;
    assert SkillCategories[0].skills[5].color == ColorTable[1].0;
  }

  lemma ColorsInTableAt1()
    ensures forall k :: 0 <= k < |SkillCategories[1].skills| ==> HasKey(ColorTable, SkillCategories[1].skills[k].color)
  {
    assert SkillCategories[1].skills[0].color == ColorTable[5].0;
    assert SkillCategories[1].skills[1].color == ColorTable[1].0;
    assert SkillCategories[1].skills[2].color == ColorTable[6].0;
    assert SkillCategories[1].skills[3].color == ColorTable[7].0;
  }

  lemma ColorsInTableAt2()
    ensures forall k :: 0 <= k < |SkillCategories[2].skills| ==> HasKey(ColorTable, SkillCategories[2].skills[k].color)
  {
    assert SkillCategories[2].skills[0].color == ColorTable[14].0;
    assert SkillCategories[2].skills[1].color == ColorTable[15].0;
    assert SkillCategories[2].skills[2].color == ColorTable[16].0;
    assert SkillCategories[2].skills[3].color == ColorTable[17].0;
    assert SkillCategories[2].skills[4].color == ColorTable[18].0;
    assert SkillCategories[2].skills[5].color == ColorTable[19].0;
  }

  lemma ColorsInTableAt3()
    ensures forall k :: 0 <= k < |SkillCategories[3].skills| ==> HasKey(ColorTable, SkillCategories[3].skills[k].color)
  {
    assert SkillCategories[3].skills[0].color == ColorTable[8].0;
    assert SkillCategories[3].skills[1].color == ColorTable[9].0;
    assert SkillCategories[3].skills[2].color == ColorTable[10].0;
  }

  lemma ColorsInTableAt4()
    ensures forall k :: 0 <= k < |SkillCategories[4].skills| ==> HasKey(ColorTable, SkillCategories[4].skills[k].color)
  {
    assert SkillCategories[4].skills[0].color == ColorTable[11].0;
    assert SkillCategories[4].skills[1].color == ColorTable[1].0;
    assert SkillCategories[4].skills[2].color == ColorTable[12].0;
    assert SkillCategories[4].skills[3].color == ColorTable[13].0;
  }

  lemma SkillLevelsArePercentages()
    ensures LevelsArePercentages(SkillCategories)
  {
  }

  lemma CategoryTitlesDistinct()
    ensures TitlesDistinct(SkillCategories)
  {
  }

  lemma SkillNamesDistinct()
    ensures forall c :: 0 <= c < |SkillCategories| ==> NamesDistinct(SkillCategories[c].skills)
  {
  }

  lemma SkillColorsInTable()
    ensures ColorsInTable(SkillCategories)
  {
    ColorsInTableAt0();
    ColorsInTableAt1();
    ColorsInTableAt2();
    ColorsInTableAt3();
    ColorsInTableAt4();
  }

  /** A `text-…` token is never one of the inherited property names. */
  lemma TextTokenNotPrototypeName(key: string)
    requires |key| >= 5 && key[..5] == "text-"
    ensures key !in PrototypeNames
  {
    assert key[4] == key[..5][4] == '-';
  }

  /** The fallback class is not a value of the table, so a hit is always distinguishable from a miss. */
  lemma FallbackNotInTable()
    ensures forall i :: 0 <= i < |ColorTable| ==> ColorTable[i].1 != Fallback
  {
    ColorTableSameSuffix();
  }

  /** No level bar of the page falls back to the default colour. */
  lemma NoSkillBarUsesFallback()
    ensures forall c, k :: 0 <= c < |SkillCategories| && 0 <= k < |SkillCategories[c].skills| ==>
      var color := SkillCategories[c].skills[k].color;
      color !in PrototypeNames && GetBgColorFromTextColor(color) != Fallback
  {
    SkillColorsInTable();
    ColorTableSameSuffix();
    FallbackNotInTable();
    forall c, k | 0 <= c < |SkillCategories| && 0 <= k < |SkillCategories[c].skills|
      ensures var color := SkillCategories[c].skills[k].color;
        color !in PrototypeNames && GetBgColorFromTextColor(color) != Fallback
    {
      var color := SkillCategories[c].skills[k].color;
      var i :| 0 <= i < |ColorTable| && ColorTable[i].0 == color;
      assert SuffixPair(ColorTable[i]);
      TextTokenNotPrototypeName(color);
      assert GetBgColorFromTextColor(color) == ColorTable[i].1;
    }
  }
}
