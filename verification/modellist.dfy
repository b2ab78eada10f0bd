/** The registry: for each organ category, the ordered list of extractor
    signatures to run. The order is both the execution order and the merge
    precedence (a later extractor's keys overwrite an earlier one's). The
    table is a dict literal, kept here as its pairs in literal order. */
module ModelList {
  import opened Common
  import opened Values

  const OrganModels: seq<(string, seq<string>)> := [
    ("lung", ["LungCancerNonnested", "LungCancerStaging", "LungCancerMargins", "LungCancerLN", "LungCancerBiomarkers", "LungCancerOthernested"]),
    ("colorectal", ["ColonCancerNonnested", "ColonCancerStaging", "ColonCancerMargins", "ColonCancerLN", "ColonCancerBiomarkers"]),
    ("prostate", ["ProstateCancerNonnested", "ProstateCancerStaging", "ProstateCancerMargins", "ProstateCancerLN"]),
    ("esophagus", ["EsophagusCancerNonnested", "EsophagusCancerStaging", "EsophagusCancerMargins", "EsophagusCancerLN"]),
    ("breast", ["BreastCancerNonnested", "DCIS", "BreastCancerGrading", "BreastCancerStaging", "BreastCancerMargins", "BreastCancerLN", "BreastCancerBiomarkers"]),
    ("pancreas", ["PancreasCancerNonnested", "PancreasCancerStaging", "PancreasCancerMargins", "PancreasCancerLN"]),
    ("thyroid", ["ThyroidCancerNonnested", "ThyroidCancerStaging", "ThyroidCancerMargins", "ThyroidCancerLN"]),
    ("cervix", ["CervixCancerNonnested", "CervixCancerStaging", "CervixCancerMargins", "CervixCancerLN"]),
    ("liver", ["LiverCancerNonnested", "LiverCancerExtent", "LiverCancerVascularInvasion",
               "LiverCancerStaging", "LiverCancerMargins", "LiverCancerLN"]),
    ("stomach", ["StomachCancerNonnested", "StomachCancerStaging", "StomachCancerMargins", "StomachCancerLN"])
  ]

  predicate EndsWith(s: string, suffix: string) {
    |suffix| <= |s| && s[|s| - |suffix|..] == suffix
  }

  function FindFrom(table: seq<(string, seq<string>)>, category: string): (r: Option<seq<string>>)
    ensures r.None? <==> forall i | 0 <= i < |table| :: table[i].0 != category
    ensures r.Some? ==> exists i | 0 <= i < |table| :: table[i] == (category, r.value)
  {
    if table == [] then None
    else if table[0].0 == category then Some(table[0].1)
    else
      var r := FindFrom(table[1..], category);
      assert forall i | 1 <= i < |table| :: table[i] == table[1..][i - 1];
      r
  }

  /** `organmodels.get(category, [])`. */
  function Get(category: string): seq<string> {
    match FindFrom(OrganModels, category)
    case Some(ids) => ids
    case None => []
  }

  /** The organ each row of the table is for, in literal order. */
  const OrganOrder: seq<Category> :=
    [Lung, Colorectal, Prostate, Esophagus, Breast, Pancreas, Thyroid, Cervix, Liver, Stomach]

  /** Row `OrganIndex(c)` of the table is organ `c`'s. */
  function OrganIndex(c: Category): (i: nat)
    requires c != Others
    ensures i < |OrganOrder| && OrganOrder[i] == c
  {
    match c
    case Lung => 0
    case Colorectal => 1
    case Prostate => 2
    case Esophagus => 3
    case Breast => 4
    case Pancreas => 5
    case Thyroid => 6
    case Cervix => 7
    case Liver => 8
    case Stomach => 9
  }

  /** Each row's key is its organ's category name, and its list is non-empty. */
  lemma KeysAreNames()
    ensures |OrganOrder| == |OrganModels|
    ensures forall i | 0 <= i < |OrganModels| ::
      OrganOrder[i] != Others && OrganModels[i].0 == CategoryName(OrganOrder[i]) && OrganModels[i].1 != []
  {
  }

  lemma OrderDistinct()
    ensures forall i | 0 <= i < |OrganOrder| :: OrganOrder[i] != Others && OrganIndex(OrganOrder[i]) == i
  {
  }

  /** No organ key is listed twice. */
  lemma KeysDistinct()
    ensures forall i, j | 0 <= i < j < |OrganModels| :: OrganModels[i].0 != OrganModels[j].0
  {
    KeysAreNames();
    OrderDistinct();
    forall i, j | 0 <= i < j < |OrganModels| ensures OrganModels[i].0 != OrganModels[j].0 {
      ParseName(OrganOrder[i]);
      ParseName(OrganOrder[j]);
    }
  }

  /** So `Get` finds each organ's own list. */
  lemma {:induction false} GetAt(i: nat)
    requires i < |OrganModels|
    ensures Get(OrganModels[i].0) == OrganModels[i].1
  {
    var r := FindFrom(OrganModels, OrganModels[i].0);
    assert r.Some?;
    var j :| 0 <= j < |OrganModels| && OrganModels[j] == (OrganModels[i].0, r.value);
    KeysDistinct();
    assert j == i;
  }

  lemma OthersUnmapped()
    ensures Get("others") == []
  {
    KeysAreNames();
    forall i | 0 <= i < |OrganModels| ensures OrganModels[i].0 != "others" {
      ParseName(OrganOrder[i]);
      ParseName(Others);
    }
  }

  /** The table has exactly the ten organ keys of the category literal, each
      once: every category except "others" is mapped, to a non-empty list. */
  lemma RegistryCoversOrgans(c: Category)
    ensures Get(CategoryName(c)) != [] <==> c != Others
  {
    if c == Others {
      OthersUnmapped();
    } else {
      KeysAreNames();
      GetAt(OrganIndex(c));
    }
  }

  /** Every list is non-empty and starts with the organ's non-nested
      extractor: its name ends in "Nonnested" and begins with the organ's tag. */
  lemma RegistryNonnestedFirst()
    ensures forall i | 0 <= i < |OrganModels| ::
      |OrganModels[i].1| > 0 && EndsWith(OrganModels[i].1[0], "Nonnested")
    ensures forall i | 0 <= i < |OrganModels| ::
      |OrganModels[i].1| > 0 && |OrganModels[i].1[0]| >= 2 && Tag(OrganModels[i].1[0]) in OrganTags[i]
  {
    TagsOfLists();
  }

  /** No entry after the first is a non-nested extractor. */
  lemma RegistryNonnestedOnlyFirst()
    ensures forall i, a | 0 <= i < |OrganModels| && 0 < a < |OrganModels[i].1| ::
      !EndsWith(OrganModels[i].1[a], "Nonnested")
  {
  }

  predicate HasCoreRun(ids: seq<string>) {
    exists s :: 0 < s && s + 2 < |ids| &&
      EndsWith(ids[s], "Staging") && EndsWith(ids[s + 1], "Margins") && EndsWith(ids[s + 2], "LN")
  }

  /** Where each organ's Staging extractor sits: after the breast's DCIS and
      grading extractors and after the liver's extent and vascular-invasion
      extractors, and right after the non-nested one elsewhere. */
  function CoreStart(i: nat): nat {
    if i == 4 || i == 8 then 3 else 1
  }

  lemma StagingAt()
    ensures forall i | 0 <= i < |OrganModels| ::
      CoreStart(i) + 2 < |OrganModels[i].1| && EndsWith(OrganModels[i].1[CoreStart(i)], "Staging")
  {
  }

  lemma MarginsAt()
    ensures forall i | 0 <= i < |OrganModels| ::
      CoreStart(i) + 2 < |OrganModels[i].1| && EndsWith(OrganModels[i].1[CoreStart(i) + 1], "Margins")
  {
  }

  lemma LymphNodesAt()
    ensures forall i | 0 <= i < |OrganModels| ::
      CoreStart(i) + 2 < |OrganModels[i].1| && EndsWith(OrganModels[i].1[CoreStart(i) + 2], "LN")
  {
  }

  lemma CoreRunAt(ids: seq<string>, s: nat)
    requires 0 < s && s + 2 < |ids|
    requires EndsWith(ids[s], "Staging") && EndsWith(ids[s + 1], "Margins") && EndsWith(ids[s + 2], "LN")
    ensures HasCoreRun(ids)
  {
  }

  /** Every list runs a Staging, a Margins and an LN extractor, in that
      order and one after the other, after the non-nested one. */
  lemma RegistryCoreExtractors()
    ensures forall i | 0 <= i < |OrganModels| :: HasCoreRun(OrganModels[i].1)
  {
    StagingAt();
    MarginsAt();
    LymphNodesAt();
    forall i | 0 <= i < |OrganModels| ensures HasCoreRun(OrganModels[i].1) {
      CoreRunAt(OrganModels[i].1, CoreStart(i));
    }
  }

  /** The first two letters of an identifier name its organ ("DC" being the
      breast's in-situ extractor). */
  const OrganTags: seq<set<(char, char)>> := [
    {('L', 'u')}, {('C', 'o')}, {('P', 'r')}, {('E', 's')}, {('B', 'r'), ('D', 'C')},
    {('P', 'a')}, {('T', 'h')}, {('C', 'e')}, {('L', 'i')}, {('S', 't')}]

  function Tag(id: string): (char, char)
    requires |id| >= 2
  {
    (id[0], id[1])
  }

  lemma TagsOfLists()
    ensures forall i, a | 0 <= i < |OrganModels| && 0 <= a < |OrganModels[i].1| ::
      |OrganModels[i].1[a]| >= 2 && Tag(OrganModels[i].1[a]) in OrganTags[i]
  {
  }

  lemma TagsDisjoint()
    ensures |OrganTags| == |OrganModels|
    ensures forall i, j | 0 <= i < j < |OrganTags| :: OrganTags[i] !! OrganTags[j]
  {
  }

  lemma IdsDistinctWithin()
    ensures forall i, a, b | 0 <= i < |OrganModels| && 0 <= a < b < |OrganModels[i].1| ::
      OrganModels[i].1[a] != OrganModels[i].1[b]
  {
  }

  /** No extractor identifier appears twice, within a list or across lists. */
  lemma RegistryIdsDistinct()
    ensures forall i, j, a, b |
      0 <= i < |OrganModels| && 0 <= j < |OrganModels| &&
      0 <= a < |OrganModels[i].1| && 0 <= b < |OrganModels[j].1| &&
      (i, a) != (j, b) :: OrganModels[i].1[a] != OrganModels[j].1[b]
  {
    TagsOfLists();
    TagsDisjoint();
    IdsDistinctWithin();
  }
}
