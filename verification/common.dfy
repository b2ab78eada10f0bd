/** The classifier's output type: whether the report is an eligible primary
    cancer excision, the organ category, and the free-text organ for "others". */
module Common {
  import opened Values

  /** The organ literal the classifier may answer: ten organs, or "others". */
  datatype Category =
    | Stomach | Colorectal | Breast | Esophagus | Lung | Prostate
    | Thyroid | Pancreas | Cervix | Liver | Others

  /** The literal text of each category. */
  function CategoryName(c: Category): string {
    match c
    case Stomach => "stomach"
    case Colorectal => "colorectal"
    case Breast => "breast"
    case Esophagus => "esophagus"
    case Lung => "lung"
    case Prostate => "prostate"
    case Thyroid => "thyroid"
    case Pancreas => "pancreas"
    case Cervix => "cervix"
    case Liver => "liver"
    case Others => "others"
  }

  /** Reading the literal back: the category a text names, if any. This is
      the check the signature's `Literal[...] | None` type puts on the
      classifier's answer. */
  function ParseCategory(s: string): Option<Category> {
    if s == "stomach" then Some(Stomach)
    else if s == "colorectal" then Some(Colorectal)
    else if s == "breast" then Some(Breast)
    else if s == "esophagus" then Some(Esophagus)
    else if s == "lung" then Some(Lung)
    else if s == "prostate" then Some(Prostate)
    else if s == "thyroid" then Some(Thyroid)
    else if s == "pancreas" then Some(Pancreas)
    else if s == "cervix" then Some(Cervix)
    else if s == "liver" then Some(Liver)
    else if s == "others" then Some(Others)
    else None
  }

  /** Every category's text reads back as that category. */
  lemma ParseName(c: Category)
    ensures ParseCategory(CategoryName(c)) == Some(c)
  {
    match c
    case Stomach =>
    case Colorectal =>
    case Breast =>
      assert "breast" != "stomach" && "breast" != "colorectal";
    case Esophagus =>
    case Lung =>
    case Prostate =>
    case Thyroid =>
      assert "thyroid"[0] != "stomach"[0];
    case Pancreas =>
      assert "pancreas"[1] != "prostate"[1];
    case Cervix =>
      assert "cervix"[0] != "breast"[0];
    case Liver =>
    case Others =>
      assert "others"[0] != "breast"[0] && "others"[0] != "cervix"[0];
  }

  /** Only the eleven texts of the literal read as a category, so the names
      are pairwise different. */
  lemma NameOfParse(s: string, c: Category)
    requires ParseCategory(s) == Some(c)
    ensures CategoryName(c) == s
  {
  }

  /** The three output fields of the classification signature. Nothing
      forces `othersDescription` to be present exactly when the category is
      `Others`: the backend fills the fields and they are used as given. */
  datatype Classification = Classification(
    cancerExcisionReport: bool,
    cancerCategory: Option<Category>,
    othersDescription: Option<string>)
}
