/** The waste categories every item, reminder and disposal rule is classified by. */
module Categories {
  import opened Wrappers

  datatype WasteCategory = Dry | Wet | Medical | Hazardous | Recyclable | EWaste

  /** The six categories in declaration order. */
  const AllCategories: seq<WasteCategory> := [Dry, Wet, Medical, Hazardous, Recyclable, EWaste]

  /** The string a category is stored and compared as. */
  function Key(c: WasteCategory): string {
    match c
    case Dry => "dry"
    case Wet => "wet"
    case Medical => "medical"
    case Hazardous => "hazardous"
    case Recyclable => "recyclable"
    case EWaste => "e-waste"
  }

  /** The category whose key is `s`, if any. */
  function Parse(s: string): (r: Option<WasteCategory>)
    ensures r.Some? ==> Key(r.value) == s
    ensures r.None? ==> forall c :: Key(c) != s
  {
    if s == "dry" then Some(Dry)
    else if s == "wet" then Some(Wet)
    else if s == "medical" then Some(Medical)
    else if s == "hazardous" then Some(Hazardous)
    else if s == "recyclable" then Some(Recyclable)
    else if s == "e-waste" then Some(EWaste)
    else None
  }

  lemma ParseKey(c: WasteCategory)
    ensures Parse(Key(c)) == Some(c)
  {
  }

  /** Distinct categories have distinct keys. */
  lemma KeyInjective(c: WasteCategory, d: WasteCategory)
    requires Key(c) == Key(d)
    ensures c == d
  {
    ParseKey(c);
    ParseKey(d);
  }

  lemma AllCategoriesComplete(c: WasteCategory)
    ensures c in AllCategories
  {
  }
}
