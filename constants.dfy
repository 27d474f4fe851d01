/** The application's constant tables: the category policy table, interval choices, snooze choices and demo items. */
module Constants {
  import opened Categories

  datatype CategoryInfo = CategoryInfo(displayName: string, color: string, defaultInterval: int, description: string)

  /** The `WASTE_CATEGORIES` record: display data and default disposal interval in days per category. */
  function WasteCategoryInfo(c: WasteCategory): CategoryInfo {
    match c
    case Dry => CategoryInfo("Dry Waste", "bg-amber-500", 7, "Paper, plastic, metal, glass")
    case Wet => CategoryInfo("Wet/Organic", "bg-green-500", 1, "Food scraps, vegetable peels")
    case Medical => CategoryInfo("Medical", "bg-red-500", 1, "Medicine, syringes, bandages")
    case Hazardous => CategoryInfo("Hazardous", "bg-orange-500", 30, "Batteries, chemicals, paint")
    case Recyclable => CategoryInfo("Recyclable", "bg-blue-500", 7, "Clean plastic, glass, metal")
    case EWaste => CategoryInfo("E-Waste", "bg-purple-500", 30, "Electronics, gadgets, cables")
  }

  /** `WASTE_CATEGORIES[c].defaultInterval`. */
  function DefaultInterval(c: WasteCategory): (days: int)
    ensures days >= 1
  {
    WasteCategoryInfo(c).defaultInterval
  }

  /** The default intervals the table assigns. */
  lemma DefaultIntervals()
    ensures DefaultInterval(Dry) == 7 && DefaultInterval(Wet) == 1 && DefaultInterval(Medical) == 1
    ensures DefaultInterval(Hazardous) == 30 && DefaultInterval(Recyclable) == 7 && DefaultInterval(EWaste) == 30
  {
  }

  datatype Choice = Choice(caption: string, value: int)

  /** `QUICK_INTERVALS`: the quick picks of the interval picker, in days. */
  const QuickIntervals: seq<Choice> := [
    Choice("1 day", 1), Choice("3 days", 3), Choice("1 week", 7), Choice("2 weeks", 14), Choice("1 month", 30)
  ]

  /** `SNOOZE_OPTIONS`: snooze lengths in hours. */
  const SnoozeOptions: seq<Choice> := [Choice("1 hour", 1), Choice("6 hours", 6), Choice("1 day", 24)]

  predicate StrictlyIncreasing(cs: seq<Choice>) {
    forall i, j :: 0 <= i < j < |cs| ==> cs[i].value < cs[j].value
  }

  lemma QuickIntervalsShape()
    ensures |QuickIntervals| == 5 && StrictlyIncreasing(QuickIntervals)
    ensures forall i :: 0 <= i < |QuickIntervals| ==> QuickIntervals[i].value >= 1
  {
  }

  lemma SnoozeOptionsShape()
    ensures |SnoozeOptions| == 3 && StrictlyIncreasing(SnoozeOptions)
    ensures forall i :: 0 <= i < |SnoozeOptions| ==> SnoozeOptions[i].value > 0
  {
  }

  datatype SampleItem = SampleItem(id: string, name: string, category: WasteCategory, defaultInterval: int)

  /** `SAMPLE_ITEMS`: demo items. */
  const SampleItems: seq<SampleItem> := [
    SampleItem("1", "Milk 1L", Recyclable, 3),
    SampleItem("2", "Rice 5kg", Dry, 7),
    SampleItem("3", "Batteries AA (4)", Hazardous, 30),
    SampleItem("4", "Painkillers", Medical, 1)
  ]

  lemma SampleItemsDistinctIds()
    ensures forall i, j :: 0 <= i < j < |SampleItems| ==> SampleItems[i].id != SampleItems[j].id
  {
  }
}
