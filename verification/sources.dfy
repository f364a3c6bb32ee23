/** `SPECIFIC_SCRAPING_SOURCES`: the twenty-five descriptors in their declared order, and
    the facts about the table the rest of the model relies on. */
module SpecificSources {
  import opened Wrappers
  import opened SpecificScraper

  const Reasons: seq<string> := ["because", "reason", "safety", "risk"]

  /** A descriptor that reads the product name from its "Product" label and has no denylist. */
  function Standard(name: string, baseUrl: string, category: string,
                    hrefFragments: seq<string>, textKeywords: seq<string>, linkCap: nat,
                    topicKeywords: seq<string>, placeholder: string, maker: MakerRule): Descriptor {
    Descriptor(name, baseUrl, category, hrefFragments, textKeywords, linkCap,
               topicKeywords, placeholder, Labelled, maker, Reasons, None)
  }

  const FdaDenylist: Denylist := Denylist(
    ["safety commission", "dating", "commission", "2026 report", "1200 new jersey"],
    ["operating status", "recalls\U{2026}", "company", "document.getelementbyid"])

  /** Positions of FDA and NHTSA in the registry. */
  const Fda := 0
  const Nhtsa := 2

  /** Positions of the sources whose manufacturer is their own name, whatever the page
      says: Toyota, Honda, Walmart, Ford, General Motors, Target, Amazon, Home Depot,
      Tesla, BMW, Mercedes-Benz and Apple. */
  predicate IsBrandIndex(k: int) {
    k == 6 || k == 7 || k == 8 || (10 <= k <= 14) || 21 <= k
  }

  // Keyword lists several descriptors share.
  const RecallsSafety: seq<string> := ["/recalls/", "/safety/"]
  const RecallsAlerts: seq<string> := ["/recalls/", "/alerts/"]
  const SafetyRecalls: seq<string> := ["/safety/", "/recalls/"]
  const SupportSafety: seq<string> := ["/support/", "/safety/"]
  const OnVehicles: seq<string> := ["recall", "safety", "vehicle"]
  const OnProducts: seq<string> := ["recall", "safety", "product"]
  const OnAlerts: seq<string> := ["recall", "alert", "consumer"]
  const OnSafety: seq<string> := ["safety", "recall"]
  const ConsumerTopics: seq<string> := ["recall", "safety", "product", "consumer"]
  const AlertTopics: seq<string> := ["recall", "alert", "consumer", "safety"]

  /** A vehicle maker's descriptor (Toyota, Honda, Ford, General Motors). */
  function Carmaker(name: string, baseUrl: string, keyword: string, placeholder: string): Descriptor {
    Standard(name, baseUrl, "Vehicles", RecallsSafety, OnVehicles, 3,
             ["recall", "safety", "vehicle", keyword], placeholder, Brand(name))
  }

  /** A retailer's descriptor (Walmart, Target, Amazon, Home Depot). */
  function Retailer(name: string, baseUrl: string, keyword: string): Descriptor {
    Standard(name, baseUrl, "Retail", RecallsSafety, OnProducts, 3,
             ["recall", "safety", "product", keyword], name + " Product Recall", Brand(name))
  }

  /** A descriptor of the last group, whose links are found under `/safety/` and the like. */
  function SafetySite(name: string, baseUrl: string, category: string, hrefFragments: seq<string>,
                      topicKeywords: seq<string>, maker: MakerRule): Descriptor {
    Standard(name, baseUrl, category, hrefFragments, OnSafety, 3,
             topicKeywords, name + " Safety Alert", maker)
  }

  function FdaSource(): Descriptor {
    Descriptor("FDA", "https://www.fda.gov/safety/recalls-market-withdrawals-safety-alerts", "Food & Drugs",
               ["/recalls/", "/withdrawals/", "/alerts/", "/safety/"],
               ["recall", "withdrawal", "alert", "safety"], 5,
               ["recall", "withdrawal", "alert", "product", "company"], "FDA Recall Alert",
               Labelled, FromLabel, Reasons, Some(FdaDenylist))
  }

  function CpscSource(): Descriptor {
    Standard("CPSC", "https://www.cpsc.gov/Recalls", "Consumer Products",
             RecallsSafety, OnProducts, 5, ConsumerTopics, "CPSC Recall Alert", FromLabel)
  }

  function NhtsaSource(): Descriptor {
    Descriptor("NHTSA", "https://www.nhtsa.gov/recalls", "Vehicles",
               ["/recalls/", "/vehicle/"], ["recall", "vehicle", "safety"], 5,
               ["vehicle", "model", "make", "year", "safety", "defect"], "NHTSA Vehicle Recall",
               YearMakeModel, NoMaker, ["because", "reason", "safety", "defect", "risk"], None)
  }

  function UsdaSource(): Descriptor {
    Standard("USDA", "https://www.fsis.usda.gov/recalls-alerts", "Food Safety",
             RecallsAlerts, ["recall", "alert", "food"], 5,
             ["recall", "alert", "food", "safety"], "USDA Food Recall Alert", FromLabel)
  }

  function EpaSource(): Descriptor {
    Standard("EPA", "https://www.epa.gov/recalls", "Environmental",
             RecallsAlerts, ["recall", "environmental", "safety"], 3,
             ["recall", "environmental", "safety", "chemical"], "EPA Environmental Recall Alert", FromLabel)
  }

  function FtcSource(): Descriptor {
    Standard("FTC", "https://www.ftc.gov/news-events/topics/consumer-alerts", "Consumer Protection",
             ["/alerts/", "/recalls/"], OnAlerts, 3, AlertTopics, "FTC Consumer Alert", FromLabel)
  }

  function ToyotaSource(): Descriptor {
    Carmaker("Toyota", "https://www.toyota.com/recalls", "toyota", "Toyota Vehicle Recall")
  }

  function HondaSource(): Descriptor {
    Carmaker("Honda", "https://www.honda.com/recalls", "honda", "Honda Vehicle Recall")
  }

  function WalmartSource(): Descriptor {
    Retailer("Walmart", "https://www.walmart.com/recalls", "walmart")
  }

  function ConsumerReportsSource(): Descriptor {
    Standard("Consumer Reports", "https://www.consumerreports.org/recalls", "Consumer News",
             RecallsSafety, OnProducts, 3, ConsumerTopics, "Consumer Reports Recall Alert", FromLabel)
  }

  function FordSource(): Descriptor {
    Carmaker("Ford", "https://www.ford.com/support/recalls", "ford", "Ford Vehicle Recall")
  }

  function GeneralMotorsSource(): Descriptor {
    Carmaker("General Motors", "https://www.gm.com/recalls", "gm", "GM Vehicle Recall")
  }

  function TargetSource(): Descriptor {
    Retailer("Target", "https://www.target.com/recalls", "target")
  }

  function AmazonSource(): Descriptor {
    Retailer("Amazon", "https://www.amazon.com/recalls", "amazon")
  }

  function HomeDepotSource(): Descriptor {
    Retailer("Home Depot", "https://www.homedepot.com/recalls", "home depot")
  }

  function ConsumerAffairsSource(): Descriptor {
    Standard("Consumer Affairs", "https://www.consumeraffairs.com/recalls", "Consumer News",
             RecallsSafety, OnProducts, 3, ConsumerTopics, "Consumer Affairs Recall Alert", FromLabel)
  }

  function BbbSource(): Descriptor {
    Standard("Better Business Bureau", "https://www.bbb.org/recalls", "Consumer News",
             RecallsAlerts, OnAlerts, 3, AlertTopics, "BBB Consumer Alert", FromLabel)
  }

  function FoodSafetyNewsSource(): Descriptor {
    Standard("Food Safety News", "https://www.foodsafetynews.com/tag/recalls", "Food Safety",
             ["/recalls/", "/food/"], ["recall", "food", "safety"], 3,
             ["recall", "food", "safety", "contamination"], "Food Safety News Recall Alert", FromLabel)
  }

  function DotSource(): Descriptor {
    SafetySite("DOT", "https://www.transportation.gov/", "Transportation", SafetyRecalls,
               ["recall", "safety", "transportation"], FromLabel)
  }

  function AtfSource(): Descriptor {
    SafetySite("ATF", "https://www.atf.gov/", "Firearms", SafetyRecalls,
               ["recall", "safety", "firearm"], FromLabel)
  }

  function UscgSource(): Descriptor {
    SafetySite("USCG", "https://www.uscg.mil/", "Marine Safety", SafetyRecalls,
               ["recall", "safety", "marine"], FromLabel)
  }

  function TeslaSource(): Descriptor {
    SafetySite("Tesla", "https://www.tesla.com/", "Vehicles", SupportSafety,
               ["recall", "safety", "tesla"], Brand("Tesla"))
  }

  function BmwSource(): Descriptor {
    SafetySite("BMW", "https://www.bmwusa.com/", "Vehicles", SupportSafety,
               ["recall", "safety", "bmw"], Brand("BMW"))
  }

  function MercedesBenzSource(): Descriptor {
    SafetySite("Mercedes-Benz", "https://www.mbusa.com/", "Vehicles", SupportSafety,
               ["recall", "safety", "mercedes"], Brand("Mercedes-Benz"))
  }

  function AppleSource(): Descriptor {
    SafetySite("Apple", "https://support.apple.com/", "Electronics", ["/safety/", "/recall/"],
               ["recall", "safety", "apple", "iphone"], Brand("Apple"))
  }

  /** `SPECIFIC_SCRAPING_SOURCES`, in declaration order. */
  function Registry(): (r: seq<Descriptor>)
    ensures |r| == 25
  {
    [ FdaSource(),
      CpscSource(),
      NhtsaSource(),
      UsdaSource(),
      EpaSource(),
      FtcSource(),
      ToyotaSource(),
      HondaSource(),
      WalmartSource(),
      ConsumerReportsSource(),
      FordSource(),
      GeneralMotorsSource(),
      TargetSource(),
      AmazonSource(),
      HomeDepotSource(),
      ConsumerAffairsSource(),
      BbbSource(),
      FoodSafetyNewsSource(),
      DotSource(),
      AtfSource(),
      UscgSource(),
      TeslaSource(),
      BmwSource(),
      MercedesBenzSource(),
      AppleSource() ]
  }

  /** Every placeholder title is long enough for the title gate. */
  lemma PlaceholdersLongEnough()
    ensures forall k | 0 <= k < |Registry()| :: |Registry()[k].placeholder| > 5
  {
  }

  /** The four original sources keep five links, every later one three. */
  lemma LinkCaps()
    ensures forall k | 0 <= k < |Registry()| :: Registry()[k].linkCap == if k < 4 then 5 else 3
  {
  }

  /** Only FDA has denylists; only NHTSA reads a year-make-model token and has no manufacturer. */
  lemma Strategies()
    ensures forall k | 0 <= k < |Registry()| :: Registry()[k].denylist.Some? <==> k == Fda
    ensures forall k | 0 <= k < |Registry()| :: Registry()[k].product.YearMakeModel? <==> k == Nhtsa
    ensures forall k | 0 <= k < |Registry()| :: Registry()[k].maker.NoMaker? <==> k == Nhtsa
    ensures Registry()[Fda].name == "FDA" && Registry()[Nhtsa].name == "NHTSA"
  {
  }

  /** The brand sources are exactly the listed ones. */
  lemma BrandSources()
    ensures forall k | 0 <= k < |Registry()| :: Registry()[k].maker.Brand? <==> IsBrandIndex(k)
  {
  }

  /** Each brand source's brand is its own name. */
  lemma BrandIsName()
    ensures forall k | 0 <= k < |Registry()| ::
              Registry()[k].maker.Brand? ==> Registry()[k].maker.brand == Registry()[k].name
  {
  }

  /** No two sources share a name (proved in five slices of the table). */
  lemma NamesDistinct()
    ensures forall i, j | 0 <= i < j < |Registry()| :: Registry()[i].name != Registry()[j].name
  {
    NamesDistinctSlice1();
    NamesDistinctSlice2();
    NamesDistinctSlice3();
    NamesDistinctSlice4();
    NamesDistinctSlice5();
  }

  lemma NamesDistinctSlice1()
    ensures forall i, j | 0 <= i < j < 8 :: Registry()[i].name != Registry()[j].name
  {
  }

  lemma NamesDistinctSlice2()
    ensures forall i, j | 0 <= i < 8 <= j < 25 :: Registry()[i].name != Registry()[j].name
  {
  }

  lemma NamesDistinctSlice3()
    ensures forall i, j | 8 <= i < j < 16 :: Registry()[i].name != Registry()[j].name
  {
  }

  lemma NamesDistinctSlice4()
    ensures forall i, j | 8 <= i < 16 <= j < 25 :: Registry()[i].name != Registry()[j].name
  {
  }

  lemma NamesDistinctSlice5()
    ensures forall i, j | 16 <= i < j < 25 :: Registry()[i].name != Registry()[j].name
  {
  }
}
