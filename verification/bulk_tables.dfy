/** The fixed tables of the synthetic bulk generator and the pure decisions made from
    them: which link a record gets (`getRealRecallLink`), which source a product record
    is filed under, and how a category key is displayed. */
module BulkTables {
  import opened Strings

  /** One manufacturer of `PRODUCT_DATA` and the models drawn for it. */
  datatype Product = Product(manufacturer: string, models: seq<string>)

  /** One entry of `PRODUCT_DATA`: the category key and its manufacturers, in order. */
  datatype Category = Category(key: string, products: seq<Product>)

  /** `PRODUCT_DATA`, in `Object.entries` order. */
  function ProductData(): (r: seq<Category>)
    ensures |r| == 5
  {
    [ Category("vehicles", Vehicles()), Category("electronics", Electronics()),
      Category("appliances", Appliances()), Category("food", Food()), Category("toys", Toys()) ]
  }

  /** The `vehicles` entry of `PRODUCT_DATA`. */
  function Vehicles(): (r: seq<Product>)
    ensures |r| == 17
    ensures forall i | 0 <= i < |r| :: r[i].models != []
  {
    [
      Product("Toyota", ["Camry", "Corolla", "RAV4", "Highlander", "Tacoma", "Tundra", "Prius", "Avalon", "Sienna", "4Runner"]),
      Product("Honda", ["Civic", "Accord", "CR-V", "Pilot", "Odyssey", "Ridgeline", "HR-V", "Passport", "Insight", "Fit"]),
      Product("Ford", ["F-150", "Escape", "Explorer", "Mustang", "Focus", "Fusion", "Edge", "Expedition", "Ranger", "Bronco"]),
      Product("General Motors", ["Silverado", "Equinox", "Malibu", "Camaro", "Corvette", "Tahoe", "Suburban", "Colorado", "Blazer", "Traverse"]),
      Product("Tesla", ["Model 3", "Model S", "Model X", "Model Y", "Cybertruck"]),
      Product("BMW", ["3 Series", "5 Series", "X3", "X5", "X7", "i4", "iX", "M3", "M5", "Z4"]),
      Product("Mercedes-Benz", ["C-Class", "E-Class", "S-Class", "GLC", "GLE", "GLS", "A-Class", "CLA", "GLA", "AMG GT"]),
      Product("Volkswagen", ["Golf", "Passat", "Tiguan", "Atlas", "Jetta", "ID.4", "Arteon", "Taos", "Touareg", "Golf GTI"]),
      Product("Chrysler", ["300", "Pacifica", "Voyager", "Grand Caravan"]),
      Product("Nissan", ["Altima", "Sentra", "Rogue", "Murano", "Pathfinder", "Frontier", "Titan", "Maxima", "Versa", "Kicks"]),
      Product("Audi", ["A4", "A6", "Q5", "Q7", "Q3", "S4", "RS4", "TT", "R8", "e-tron"]),
      Product("Porsche", ["911", "Cayenne", "Macan", "Panamera", "Cayman", "Boxster", "Taycan"]),
      Product("Volvo", ["S60", "S90", "XC40", "XC60", "XC90", "V60", "V90"]),
      Product("Mazda", ["CX-5", "CX-30", "Mazda3", "Mazda6", "CX-9", "MX-5", "CX-3"]),
      Product("Subaru", ["Outback", "Forester", "Crosstrek", "Impreza", "Legacy", "Ascent", "BRZ"]),
      Product("Hyundai", ["Tucson", "Santa Fe", "Elantra", "Sonata", "Palisade", "Venue", "Kona"]),
      Product("Kia", ["Sportage", "Telluride", "Sorento", "Forte", "K5", "Soul", "Niro"]) ]
  }

  /** The `electronics` entry of `PRODUCT_DATA`. */
  function Electronics(): (r: seq<Product>)
    ensures |r| == 5
    ensures forall i | 0 <= i < |r| :: r[i].models != []
  {
    [
      Product("Apple", ["iPhone 15", "iPhone 14", "iPhone 13", "iPad Pro", "iPad Air", "MacBook Pro", "MacBook Air", "iMac", "Mac Pro", "Apple Watch"]),
      Product("Samsung", ["Galaxy S24", "Galaxy S23", "Galaxy Z Fold", "Galaxy Z Flip", "Galaxy Tab", "Galaxy Note", "Galaxy A Series", "Galaxy M Series"]),
      Product("Sony", ["PlayStation 5", "PlayStation 4", "Bravia TV", "WH-1000XM4", "WF-1000XM4", "Alpha Camera", "Xperia Phone"]),
      Product("LG", ["OLED TV", "NanoCell TV", "Gram Laptop", "V60 ThinQ", "G8 ThinQ", "Stylo Phone", "K Series Phone"]),
      Product("Microsoft", ["Surface Pro", "Surface Laptop", "Surface Book", "Xbox Series X", "Xbox Series S", "Surface Duo", "Surface Go"]) ]
  }

  /** The `appliances` entry of `PRODUCT_DATA`. */
  function Appliances(): (r: seq<Product>)
    ensures |r| == 5
    ensures forall i | 0 <= i < |r| :: r[i].models != []
  {
    [
      Product("Samsung", ["Refrigerator", "Washing Machine", "Dryer", "Dishwasher", "Microwave", "Oven", "Stove", "Freezer", "Wine Cooler"]),
      Product("LG", ["Refrigerator", "Washing Machine", "Dryer", "Dishwasher", "Microwave", "Oven", "Stove", "Freezer", "Air Conditioner"]),
      Product("Whirlpool", ["Refrigerator", "Washing Machine", "Dryer", "Dishwasher", "Microwave", "Oven", "Stove", "Freezer"]),
      Product("GE", ["Refrigerator", "Washing Machine", "Dryer", "Dishwasher", "Microwave", "Oven", "Stove", "Freezer", "Range"]),
      Product("Bosch", ["Dishwasher", "Washing Machine", "Dryer", "Microwave", "Oven", "Stove", "Refrigerator"]) ]
  }

  /** The `food` entry of `PRODUCT_DATA`. */
  function Food(): (r: seq<Product>)
    ensures |r| == 5
    ensures forall i | 0 <= i < |r| :: r[i].models != []
  {
    [
      Product("Kraft Heinz", ["Mac & Cheese", "Ketchup", "Mustard", "Mayonnaise", "Salad Dressing", "Canned Vegetables", "Frozen Meals"]),
      Product("Nestle", ["Coffee", "Chocolate", "Ice Cream", "Bottled Water", "Baby Food", "Pet Food", "Frozen Meals"]),
      Product("General Mills", ["Cereal", "Yogurt", "Frozen Pizza", "Snack Bars", "Baking Mixes", "Pasta", "Soups"]),
      Product("Kellogg", ["Cereal", "Pop-Tarts", "Fruit Snacks", "Crackers", "Frozen Waffles", "Granola Bars"]),
      Product("Campbell", ["Soup", "Broth", "Pasta Sauce", "Crackers", "Juice", "V8", "Prego"]) ]
  }

  /** The `toys` entry of `PRODUCT_DATA`. */
  function Toys(): (r: seq<Product>)
    ensures |r| == 5
    ensures forall i | 0 <= i < |r| :: r[i].models != []
  {
    [
      Product("Mattel", ["Barbie", "Hot Wheels", "Fisher-Price", "American Girl", "Mega Bloks", "UNO", "Matchbox"]),
      Product("Hasbro", ["Monopoly", "Play-Doh", "Nerf", "Transformers", "My Little Pony", "G.I. Joe", "Magic: The Gathering"]),
      Product("LEGO", ["Star Wars", "City", "Friends", "Technic", "Architecture", "Creator", "Duplo", "Mindstorms"]),
      Product("Spin Master", ["Bakugan", "Paw Patrol", "Hatchimals", "Air Hogs", "Tech Deck", "Zoomer"]),
      Product("VTech", ["Learning Tablet", "Baby Monitor", "Walkie Talkie", "Educational Toy", "Smart Watch"]) ]
  }

  /** Every manufacturer has at least one model to draw. */
  ghost predicate ModelsPresent(cats: seq<Category>) {
    forall c, p | 0 <= c < |cats| && 0 <= p < |cats[c].products| :: cats[c].products[p].models != []
  }

  /** The number of manufacturers over all categories. */
  function ProductCount(cats: seq<Category>): nat {
    if cats == [] then 0 else |cats[0].products| + ProductCount(cats[1..])
  }

  /** `PRODUCT_DATA` lists 37 manufacturers, each with models. */
  lemma ProductDataFacts()
    ensures ModelsPresent(ProductData())
    ensures ProductCount(ProductData()) == 37
  {
    var d := ProductData();
    assert d[1..][1..][1..][1..][1..] == [];
  }

  /** `RECALL_REASONS`. */
  const Reasons: seq<string> := [
    "Safety defect in braking system", "Airbag deployment issue", "Electrical system malfunction",
    "Fire hazard due to overheating", "Battery safety concern", "Structural integrity problem",
    "Software security vulnerability", "Contamination risk", "Choking hazard for children",
    "Allergen not properly labeled", "Bacterial contamination", "Chemical exposure risk",
    "Mechanical failure risk", "Thermal runaway in battery", "Incorrect dosage information",
    "Missing safety warnings", "Defective power supply", "Cooling system failure",
    "Transmission safety issue", "Steering component defect"]

  /** `GOVERNMENT_SOURCES`. */
  const GovernmentSources: seq<string> := ["FDA", "CPSC", "NHTSA", "USDA", "EPA", "FTC", "DOT", "ATF", "USCG"]

  /** The manufacturers that are filed under their own name. */
  const WorkingManufacturers: seq<string> :=
    ["Toyota", "Honda", "Ford", "Tesla", "Apple", "Samsung", "Microsoft", "Whirlpool", "GE", "Mattel", "Hasbro", "LEGO"]

  /** The `realLinks` table of `getRealRecallLink`. */
  function RealLinks(): map<string, string> {
    map[
      "FDA" := Https("www.fda.gov", "/safety/recalls-market-withdrawals-safety-alerts"),
      "CPSC" := Https("www.cpsc.gov", "/Recalls"),
      "NHTSA" := Https("www.nhtsa.gov", "/recalls"),
      "USDA" := Https("www.fsis.usda.gov", "/recalls-alerts"),
      "EPA" := Https("www.epa.gov", "/recalls"),
      "FTC" := Https("www.ftc.gov", "/news-events/topics/consumer-protection/recalls"),
      "DOT" := Https("www.transportation.gov", "/recalls"),
      "ATF" := Https("www.atf.gov", "/recalls"),
      "USCG" := Https("www.uscg.mil", "/recalls"),
      "Toyota" := Https("www.toyota.com", "/recalls"),
      "Honda" := Https("www.honda.com", "/recalls"),
      "Ford" := Https("www.ford.com", "/support/recalls"),
      "Tesla" := Https("www.tesla.com", "/support/recalls"),
      "Apple" := Https("support.apple.com", "/recalls"),
      "Samsung" := Https("www.samsung.com", "/us/support/recalls"),
      "Microsoft" := Https("support.microsoft.com", "/recalls"),
      "Whirlpool" := Https("www.whirlpool.com", "/recalls"),
      "GE" := Https("www.geappliances.com", "/recalls"),
      "Mattel" := Https("service.mattel.com", "/recalls"),
      "Hasbro" := Https("consumercare.hasbro.com", "/recalls"),
      "LEGO" := Https("www.lego.com", "/recalls")]
  }

  /** The link used when neither name has an entry. */
  function CpscFallback(): string {
    Https("www.cpsc.gov", "/Recalls")
  }

  /** The lookup of `getRealRecallLink` over a link table: the manufacturer's entry, else
      the source's entry, else CPSC's recall page. */
  function LinkIn(links: map<string, string>, manufacturer: string, source: string): string {
    if manufacturer in links then links[manufacturer]
    else if source in links then links[source]
    else CpscFallback()
  }

  /** A table of `https://` entries gives only `https://` links. */
  lemma LinkInHttps(links: map<string, string>, manufacturer: string, source: string)
    requires forall k | k in links :: StartsWith(links[k], "https://")
    ensures StartsWith(LinkIn(links, manufacturer, source), "https://")
  {
  }

  /** `getRealRecallLink(manufacturer, source)`: every link it returns is an `https://` URL. */
  function RealRecallLink(manufacturer: string, source: string): (r: string)
    ensures StartsWith(r, "https://")
  {
    LinksAreHttps();
    LinkInHttps(RealLinks(), manufacturer, source);
    LinkIn(RealLinks(), manufacturer, source)
  }

  /** The lookup order: the manufacturer's own entry wins over the source's, and CPSC's page
      is used only when neither name has an entry. */
  lemma RealRecallLinkChoice(manufacturer: string, source: string)
    ensures manufacturer in RealLinks() ==> RealRecallLink(manufacturer, source) == RealLinks()[manufacturer]
    ensures manufacturer !in RealLinks() && source in RealLinks() ==>
              RealRecallLink(manufacturer, source) == RealLinks()[source]
    ensures manufacturer !in RealLinks() && source !in RealLinks() ==>
              RealRecallLink(manufacturer, source) == CpscFallback()
  {
  }

  /** Every entry of the table is an `https://` URL. */
  lemma LinksAreHttps()
    ensures forall k | k in RealLinks() :: StartsWith(RealLinks()[k], "https://")
  {
  }

  /** The routing of `generateBulkRecalls` over a list of working manufacturers. */
  function RouteIn(working: seq<string>, category: string, manufacturer: string): string {
    if category == "vehicles" then (if manufacturer in working then manufacturer else "NHTSA")
    else if category == "electronics" then (if manufacturer in working then manufacturer else "CPSC")
    else if category == "food" then "FDA"
    else if category == "toys" then (if manufacturer in working then manufacturer else "CPSC")
    else "CPSC"
  }

  /** The source a product record is filed under. */
  function Route(category: string, manufacturer: string): string {
    RouteIn(WorkingManufacturers, category, manufacturer)
  }

  /** A vehicle, electronics or toy maker on the working list is its own source; otherwise
      vehicles go to NHTSA, food to FDA and everything else to CPSC. So a record is filed
      under its maker only when the maker is on the working list, and under a government
      source otherwise. */
  lemma RouteCases(category: string, manufacturer: string)
    ensures var r := Route(category, manufacturer);
            && (manufacturer in WorkingManufacturers && category in ["vehicles", "electronics", "toys"] ==>
                  r == manufacturer)
            && (manufacturer !in WorkingManufacturers || category !in ["vehicles", "electronics", "toys"] ==>
                  r == (if category == "vehicles" then "NHTSA" else if category == "food" then "FDA" else "CPSC"))
            && (r in WorkingManufacturers || r in GovernmentSources)
  {
  }

  /** The working list is exactly the manufacturers the link table knows, and every
      government source has an entry too. */
  lemma TableKeys()
    ensures forall m | m in WorkingManufacturers :: m in RealLinks()
    ensures forall s | s in GovernmentSources :: s in RealLinks()
    ensures forall k | k in RealLinks() :: k in WorkingManufacturers || k in GovernmentSources
  {
  }

  /** A routed product record never falls back to CPSC's page for want of an entry: its
      link is its manufacturer's entry, else its source's. */
  lemma RoutedLinkKnown(category: string, manufacturer: string)
    ensures var s := Route(category, manufacturer);
            s in RealLinks() &&
            RealRecallLink(manufacturer, s) ==
              (if manufacturer in RealLinks() then RealLinks()[manufacturer] else RealLinks()[s])
  {
    TableKeys();
  }

  /** The tables a walk of the generator reads: reasons, links and the working list. */
  datatype TableData = TableData(reasons: seq<string>, links: map<string, string>, working: seq<string>, wording: Wording)

  /** The fixed text of the two description templates, cut at their placeholders: the
      product template is `<m> recallFor <model> dueTo <reason> affects <units> between
      <year-2> and <year> contact <m> service`, the government one is `alertThe <source>
      regarding <reason> checkThe <source> website`. */
  datatype Wording = Wording(
    recallFor: string, dueTo: string, affects: string, between: string, and: string,
    contact: string, service: string,
    alertThe: string, regarding: string, checkThe: string, website: string)

  /** Tables with at least one reason to draw. */
  type Tables = t: TableData | t.reasons != []
    witness TableData(["x"], map[], [], Wording("", "", "", "", "", "", "", "", "", "", ""))

  /** The wording of `generateBulkRecalls`' descriptions. */
  function Templates(): Wording {
    Wording(
      " has issued a voluntary recall for the ", " due to ", ". This recall affects approximately ",
      " units manufactured between ", " and ",
      ". Consumers are advised to contact their local dealer or ", " customer service for more information.",
      "The ", " has issued a safety alert regarding ",
      ". This affects multiple manufacturers and products. Consumers should check the ",
      " website for specific product information and contact manufacturers for remedies.")
  }

  /** The tables of `bulk-scraper.ts`, with the description wording `w`. */
  function Fixed(w: Wording): Tables {
    TableData(Reasons, RealLinks(), WorkingManufacturers, w)
  }

  /** The category of a government record. */
  function GovCategory(source: string): (r: string)
    ensures source == "FDA" ==> r == "Food & Drugs"
    ensures source == "NHTSA" ==> r == "Vehicles"
    ensures source != "FDA" && source != "NHTSA" ==> r == "Consumer Products"
  {
    if source == "FDA" then "Food & Drugs" else if source == "NHTSA" then "Vehicles" else "Consumer Products"
  }

  /** `String.prototype.toUpperCase` of one character, on the ASCII range. */
  function UpperChar(c: char): char {
    if 'a' <= c <= 'z' then (c as int - 'a' as int + 'A' as int) as char else c
  }

  /** `key.charAt(0).toUpperCase() + key.slice(1)`. */
  function Capitalise(key: string): (r: string)
    ensures |r| == |key|
    ensures key != [] ==> r[1..] == key[1..] && r[0] == UpperChar(key[0])
  {
    if key == [] then "" else [UpperChar(key[0])] + key[1..]
  }

  /** Capitalising changes only the case of the first letter. */
  lemma CapitaliseLower(key: string)
    ensures ToLower(Capitalise(key)) == ToLower(key)
  {
    if key != [] {
      assert ToLower(Capitalise(key))[0] == ToLower(key)[0];
    }
  }
}
