/**
 * The two `input_data` dictionaries that app.py builds from the form, one
 * per input mode. A Python dict is an ordered map: its mapping is a Dafny
 * `map` over the 31 features and its insertion order is one of the
 * column-order sequences below.
 */
module Features {
  import opened Values
  import opened Wrappers

  /** The 31 columns of the feature row, one constructor per column. */
  datatype Feature =
    | Latitude | Longitude | LivingArea | BathroomsTotalInteger
    | BedroomsTotal | Stories | GarageSpaces | LotSizeSquareFeet
    | ViewYN | PoolPrivateYN | AttachedGarageYN | FireplaceYN
    | NewConstructionYN | SalesTaxRate | UNRATE | MORTGAGE30US
    | FEDFUNDS | CPIAUCNS | Age | LotDensity | ParkingTotal
    | FireplacesTotal | City | CountyOrParish | PostalCode | Levels
    | StateOrProvince | PropertySubType | HighSchoolDistrict | District
    | FlooringType

  /** The column label of a feature, as the dictionaries spell it. */
  function Name(f: Feature): string {
    match f
    case Latitude => "Latitude"
    case Longitude => "Longitude"
    case LivingArea => "LivingArea"
    case BathroomsTotalInteger => "BathroomsTotalInteger"
    case BedroomsTotal => "BedroomsTotal"
    case Stories => "Stories"
    case GarageSpaces => "GarageSpaces"
    case LotSizeSquareFeet => "LotSizeSquareFeet"
    case ViewYN => "ViewYN"
    case PoolPrivateYN => "PoolPrivateYN"
    case AttachedGarageYN => "AttachedGarageYN"
    case FireplaceYN => "FireplaceYN"
    case NewConstructionYN => "NewConstructionYN"
    case SalesTaxRate => "SalesTaxRate"
    case UNRATE => "UNRATE"
    case MORTGAGE30US => "MORTGAGE30US"
    case FEDFUNDS => "FEDFUNDS"
    case CPIAUCNS => "CPIAUCNS"
    case Age => "Age"
    case LotDensity => "LotDensity"
    case ParkingTotal => "ParkingTotal"
    case FireplacesTotal => "FireplacesTotal"
    case City => "City"
    case CountyOrParish => "CountyOrParish"
    case PostalCode => "PostalCode"
    case Levels => "Levels"
    case StateOrProvince => "StateOrProvince"
    case PropertySubType => "PropertySubType"
    case HighSchoolDistrict => "HighSchoolDistrict"
    case District => "District"
    case FlooringType => "FlooringType"
  }

  /** The feature a column label names, if any: the inverse of Name. */
  function Named(s: string): Option<Feature> {
    match s
    case "Latitude" => Some(Latitude)
    case "Longitude" => Some(Longitude)
    case "LivingArea" => Some(LivingArea)
    case "BathroomsTotalInteger" => Some(BathroomsTotalInteger)
    case "BedroomsTotal" => Some(BedroomsTotal)
    case "Stories" => Some(Stories)
    case "GarageSpaces" => Some(GarageSpaces)
    case "LotSizeSquareFeet" => Some(LotSizeSquareFeet)
    case "ViewYN" => Some(ViewYN)
    case "PoolPrivateYN" => Some(PoolPrivateYN)
    case "AttachedGarageYN" => Some(AttachedGarageYN)
    case "FireplaceYN" => Some(FireplaceYN)
    case "NewConstructionYN" => Some(NewConstructionYN)
    case "SalesTaxRate" => Some(SalesTaxRate)
    case "UNRATE" => Some(UNRATE)
    case "MORTGAGE30US" => Some(MORTGAGE30US)
    case "FEDFUNDS" => Some(FEDFUNDS)
    case "CPIAUCNS" => Some(CPIAUCNS)
    case "Age" => Some(Age)
    case "LotDensity" => Some(LotDensity)
    case "ParkingTotal" => Some(ParkingTotal)
    case "FireplacesTotal" => Some(FireplacesTotal)
    case "City" => Some(City)
    case "CountyOrParish" => Some(CountyOrParish)
    case "PostalCode" => Some(PostalCode)
    case "Levels" => Some(Levels)
    case "StateOrProvince" => Some(StateOrProvince)
    case "PropertySubType" => Some(PropertySubType)
    case "HighSchoolDistrict" => Some(HighSchoolDistrict)
    case "District" => Some(District)
    case "FlooringType" => Some(FlooringType)
    case _ => None
  }

  /** Every feature's label reads back as that feature. */
  lemma NamedName(f: Feature)
    ensures Named(Name(f)) == Some(f)
  {
    // Splitting the 31 features into four groups (by their Simple-mode
    // column index, for want of another numbering) only keeps each proof small.
    var i := SimplePosition(f);
    if i < 8 {
      NamedNameFirst(f);
    } else if i < 16 {
      NamedNameSecond(f);
    } else if i < 24 {
      NamedNameThird(f);
    } else {
      NamedNameFourth(f);
    }
  }

  lemma NamedNameFirst(f: Feature)
    requires SimplePosition(f) < 8
    ensures Named(Name(f)) == Some(f)
  {
  }

  lemma NamedNameSecond(f: Feature)
    requires 8 <= SimplePosition(f) < 16
    ensures Named(Name(f)) == Some(f)
  {
  }

  lemma NamedNameThird(f: Feature)
    requires 16 <= SimplePosition(f) < 24
    ensures Named(Name(f)) == Some(f)
  {
  }

  lemma NamedNameFourth(f: Feature)
    requires 24 <= SimplePosition(f) < 31
    ensures Named(Name(f)) == Some(f)
  {
  }

  /** So the 31 labels are pairwise distinct, and a frame's columns can be keyed by them. */
  lemma NameInjective()
    ensures forall f, g :: Name(f) == Name(g) ==> f == g
  {
    forall f, g | Name(f) == Name(g) ensures f == g {
      NamedName(f);
      NamedName(g);
    }
  }

  /** All 31 features. */
  const AllFeatures: set<Feature> := {
    Latitude, Longitude, LivingArea, BathroomsTotalInteger,
    BedroomsTotal, Stories, GarageSpaces, LotSizeSquareFeet,
    ViewYN, PoolPrivateYN, AttachedGarageYN, FireplaceYN,
    NewConstructionYN, SalesTaxRate, UNRATE, MORTGAGE30US,
    FEDFUNDS, CPIAUCNS, Age, LotDensity, ParkingTotal,
    FireplacesTotal, City, CountyOrParish, PostalCode, Levels,
    StateOrProvince, PropertySubType, HighSchoolDistrict, District,
    FlooringType
  }

  /** The columns rewritten with `astype(str)` before projection, in order. */
  const StringColumns: seq<Feature> := [
    City, CountyOrParish, PostalCode, Levels, StateOrProvince,
    PropertySubType, HighSchoolDistrict, District, FlooringType
  ]

  /** The five checkbox features, each encoded with `int(b)`. */
  const AmenityFeatures: set<Feature> := {
    ViewYN, PoolPrivateYN, AttachedGarageYN, FireplaceYN, NewConstructionYN
  }

  /** The property facts of the Full form's first widget column. */
  const PropertyFacts: set<Feature> := {
    BedroomsTotal, BathroomsTotalInteger, Stories, FireplacesTotal,
    GarageSpaces, ParkingTotal, LotSizeSquareFeet, LivingArea
  }

  /** The age and the economic indicators of the Full form's second widget column. */
  const Indicators: set<Feature> := {
    Age, LotDensity, SalesTaxRate, UNRATE, MORTGAGE30US, FEDFUNDS, CPIAUCNS
  }

  /** The categorical features, which hold strings. */
  const Categoricals: set<Feature> := {
    City, CountyOrParish, PostalCode, Levels, StateOrProvince,
    PropertySubType, HighSchoolDistrict, District, FlooringType
  }

  /** The two features filled from the geocoder in both modes. */
  const Geocoded: set<Feature> := {Latitude, Longitude}

  /** Key order of the Simple-mode dictionary. */
  const SimpleColumnOrder: seq<Feature> := [
    Latitude, Longitude, LivingArea, BathroomsTotalInteger,
    BedroomsTotal, Stories, GarageSpaces, LotSizeSquareFeet,
    ViewYN, PoolPrivateYN, AttachedGarageYN, FireplaceYN,
    NewConstructionYN, SalesTaxRate, UNRATE, MORTGAGE30US,
    FEDFUNDS, CPIAUCNS, Age, LotDensity, ParkingTotal,
    FireplacesTotal, City, CountyOrParish, PostalCode, Levels,
    StateOrProvince, PropertySubType, HighSchoolDistrict, District,
    FlooringType
  ]

  /** Key order of the Full-mode dictionary. */
  const FullColumnOrder: seq<Feature> := [
    Latitude, Longitude, BedroomsTotal, BathroomsTotalInteger,
    Stories, FireplacesTotal, GarageSpaces, ParkingTotal,
    LotSizeSquareFeet, LivingArea, Age, LotDensity, SalesTaxRate,
    UNRATE, MORTGAGE30US, FEDFUNDS, CPIAUCNS, ViewYN,
    PoolPrivateYN, AttachedGarageYN, FireplaceYN, NewConstructionYN,
    City, CountyOrParish, PostalCode, Levels, StateOrProvince,
    PropertySubType, HighSchoolDistrict, District, FlooringType
  ]

  /** Square feet in an acre: `LotDensity` is the lot size in acres. */
  const SquareFeetPerAcre: real := 43560.0

  /**
   * The literal Simple mode fixes a feature to, for the 16 features it
   * fixes: the economic indicators, age, fireplace count and the location
   * and classification strings of the reference property.
   */
  function SimpleDefault(f: Feature): Option<Value> {
    match f
    case SalesTaxRate => Some(Num(0.075))
    case UNRATE => Some(Num(0.037))
    case MORTGAGE30US => Some(Num(0.066))
    case FEDFUNDS => Some(Num(0.053))
    case CPIAUCNS => Some(Num(305.1))
    case Age => Some(Num(20.0))
    case FireplacesTotal => Some(Num(1.0))
    case City => Some(Str("Mountain View"))
    case CountyOrParish => Some(Str("Santa Clara"))
    case PostalCode => Some(Str("94043"))
    case Levels => Some(Str("One"))
    case StateOrProvince => Some(Str("CA"))
    case PropertySubType => Some(Str("SingleFamilyResidence"))
    case HighSchoolDistrict => Some(Str("Mountain View-Los Altos Union"))
    case District => Some(Str("Mountain View"))
    case FlooringType => Some(Str("Hardwood"))
    case _ => None
  }

  /** The choices of the two select boxes of Full mode; the first is the default. */
  const LevelsChoices: seq<string> := ["One", "Two", "Three", "Split", "Other"]
  const FlooringChoices: seq<string> := ["Hardwood", "Tile", "Carpet", "Laminate", "Vinyl"]

  /** The eleven widgets of Simple mode. */
  datatype SimpleInputs = SimpleInputs(
    livingArea: int, bathrooms: int, bedrooms: int, stories: int,
    garageSpaces: int, lotSizeSqft: int,
    view: bool, pool: bool, attachedGarage: bool, fireplace: bool, newConstruction: bool)
  {
    /** The bounds the Simple-mode number inputs enforce. */
    predicate InBounds() {
      && 200 <= livingArea <= 10000
      && 0 <= bathrooms <= 10
      && 0 <= bedrooms <= 10
      && 1 <= stories <= 5
      && 0 <= garageSpaces <= 5
      && 500 <= lotSizeSqft <= 100000
    }
  }

  /** The Simple-mode widgets as they start out. */
  const SimpleDefaults: SimpleInputs :=
    SimpleInputs(1500, 2, 3, 1, 2, 5000, false, false, false, false, false)

  /** The 29 widgets of Full mode. */
  datatype FullInputs = FullInputs(
    bedrooms: int, bathrooms: int, stories: int, fireplacesTotal: int,
    garageSpaces: int, parkingTotal: int, lotSizeSqft: int, livingArea: int,
    age: int, lotDensity: real, salesTaxRate: real, unrate: real,
    mortgageRate: real, fedFunds: real, cpi: real,
    view: bool, pool: bool, attachedGarage: bool, fireplace: bool, newConstruction: bool,
    city: string, postalCode: string, county: string, state: string,
    propertySubType: string, levels: string, district: string,
    highSchoolDistrict: string, flooringType: string)
  {
    /** The lower bounds and the choice lists the Full-mode widgets enforce. */
    predicate InBounds() {
      && 0 <= bedrooms
      && 0 <= bathrooms
      && 1 <= stories
      && levels in LevelsChoices
      && flooringType in FlooringChoices
    }
  }

  /**
   * The Full-mode widgets as they start out, given the lot size entered so
   * far: the lot-density input defaults to that lot size in acres.
   */
  function FullDefaults(lotSizeSqft: int): (u: FullInputs)
    ensures u.lotSizeSqft == lotSizeSqft && u.lotDensity * SquareFeetPerAcre == lotSizeSqft as real
  {
    FullInputs(3, 2, 1, 1, 2, 2, lotSizeSqft, 1500, 20, lotSizeSqft as real / SquareFeetPerAcre,
      0.075, 0.037, 0.066, 0.053, 305.1, false, false, false, false, false,
      "Mountain View", "94043", "Santa Clara", "CA", "SingleFamilyResidence",
      "One", "Mountain View", "Mountain View-Los Altos Union", "Hardwood")
  }

  /** The radio-button mode together with the widgets that mode shows. */
  datatype Form = SimpleForm(simple: SimpleInputs) | FullForm(full: FullInputs)

  /** The value the Simple-mode `input_data` literal gives each key, given the geocoded coordinates. */
  function SimpleEntry(u: SimpleInputs, lat: real, lon: real, f: Feature): Value {
    match f
    case Latitude => Num(lat)
    case Longitude => Num(lon)
    case LivingArea => Num(u.livingArea as real)
    case BathroomsTotalInteger => Num(u.bathrooms as real)
    case BedroomsTotal => Num(u.bedrooms as real)
    case Stories => Num(u.stories as real)
    case GarageSpaces => Num(u.garageSpaces as real)
    case LotSizeSquareFeet => Num(u.lotSizeSqft as real)
    case ViewYN => Flag(FlagOf(u.view))
    case PoolPrivateYN => Flag(FlagOf(u.pool))
    case AttachedGarageYN => Flag(FlagOf(u.attachedGarage))
    case FireplaceYN => Flag(FlagOf(u.fireplace))
    case NewConstructionYN => Flag(FlagOf(u.newConstruction))
    case SalesTaxRate => Num(0.075)
    case UNRATE => Num(0.037)
    case MORTGAGE30US => Num(0.066)
    case FEDFUNDS => Num(0.053)
    case CPIAUCNS => Num(305.1)
    case Age => Num(20.0)
    case LotDensity => Num(u.lotSizeSqft as real / SquareFeetPerAcre)
    case ParkingTotal => Num(u.garageSpaces as real)
    case FireplacesTotal => Num(1.0)
    case City => Str("Mountain View")
    case CountyOrParish => Str("Santa Clara")
    case PostalCode => Str("94043")
    case Levels => Str("One")
    case StateOrProvince => Str("CA")
    case PropertySubType => Str("SingleFamilyResidence")
    case HighSchoolDistrict => Str("Mountain View-Los Altos Union")
    case District => Str("Mountain View")
    case FlooringType => Str("Hardwood")
  }

  /**
   * The mapping of the Simple-mode `input_data`; the order of its keys is
   * SimpleColumnOrder, which lists every feature (ColumnOrders).
   */
  function SimpleRecord(u: SimpleInputs, lat: real, lon: real): map<Feature, Value> {
    map f | f in AllFeatures :: SimpleEntry(u, lat, lon, f)
  }

  /** The value the Full-mode `input_data` literal gives each key, given the geocoded coordinates. */
  function FullEntry(u: FullInputs, lat: real, lon: real, f: Feature): Value {
    match f
    case Latitude => Num(lat)
    case Longitude => Num(lon)
    case BedroomsTotal => Num(u.bedrooms as real)
    case BathroomsTotalInteger => Num(u.bathrooms as real)
    case Stories => Num(u.stories as real)
    case FireplacesTotal => Num(u.fireplacesTotal as real)
    case GarageSpaces => Num(u.garageSpaces as real)
    case ParkingTotal => Num(u.parkingTotal as real)
    case LotSizeSquareFeet => Num(u.lotSizeSqft as real)
    case LivingArea => Num(u.livingArea as real)
    case Age => Num(u.age as real)
    case LotDensity => Num(u.lotDensity)
    case SalesTaxRate => Num(u.salesTaxRate)
    case UNRATE => Num(u.unrate)
    case MORTGAGE30US => Num(u.mortgageRate)
    case FEDFUNDS => Num(u.fedFunds)
    case CPIAUCNS => Num(u.cpi)
    case ViewYN => Flag(FlagOf(u.view))
    case PoolPrivateYN => Flag(FlagOf(u.pool))
    case AttachedGarageYN => Flag(FlagOf(u.attachedGarage))
    case FireplaceYN => Flag(FlagOf(u.fireplace))
    case NewConstructionYN => Flag(FlagOf(u.newConstruction))
    case City => Str(u.city)
    case CountyOrParish => Str(u.county)
    case PostalCode => Str(u.postalCode)
    case Levels => Str(u.levels)
    case StateOrProvince => Str(u.state)
    case PropertySubType => Str(u.propertySubType)
    case HighSchoolDistrict => Str(u.highSchoolDistrict)
    case District => Str(u.district)
    case FlooringType => Str(u.flooringType)
  }

  /**
   * The mapping of the Full-mode `input_data`; the order of its keys is
   * FullColumnOrder, which lists every feature (ColumnOrders).
   */
  function FullRecord(u: FullInputs, lat: real, lon: real): map<Feature, Value> {
    map f | f in AllFeatures :: FullEntry(u, lat, lon, f)
  }

  /** The `input_data` of whichever mode the form is in. */
  function Assemble(form: Form, lat: real, lon: real): map<Feature, Value> {
    match form
    case SimpleForm(u) => SimpleRecord(u, lat, lon)
    case FullForm(u) => FullRecord(u, lat, lon)
  }

  /** The key order of the `input_data` of the form's mode. */
  function ColumnOrder(form: Form): seq<Feature> {
    if form.SimpleForm? then SimpleColumnOrder else FullColumnOrder
  }

  /** The state of each amenity checkbox of the form, by feature. */
  function Checkbox(form: Form, f: Feature): bool
    requires f in AmenityFeatures
  {
    var (view, pool, attached, fireplace, newConstruction) :=
      match form
      case SimpleForm(u) => (u.view, u.pool, u.attachedGarage, u.fireplace, u.newConstruction)
      case FullForm(u) => (u.view, u.pool, u.attachedGarage, u.fireplace, u.newConstruction);
    match f
    case ViewYN => view
    case PoolPrivateYN => pool
    case AttachedGarageYN => attached
    case FireplaceYN => fireplace
    case NewConstructionYN => newConstruction
  }

  /** The 29 input widgets of Full mode, one per field of FullInputs. */
  datatype Widget =
    | BedroomsWidget | BathroomsWidget | StoriesWidget | FireplacesWidget | GarageWidget
    | ParkingWidget | LotSizeWidget | LivingAreaWidget | AgeWidget | LotDensityWidget
    | SalesTaxWidget | UnemploymentWidget | MortgageRateWidget | FedFundsWidget
    | CpiWidget | ViewBox | PoolBox | AttachedGarageBox | FireplaceBox
    | NewConstructionBox | CityWidget | PostalCodeWidget | CountyWidget | StateWidget
    | PropertySubTypeWidget | LevelsWidget | DistrictWidget | HighSchoolWidget
    | FlooringWidget

  /** The feature each Full-mode widget's value is stored under. */
  function Feeds(w: Widget): Feature {
    match w
    case BedroomsWidget => BedroomsTotal
    case BathroomsWidget => BathroomsTotalInteger
    case StoriesWidget => Stories
    case FireplacesWidget => FireplacesTotal
    case GarageWidget => GarageSpaces
    case ParkingWidget => ParkingTotal
    case LotSizeWidget => LotSizeSquareFeet
    case LivingAreaWidget => LivingArea
    case AgeWidget => Age
    case LotDensityWidget => LotDensity
    case SalesTaxWidget => SalesTaxRate
    case UnemploymentWidget => UNRATE
    case MortgageRateWidget => MORTGAGE30US
    case FedFundsWidget => FEDFUNDS
    case CpiWidget => CPIAUCNS
    case ViewBox => ViewYN
    case PoolBox => PoolPrivateYN
    case AttachedGarageBox => AttachedGarageYN
    case FireplaceBox => FireplaceYN
    case NewConstructionBox => NewConstructionYN
    case CityWidget => City
    case PostalCodeWidget => PostalCode
    case CountyWidget => CountyOrParish
    case StateWidget => StateOrProvince
    case PropertySubTypeWidget => PropertySubType
    case LevelsWidget => Levels
    case DistrictWidget => District
    case HighSchoolWidget => HighSchoolDistrict
    case FlooringWidget => FlooringType
  }

  /** The widget that feeds a feature, if any: none feeds the geocoded coordinates. */
  function WidgetFor(f: Feature): Option<Widget> {
    match f
    case Latitude => None
    case Longitude => None
    case BedroomsTotal => Some(BedroomsWidget)
    case BathroomsTotalInteger => Some(BathroomsWidget)
    case Stories => Some(StoriesWidget)
    case FireplacesTotal => Some(FireplacesWidget)
    case GarageSpaces => Some(GarageWidget)
    case ParkingTotal => Some(ParkingWidget)
    case LotSizeSquareFeet => Some(LotSizeWidget)
    case LivingArea => Some(LivingAreaWidget)
    case Age => Some(AgeWidget)
    case LotDensity => Some(LotDensityWidget)
    case SalesTaxRate => Some(SalesTaxWidget)
    case UNRATE => Some(UnemploymentWidget)
    case MORTGAGE30US => Some(MortgageRateWidget)
    case FEDFUNDS => Some(FedFundsWidget)
    case CPIAUCNS => Some(CpiWidget)
    case ViewYN => Some(ViewBox)
    case PoolPrivateYN => Some(PoolBox)
    case AttachedGarageYN => Some(AttachedGarageBox)
    case FireplaceYN => Some(FireplaceBox)
    case NewConstructionYN => Some(NewConstructionBox)
    case City => Some(CityWidget)
    case PostalCode => Some(PostalCodeWidget)
    case CountyOrParish => Some(CountyWidget)
    case StateOrProvince => Some(StateWidget)
    case PropertySubType => Some(PropertySubTypeWidget)
    case Levels => Some(LevelsWidget)
    case District => Some(DistrictWidget)
    case HighSchoolDistrict => Some(HighSchoolWidget)
    case FlooringType => Some(FlooringWidget)
  }

  /** What a Full-mode widget reads, as the dictionary stores it: a number, a 0/1 flag or a string. */
  function WidgetValue(u: FullInputs, w: Widget): Value {
    match w
    case BedroomsWidget => Num(u.bedrooms as real)
    case BathroomsWidget => Num(u.bathrooms as real)
    case StoriesWidget => Num(u.stories as real)
    case FireplacesWidget => Num(u.fireplacesTotal as real)
    case GarageWidget => Num(u.garageSpaces as real)
    case ParkingWidget => Num(u.parkingTotal as real)
    case LotSizeWidget => Num(u.lotSizeSqft as real)
    case LivingAreaWidget => Num(u.livingArea as real)
    case AgeWidget => Num(u.age as real)
    case LotDensityWidget => Num(u.lotDensity)
    case SalesTaxWidget => Num(u.salesTaxRate)
    case UnemploymentWidget => Num(u.unrate)
    case MortgageRateWidget => Num(u.mortgageRate)
    case FedFundsWidget => Num(u.fedFunds)
    case CpiWidget => Num(u.cpi)
    case ViewBox => Flag(FlagOf(u.view))
    case PoolBox => Flag(FlagOf(u.pool))
    case AttachedGarageBox => Flag(FlagOf(u.attachedGarage))
    case FireplaceBox => Flag(FlagOf(u.fireplace))
    case NewConstructionBox => Flag(FlagOf(u.newConstruction))
    case CityWidget => Str(u.city)
    case PostalCodeWidget => Str(u.postalCode)
    case CountyWidget => Str(u.county)
    case StateWidget => Str(u.state)
    case PropertySubTypeWidget => Str(u.propertySubType)
    case LevelsWidget => Str(u.levels)
    case DistrictWidget => Str(u.district)
    case HighSchoolWidget => Str(u.highSchoolDistrict)
    case FlooringWidget => Str(u.flooringType)
  }

  /** The Full-mode widgets u with widget w's field set as in v, and every other field as in u. */
  function Edit(u: FullInputs, w: Widget, v: FullInputs): FullInputs {
    match w
    case BedroomsWidget => u.(bedrooms := v.bedrooms)
    case BathroomsWidget => u.(bathrooms := v.bathrooms)
    case StoriesWidget => u.(stories := v.stories)
    case FireplacesWidget => u.(fireplacesTotal := v.fireplacesTotal)
    case GarageWidget => u.(garageSpaces := v.garageSpaces)
    case ParkingWidget => u.(parkingTotal := v.parkingTotal)
    case LotSizeWidget => u.(lotSizeSqft := v.lotSizeSqft)
    case LivingAreaWidget => u.(livingArea := v.livingArea)
    case AgeWidget => u.(age := v.age)
    case LotDensityWidget => u.(lotDensity := v.lotDensity)
    case SalesTaxWidget => u.(salesTaxRate := v.salesTaxRate)
    case UnemploymentWidget => u.(unrate := v.unrate)
    case MortgageRateWidget => u.(mortgageRate := v.mortgageRate)
    case FedFundsWidget => u.(fedFunds := v.fedFunds)
    case CpiWidget => u.(cpi := v.cpi)
    case ViewBox => u.(view := v.view)
    case PoolBox => u.(pool := v.pool)
    case AttachedGarageBox => u.(attachedGarage := v.attachedGarage)
    case FireplaceBox => u.(fireplace := v.fireplace)
    case NewConstructionBox => u.(newConstruction := v.newConstruction)
    case CityWidget => u.(city := v.city)
    case PostalCodeWidget => u.(postalCode := v.postalCode)
    case CountyWidget => u.(county := v.county)
    case StateWidget => u.(state := v.state)
    case PropertySubTypeWidget => u.(propertySubType := v.propertySubType)
    case LevelsWidget => u.(levels := v.levels)
    case DistrictWidget => u.(district := v.district)
    case HighSchoolWidget => u.(highSchoolDistrict := v.highSchoolDistrict)
    case FlooringWidget => u.(flooringType := v.flooringType)
  }

  /**
   * The Full-mode widgets a user ends up with who enters the Simple-mode
   * values, copies the garage count into the parking input and leaves every
   * other widget at its default.
   */
  function FullFrom(s: SimpleInputs): FullInputs {
    FullDefaults(s.lotSizeSqft).(
      bedrooms := s.bedrooms, bathrooms := s.bathrooms, stories := s.stories,
      garageSpaces := s.garageSpaces, parkingTotal := s.garageSpaces, livingArea := s.livingArea,
      view := s.view, pool := s.pool, attachedGarage := s.attachedGarage,
      fireplace := s.fireplace, newConstruction := s.newConstruction)
  }

  // ---- Properties of the two records ----

  /** Every feature is a key of both dictionary literals. */
  lemma InColumnOrders(f: Feature)
    ensures f in SimpleColumnOrder && f in FullColumnOrder
  {
    InSimpleColumnOrder(f);
    InFullColumnOrder(f);
  }

  lemma InSimpleColumnOrder(f: Feature)
    ensures SimplePosition(f) < 31 && SimpleColumnOrder[SimplePosition(f)] == f
  {
  }

  lemma InFullColumnOrder(f: Feature)
    ensures FullPosition(f) < 31 && FullColumnOrder[FullPosition(f)] == f
  {
  }

  /**
   * Both modes build records over the same keys, and every feature is a
   * key of the record and is listed by the key order of its mode.
   */
  lemma RecordKeys(form1: Form, lat1: real, lon1: real, form2: Form, lat2: real, lon2: real)
    ensures Assemble(form1, lat1, lon1).Keys == Assemble(form2, lat2, lon2).Keys
    ensures forall f :: f in Assemble(form1, lat1, lon1) && f in ColumnOrder(form1)
  {
    forall f ensures f in Assemble(form1, lat1, lon1) && f in ColumnOrder(form1) {
      InColumnOrders(f);
    }
  }

  /**
   * The features split into the geocoded pair and the groups of the
   * Full-mode form's three widget columns (the third holding the checkboxes
   * and the categorical text and select inputs).
   */
  lemma FeatureGroups()
    ensures AllFeatures == Geocoded + PropertyFacts + Indicators + AmenityFeatures + Categoricals
    ensures forall f :: f in StringColumns <==> f in Categoricals
  {
  }

  /** The column index each feature gets in the Simple-mode frame. */
  function SimplePosition(f: Feature): nat {
    match f
    case Latitude => 0 case Longitude => 1 case LivingArea => 2 case BathroomsTotalInteger => 3
    case BedroomsTotal => 4 case Stories => 5 case GarageSpaces => 6 case LotSizeSquareFeet => 7
    case ViewYN => 8 case PoolPrivateYN => 9 case AttachedGarageYN => 10 case FireplaceYN => 11
    case NewConstructionYN => 12 case SalesTaxRate => 13 case UNRATE => 14 case MORTGAGE30US => 15
    case FEDFUNDS => 16 case CPIAUCNS => 17 case Age => 18 case LotDensity => 19
    case ParkingTotal => 20 case FireplacesTotal => 21 case City => 22 case CountyOrParish => 23
    case PostalCode => 24 case Levels => 25 case StateOrProvince => 26 case PropertySubType => 27
    case HighSchoolDistrict => 28 case District => 29 case FlooringType => 30
  }

  /** The column index each feature gets in the Full-mode frame. */
  function FullPosition(f: Feature): nat {
    match f
    case Latitude => 0 case Longitude => 1 case BedroomsTotal => 2 case BathroomsTotalInteger => 3
    case Stories => 4 case FireplacesTotal => 5 case GarageSpaces => 6 case ParkingTotal => 7
    case LotSizeSquareFeet => 8 case LivingArea => 9 case Age => 10 case LotDensity => 11
    case SalesTaxRate => 12 case UNRATE => 13 case MORTGAGE30US => 14 case FEDFUNDS => 15
    case CPIAUCNS => 16 case ViewYN => 17 case PoolPrivateYN => 18 case AttachedGarageYN => 19
    case FireplaceYN => 20 case NewConstructionYN => 21 case City => 22 case CountyOrParish => 23
    case PostalCode => 24 case Levels => 25 case StateOrProvince => 26 case PropertySubType => 27
    case HighSchoolDistrict => 28 case District => 29 case FlooringType => 30
  }

  /** The index of each feature in the key order of the form's mode. */
  function Position(form: Form, f: Feature): nat {
    if form.SimpleForm? then SimplePosition(f) else FullPosition(f)
  }

  /** The Simple-mode literal lists each feature once, at its position. */
  lemma SimpleColumnPositions()
    ensures |SimpleColumnOrder| == 31
    ensures forall i :: 0 <= i < 31 ==> SimplePosition(SimpleColumnOrder[i]) == i
  {
    SimpleColumnPositionsLow();
    SimpleColumnPositionsHigh();
  }

  lemma SimpleColumnPositionsLow()
    ensures forall i :: 0 <= i < 16 ==> SimplePosition(SimpleColumnOrder[i]) == i
  {
  }

  lemma SimpleColumnPositionsHigh()
    ensures forall i :: 16 <= i < 31 ==> SimplePosition(SimpleColumnOrder[i]) == i
  {
  }

  /** The Full-mode literal lists each feature once, at its position. */
  lemma FullColumnPositions()
    ensures |FullColumnOrder| == 31
    ensures forall i :: 0 <= i < 31 ==> FullPosition(FullColumnOrder[i]) == i
  {
    FullColumnPositionsLow();
    FullColumnPositionsHigh();
  }

  lemma FullColumnPositionsLow()
    ensures forall i :: 0 <= i < 16 ==> FullPosition(FullColumnOrder[i]) == i
  {
  }

  lemma FullColumnPositionsHigh()
    ensures forall i :: 16 <= i < 31 ==> FullPosition(FullColumnOrder[i]) == i
  {
  }

  /**
   * Each dictionary literal lists every feature exactly once, and the two
   * literals list them in different orders.
   */
  lemma ColumnOrders(form: Form)
    ensures |ColumnOrder(form)| == 31
    ensures forall f :: f in ColumnOrder(form)
    ensures forall i, j :: 0 <= i < j < 31 ==> ColumnOrder(form)[i] != ColumnOrder(form)[j]
    ensures SimpleColumnOrder != FullColumnOrder
  {
    assert SimpleColumnOrder[2] != FullColumnOrder[2];
    forall f ensures f in ColumnOrder(form) {
      InColumnOrders(f);
    }
    SimpleColumnPositions();
    FullColumnPositions();
    assert forall i :: 0 <= i < 31 ==> Position(form, ColumnOrder(form)[i]) == i;
  }

  /** The value the dictionary literal of the form's mode gives each key. */
  function Entry(form: Form, lat: real, lon: real, f: Feature): Value {
    match form
    case SimpleForm(u) => SimpleEntry(u, lat, lon, f)
    case FullForm(u) => FullEntry(u, lat, lon, f)
  }

  /** Every feature is a key of the Simple-mode record and holds its literal's entry. */
  lemma SimpleRecordAt(u: SimpleInputs, lat: real, lon: real, f: Feature)
    ensures f in SimpleRecord(u, lat, lon) && SimpleRecord(u, lat, lon)[f] == SimpleEntry(u, lat, lon, f)
  {
  }

  /** Every feature is a key of the Full-mode record and holds its literal's entry. */
  lemma FullRecordAt(u: FullInputs, lat: real, lon: real, f: Feature)
    ensures f in FullRecord(u, lat, lon) && FullRecord(u, lat, lon)[f] == FullEntry(u, lat, lon, f)
  {
  }

  /** Every feature is a key of the assembled record and holds its literal's entry. */
  lemma RecordAt(form: Form, lat: real, lon: real, f: Feature)
    ensures f in Assemble(form, lat, lon) && Assemble(form, lat, lon)[f] == Entry(form, lat, lon, f)
  {
    match form
    case SimpleForm(u) => SimpleRecordAt(u, lat, lon, f);
    case FullForm(u) => FullRecordAt(u, lat, lon, f);
  }

  /** Both modes put the geocoded coordinates into Latitude and Longitude. */
  lemma RecordCoordinates(form: Form, lat: real, lon: real)
    ensures Assemble(form, lat, lon)[Latitude] == Num(lat)
    ensures Assemble(form, lat, lon)[Longitude] == Num(lon)
  {
    RecordAt(form, lat, lon, Latitude);
    RecordAt(form, lat, lon, Longitude);
  }

  /** Each amenity feature is 1 exactly when its checkbox is ticked, in both modes. */
  lemma AmenityFlags(form: Form, lat: real, lon: real)
    ensures forall f :: f in AmenityFeatures ==>
      f in Assemble(form, lat, lon) && Assemble(form, lat, lon)[f] == Flag(if Checkbox(form, f) then 1 else 0)
  {
    forall f | f in AmenityFeatures
      ensures f in Assemble(form, lat, lon) && Assemble(form, lat, lon)[f] == Flag(if Checkbox(form, f) then 1 else 0)
    {
      RecordAt(form, lat, lon, f);
    }
  }

  /** Both modes fill every categorical feature with a string. */
  lemma CategoricalsAreStrings(form: Form, lat: real, lon: real)
    ensures forall f :: f in Categoricals ==> f in Assemble(form, lat, lon) && Assemble(form, lat, lon)[f].Str?
  {
    assert forall f :: f in Categoricals ==> Entry(form, lat, lon, f).Str?;
    forall f | f in Categoricals
      ensures f in Assemble(form, lat, lon) && Assemble(form, lat, lon)[f].Str?
    {
      RecordAt(form, lat, lon, f);
    }
  }

  /** Simple mode derives ParkingTotal and LotDensity from the garage count and the lot size. */
  lemma SimpleDerivedFields(u: SimpleInputs, lat: real, lon: real)
    ensures ParkingTotal in SimpleRecord(u, lat, lon) && GarageSpaces in SimpleRecord(u, lat, lon)
    ensures LotDensity in SimpleRecord(u, lat, lon) && LotSizeSquareFeet in SimpleRecord(u, lat, lon)
    ensures SimpleRecord(u, lat, lon)[ParkingTotal] == SimpleRecord(u, lat, lon)[GarageSpaces]
    ensures SimpleRecord(u, lat, lon)[LotDensity].Num?
    ensures SimpleRecord(u, lat, lon)[LotDensity].n * SquareFeetPerAcre
         == SimpleRecord(u, lat, lon)[LotSizeSquareFeet].n
  {
    SimpleRecordAt(u, lat, lon, ParkingTotal);
    SimpleRecordAt(u, lat, lon, GarageSpaces);
    SimpleRecordAt(u, lat, lon, LotDensity);
    SimpleRecordAt(u, lat, lon, LotSizeSquareFeet);
  }

  /** Simple mode gives every feature SimpleDefault fixes that literal, whatever the inputs. */
  lemma SimpleFixedDefaults(u: SimpleInputs, lat: real, lon: real)
    ensures forall f :: SimpleDefault(f).Some? ==>
      f !in Geocoded && f in SimpleRecord(u, lat, lon) && SimpleRecord(u, lat, lon)[f] == SimpleDefault(f).value
  {
    forall f | SimpleDefault(f).Some?
      ensures f !in Geocoded && f in SimpleRecord(u, lat, lon) && SimpleRecord(u, lat, lon)[f] == SimpleDefault(f).value
    {
      SimpleRecordAt(u, lat, lon, f);
    }
  }

  /** So those features of a Simple-mode record do not depend on anything the user enters. */
  lemma SimpleFixedIgnoresInputs(u1: SimpleInputs, lat1: real, lon1: real,
                                 u2: SimpleInputs, lat2: real, lon2: real)
    ensures forall f :: SimpleDefault(f).Some? ==> SimpleRecord(u1, lat1, lon1)[f] == SimpleRecord(u2, lat2, lon2)[f]
  {
    SimpleFixedDefaults(u1, lat1, lon1);
    SimpleFixedDefaults(u2, lat2, lon2);
  }

  /**
   * Widgets and the features they feed correspond one to one: each widget
   * feeds its own feature, and every feature but the coordinates is fed by
   * exactly one widget.
   */
  lemma WidgetsFeedFeatures()
    ensures forall w :: Feeds(w) !in Geocoded && WidgetFor(Feeds(w)) == Some(w)
    ensures forall f :: f !in Geocoded <==> WidgetFor(f).Some?
    ensures forall f :: WidgetFor(f).Some? ==> Feeds(WidgetFor(f).value) == f
    ensures forall w1, w2 :: Feeds(w1) == Feeds(w2) ==> w1 == w2
  {
    forall w ensures Feeds(w) !in Geocoded && WidgetFor(Feeds(w)) == Some(w) {
      FeedsInverse(w);
    }
    forall f | WidgetFor(f).Some? ensures Feeds(WidgetFor(f).value) == f {
      WidgetForInverse(f);
    }
  }

  lemma FeedsInverse(w: Widget)
    ensures Feeds(w) !in Geocoded && WidgetFor(Feeds(w)) == Some(w)
  {
  }

  lemma WidgetForInverse(f: Feature)
    ensures WidgetFor(f).Some? ==> Feeds(WidgetFor(f).value) == f
    ensures WidgetFor(f).None? <==> f in Geocoded
  {
  }

  /** In Full mode the feature each widget feeds holds that widget's value, unchanged. */
  lemma FullTakesInputs(u: FullInputs, lat: real, lon: real)
    ensures forall w :: Feeds(w) in FullRecord(u, lat, lon) && FullRecord(u, lat, lon)[Feeds(w)] == WidgetValue(u, w)
  {
    forall w ensures Feeds(w) in FullRecord(u, lat, lon) && FullRecord(u, lat, lon)[Feeds(w)] == WidgetValue(u, w) {
      FullRecordAt(u, lat, lon, Feeds(w));
      FeedsValue(u, w, lat, lon);
    }
  }

  lemma FeedsValue(u: FullInputs, w: Widget, lat: real, lon: real)
    ensures FullEntry(u, lat, lon, Feeds(w)) == WidgetValue(u, w)
  {
  }

  /**
   * Changing one Full-mode widget changes only the feature that widget
   * feeds: after setting widget w of u to its value in v, the record agrees
   * with u's record everywhere but at Feeds(w), and with v's record there.
   */
  lemma FullLocality(u: FullInputs, w: Widget, v: FullInputs, lat: real, lon: real)
    ensures forall f :: f != Feeds(w) ==> FullRecord(Edit(u, w, v), lat, lon)[f] == FullRecord(u, lat, lon)[f]
    ensures FullRecord(Edit(u, w, v), lat, lon)[Feeds(w)] == FullRecord(v, lat, lon)[Feeds(w)]
  {
    var e := Edit(u, w, v);
    forall f ensures f in FullRecord(e, lat, lon) && f in FullRecord(u, lat, lon) && f in FullRecord(v, lat, lon)
      ensures f != Feeds(w) ==> FullRecord(e, lat, lon)[f] == FullRecord(u, lat, lon)[f]
      ensures f == Feeds(w) ==> FullRecord(e, lat, lon)[f] == FullRecord(v, lat, lon)[f]
    {
      FullRecordAt(e, lat, lon, f);
      FullRecordAt(u, lat, lon, f);
      FullRecordAt(v, lat, lon, f);
      EditEntry(u, w, v, lat, lon, f);
    }
  }

  /** The entry of one feature after one widget is edited. */
  lemma EditEntry(u: FullInputs, w: Widget, v: FullInputs, lat: real, lon: real, f: Feature)
    ensures f != Feeds(w) ==> FullEntry(Edit(u, w, v), lat, lon, f) == FullEntry(u, lat, lon, f)
    ensures f == Feeds(w) ==> FullEntry(Edit(u, w, v), lat, lon, f) == FullEntry(v, lat, lon, f)
  {
    if f == Feeds(w) {
      EditAt(u, w, v, lat, lon);
    } else if WidgetPanel(w) == 0 {
      EditElsewherePropertyFacts(u, w, v, lat, lon, f);
    } else if WidgetPanel(w) == 1 {
      EditElsewhereIndicators(u, w, v, lat, lon, f);
    } else if WidgetPanel(w) == 2 {
      EditElsewhereCheckboxes(u, w, v, lat, lon, f);
    } else {
      EditElsewhereText(u, w, v, lat, lon, f);
    }
  }

  /**
   * Where a widget sits on the Full form: 0 for the property facts of the
   * first column, 1 for the age and indicators of the second, 2 for the
   * checkboxes and 3 for the text and select inputs of the third.
   */
  function WidgetPanel(w: Widget): nat {
    match w
    case BedroomsWidget => 0
    case BathroomsWidget => 0
    case StoriesWidget => 0
    case FireplacesWidget => 0
    case GarageWidget => 0
    case ParkingWidget => 0
    case LotSizeWidget => 0
    case LivingAreaWidget => 0
    case AgeWidget => 1
    case LotDensityWidget => 1
    case SalesTaxWidget => 1
    case UnemploymentWidget => 1
    case MortgageRateWidget => 1
    case FedFundsWidget => 1
    case CpiWidget => 1
    case ViewBox => 2
    case PoolBox => 2
    case AttachedGarageBox => 2
    case FireplaceBox => 2
    case NewConstructionBox => 2
    case CityWidget => 3
    case PostalCodeWidget => 3
    case CountyWidget => 3
    case StateWidget => 3
    case PropertySubTypeWidget => 3
    case LevelsWidget => 3
    case DistrictWidget => 3
    case HighSchoolWidget => 3
    case FlooringWidget => 3
  }

  /** The panels of the Full form group the widgets by the feature groups they feed. */
  lemma WidgetPanels()
    ensures forall w :: WidgetPanel(w) <= 3
    ensures forall w :: WidgetPanel(w) == 0 <==> Feeds(w) in PropertyFacts
    ensures forall w :: WidgetPanel(w) == 1 <==> Feeds(w) in Indicators
    ensures forall w :: WidgetPanel(w) == 2 <==> Feeds(w) in AmenityFeatures
    ensures forall w :: WidgetPanel(w) == 3 <==> Feeds(w) in Categoricals
  {
  }

  lemma EditAt(u: FullInputs, w: Widget, v: FullInputs, lat: real, lon: real)
    ensures FullEntry(Edit(u, w, v), lat, lon, Feeds(w)) == FullEntry(v, lat, lon, Feeds(w))
  {
  }

  lemma EditElsewherePropertyFacts(u: FullInputs, w: Widget, v: FullInputs, lat: real, lon: real, f: Feature)
    requires WidgetPanel(w) == 0 && f != Feeds(w)
    ensures FullEntry(Edit(u, w, v), lat, lon, f) == FullEntry(u, lat, lon, f)
  {
  }

  lemma EditElsewhereIndicators(u: FullInputs, w: Widget, v: FullInputs, lat: real, lon: real, f: Feature)
    requires WidgetPanel(w) == 1 && f != Feeds(w)
    ensures FullEntry(Edit(u, w, v), lat, lon, f) == FullEntry(u, lat, lon, f)
  {
  }

  lemma EditElsewhereCheckboxes(u: FullInputs, w: Widget, v: FullInputs, lat: real, lon: real, f: Feature)
    requires WidgetPanel(w) == 2 && f != Feeds(w)
    ensures FullEntry(Edit(u, w, v), lat, lon, f) == FullEntry(u, lat, lon, f)
  {
  }

  lemma EditElsewhereText(u: FullInputs, w: Widget, v: FullInputs, lat: real, lon: real, f: Feature)
    requires WidgetPanel(w) == 3 && f != Feeds(w)
    ensures FullEntry(Edit(u, w, v), lat, lon, f) == FullEntry(u, lat, lon, f)
  {
  }

  /**
   * Simple mode is Full mode with the Full form's defaults: the Simple
   * record is the Full record of the widgets FullFrom describes.
   */
  lemma SimpleIsFullWithDefaults(s: SimpleInputs, lat: real, lon: real)
    ensures SimpleRecord(s, lat, lon) == FullRecord(FullFrom(s), lat, lon)
  {
    var r1, r2 := SimpleRecord(s, lat, lon), FullRecord(FullFrom(s), lat, lon);
    forall f ensures f in r1 && f in r2 && r1[f] == r2[f] {
      SimpleRecordAt(s, lat, lon, f);
      FullRecordAt(FullFrom(s), lat, lon, f);
    }
    assert r1.Keys == r2.Keys;
  }

  /**
   * With every widget untouched the two modes build the same record, and
   * the untouched widgets respect their own bounds.
   */
  lemma UntouchedFormsAgree(lat: real, lon: real)
    ensures SimpleDefaults.InBounds() && FullDefaults(SimpleDefaults.lotSizeSqft).InBounds()
    ensures FullFrom(SimpleDefaults) == FullDefaults(SimpleDefaults.lotSizeSqft)
    ensures SimpleRecord(SimpleDefaults, lat, lon) == FullRecord(FullDefaults(SimpleDefaults.lotSizeSqft), lat, lon)
  {
    SimpleIsFullWithDefaults(SimpleDefaults, lat, lon);
  }
}
