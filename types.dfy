/** The application's enums and records: the household-business groups and
    categories, the corporate sectors, and the value records the calculators
    and dashboards work on. */
module Types {

  datatype Option<+T> = None | Some(value: T)

  /** The household-business (HKD) revenue tiers, plus the state before any
      classification has been made. */
  datatype HKDGroup = Group1 | Group2 | Group3 | Undetermined

  /** The coarse business sector the wizard stores with the group. */
  datatype BusinessSector = RetailRestaurant | Manufacturing | Services | OtherSector

  /** Corporate-income-tax sectors: the seven incentivised ones, the plain
      "Standard" sector and the VSIC-based standard sectors. */
  datatype CorporateSector =
    | Software | HighTech | HighTechAgriculture | SocialEnterprise | Startup | SmeTier1 | SmeTier2
    | Standard
    | CropAndAnimalProduction | ForestryAndLogging | FishingAndAquaculture
    | MiningOfCoal | MiningOfCrudePetroleumAndNaturalGas | MiningOfMetalOres | OtherMiningAndQuarrying
    | MiningSupportServiceActivities
    | FoodProcessing | BeverageProduction | TextileProduction | WoodProcessing | PaperProduction
    | PrintingAndReproduction | CokeAndRefinedPetroleum | ChemicalProduction | PharmaceuticalProduction
    | RubberAndPlastic | NonMetallicMineral | BasicMetalProduction | FabricatedMetal
    | ElectronicsAndOptics | ElectricalEquipment | MachineryAndEquipment | MotorVehicleProduction
    | OtherTransportEquipment | FurnitureProduction | OtherManufacturing | RepairAndInstallationOfMachinery
    | ElectricitySupply
    | WaterCollectionAndSupply | WasteCollectionAndTreatment
    | BuildingConstruction | CivilEngineeringConstruction | SpecializedConstructionActivities
    | WholesaleTrade | RetailTrade | RepairOfMotorVehicles
    | LandTransport | WaterwayTransport | AirTransport | WarehousingAndSupport | PostalAndCourier
    | Accommodation | FoodAndBeverageService
    | PublishingActivities | FilmAndBroadcasting | Telecommunications | ITAndComputerServices
    | InformationService
    | FinancialService
    | RealEstate
    | LegalAndAccounting | ManagementConsultancy | ArchitecturalAndEngineering | ScientificResearch
    | AdvertisingAndMarketResearch | OtherProfessionalScientific | VeterinaryActivities
    | RentalOfMachinery | EmploymentActivities | TravelAgency | SecurityAndInvestigation
    | BuildingAndLandscape | OfficeAdminAndSupport
    | Education
    | HumanHealth | ResidentialCare | SocialWork
    | ArtsAndEntertainment | LibrariesAndMuseums | GamblingAndBetting | SportsAndRecreation
    | MembershipOrganizations | RepairOfComputers | OtherPersonalServices

  /** The nine household-business categories, in the enum's declaration order. */
  datatype BusinessCategory =
    | Distribution
    | LodgingAndCatering
    | ConsumerServices
    | ConstructionNoMaterials
    | ConstructionWithMaterials
    | AssetRental
    | ProductionTransport
    | Brokerage
    | OtherBusiness

  datatype ExpenseCategory =
    | RawMaterials | ToolsAndSupplies | Rent | Staff | Marketing | OfficeSupplies | Utilities
    | Transportation | OtherExpense

  /** An upper bound of a tax bracket; the last bracket of a table is unbounded. */
  datatype Limit = Finite(amount: int) | Unbounded

  /** A marginal band: income up to `limit` (above the previous band's limit)
      is taxed at `rate`. */
  datatype PITBracket = PITBracket(limit: Limit, rate: real)

  /** A corporate-income-tax incentive. `preferentialRate` is -1 when the
      incentive is not rate-based; `reductionYears` counts the years taxed at
      a 50% reduction. */
  datatype TaxIncentive = TaxIncentive(
    sector: CorporateSector,
    preferentialRate: real,
    exemptionYears: nat,
    reductionYears: nat)

  /** A calendar date as the browser reports it: `monthIndex` counts from 0
      (January) to 11 (December). */
  datatype Date = Date(year: int, monthIndex: int, day: int)

  /** A revenue entry of a household business: one category, one amount. */
  datatype Transaction = Transaction(
    id: string,
    date: Date,
    amount: int,
    category: BusinessCategory,
    description: string)

  datatype LineItem = LineItem(id: string, name: string, quantity: int, unitPrice: int)

  /** An expense invoice; `amount` is the total of its line items. */
  datatype InputInvoice = InputInvoice(
    id: string,
    date: Date,
    supplierName: string,
    supplierTaxCode: string,
    description: string,
    amount: int,
    expenseCategory: ExpenseCategory,
    lineItems: seq<LineItem>,
    imageUrl: Option<string>)

  datatype Dependent = Dependent(id: string, name: string, monthlyIncome: int)

  /** Every business category, in declaration order (the order of
      `Object.keys(BusinessCategory)`). */
  const AllCategories: seq<BusinessCategory> := [
    Distribution, LodgingAndCatering, ConsumerServices, ConstructionNoMaterials,
    ConstructionWithMaterials, AssetRental, ProductionTransport, Brokerage, OtherBusiness
  ]

  /** The category list holds nine distinct categories and every category. */
  lemma AllCategoriesComplete(c: BusinessCategory)
    ensures |AllCategories| == 9
    ensures c in AllCategories
    ensures forall i, j :: 0 <= i < j < |AllCategories| ==> AllCategories[i] != AllCategories[j]
  {
  }

  /** The text each category stands for, as shown and as stored. */
  function CategoryName(c: BusinessCategory): string {
    match c
    case Distribution => "Phân phối, cung cấp hàng hóa (bán lẻ, bán buôn, tạp hóa)"
    case LodgingAndCatering => "Dịch vụ lưu trú, ăn uống (nhà hàng, khách sạn, quán ăn, cafe)"
    case ConsumerServices => "Dịch vụ khác (sửa chữa, spa, cắt tóc, giặt là, cho thuê LĐ)"
    case ConstructionNoMaterials => "Xây dựng (không bao thầu nguyên vật liệu)"
    case ConstructionWithMaterials => "Xây dựng (có bao thầu nguyên vật liệu)"
    case AssetRental => "Cho thuê tài sản (nhà, mặt bằng, xe, tài sản khác)"
    case ProductionTransport => "Sản xuất, vận tải, dịch vụ có gắn với hàng hóa"
    case Brokerage => "Đại lý, môi giới"
    case OtherBusiness => "Hoạt động kinh doanh khác"
  }

  /** No two categories share a name. */
  lemma {:induction false} CategoryNamesDistinct(a: BusinessCategory, b: BusinessCategory)
    requires a != b
    ensures CategoryName(a) != CategoryName(b)
  {
    NameLength(a);
    NameLength(b);
  }

  /** The names are told apart by their lengths. */
  lemma NameLength(c: BusinessCategory)
    ensures |CategoryName(c)| ==
      match c
      case Distribution => 56
      case LodgingAndCatering => 61
      case ConsumerServices => 59
      case ConstructionNoMaterials => 41
      case ConstructionWithMaterials => 38
      case AssetRental => 50
      case ProductionTransport => 46
      case Brokerage => 16
      case OtherBusiness => 25
  {
    match c
    case Distribution =>
    case LodgingAndCatering =>
    case ConsumerServices =>
    case ConstructionNoMaterials =>
    case ConstructionWithMaterials =>
    case AssetRental =>
    case ProductionTransport =>
    case Brokerage =>
    case OtherBusiness =>
  }
}
