/**
 * The Philippine address tables of the checkout form
 * (src/data/philippines-address.ts) and the helpers that read them.
 *
 * Each `Record<string, AddressOption[]>` of the source is an association
 * list of (key, options) pairs in the order the source lists them; its keys
 * are pairwise distinct, so reading the first pair with a key is reading the
 * record. The large tables are split into one named constant per region so
 * that the facts about them can be proved region by region.
 */
module AddressData {
  import opened Wrappers
  import opened Records

  /** An option of a select box: what is stored, what is shown, and its code. */
  datatype AddressOption = AddressOption(value: string, labelText: string, code: string)

  /** The seventeen regions, in display order. */
  const Regions: seq<AddressOption> := [
    AddressOption("NCR", "National Capital Region (Metro Manila)", "NCR"),
    AddressOption("CAR", "Cordillera Administrative Region", "CAR"),
    AddressOption("REGION1", "Region I (Ilocos Region)", "REGION1"),
    AddressOption("REGION2", "Region II (Cagayan Valley)", "REGION2"),
    AddressOption("REGION3", "Region III (Central Luzon)", "REGION3"),
    AddressOption("REGION4A", "Region IV-A (CALABARZON)", "REGION4A"),
    AddressOption("REGION4B", "Region IV-B (MIMAROPA)", "REGION4B"),
    AddressOption("REGION5", "Region V (Bicol Region)", "REGION5"),
    AddressOption("REGION6", "Region VI (Western Visayas)", "REGION6"),
    AddressOption("REGION7", "Region VII (Central Visayas)", "REGION7"),
    AddressOption("REGION8", "Region VIII (Eastern Visayas)", "REGION8"),
    AddressOption("REGION9", "Region IX (Zamboanga Peninsula)", "REGION9"),
    AddressOption("REGION10", "Region X (Northern Mindanao)", "REGION10"),
    AddressOption("REGION11", "Region XI (Davao Region)", "REGION11"),
    AddressOption("REGION12", "Region XII (SOCCSKSARGEN)", "REGION12"),
    AddressOption("REGION13", "Region XIII (Caraga)", "REGION13"),
    AddressOption("BARMM", "Bangsamoro Autonomous Region in Muslim Mindanao", "BARMM")
  ]

  // Provinces of each region.
  const NcrProvinces: seq<AddressOption> := [
    AddressOption("MNL", "Manila", "MNL"),
    AddressOption("QC", "Quezon City", "QC"),
    AddressOption("MKT", "Makati", "MKT"),
    AddressOption("TAY", "Taguig", "TAY"),
    AddressOption("PAS", "Pasay", "PAS"),
    AddressOption("BGC", "Bonifacio Global City", "BGC"),
    AddressOption("PSG", "Pasig", "PSG"),
    AddressOption("MAR", "Marikina", "MAR"),
    AddressOption("SJC", "San Juan", "SJC"),
    AddressOption("MND", "Mandaluyong", "MND"),
    AddressOption("CAL", "Caloocan", "CAL"),
    AddressOption("VAL", "Valenzuela", "VAL"),
    AddressOption("NAV", "Navotas", "NAV"),
    AddressOption("MAL", "Malabon", "MAL"),
    AddressOption("LPA", "Las Piñas", "LPA"),
    AddressOption("MUN", "Muntinlupa", "MUN"),
    AddressOption("PAR", "Parañaque", "PAR")
  ]
  const CarProvinces: seq<AddressOption> := [
    AddressOption("ABR", "Abra", "ABR"),
    AddressOption("APY", "Apayao", "APY"),
    AddressOption("BEN", "Benguet", "BEN"),
    AddressOption("IFU", "Ifugao", "IFU"),
    AddressOption("KAL", "Kalinga", "KAL"),
    AddressOption("MTN", "Mountain Province", "MTN")
  ]
  const Region1Provinces: seq<AddressOption> := [
    AddressOption("ILN", "Ilocos Norte", "ILN"),
    AddressOption("ILS", "Ilocos Sur", "ILS"),
    AddressOption("LUN", "La Union", "LUN"),
    AddressOption("PAN", "Pangasinan", "PAN")
  ]
  const Region2Provinces: seq<AddressOption> := [
    AddressOption("BAT2", "Batanes", "BAT2"),
    AddressOption("CAG", "Cagayan", "CAG"),
    AddressOption("ISA", "Isabela", "ISA"),
    AddressOption("NVI", "Nueva Vizcaya", "NVI"),
    AddressOption("QUI", "Quirino", "QUI")
  ]
  const Region3Provinces: seq<AddressOption> := [
    AddressOption("BTN", "Bataan", "BTN"),
    AddressOption("BUL", "Bulacan", "BUL"),
    AddressOption("NVE", "Nueva Ecija", "NVE"),
    AddressOption("PAM", "Pampanga", "PAM"),
    AddressOption("TAR", "Tarlac", "TAR"),
    AddressOption("ZAM", "Zambales", "ZAM"),
    AddressOption("AUR", "Aurora", "AUR")
  ]
  const Region4aProvinces: seq<AddressOption> := [
    AddressOption("BAT", "Batangas", "BAT"),
    AddressOption("CAV", "Cavite", "CAV"),
    AddressOption("LAG", "Laguna", "LAG"),
    AddressOption("QUE", "Quezon", "QUE"),
    AddressOption("RIZ", "Rizal", "RIZ")
  ]
  const Region4bProvinces: seq<AddressOption> := [
    AddressOption("MAR2", "Marinduque", "MAR2"),
    AddressOption("OCC", "Occidental Mindoro", "OCC"),
    AddressOption("ORI", "Oriental Mindoro", "ORI"),
    AddressOption("PAL", "Palawan", "PAL"),
    AddressOption("ROM", "Romblon", "ROM")
  ]
  const Region5Provinces: seq<AddressOption> := [
    AddressOption("ALB", "Albay", "ALB"),
    AddressOption("CAM", "Camarines Norte", "CAM"),
    AddressOption("CAS", "Camarines Sur", "CAS"),
    AddressOption("CAT", "Catanduanes", "CAT"),
    AddressOption("MAS", "Masbate", "MAS"),
    AddressOption("SOR", "Sorsogon", "SOR")
  ]
  const Region6Provinces: seq<AddressOption> := [
    AddressOption("AKL", "Aklan", "AKL"),
    AddressOption("ANT", "Antique", "ANT"),
    AddressOption("CAP", "Capiz", "CAP"),
    AddressOption("GDR", "Guimaras", "GDR"),
    AddressOption("ILO", "Iloilo", "ILO"),
    AddressOption("NEG2", "Negros Occidental", "NEG2")
  ]
  const Region7Provinces: seq<AddressOption> := [
    AddressOption("BOH", "Bohol", "BOH"),
    AddressOption("CEB", "Cebu", "CEB"),
    AddressOption("NEG", "Negros Oriental", "NEG"),
    AddressOption("SIQ", "Siquijor", "SIQ")
  ]
  const Region8Provinces: seq<AddressOption> := [
    AddressOption("BIL", "Biliran", "BIL"),
    AddressOption("EAS", "Eastern Samar", "EAS"),
    AddressOption("LEY", "Leyte", "LEY"),
    AddressOption("NOR", "Northern Samar", "NOR"),
    AddressOption("SAM", "Samar", "SAM"),
    AddressOption("SOU", "Southern Leyte", "SOU")
  ]
  const Region9Provinces: seq<AddressOption> := [
    AddressOption("ZAN", "Zamboanga del Norte", "ZAN"),
    AddressOption("ZAS", "Zamboanga del Sur", "ZAS"),
    AddressOption("ZSI", "Zamboanga Sibugay", "ZSI")
  ]
  const Region10Provinces: seq<AddressOption> := [
    AddressOption("BUK", "Bukidnon", "BUK"),
    AddressOption("CAM2", "Camiguin", "CAM2"),
    AddressOption("LAN", "Lanao del Norte", "LAN"),
    AddressOption("MIS", "Misamis Occidental", "MIS"),
    AddressOption("MOR", "Misamis Oriental", "MOR")
  ]
  const Region11Provinces: seq<AddressOption> := [
    AddressOption("COM", "Davao de Oro", "COM"),
    AddressOption("DAV", "Davao del Norte", "DAV"),
    AddressOption("DAS", "Davao del Sur", "DAS"),
    AddressOption("DAO", "Davao Occidental", "DAO"),
    AddressOption("DAR", "Davao Oriental", "DAR")
  ]
  const Region12Provinces: seq<AddressOption> := [
    AddressOption("COT", "Cotabato", "COT"),
    AddressOption("SAR", "Sarangani", "SAR"),
    AddressOption("SCO", "South Cotabato", "SCO"),
    AddressOption("SUL", "Sultan Kudarat", "SUL")
  ]
  const Region13Provinces: seq<AddressOption> := [
    AddressOption("AGU", "Agusan del Norte", "AGU"),
    AddressOption("AGS", "Agusan del Sur", "AGS"),
    AddressOption("DIN", "Dinagat Islands", "DIN"),
    AddressOption("SUN", "Surigao del Norte", "SUN"),
    AddressOption("SUS", "Surigao del Sur", "SUS")
  ]
  const BarmmProvinces: seq<AddressOption> := [
    AddressOption("BAS", "Basilan", "BAS"),
    AddressOption("LAS", "Lanao del Sur", "LAS"),
    AddressOption("MAG", "Maguindanao del Norte", "MAG"),
    AddressOption("MAS2", "Maguindanao del Sur", "MAS2"),
    AddressOption("SUL2", "Sulu", "SUL2"),
    AddressOption("TAW", "Tawi-Tawi", "TAW")
  ]

  /** Provinces keyed by region code, in the order the table lists them. */
  const Provinces: seq<(string, seq<AddressOption>)> := [
    ("NCR", NcrProvinces),
    ("CAR", CarProvinces),
    ("REGION1", Region1Provinces),
    ("REGION2", Region2Provinces),
    ("REGION3", Region3Provinces),
    ("REGION4A", Region4aProvinces),
    ("REGION4B", Region4bProvinces),
    ("REGION5", Region5Provinces),
    ("REGION6", Region6Provinces),
    ("REGION7", Region7Provinces),
    ("REGION8", Region8Provinces),
    ("REGION9", Region9Provinces),
    ("REGION10", Region10Provinces),
    ("REGION11", Region11Provinces),
    ("REGION12", Region12Provinces),
    ("REGION13", Region13Provinces),
    ("BARMM", BarmmProvinces)
  ]

  // Cities of each province, grouped by region as the table groups them.
  // NCR
  const MnlCities: seq<AddressOption> := [AddressOption("MNL_CITY", "Manila City", "MNL_CITY"), AddressOption("MNL_OTHER", "Other", "MNL_OTHER")]
  const QcCities: seq<AddressOption> := [AddressOption("QC_CITY", "Quezon City", "QC_CITY"), AddressOption("QC_OTHER", "Other", "QC_OTHER")]
  const MktCities: seq<AddressOption> := [AddressOption("MKT_CITY", "Makati City", "MKT_CITY"), AddressOption("MKT_OTHER", "Other", "MKT_OTHER")]
  const TayCities: seq<AddressOption> := [AddressOption("TAY_CITY", "Taguig City", "TAY_CITY"), AddressOption("TAY_OTHER", "Other", "TAY_OTHER")]
  const PasCities: seq<AddressOption> := [AddressOption("PAS_CITY", "Pasay City", "PAS_CITY"), AddressOption("PAS_OTHER", "Other", "PAS_OTHER")]
  const PsgCities: seq<AddressOption> := [AddressOption("PSG_CITY", "Pasig City", "PSG_CITY"), AddressOption("PSG_OTHER", "Other", "PSG_OTHER")]
  const MarCities: seq<AddressOption> := [AddressOption("MAR_CITY", "Marikina City", "MAR_CITY"), AddressOption("MAR_OTHER", "Other", "MAR_OTHER")]
  const SjcCities: seq<AddressOption> := [AddressOption("SJC_CITY", "San Juan City", "SJC_CITY"), AddressOption("SJC_OTHER", "Other", "SJC_OTHER")]
  const MndCities: seq<AddressOption> := [AddressOption("MND_CITY", "Mandaluyong City", "MND_CITY"), AddressOption("MND_OTHER", "Other", "MND_OTHER")]
  const CalCities: seq<AddressOption> := [AddressOption("CAL_CITY", "Caloocan City", "CAL_CITY"), AddressOption("CAL_OTHER", "Other", "CAL_OTHER")]
  const ValCities: seq<AddressOption> := [AddressOption("VAL_CITY", "Valenzuela City", "VAL_CITY"), AddressOption("VAL_OTHER", "Other", "VAL_OTHER")]
  const NavCities: seq<AddressOption> := [AddressOption("NAV_CITY", "Navotas City", "NAV_CITY"), AddressOption("NAV_OTHER", "Other", "NAV_OTHER")]
  const MalCities: seq<AddressOption> := [AddressOption("MAL_CITY", "Malabon City", "MAL_CITY"), AddressOption("MAL_OTHER", "Other", "MAL_OTHER")]
  const LpaCities: seq<AddressOption> := [AddressOption("LPA_CITY", "Las Piñas City", "LPA_CITY"), AddressOption("LPA_OTHER", "Other", "LPA_OTHER")]
  const MunCities: seq<AddressOption> := [AddressOption("MUN_CITY", "Muntinlupa City", "MUN_CITY"), AddressOption("MUN_OTHER", "Other", "MUN_OTHER")]
  const ParCities: seq<AddressOption> := [AddressOption("PAR_CITY", "Parañaque City", "PAR_CITY"), AddressOption("PAR_OTHER", "Other", "PAR_OTHER")]
  const BgcCities: seq<AddressOption> := [AddressOption("BGC_AREA", "BGC Area", "BGC_AREA"), AddressOption("BGC_OTHER", "Other", "BGC_OTHER")]
  const NcrCityEntries: seq<(string, seq<AddressOption>)> := [
    ("MNL", MnlCities),
    ("QC", QcCities),
    ("MKT", MktCities),
    ("TAY", TayCities),
    ("PAS", PasCities),
    ("PSG", PsgCities),
    ("MAR", MarCities),
    ("SJC", SjcCities),
    ("MND", MndCities),
    ("CAL", CalCities),
    ("VAL", ValCities),
    ("NAV", NavCities),
    ("MAL", MalCities),
    ("LPA", LpaCities),
    ("MUN", MunCities),
    ("PAR", ParCities),
    ("BGC", BgcCities)
  ]

  // CAR
  const AbrCities: seq<AddressOption> := [AddressOption("ABR_BANGUED", "Bangued", "ABR_BANGUED"), AddressOption("ABR_OTHER", "Other Municipality", "ABR_OTHER")]
  const ApyCities: seq<AddressOption> := [AddressOption("APY_KABUGAO", "Kabugao", "APY_KABUGAO"), AddressOption("APY_OTHER", "Other Municipality", "APY_OTHER")]
  const BenCities: seq<AddressOption> := [
    AddressOption("BEN_BAGUIO", "Baguio City", "BEN_BAGUIO"),
    AddressOption("BEN_TUBA", "Tuba", "BEN_TUBA"),
    AddressOption("BEN_OTHER", "Other Municipality", "BEN_OTHER")
  ]
  const IfuCities: seq<AddressOption> := [AddressOption("IFU_LAGAWE", "Lagawe", "IFU_LAGAWE"), AddressOption("IFU_OTHER", "Other Municipality", "IFU_OTHER")]
  const KalCities: seq<AddressOption> := [AddressOption("KAL_TABUK", "Tabuk City", "KAL_TABUK"), AddressOption("KAL_OTHER", "Other Municipality", "KAL_OTHER")]
  const MtnCities: seq<AddressOption> := [AddressOption("MTN_BONTOC", "Bontoc", "MTN_BONTOC"), AddressOption("MTN_OTHER", "Other Municipality", "MTN_OTHER")]
  const CarCityEntries: seq<(string, seq<AddressOption>)> := [
    ("ABR", AbrCities),
    ("APY", ApyCities),
    ("BEN", BenCities),
    ("IFU", IfuCities),
    ("KAL", KalCities),
    ("MTN", MtnCities)
  ]

  // REGION1
  const IlnCities: seq<AddressOption> := [
    AddressOption("ILN_LAOAG", "Laoag City", "ILN_LAOAG"),
    AddressOption("ILN_BATAC", "Batac City", "ILN_BATAC"),
    AddressOption("ILN_OTHER", "Other Municipality", "ILN_OTHER")
  ]
  const IlsCities: seq<AddressOption> := [
    AddressOption("ILS_VIGAN", "Vigan City", "ILS_VIGAN"),
    AddressOption("ILS_CANDON", "Candon City", "ILS_CANDON"),
    AddressOption("ILS_OTHER", "Other Municipality", "ILS_OTHER")
  ]
  const LunCities: seq<AddressOption> := [
    AddressOption("LUN_SANFER", "San Fernando City", "LUN_SANFER"),
    AddressOption("LUN_BAUANG", "Bauang", "LUN_BAUANG"),
    AddressOption("LUN_OTHER", "Other Municipality", "LUN_OTHER")
  ]
  const PanCities: seq<AddressOption> := [
    AddressOption("PAN_DAGUPAN", "Dagupan City", "PAN_DAGUPAN"),
    AddressOption("PAN_ALAMINOS", "Alaminos City", "PAN_ALAMINOS"),
    AddressOption("PAN_OTHER", "Other Municipality", "PAN_OTHER")
  ]
  const Region1CityEntries: seq<(string, seq<AddressOption>)> := [
    ("ILN", IlnCities),
    ("ILS", IlsCities),
    ("LUN", LunCities),
    ("PAN", PanCities)
  ]

  // REGION2
  const Bat2Cities: seq<AddressOption> := [AddressOption("BAT2_BASCO", "Basco", "BAT2_BASCO"), AddressOption("BAT2_OTHER", "Other Municipality", "BAT2_OTHER")]
  const CagCities: seq<AddressOption> := [AddressOption("CAG_TUGUEGARAO", "Tuguegarao City", "CAG_TUGUEGARAO"), AddressOption("CAG_OTHER", "Other Municipality", "CAG_OTHER")]
  const IsaCities: seq<AddressOption> := [
    AddressOption("ISA_ILAGAN", "Ilagan City", "ISA_ILAGAN"),
    AddressOption("ISA_SANTIAGO", "Santiago City", "ISA_SANTIAGO"),
    AddressOption("ISA_OTHER", "Other Municipality", "ISA_OTHER")
  ]
  const NviCities: seq<AddressOption> := [AddressOption("NVI_BAYOMBONG", "Bayombong", "NVI_BAYOMBONG"), AddressOption("NVI_OTHER", "Other Municipality", "NVI_OTHER")]
  const QuiCities: seq<AddressOption> := [AddressOption("QUI_CABARROGUIS", "Cabarroguis", "QUI_CABARROGUIS"), AddressOption("QUI_OTHER", "Other Municipality", "QUI_OTHER")]
  const Region2CityEntries: seq<(string, seq<AddressOption>)> := [
    ("BAT2", Bat2Cities),
    ("CAG", CagCities),
    ("ISA", IsaCities),
    ("NVI", NviCities),
    ("QUI", QuiCities)
  ]

  // REGION3
  const BtnCities: seq<AddressOption> := [AddressOption("BTN_BALANGA", "Balanga City", "BTN_BALANGA"), AddressOption("BTN_OTHER", "Other Municipality", "BTN_OTHER")]
  const BulCities: seq<AddressOption> := [
    AddressOption("BUL_MALOLOS", "Malolos City", "BUL_MALOLOS"),
    AddressOption("BUL_MEYCAUAYAN", "Meycauayan City", "BUL_MEYCAUAYAN"),
    AddressOption("BUL_OTHER", "Other Municipality", "BUL_OTHER")
  ]
  const NveCities: seq<AddressOption> := [
    AddressOption("NVE_CABANATUAN", "Cabanatuan City", "NVE_CABANATUAN"),
    AddressOption("NVE_GAPAN", "Gapan City", "NVE_GAPAN"),
    AddressOption("NVE_OTHER", "Other Municipality", "NVE_OTHER")
  ]
  const PamCities: seq<AddressOption> := [
    AddressOption("PAM_SAN_FERNANDO", "San Fernando City", "PAM_SAN_FERNANDO"),
    AddressOption("PAM_ANGELES", "Angeles City", "PAM_ANGELES"),
    AddressOption("PAM_OTHER", "Other Municipality", "PAM_OTHER")
  ]
  const TarCities: seq<AddressOption> := [AddressOption("TAR_TARLAC_CITY", "Tarlac City", "TAR_TARLAC_CITY"), AddressOption("TAR_OTHER", "Other Municipality", "TAR_OTHER")]
  const ZamCities: seq<AddressOption> := [
    AddressOption("ZAM_OLONGAPO", "Olongapo City", "ZAM_OLONGAPO"),
    AddressOption("ZAM_IBA", "Iba", "ZAM_IBA"),
    AddressOption("ZAM_OTHER", "Other Municipality", "ZAM_OTHER")
  ]
  const AurCities: seq<AddressOption> := [AddressOption("AUR_BALER", "Baler", "AUR_BALER"), AddressOption("AUR_OTHER", "Other Municipality", "AUR_OTHER")]
  const Region3CityEntries: seq<(string, seq<AddressOption>)> := [
    ("BTN", BtnCities),
    ("BUL", BulCities),
    ("NVE", NveCities),
    ("PAM", PamCities),
    ("TAR", TarCities),
    ("ZAM", ZamCities),
    ("AUR", AurCities)
  ]

  // REGION4A
  const BatCities: seq<AddressOption> := [
    AddressOption("BAT_BATANGAS_CITY", "Batangas City", "BAT_BATANGAS_CITY"),
    AddressOption("BAT_LIPA", "Lipa City", "BAT_LIPA"),
    AddressOption("BAT_OTHER", "Other Municipality", "BAT_OTHER")
  ]
  const CavCities: seq<AddressOption> := [
    AddressOption("CAV_DASMA", "Dasmariñas", "CAV_DASMA"),
    AddressOption("CAV_IMUS", "Imus", "CAV_IMUS"),
    AddressOption("CAV_BAC", "Bacoor", "CAV_BAC"),
    AddressOption("CAV_CW", "Cavite City", "CAV_CW"),
    AddressOption("CAV_OTHER", "Other Municipality", "CAV_OTHER")
  ]
  const LagCities: seq<AddressOption> := [
    AddressOption("LAG_SC", "Santa Cruz", "LAG_SC"),
    AddressOption("LAG_CB", "Calamba", "LAG_CB"),
    AddressOption("LAG_SLB", "San Pablo", "LAG_SLB"),
    AddressOption("LAG_BIN", "Biñan", "LAG_BIN"),
    AddressOption("LAG_OTHER", "Other Municipality", "LAG_OTHER")
  ]
  const QueCities: seq<AddressOption> := [
    AddressOption("QUE_LUCENA", "Lucena City", "QUE_LUCENA"),
    AddressOption("QUE_TAYABAS", "Tayabas City", "QUE_TAYABAS"),
    AddressOption("QUE_OTHER", "Other Municipality", "QUE_OTHER")
  ]
  const RizCities: seq<AddressOption> := [
    AddressOption("RIZ_ANTIPOLO", "Antipolo City", "RIZ_ANTIPOLO"),
    AddressOption("RIZ_CAINTA", "Cainta", "RIZ_CAINTA"),
    AddressOption("RIZ_OTHER", "Other Municipality", "RIZ_OTHER")
  ]
  const Region4aCityEntries: seq<(string, seq<AddressOption>)> := [
    ("BAT", BatCities),
    ("CAV", CavCities),
    ("LAG", LagCities),
    ("QUE", QueCities),
    ("RIZ", RizCities)
  ]

  // REGION4B
  const Mar2Cities: seq<AddressOption> := [AddressOption("MAR2_BOAC", "Boac", "MAR2_BOAC"), AddressOption("MAR2_OTHER", "Other Municipality", "MAR2_OTHER")]
  const OccCities: seq<AddressOption> := [AddressOption("OCC_MAMBURAO", "Mamburao", "OCC_MAMBURAO"), AddressOption("OCC_OTHER", "Other Municipality", "OCC_OTHER")]
  const OriCities: seq<AddressOption> := [AddressOption("ORI_CALAPAN", "Calapan City", "ORI_CALAPAN"), AddressOption("ORI_OTHER", "Other Municipality", "ORI_OTHER")]
  const PalCities: seq<AddressOption> := [AddressOption("PAL_PUERTO_PRINCESA", "Puerto Princesa City", "PAL_PUERTO_PRINCESA"), AddressOption("PAL_OTHER", "Other Municipality", "PAL_OTHER")]
  const RomCities: seq<AddressOption> := [AddressOption("ROM_ROMBLON", "Romblon", "ROM_ROMBLON"), AddressOption("ROM_OTHER", "Other Municipality", "ROM_OTHER")]
  const Region4bCityEntries: seq<(string, seq<AddressOption>)> := [
    ("MAR2", Mar2Cities),
    ("OCC", OccCities),
    ("ORI", OriCities),
    ("PAL", PalCities),
    ("ROM", RomCities)
  ]

  // REGION5
  const AlbCities: seq<AddressOption> := [AddressOption("ALB_LEGAZPI", "Legazpi City", "ALB_LEGAZPI"), AddressOption("ALB_OTHER", "Other Municipality", "ALB_OTHER")]
  const CamCities: seq<AddressOption> := [AddressOption("CAM_DAET", "Daet", "CAM_DAET"), AddressOption("CAM_OTHER", "Other Municipality", "CAM_OTHER")]
  const CasCities: seq<AddressOption> := [AddressOption("CAS_NAGA", "Naga City", "CAS_NAGA"), AddressOption("CAS_OTHER", "Other Municipality", "CAS_OTHER")]
  const CatCities: seq<AddressOption> := [AddressOption("CAT_VIRAC", "Virac", "CAT_VIRAC"), AddressOption("CAT_OTHER", "Other Municipality", "CAT_OTHER")]
  const MasCities: seq<AddressOption> := [AddressOption("MAS_MASBATE_CITY", "Masbate City", "MAS_MASBATE_CITY"), AddressOption("MAS_OTHER", "Other Municipality", "MAS_OTHER")]
  const SorCities: seq<AddressOption> := [AddressOption("SOR_SORSOGON_CITY", "Sorsogon City", "SOR_SORSOGON_CITY"), AddressOption("SOR_OTHER", "Other Municipality", "SOR_OTHER")]
  const Region5CityEntries: seq<(string, seq<AddressOption>)> := [
    ("ALB", AlbCities),
    ("CAM", CamCities),
    ("CAS", CasCities),
    ("CAT", CatCities),
    ("MAS", MasCities),
    ("SOR", SorCities)
  ]

  // REGION6
  const AklCities: seq<AddressOption> := [AddressOption("AKL_KALIBO", "Kalibo", "AKL_KALIBO"), AddressOption("AKL_OTHER", "Other Municipality", "AKL_OTHER")]
  const AntCities: seq<AddressOption> := [AddressOption("ANT_SAN_JOSE", "San Jose de Buenavista", "ANT_SAN_JOSE"), AddressOption("ANT_OTHER", "Other Municipality", "ANT_OTHER")]
  const CapCities: seq<AddressOption> := [AddressOption("CAP_ROXAS", "Roxas City", "CAP_ROXAS"), AddressOption("CAP_OTHER", "Other Municipality", "CAP_OTHER")]
  const GdrCities: seq<AddressOption> := [AddressOption("GDR_JORDAN", "Jordan", "GDR_JORDAN"), AddressOption("GDR_OTHER", "Other Municipality", "GDR_OTHER")]
  const IloCities: seq<AddressOption> := [AddressOption("ILO_ILOILO_CITY", "Iloilo City", "ILO_ILOILO_CITY"), AddressOption("ILO_OTHER", "Other Municipality", "ILO_OTHER")]
  const Neg2Cities: seq<AddressOption> := [AddressOption("NEG2_BACOLOD", "Bacolod City", "NEG2_BACOLOD"), AddressOption("NEG2_OTHER", "Other Municipality", "NEG2_OTHER")]
  const Region6CityEntries: seq<(string, seq<AddressOption>)> := [
    ("AKL", AklCities),
    ("ANT", AntCities),
    ("CAP", CapCities),
    ("GDR", GdrCities),
    ("ILO", IloCities),
    ("NEG2", Neg2Cities)
  ]

  // REGION7
  const BohCities: seq<AddressOption> := [AddressOption("BOH_TAGBILARAN", "Tagbilaran City", "BOH_TAGBILARAN"), AddressOption("BOH_OTHER", "Other Municipality", "BOH_OTHER")]
  const CebCities: seq<AddressOption> := [
    AddressOption("CEB_CITY", "Cebu City", "CEB_CITY"),
    AddressOption("CEB_LAP", "Lapu-Lapu", "CEB_LAP"),
    AddressOption("CEB_MAN", "Mandaue", "CEB_MAN"),
    AddressOption("CEB_TOL", "Toledo", "CEB_TOL"),
    AddressOption("CEB_OTHER", "Other Municipality", "CEB_OTHER")
  ]
  const NegCities: seq<AddressOption> := [AddressOption("NEG_DUMAGUETE", "Dumaguete City", "NEG_DUMAGUETE"), AddressOption("NEG_OTHER", "Other Municipality", "NEG_OTHER")]
  const SiqCities: seq<AddressOption> := [AddressOption("SIQ_SIQUIJOR", "Siquijor", "SIQ_SIQUIJOR"), AddressOption("SIQ_OTHER", "Other Municipality", "SIQ_OTHER")]
  const Region7CityEntries: seq<(string, seq<AddressOption>)> := [
    ("BOH", BohCities),
    ("CEB", CebCities),
    ("NEG", NegCities),
    ("SIQ", SiqCities)
  ]

  // REGION8
  const BilCities: seq<AddressOption> := [AddressOption("BIL_NAVAL", "Naval", "BIL_NAVAL"), AddressOption("BIL_OTHER", "Other Municipality", "BIL_OTHER")]
  const EasCities: seq<AddressOption> := [AddressOption("EAS_BORONGAN", "Borongan City", "EAS_BORONGAN"), AddressOption("EAS_OTHER", "Other Municipality", "EAS_OTHER")]
  const LeyCities: seq<AddressOption> := [AddressOption("LEY_TACLOBAN", "Tacloban City", "LEY_TACLOBAN"), AddressOption("LEY_OTHER", "Other Municipality", "LEY_OTHER")]
  const NorCities: seq<AddressOption> := [AddressOption("NOR_CATARMAN", "Catarman", "NOR_CATARMAN"), AddressOption("NOR_OTHER", "Other Municipality", "NOR_OTHER")]
  const SamCities: seq<AddressOption> := [AddressOption("SAM_CATBALOGAN", "Catbalogan City", "SAM_CATBALOGAN"), AddressOption("SAM_OTHER", "Other Municipality", "SAM_OTHER")]
  const SouCities: seq<AddressOption> := [AddressOption("SOU_MAASIN", "Maasin City", "SOU_MAASIN"), AddressOption("SOU_OTHER", "Other Municipality", "SOU_OTHER")]
  const Region8CityEntries: seq<(string, seq<AddressOption>)> := [
    ("BIL", BilCities),
    ("EAS", EasCities),
    ("LEY", LeyCities),
    ("NOR", NorCities),
    ("SAM", SamCities),
    ("SOU", SouCities)
  ]

  // REGION9
  const ZanCities: seq<AddressOption> := [AddressOption("ZAN_DIPOLOG", "Dipolog City", "ZAN_DIPOLOG"), AddressOption("ZAN_OTHER", "Other Municipality", "ZAN_OTHER")]
  const ZasCities: seq<AddressOption> := [AddressOption("ZAS_PAGADIAN", "Pagadian City", "ZAS_PAGADIAN"), AddressOption("ZAS_OTHER", "Other Municipality", "ZAS_OTHER")]
  const ZsiCities: seq<AddressOption> := [AddressOption("ZSI_IPIL", "Ipil", "ZSI_IPIL"), AddressOption("ZSI_OTHER", "Other Municipality", "ZSI_OTHER")]
  const Region9CityEntries: seq<(string, seq<AddressOption>)> := [
    ("ZAN", ZanCities),
    ("ZAS", ZasCities),
    ("ZSI", ZsiCities)
  ]

  // REGION10
  const BukCities: seq<AddressOption> := [AddressOption("BUK_MALAYBALAY", "Malaybalay City", "BUK_MALAYBALAY"), AddressOption("BUK_OTHER", "Other Municipality", "BUK_OTHER")]
  const Cam2Cities: seq<AddressOption> := [AddressOption("CAM2_MAMBAJAO", "Mambajao", "CAM2_MAMBAJAO"), AddressOption("CAM2_OTHER", "Other Municipality", "CAM2_OTHER")]
  const LanCities: seq<AddressOption> := [AddressOption("LAN_ILIGAN", "Iligan City", "LAN_ILIGAN"), AddressOption("LAN_OTHER", "Other Municipality", "LAN_OTHER")]
  const MisCities: seq<AddressOption> := [AddressOption("MIS_OROQUIETA", "Oroquieta City", "MIS_OROQUIETA"), AddressOption("MIS_OTHER", "Other Municipality", "MIS_OTHER")]
  const MorCities: seq<AddressOption> := [AddressOption("MOR_CAGAYAN_DE_ORO", "Cagayan de Oro City", "MOR_CAGAYAN_DE_ORO"), AddressOption("MOR_OTHER", "Other Municipality", "MOR_OTHER")]
  const Region10CityEntries: seq<(string, seq<AddressOption>)> := [
    ("BUK", BukCities),
    ("CAM2", Cam2Cities),
    ("LAN", LanCities),
    ("MIS", MisCities),
    ("MOR", MorCities)
  ]

  // REGION11
  const ComCities: seq<AddressOption> := [AddressOption("COM_NABUNTURAN", "Nabunturan", "COM_NABUNTURAN"), AddressOption("COM_OTHER", "Other Municipality", "COM_OTHER")]
  const DavCities: seq<AddressOption> := [AddressOption("DAV_TAGUM", "Tagum City", "DAV_TAGUM"), AddressOption("DAV_OTHER", "Other Municipality", "DAV_OTHER")]
  const DasCities: seq<AddressOption> := [AddressOption("DAS_DAVAO_CITY", "Davao City", "DAS_DAVAO_CITY"), AddressOption("DAS_OTHER", "Other Municipality", "DAS_OTHER")]
  const DaoCities: seq<AddressOption> := [AddressOption("DAO_MALITA", "Malita", "DAO_MALITA"), AddressOption("DAO_OTHER", "Other Municipality", "DAO_OTHER")]
  const DarCities: seq<AddressOption> := [AddressOption("DAR_MATI", "Mati City", "DAR_MATI"), AddressOption("DAR_OTHER", "Other Municipality", "DAR_OTHER")]
  const Region11CityEntries: seq<(string, seq<AddressOption>)> := [
    ("COM", ComCities),
    ("DAV", DavCities),
    ("DAS", DasCities),
    ("DAO", DaoCities),
    ("DAR", DarCities)
  ]

  // REGION12
  const CotCities: seq<AddressOption> := [AddressOption("COT_KIDAPAWAN", "Kidapawan City", "COT_KIDAPAWAN"), AddressOption("COT_OTHER", "Other Municipality", "COT_OTHER")]
  const SarCities: seq<AddressOption> := [AddressOption("SAR_ALABEL", "Alabel", "SAR_ALABEL"), AddressOption("SAR_OTHER", "Other Municipality", "SAR_OTHER")]
  const ScoCities: seq<AddressOption> := [AddressOption("SCO_KORONADAL", "Koronadal City", "SCO_KORONADAL"), AddressOption("SCO_OTHER", "Other Municipality", "SCO_OTHER")]
  const SulCities: seq<AddressOption> := [AddressOption("SUL_ISULAN", "Isulan", "SUL_ISULAN"), AddressOption("SUL_OTHER", "Other Municipality", "SUL_OTHER")]
  const Region12CityEntries: seq<(string, seq<AddressOption>)> := [
    ("COT", CotCities),
    ("SAR", SarCities),
    ("SCO", ScoCities),
    ("SUL", SulCities)
  ]

  // REGION13
  const AguCities: seq<AddressOption> := [AddressOption("AGU_BUTUAN", "Butuan City", "AGU_BUTUAN"), AddressOption("AGU_OTHER", "Other Municipality", "AGU_OTHER")]
  const AgsCities: seq<AddressOption> := [AddressOption("AGS_BAYUGAN", "Bayugan City", "AGS_BAYUGAN"), AddressOption("AGS_OTHER", "Other Municipality", "AGS_OTHER")]
  const DinCities: seq<AddressOption> := [AddressOption("DIN_SAN_JOSE", "San Jose", "DIN_SAN_JOSE"), AddressOption("DIN_OTHER", "Other Municipality", "DIN_OTHER")]
  const SunCities: seq<AddressOption> := [AddressOption("SUN_SURIGAO_CITY", "Surigao City", "SUN_SURIGAO_CITY"), AddressOption("SUN_OTHER", "Other Municipality", "SUN_OTHER")]
  const SusCities: seq<AddressOption> := [AddressOption("SUS_TANDAG", "Tandag City", "SUS_TANDAG"), AddressOption("SUS_OTHER", "Other Municipality", "SUS_OTHER")]
  const Region13CityEntries: seq<(string, seq<AddressOption>)> := [
    ("AGU", AguCities),
    ("AGS", AgsCities),
    ("DIN", DinCities),
    ("SUN", SunCities),
    ("SUS", SusCities)
  ]

  // BARMM
  const BasCities: seq<AddressOption> := [AddressOption("BAS_ISABELA_CITY", "Isabela City", "BAS_ISABELA_CITY"), AddressOption("BAS_OTHER", "Other Municipality", "BAS_OTHER")]
  const LasCities: seq<AddressOption> := [AddressOption("LAS_MARAWI", "Marawi City", "LAS_MARAWI"), AddressOption("LAS_OTHER", "Other Municipality", "LAS_OTHER")]
  const MagCities: seq<AddressOption> := [AddressOption("MAG_BULUAN", "Buluan", "MAG_BULUAN"), AddressOption("MAG_OTHER", "Other Municipality", "MAG_OTHER")]
  const Mas2Cities: seq<AddressOption> := [AddressOption("MAS2_COTABATO_CITY", "Cotabato City", "MAS2_COTABATO_CITY"), AddressOption("MAS2_OTHER", "Other Municipality", "MAS2_OTHER")]
  const Sul2Cities: seq<AddressOption> := [AddressOption("SUL2_JOLO", "Jolo", "SUL2_JOLO"), AddressOption("SUL2_OTHER", "Other Municipality", "SUL2_OTHER")]
  const TawCities: seq<AddressOption> := [AddressOption("TAW_BONGAO", "Bongao", "TAW_BONGAO"), AddressOption("TAW_OTHER", "Other Municipality", "TAW_OTHER")]
  const BarmmCityEntries: seq<(string, seq<AddressOption>)> := [
    ("BAS", BasCities),
    ("LAS", LasCities),
    ("MAG", MagCities),
    ("MAS2", Mas2Cities),
    ("SUL2", Sul2Cities),
    ("TAW", TawCities)
  ]

  /** The cities table in two halves: Metro Manila to Region V, then Region VI to BARMM. */
  const CitiesFront: seq<(string, seq<AddressOption>)> :=
    NcrCityEntries + CarCityEntries + Region1CityEntries + Region2CityEntries + Region3CityEntries + Region4aCityEntries + Region4bCityEntries + Region5CityEntries
  const CitiesBack: seq<(string, seq<AddressOption>)> :=
    Region6CityEntries + Region7CityEntries + Region8CityEntries + Region9CityEntries + Region10CityEntries + Region11CityEntries + Region12CityEntries + Region13CityEntries + BarmmCityEntries
  /** Cities keyed by province code: the region groups, one after another. */
  const Cities: seq<(string, seq<AddressOption>)> := CitiesFront + CitiesBack

  // Sample barangays of four cities.
  const MnlCityBarangays: seq<AddressOption> := [
    AddressOption("MNL_BINONDO", "Binondo", "MNL_BINONDO"),
    AddressOption("MNL_INTRAMUROS", "Intramuros", "MNL_INTRAMUROS"),
    AddressOption("MNL_MALATE", "Malate", "MNL_MALATE"),
    AddressOption("MNL_ERMITA", "Ermita", "MNL_ERMITA"),
    AddressOption("MNL_STACRUZ", "Sta. Cruz", "MNL_STACRUZ"),
    AddressOption("MNL_QUIAPO", "Quiapo", "MNL_QUIAPO"),
    AddressOption("MNL_SAMPALOC", "Sampaloc", "MNL_SAMPALOC"),
    AddressOption("MNL_OTHER", "Other Barangay", "MNL_OTHER")
  ]
  const QcCityBarangays: seq<AddressOption> := [
    AddressOption("QC_DILIMAN", "Diliman", "QC_DILIMAN"),
    AddressOption("QC_QUEZONHILL", "Quezon Hill", "QC_QUEZONHILL"),
    AddressOption("QC_CUBAO", "Cubao", "QC_CUBAO"),
    AddressOption("QC_FAIRVIEW", "Fairview", "QC_FAIRVIEW"),
    AddressOption("QC_NOVALICHES", "Novaliches", "QC_NOVALICHES"),
    AddressOption("QC_PROJECT2", "Project 2", "QC_PROJECT2"),
    AddressOption("QC_PROJECT3", "Project 3", "QC_PROJECT3"),
    AddressOption("QC_OTHER", "Other Barangay", "QC_OTHER")
  ]
  const MktCityBarangays: seq<AddressOption> := [
    AddressOption("MKT_POBLACION", "Poblacion", "MKT_POBLACION"),
    AddressOption("MKT_BELMONTE", "Bel-Air", "MKT_BELMONTE"),
    AddressOption("MKT_DASMA", "Dasmariñas Village", "MKT_DASMA"),
    AddressOption("MKT_FORBES", "Forbes Park", "MKT_FORBES"),
    AddressOption("MKT_LEGASPI", "Legaspi Village", "MKT_LEGASPI"),
    AddressOption("MKT_SALCEDO", "Salcedo Village", "MKT_SALCEDO"),
    AddressOption("MKT_OTHER", "Other Barangay", "MKT_OTHER")
  ]
  const CebCityBarangays: seq<AddressOption> := [
    AddressOption("CEB_LAHUG", "Lahug", "CEB_LAHUG"),
    AddressOption("CEB_IT_PARK", "Apas (IT Park)", "CEB_IT_PARK"),
    AddressOption("CEB_CAPITOL", "Capitol Site", "CEB_CAPITOL"),
    AddressOption("CEB_COLON", "Colon", "CEB_COLON"),
    AddressOption("CEB_FUENTE", "Fuente", "CEB_FUENTE"),
    AddressOption("CEB_OTHER", "Other Barangay", "CEB_OTHER")
  ]

  /** Barangays keyed by city code. */
  const Barangays: seq<(string, seq<AddressOption>)> := [
    ("MNL_CITY", MnlCityBarangays),
    ("QC_CITY", QcCityBarangays),
    ("MKT_CITY", MktCityBarangays),
    ("CEB_CITY", CebCityBarangays)
  ]

  /** The options offered for a city the barangay table does not list. */
  const DefaultBarangayOptions: seq<AddressOption> := [
    AddressOption("POBLACION", "Poblacion", "POBLACION"),
    AddressOption("BARANGAY_1", "Barangay 1", "BARANGAY_1"),
    AddressOption("OTHER_BARANGAY", "Other Barangay", "OTHER_BARANGAY")
  ]

  /** Postal codes keyed by barangay code. */
  const PostalCodes: seq<(string, string)> := [
    ("MNL_BINONDO", "1006"),
    ("MNL_INTRAMUROS", "1002"),
    ("MNL_MALATE", "1004"),
    ("MNL_ERMITA", "1000"),
    ("MNL_STACRUZ", "1003"),
    ("MNL_QUIAPO", "1001"),
    ("QC_DILIMAN", "1101"),
    ("QC_CUBAO", "1109"),
    ("QC_FAIRVIEW", "1118"),
    ("MKT_POBLACION", "1200"),
    ("MKT_LEGASPI", "1229"),
    ("MKT_SALCEDO", "1227"),
    ("CEB_LAHUG", "6000"),
    ("CEB_IT_PARK", "6000"),
    ("CEB_CAPITOL", "6000")
  ]


  // ---------------------------------------------------------------------
  // The helpers

  /** getProvinces: the region's provinces, or an empty list for a region the table lacks. */
  function GetProvinces(regionCode: string): (r: seq<AddressOption>)
    ensures !HasKey(Provinces, regionCode) ==> r == []
    ensures HasKey(Provinces, regionCode) ==>
      exists i :: 0 <= i < |Provinces| && Provinces[i].0 == regionCode && Provinces[i].1 == r
  {
    Lookup(Provinces, regionCode).GetOr([])
  }

  /** The two options getCities offers for a province without a cities entry. */
  function FallbackCities(provinceCode: string): seq<AddressOption> {
    [AddressOption(provinceCode + "_MAIN", "Main City/Municipality", provinceCode + "_MAIN"),
     AddressOption(provinceCode + "_OTHER", "Other Municipality", provinceCode + "_OTHER")]
  }

  /**
   * getCities: the province's cities when the table has a non-empty entry,
   * otherwise the generated Main/Other pair. Never empty.
   */
  function GetCities(provinceCode: string): (r: seq<AddressOption>)
    ensures |r| > 0
    ensures HasKey(Cities, provinceCode) ==> Lookup(Cities, provinceCode) == Some(r)
    ensures !HasKey(Cities, provinceCode) ==>
      r == [AddressOption(provinceCode + "_MAIN", "Main City/Municipality", provinceCode + "_MAIN"),
            AddressOption(provinceCode + "_OTHER", "Other Municipality", provinceCode + "_OTHER")]
  {
    CityListsWellFormed();
    var found := Lookup(Cities, provinceCode);
    if found.Some? && |found.value| > 0 then found.value else FallbackCities(provinceCode)
  }

  /** getBarangays: the city's barangays when listed, otherwise the three default options. Never empty. */
  function GetBarangays(cityCode: string): (r: seq<AddressOption>)
    ensures |r| > 0
    ensures HasKey(Barangays, cityCode) ==> Lookup(Barangays, cityCode) == Some(r)
    ensures !HasKey(Barangays, cityCode) ==>
      |r| == 3 && r[0].code == "POBLACION" && r[1].code == "BARANGAY_1" && r[2].code == "OTHER_BARANGAY"
  {
    BarangayListsWellFormed();
    var found := Lookup(Barangays, cityCode);
    if found.Some? && |found.value| > 0 then found.value else DefaultBarangayOptions
  }

  /** getPostalCode: `postalCodes[code] || ''`; every listed code has four digits. */
  function GetPostalCode(barangayCode: string): (r: string)
    ensures !HasKey(PostalCodes, barangayCode) ==> r == ""
    ensures HasKey(PostalCodes, barangayCode) ==> Lookup(PostalCodes, barangayCode) == Some(r) && |r| == 4
  {
    PostalCodesWellFormed();
    var found := Lookup(PostalCodes, barangayCode);
    if found.Some? && found.value != "" then found.value else ""
  }

  /** findByCode: the first option whose code matches, undefined (None) if none does. */
  function FindByCode(items: seq<AddressOption>, code: string): (r: Option<AddressOption>)
    ensures r.None? <==> forall i :: 0 <= i < |items| ==> items[i].code != code
    ensures r.Some? ==>
      exists i :: (0 <= i < |items| && items[i] == r.value && items[i].code == code
                   && forall j :: 0 <= j < i ==> items[j].code != code)
  {
    if items == [] then None
    else if items[0].code == code then Some(items[0])
    else
      var rest := FindByCode(items[1..], code);
      assert forall i :: 0 < i < |items| ==> items[i] == items[1..][i - 1];
      rest
  }

  /** findByValue: the first option whose value matches, undefined (None) if none does. */
  function FindByValue(items: seq<AddressOption>, value: string): (r: Option<AddressOption>)
    ensures r.None? <==> forall i :: 0 <= i < |items| ==> items[i].value != value
    ensures r.Some? ==>
      exists i :: (0 <= i < |items| && items[i] == r.value && items[i].value == value
                   && forall j :: 0 <= j < i ==> items[j].value != value)
  {
    if items == [] then None
    else if items[0].value == value then Some(items[0])
    else
      var rest := FindByValue(items[1..], value);
      assert forall i :: 0 < i < |items| ==> items[i] == items[1..][i - 1];
      rest
  }

  // ---------------------------------------------------------------------
  // Facts about the tables

  /** Every option stores its own code as its value. */
  predicate ValueIsCode(items: seq<AddressOption>) {
    forall i :: 0 <= i < |items| ==> items[i].value == items[i].code
  }

  /** On a list whose values are its codes, findByCode and findByValue find the same option. */
  lemma {:induction false} FindByCodeIsFindByValue(items: seq<AddressOption>, code: string)
    requires ValueIsCode(items)
    ensures FindByCode(items, code) == FindByValue(items, code)
  {
    if items != [] {
      assert items[0].value == items[0].code;
      assert ValueIsCode(items[1..]) by {
        forall i | 0 <= i < |items[1..]| ensures items[1..][i].value == items[1..][i].code {
          assert items[1..][i] == items[i + 1];
        }
      }
      FindByCodeIsFindByValue(items[1..], code);
    }
  }

  /** Every list of a table stores codes as values and is non-empty. */
  predicate WellFormed(t: seq<(string, seq<AddressOption>)>) {
    forall i :: 0 <= i < |t| ==> ValueIsCode(t[i].1) && |t[i].1| > 0
  }

  lemma WellFormedAppend(a: seq<(string, seq<AddressOption>)>, b: seq<(string, seq<AddressOption>)>)
    requires WellFormed(a) && WellFormed(b)
    ensures WellFormed(a + b)
  {
    forall i | 0 <= i < |a + b| ensures ValueIsCode((a + b)[i].1) && |(a + b)[i].1| > 0 {
      if i < |a| { assert (a + b)[i] == a[i]; } else { assert (a + b)[i] == b[i - |a|]; }
    }
  }

  /** Every option in `options` has an entry under its code in `t`. */
  predicate CoversCodes<V>(options: seq<AddressOption>, t: seq<(string, V)>) {
    forall j :: 0 <= j < |options| ==> HasKey(t, options[j].code)
  }

  // Region by region: the value of every option is its code, every city list
  // is non-empty, and every listed province has an entry in the cities table.
  lemma NcrCitiesWellFormedFront()
    ensures forall i :: 0 <= i < 8 ==> ValueIsCode(NcrCityEntries[i].1) && |NcrCityEntries[i].1| > 0
  {
    forall i | 0 <= i < 8
      ensures ValueIsCode(NcrCityEntries[i].1) && |NcrCityEntries[i].1| > 0
    {
      if i == 0 { assert NcrCityEntries[0].1 == MnlCities && ValueIsCode(MnlCities) && |MnlCities| > 0; }
      else if i == 1 { assert NcrCityEntries[1].1 == QcCities && ValueIsCode(QcCities) && |QcCities| > 0; }
      else if i == 2 { assert NcrCityEntries[2].1 == MktCities && ValueIsCode(MktCities) && |MktCities| > 0; }
      else if i == 3 { assert NcrCityEntries[3].1 == TayCities && ValueIsCode(TayCities) && |TayCities| > 0; }
      else if i == 4 { assert NcrCityEntries[4].1 == PasCities && ValueIsCode(PasCities) && |PasCities| > 0; }
      else if i == 5 { assert NcrCityEntries[5].1 == PsgCities && ValueIsCode(PsgCities) && |PsgCities| > 0; }
      else if i == 6 { assert NcrCityEntries[6].1 == MarCities && ValueIsCode(MarCities) && |MarCities| > 0; }
      else { assert NcrCityEntries[7].1 == SjcCities && ValueIsCode(SjcCities) && |SjcCities| > 0; }
    }
  }

  lemma NcrCitiesWellFormedBack()
    ensures forall i :: 8 <= i < 17 ==> ValueIsCode(NcrCityEntries[i].1) && |NcrCityEntries[i].1| > 0
  {
    forall i | 8 <= i < 17
      ensures ValueIsCode(NcrCityEntries[i].1) && |NcrCityEntries[i].1| > 0
    {
      if i == 8 { assert NcrCityEntries[8].1 == MndCities && ValueIsCode(MndCities) && |MndCities| > 0; }
      else if i == 9 { assert NcrCityEntries[9].1 == CalCities && ValueIsCode(CalCities) && |CalCities| > 0; }
      else if i == 10 { assert NcrCityEntries[10].1 == ValCities && ValueIsCode(ValCities) && |ValCities| > 0; }
      else if i == 11 { assert NcrCityEntries[11].1 == NavCities && ValueIsCode(NavCities) && |NavCities| > 0; }
      else if i == 12 { assert NcrCityEntries[12].1 == MalCities && ValueIsCode(MalCities) && |MalCities| > 0; }
      else if i == 13 { assert NcrCityEntries[13].1 == LpaCities && ValueIsCode(LpaCities) && |LpaCities| > 0; }
      else if i == 14 { assert NcrCityEntries[14].1 == MunCities && ValueIsCode(MunCities) && |MunCities| > 0; }
      else if i == 15 { assert NcrCityEntries[15].1 == ParCities && ValueIsCode(ParCities) && |ParCities| > 0; }
      else { assert NcrCityEntries[16].1 == BgcCities && ValueIsCode(BgcCities) && |BgcCities| > 0; }
    }
  }

  lemma NcrProvincesValueIsCode()
    ensures ValueIsCode(NcrProvinces)
  {
  }

  lemma NcrCitiesWellFormed()
    ensures WellFormed(NcrCityEntries)
  {
    NcrCitiesWellFormedFront();
    NcrCitiesWellFormedBack();
  }

  lemma NcrProvincesHaveCities()
    ensures CoversCodes(NcrProvinces, NcrCityEntries)
  {
    forall i | 0 <= i < |NcrProvinces|
      ensures HasKey(NcrCityEntries, NcrProvinces[i].code)
    {
      if i == 0 { assert NcrCityEntries[0].0 == NcrProvinces[0].code; }
      else if i == 1 { assert NcrCityEntries[1].0 == NcrProvinces[1].code; }
      else if i == 2 { assert NcrCityEntries[2].0 == NcrProvinces[2].code; }
      else if i == 3 { assert NcrCityEntries[3].0 == NcrProvinces[3].code; }
      else if i == 4 { assert NcrCityEntries[4].0 == NcrProvinces[4].code; }
      else if i == 5 { assert NcrCityEntries[16].0 == NcrProvinces[5].code; }
      else if i == 6 { assert NcrCityEntries[5].0 == NcrProvinces[6].code; }
      else if i == 7 { assert NcrCityEntries[6].0 == NcrProvinces[7].code; }
      else if i == 8 { assert NcrCityEntries[7].0 == NcrProvinces[8].code; }
      else if i == 9 { assert NcrCityEntries[8].0 == NcrProvinces[9].code; }
      else if i == 10 { assert NcrCityEntries[9].0 == NcrProvinces[10].code; }
      else if i == 11 { assert NcrCityEntries[10].0 == NcrProvinces[11].code; }
      else if i == 12 { assert NcrCityEntries[11].0 == NcrProvinces[12].code; }
      else if i == 13 { assert NcrCityEntries[12].0 == NcrProvinces[13].code; }
      else if i == 14 { assert NcrCityEntries[13].0 == NcrProvinces[14].code; }
      else if i == 15 { assert NcrCityEntries[14].0 == NcrProvinces[15].code; }
      else { assert NcrCityEntries[15].0 == NcrProvinces[16].code; }
    }
  }

  lemma CarProvincesValueIsCode()
    ensures ValueIsCode(CarProvinces)
  {
  }

  lemma CarCitiesWellFormed()
    ensures WellFormed(CarCityEntries)
  {
  }

  lemma CarProvincesHaveCities()
    ensures CoversCodes(CarProvinces, CarCityEntries)
  {
    forall i | 0 <= i < |CarProvinces|
      ensures HasKey(CarCityEntries, CarProvinces[i].code)
    {
      if i == 0 { assert CarCityEntries[0].0 == CarProvinces[0].code; }
      else if i == 1 { assert CarCityEntries[1].0 == CarProvinces[1].code; }
      else if i == 2 { assert CarCityEntries[2].0 == CarProvinces[2].code; }
      else if i == 3 { assert CarCityEntries[3].0 == CarProvinces[3].code; }
      else if i == 4 { assert CarCityEntries[4].0 == CarProvinces[4].code; }
      else { assert CarCityEntries[5].0 == CarProvinces[5].code; }
    }
  }

  lemma Region1ProvincesValueIsCode()
    ensures ValueIsCode(Region1Provinces)
  {
  }

  lemma Region1CitiesWellFormed()
    ensures WellFormed(Region1CityEntries)
  {
  }

  lemma Region1ProvincesHaveCities()
    ensures CoversCodes(Region1Provinces, Region1CityEntries)
  {
    forall i | 0 <= i < |Region1Provinces|
      ensures HasKey(Region1CityEntries, Region1Provinces[i].code)
    {
      if i == 0 { assert Region1CityEntries[0].0 == Region1Provinces[0].code; }
      else if i == 1 { assert Region1CityEntries[1].0 == Region1Provinces[1].code; }
      else if i == 2 { assert Region1CityEntries[2].0 == Region1Provinces[2].code; }
      else { assert Region1CityEntries[3].0 == Region1Provinces[3].code; }
    }
  }

  lemma Region2ProvincesValueIsCode()
    ensures ValueIsCode(Region2Provinces)
  {
  }

  lemma Region2CitiesWellFormed()
    ensures WellFormed(Region2CityEntries)
  {
  }

  lemma Region2ProvincesHaveCities()
    ensures CoversCodes(Region2Provinces, Region2CityEntries)
  {
    forall i | 0 <= i < |Region2Provinces|
      ensures HasKey(Region2CityEntries, Region2Provinces[i].code)
    {
      if i == 0 { assert Region2CityEntries[0].0 == Region2Provinces[0].code; }
      else if i == 1 { assert Region2CityEntries[1].0 == Region2Provinces[1].code; }
      else if i == 2 { assert Region2CityEntries[2].0 == Region2Provinces[2].code; }
      else if i == 3 { assert Region2CityEntries[3].0 == Region2Provinces[3].code; }
      else { assert Region2CityEntries[4].0 == Region2Provinces[4].code; }
    }
  }

  lemma Region3ProvincesValueIsCode()
    ensures ValueIsCode(Region3Provinces)
  {
  }

  lemma Region3CitiesWellFormed()
    ensures WellFormed(Region3CityEntries)
  {
  }

  lemma Region3ProvincesHaveCities()
    ensures CoversCodes(Region3Provinces, Region3CityEntries)
  {
    forall i | 0 <= i < |Region3Provinces|
      ensures HasKey(Region3CityEntries, Region3Provinces[i].code)
    {
      if i == 0 { assert Region3CityEntries[0].0 == Region3Provinces[0].code; }
      else if i == 1 { assert Region3CityEntries[1].0 == Region3Provinces[1].code; }
      else if i == 2 { assert Region3CityEntries[2].0 == Region3Provinces[2].code; }
      else if i == 3 { assert Region3CityEntries[3].0 == Region3Provinces[3].code; }
      else if i == 4 { assert Region3CityEntries[4].0 == Region3Provinces[4].code; }
      else if i == 5 { assert Region3CityEntries[5].0 == Region3Provinces[5].code; }
      else { assert Region3CityEntries[6].0 == Region3Provinces[6].code; }
    }
  }

  lemma Region4aProvincesValueIsCode()
    ensures ValueIsCode(Region4aProvinces)
  {
  }

  lemma Region4aCitiesWellFormed()
    ensures WellFormed(Region4aCityEntries)
  {
  }

  lemma Region4aProvincesHaveCities()
    ensures CoversCodes(Region4aProvinces, Region4aCityEntries)
  {
    forall i | 0 <= i < |Region4aProvinces|
      ensures HasKey(Region4aCityEntries, Region4aProvinces[i].code)
    {
      if i == 0 { assert Region4aCityEntries[0].0 == Region4aProvinces[0].code; }
      else if i == 1 { assert Region4aCityEntries[1].0 == Region4aProvinces[1].code; }
      else if i == 2 { assert Region4aCityEntries[2].0 == Region4aProvinces[2].code; }
      else if i == 3 { assert Region4aCityEntries[3].0 == Region4aProvinces[3].code; }
      else { assert Region4aCityEntries[4].0 == Region4aProvinces[4].code; }
    }
  }

  lemma Region4bProvincesValueIsCode()
    ensures ValueIsCode(Region4bProvinces)
  {
  }

  lemma Region4bCitiesWellFormed()
    ensures WellFormed(Region4bCityEntries)
  {
  }

  lemma Region4bProvincesHaveCities()
    ensures CoversCodes(Region4bProvinces, Region4bCityEntries)
  {
    forall i | 0 <= i < |Region4bProvinces|
      ensures HasKey(Region4bCityEntries, Region4bProvinces[i].code)
    {
      if i == 0 { assert Region4bCityEntries[0].0 == Region4bProvinces[0].code; }
      else if i == 1 { assert Region4bCityEntries[1].0 == Region4bProvinces[1].code; }
      else if i == 2 { assert Region4bCityEntries[2].0 == Region4bProvinces[2].code; }
      else if i == 3 { assert Region4bCityEntries[3].0 == Region4bProvinces[3].code; }
      else { assert Region4bCityEntries[4].0 == Region4bProvinces[4].code; }
    }
  }

  lemma Region5ProvincesValueIsCode()
    ensures ValueIsCode(Region5Provinces)
  {
  }

  lemma Region5CitiesWellFormed()
    ensures WellFormed(Region5CityEntries)
  {
  }

  lemma Region5ProvincesHaveCities()
    ensures CoversCodes(Region5Provinces, Region5CityEntries)
  {
    forall i | 0 <= i < |Region5Provinces|
      ensures HasKey(Region5CityEntries, Region5Provinces[i].code)
    {
      if i == 0 { assert Region5CityEntries[0].0 == Region5Provinces[0].code; }
      else if i == 1 { assert Region5CityEntries[1].0 == Region5Provinces[1].code; }
      else if i == 2 { assert Region5CityEntries[2].0 == Region5Provinces[2].code; }
      else if i == 3 { assert Region5CityEntries[3].0 == Region5Provinces[3].code; }
      else if i == 4 { assert Region5CityEntries[4].0 == Region5Provinces[4].code; }
      else { assert Region5CityEntries[5].0 == Region5Provinces[5].code; }
    }
  }

  lemma Region6ProvincesValueIsCode()
    ensures ValueIsCode(Region6Provinces)
  {
  }

  lemma Region6CitiesWellFormed()
    ensures WellFormed(Region6CityEntries)
  {
  }

  lemma Region6ProvincesHaveCities()
    ensures CoversCodes(Region6Provinces, Region6CityEntries)
  {
    forall i | 0 <= i < |Region6Provinces|
      ensures HasKey(Region6CityEntries, Region6Provinces[i].code)
    {
      if i == 0 { assert Region6CityEntries[0].0 == Region6Provinces[0].code; }
      else if i == 1 { assert Region6CityEntries[1].0 == Region6Provinces[1].code; }
      else if i == 2 { assert Region6CityEntries[2].0 == Region6Provinces[2].code; }
      else if i == 3 { assert Region6CityEntries[3].0 == Region6Provinces[3].code; }
      else if i == 4 { assert Region6CityEntries[4].0 == Region6Provinces[4].code; }
      else { assert Region6CityEntries[5].0 == Region6Provinces[5].code; }
    }
  }

  lemma Region7ProvincesValueIsCode()
    ensures ValueIsCode(Region7Provinces)
  {
  }

  lemma Region7CitiesWellFormed()
    ensures WellFormed(Region7CityEntries)
  {
  }

  lemma Region7ProvincesHaveCities()
    ensures CoversCodes(Region7Provinces, Region7CityEntries)
  {
    forall i | 0 <= i < |Region7Provinces|
      ensures HasKey(Region7CityEntries, Region7Provinces[i].code)
    {
      if i == 0 { assert Region7CityEntries[0].0 == Region7Provinces[0].code; }
      else if i == 1 { assert Region7CityEntries[1].0 == Region7Provinces[1].code; }
      else if i == 2 { assert Region7CityEntries[2].0 == Region7Provinces[2].code; }
      else { assert Region7CityEntries[3].0 == Region7Provinces[3].code; }
    }
  }

  lemma Region8ProvincesValueIsCode()
    ensures ValueIsCode(Region8Provinces)
  {
  }

  lemma Region8CitiesWellFormed()
    ensures WellFormed(Region8CityEntries)
  {
  }

  lemma Region8ProvincesHaveCities()
    ensures CoversCodes(Region8Provinces, Region8CityEntries)
  {
    forall i | 0 <= i < |Region8Provinces|
      ensures HasKey(Region8CityEntries, Region8Provinces[i].code)
    {
      if i == 0 { assert Region8CityEntries[0].0 == Region8Provinces[0].code; }
      else if i == 1 { assert Region8CityEntries[1].0 == Region8Provinces[1].code; }
      else if i == 2 { assert Region8CityEntries[2].0 == Region8Provinces[2].code; }
      else if i == 3 { assert Region8CityEntries[3].0 == Region8Provinces[3].code; }
      else if i == 4 { assert Region8CityEntries[4].0 == Region8Provinces[4].code; }
      else { assert Region8CityEntries[5].0 == Region8Provinces[5].code; }
    }
  }

  lemma Region9ProvincesValueIsCode()
    ensures ValueIsCode(Region9Provinces)
  {
  }

  lemma Region9CitiesWellFormed()
    ensures WellFormed(Region9CityEntries)
  {
  }

  lemma Region9ProvincesHaveCities()
    ensures CoversCodes(Region9Provinces, Region9CityEntries)
  {
    forall i | 0 <= i < |Region9Provinces|
      ensures HasKey(Region9CityEntries, Region9Provinces[i].code)
    {
      if i == 0 { assert Region9CityEntries[0].0 == Region9Provinces[0].code; }
      else if i == 1 { assert Region9CityEntries[1].0 == Region9Provinces[1].code; }
      else { assert Region9CityEntries[2].0 == Region9Provinces[2].code; }
    }
  }

  lemma Region10ProvincesValueIsCode()
    ensures ValueIsCode(Region10Provinces)
  {
  }

  lemma Region10CitiesWellFormed()
    ensures WellFormed(Region10CityEntries)
  {
  }

  lemma Region10ProvincesHaveCities()
    ensures CoversCodes(Region10Provinces, Region10CityEntries)
  {
    forall i | 0 <= i < |Region10Provinces|
      ensures HasKey(Region10CityEntries, Region10Provinces[i].code)
    {
      if i == 0 { assert Region10CityEntries[0].0 == Region10Provinces[0].code; }
      else if i == 1 { assert Region10CityEntries[1].0 == Region10Provinces[1].code; }
      else if i == 2 { assert Region10CityEntries[2].0 == Region10Provinces[2].code; }
      else if i == 3 { assert Region10CityEntries[3].0 == Region10Provinces[3].code; }
      else { assert Region10CityEntries[4].0 == Region10Provinces[4].code; }
    }
  }

  lemma Region11ProvincesValueIsCode()
    ensures ValueIsCode(Region11Provinces)
  {
  }

  lemma Region11CitiesWellFormed()
    ensures WellFormed(Region11CityEntries)
  {
  }

  lemma Region11ProvincesHaveCities()
    ensures CoversCodes(Region11Provinces, Region11CityEntries)
  {
    forall i | 0 <= i < |Region11Provinces|
      ensures HasKey(Region11CityEntries, Region11Provinces[i].code)
    {
      if i == 0 { assert Region11CityEntries[0].0 == Region11Provinces[0].code; }
      else if i == 1 { assert Region11CityEntries[1].0 == Region11Provinces[1].code; }
      else if i == 2 { assert Region11CityEntries[2].0 == Region11Provinces[2].code; }
      else if i == 3 { assert Region11CityEntries[3].0 == Region11Provinces[3].code; }
      else { assert Region11CityEntries[4].0 == Region11Provinces[4].code; }
    }
  }

  lemma Region12ProvincesValueIsCode()
    ensures ValueIsCode(Region12Provinces)
  {
  }

  lemma Region12CitiesWellFormed()
    ensures WellFormed(Region12CityEntries)
  {
  }

  lemma Region12ProvincesHaveCities()
    ensures CoversCodes(Region12Provinces, Region12CityEntries)
  {
    forall i | 0 <= i < |Region12Provinces|
      ensures HasKey(Region12CityEntries, Region12Provinces[i].code)
    {
      if i == 0 { assert Region12CityEntries[0].0 == Region12Provinces[0].code; }
      else if i == 1 { assert Region12CityEntries[1].0 == Region12Provinces[1].code; }
      else if i == 2 { assert Region12CityEntries[2].0 == Region12Provinces[2].code; }
      else { assert Region12CityEntries[3].0 == Region12Provinces[3].code; }
    }
  }

  lemma Region13ProvincesValueIsCode()
    ensures ValueIsCode(Region13Provinces)
  {
  }

  lemma Region13CitiesWellFormed()
    ensures WellFormed(Region13CityEntries)
  {
  }

  lemma Region13ProvincesHaveCities()
    ensures CoversCodes(Region13Provinces, Region13CityEntries)
  {
    forall i | 0 <= i < |Region13Provinces|
      ensures HasKey(Region13CityEntries, Region13Provinces[i].code)
    {
      if i == 0 { assert Region13CityEntries[0].0 == Region13Provinces[0].code; }
      else if i == 1 { assert Region13CityEntries[1].0 == Region13Provinces[1].code; }
      else if i == 2 { assert Region13CityEntries[2].0 == Region13Provinces[2].code; }
      else if i == 3 { assert Region13CityEntries[3].0 == Region13Provinces[3].code; }
      else { assert Region13CityEntries[4].0 == Region13Provinces[4].code; }
    }
  }

  lemma BarmmProvincesValueIsCode()
    ensures ValueIsCode(BarmmProvinces)
  {
  }

  lemma BarmmCitiesWellFormed()
    ensures WellFormed(BarmmCityEntries)
  {
  }

  lemma BarmmProvincesHaveCities()
    ensures CoversCodes(BarmmProvinces, BarmmCityEntries)
  {
    forall i | 0 <= i < |BarmmProvinces|
      ensures HasKey(BarmmCityEntries, BarmmProvinces[i].code)
    {
      if i == 0 { assert BarmmCityEntries[0].0 == BarmmProvinces[0].code; }
      else if i == 1 { assert BarmmCityEntries[1].0 == BarmmProvinces[1].code; }
      else if i == 2 { assert BarmmCityEntries[2].0 == BarmmProvinces[2].code; }
      else if i == 3 { assert BarmmCityEntries[3].0 == BarmmProvinces[3].code; }
      else if i == 4 { assert BarmmCityEntries[4].0 == BarmmProvinces[4].code; }
      else { assert BarmmCityEntries[5].0 == BarmmProvinces[5].code; }
    }
  }

  lemma CitiesFrontWellFormed()
    ensures WellFormed(CitiesFront)
  {
    NcrCitiesWellFormed();
    CarCitiesWellFormed();
    Region1CitiesWellFormed();
    Region2CitiesWellFormed();
    Region3CitiesWellFormed();
    Region4aCitiesWellFormed();
    Region4bCitiesWellFormed();
    Region5CitiesWellFormed();
    WellFormedAppend(NcrCityEntries, CarCityEntries);
    WellFormedAppend(NcrCityEntries + CarCityEntries, Region1CityEntries);
    WellFormedAppend(NcrCityEntries + CarCityEntries + Region1CityEntries, Region2CityEntries);
    WellFormedAppend(NcrCityEntries + CarCityEntries + Region1CityEntries + Region2CityEntries, Region3CityEntries);
    WellFormedAppend(NcrCityEntries + CarCityEntries + Region1CityEntries + Region2CityEntries + Region3CityEntries, Region4aCityEntries);
    WellFormedAppend(NcrCityEntries + CarCityEntries + Region1CityEntries + Region2CityEntries + Region3CityEntries + Region4aCityEntries, Region4bCityEntries);
    WellFormedAppend(NcrCityEntries + CarCityEntries + Region1CityEntries + Region2CityEntries + Region3CityEntries + Region4aCityEntries + Region4bCityEntries, Region5CityEntries);
  }

  lemma CitiesBackWellFormed()
    ensures WellFormed(CitiesBack)
  {
    Region6CitiesWellFormed();
    Region7CitiesWellFormed();
    Region8CitiesWellFormed();
    Region9CitiesWellFormed();
    Region10CitiesWellFormed();
    Region11CitiesWellFormed();
    Region12CitiesWellFormed();
    Region13CitiesWellFormed();
    BarmmCitiesWellFormed();
    WellFormedAppend(Region6CityEntries, Region7CityEntries);
    WellFormedAppend(Region6CityEntries + Region7CityEntries, Region8CityEntries);
    WellFormedAppend(Region6CityEntries + Region7CityEntries + Region8CityEntries, Region9CityEntries);
    WellFormedAppend(Region6CityEntries + Region7CityEntries + Region8CityEntries + Region9CityEntries, Region10CityEntries);
    WellFormedAppend(Region6CityEntries + Region7CityEntries + Region8CityEntries + Region9CityEntries + Region10CityEntries, Region11CityEntries);
    WellFormedAppend(Region6CityEntries + Region7CityEntries + Region8CityEntries + Region9CityEntries + Region10CityEntries + Region11CityEntries, Region12CityEntries);
    WellFormedAppend(Region6CityEntries + Region7CityEntries + Region8CityEntries + Region9CityEntries + Region10CityEntries + Region11CityEntries + Region12CityEntries, Region13CityEntries);
    WellFormedAppend(Region6CityEntries + Region7CityEntries + Region8CityEntries + Region9CityEntries + Region10CityEntries + Region11CityEntries + Region12CityEntries + Region13CityEntries, BarmmCityEntries);
  }

  /** Every list of the provinces and cities tables stores codes as values; no city list is empty. */
  lemma CityListsWellFormed()
    ensures WellFormed(Cities)
    ensures forall i :: 0 <= i < |Provinces| ==> ValueIsCode(Provinces[i].1)
  {
    NcrProvincesValueIsCode();
    CarProvincesValueIsCode();
    Region1ProvincesValueIsCode();
    Region2ProvincesValueIsCode();
    Region3ProvincesValueIsCode();
    Region4aProvincesValueIsCode();
    Region4bProvincesValueIsCode();
    Region5ProvincesValueIsCode();
    Region6ProvincesValueIsCode();
    Region7ProvincesValueIsCode();
    Region8ProvincesValueIsCode();
    Region9ProvincesValueIsCode();
    Region10ProvincesValueIsCode();
    Region11ProvincesValueIsCode();
    Region12ProvincesValueIsCode();
    Region13ProvincesValueIsCode();
    BarmmProvincesValueIsCode();
    CitiesFrontWellFormed();
    CitiesBackWellFormed();
    WellFormedAppend(CitiesFront, CitiesBack);
  }

  lemma BarangayListsWellFormed()
    ensures WellFormed(Barangays)
    ensures ValueIsCode(DefaultBarangayOptions)
  {
  }

  lemma PostalCodesWellFormed()
    ensures forall i :: 0 <= i < |PostalCodes| ==> |PostalCodes[i].1| == 4
  {
  }

  lemma CitiesFrontHasKey(k: string)
    ensures HasKey(CitiesFront, k) <==> HasKey(NcrCityEntries, k) || HasKey(CarCityEntries, k) || HasKey(Region1CityEntries, k) || HasKey(Region2CityEntries, k) || HasKey(Region3CityEntries, k) || HasKey(Region4aCityEntries, k) || HasKey(Region4bCityEntries, k) || HasKey(Region5CityEntries, k)
  {
    LookupAppend(NcrCityEntries, CarCityEntries, k);
    LookupAppend(NcrCityEntries + CarCityEntries, Region1CityEntries, k);
    LookupAppend(NcrCityEntries + CarCityEntries + Region1CityEntries, Region2CityEntries, k);
    LookupAppend(NcrCityEntries + CarCityEntries + Region1CityEntries + Region2CityEntries, Region3CityEntries, k);
    LookupAppend(NcrCityEntries + CarCityEntries + Region1CityEntries + Region2CityEntries + Region3CityEntries, Region4aCityEntries, k);
    LookupAppend(NcrCityEntries + CarCityEntries + Region1CityEntries + Region2CityEntries + Region3CityEntries + Region4aCityEntries, Region4bCityEntries, k);
    LookupAppend(NcrCityEntries + CarCityEntries + Region1CityEntries + Region2CityEntries + Region3CityEntries + Region4aCityEntries + Region4bCityEntries, Region5CityEntries, k);
  }

  lemma CitiesBackHasKey(k: string)
    ensures HasKey(CitiesBack, k) <==> HasKey(Region6CityEntries, k) || HasKey(Region7CityEntries, k) || HasKey(Region8CityEntries, k) || HasKey(Region9CityEntries, k) || HasKey(Region10CityEntries, k) || HasKey(Region11CityEntries, k) || HasKey(Region12CityEntries, k) || HasKey(Region13CityEntries, k) || HasKey(BarmmCityEntries, k)
  {
    LookupAppend(Region6CityEntries, Region7CityEntries, k);
    LookupAppend(Region6CityEntries + Region7CityEntries, Region8CityEntries, k);
    LookupAppend(Region6CityEntries + Region7CityEntries + Region8CityEntries, Region9CityEntries, k);
    LookupAppend(Region6CityEntries + Region7CityEntries + Region8CityEntries + Region9CityEntries, Region10CityEntries, k);
    LookupAppend(Region6CityEntries + Region7CityEntries + Region8CityEntries + Region9CityEntries + Region10CityEntries, Region11CityEntries, k);
    LookupAppend(Region6CityEntries + Region7CityEntries + Region8CityEntries + Region9CityEntries + Region10CityEntries + Region11CityEntries, Region12CityEntries, k);
    LookupAppend(Region6CityEntries + Region7CityEntries + Region8CityEntries + Region9CityEntries + Region10CityEntries + Region11CityEntries + Region12CityEntries, Region13CityEntries, k);
    LookupAppend(Region6CityEntries + Region7CityEntries + Region8CityEntries + Region9CityEntries + Region10CityEntries + Region11CityEntries + Region12CityEntries + Region13CityEntries, BarmmCityEntries, k);
  }

  /** The cities table has an entry under `k` exactly when one of its region groups has. */
  lemma CitiesHasKey(k: string)
    ensures HasKey(Cities, k) <==> HasKey(NcrCityEntries, k) || HasKey(CarCityEntries, k) || HasKey(Region1CityEntries, k) || HasKey(Region2CityEntries, k) || HasKey(Region3CityEntries, k) || HasKey(Region4aCityEntries, k) || HasKey(Region4bCityEntries, k) || HasKey(Region5CityEntries, k) || HasKey(Region6CityEntries, k) || HasKey(Region7CityEntries, k) || HasKey(Region8CityEntries, k) || HasKey(Region9CityEntries, k) || HasKey(Region10CityEntries, k) || HasKey(Region11CityEntries, k) || HasKey(Region12CityEntries, k) || HasKey(Region13CityEntries, k) || HasKey(BarmmCityEntries, k)
  {
    CitiesFrontHasKey(k);
    CitiesBackHasKey(k);
    LookupAppend(CitiesFront, CitiesBack, k);
  }

  // The provinces of the first eight regions, then of the rest, have entries in the cities table.
  lemma FrontProvincesHaveCities(k: nat, j: nat)
    requires 0 <= k < 8 && j < |Provinces[k].1|
    ensures HasKey(Cities, Provinces[k].1[j].code)
  {
    CitiesHasKey(Provinces[k].1[j].code);
    if k == 0 { NcrProvincesHaveCities(); }
    else if k == 1 { CarProvincesHaveCities(); }
    else if k == 2 { Region1ProvincesHaveCities(); }
    else if k == 3 { Region2ProvincesHaveCities(); }
    else if k == 4 { Region3ProvincesHaveCities(); }
    else if k == 5 { Region4aProvincesHaveCities(); }
    else if k == 6 { Region4bProvincesHaveCities(); }
    else { Region5ProvincesHaveCities(); }
  }

  lemma BackProvincesHaveCities(k: nat, j: nat)
    requires 8 <= k < 17 && j < |Provinces[k].1|
    ensures HasKey(Cities, Provinces[k].1[j].code)
  {
    CitiesHasKey(Provinces[k].1[j].code);
    if k == 8 { Region6ProvincesHaveCities(); }
    else if k == 9 { Region7ProvincesHaveCities(); }
    else if k == 10 { Region8ProvincesHaveCities(); }
    else if k == 11 { Region9ProvincesHaveCities(); }
    else if k == 12 { Region10ProvincesHaveCities(); }
    else if k == 13 { Region11ProvincesHaveCities(); }
    else if k == 14 { Region12ProvincesHaveCities(); }
    else if k == 15 { Region13ProvincesHaveCities(); }
    else { BarmmProvincesHaveCities(); }
  }

  /**
   * Every province that getProvinces lists has its own entry in the cities
   * table, so getCities never falls back to the generated pair for it.
   */
  lemma ListedProvincesHaveCities(regionCode: string, j: nat)
    requires j < |GetProvinces(regionCode)|
    ensures HasKey(Cities, GetProvinces(regionCode)[j].code)
    ensures GetCities(GetProvinces(regionCode)[j].code) == Lookup(Cities, GetProvinces(regionCode)[j].code).value
  {
    var k :| 0 <= k < |Provinces| && Provinces[k].0 == regionCode && Provinces[k].1 == GetProvinces(regionCode);
    if k < 8 {
      FrontProvincesHaveCities(k, j);
    } else {
      BackProvincesHaveCities(k, j);
    }
  }

  lemma RegionsValueIsCode()
    ensures ValueIsCode(Regions)
  {
  }

  lemma BarangayListValueIsCode(code: string)
    ensures ValueIsCode(GetBarangays(code))
  {
    BarangayListsWellFormed();
    if HasKey(Barangays, code) {
      var i :| 0 <= i < |Barangays| && Barangays[i].0 == code && Barangays[i].1 == GetBarangays(code);
    }
  }

  lemma ProvinceListValueIsCode(code: string)
    ensures ValueIsCode(GetProvinces(code))
  {
    CityListsWellFormed();
  }

  lemma CityListValueIsCode(code: string)
    ensures ValueIsCode(GetCities(code))
  {
    CityListsWellFormed();
    if HasKey(Cities, code) {
      var i :| 0 <= i < |Cities| && Cities[i].0 == code && Cities[i].1 == GetCities(code);
    }
  }

  /** The options lists the helpers can return all store codes as values. */
  lemma HelperListsValueIsCode(code: string)
    ensures ValueIsCode(Regions)
    ensures ValueIsCode(GetProvinces(code))
    ensures ValueIsCode(GetCities(code))
    ensures ValueIsCode(GetBarangays(code))
  {
    RegionsValueIsCode();
    ProvinceListValueIsCode(code);
    CityListValueIsCode(code);
    BarangayListValueIsCode(code);
  }

  /** So on every list the address form shows, findByCode and findByValue agree. */
  lemma FindAgreesOnHelperLists(code: string, key: string)
    ensures FindByCode(Regions, key) == FindByValue(Regions, key)
    ensures FindByCode(GetProvinces(code), key) == FindByValue(GetProvinces(code), key)
    ensures FindByCode(GetCities(code), key) == FindByValue(GetCities(code), key)
    ensures FindByCode(GetBarangays(code), key) == FindByValue(GetBarangays(code), key)
  {
    HelperListsValueIsCode(code);
    FindByCodeIsFindByValue(Regions, key);
    FindByCodeIsFindByValue(GetProvinces(code), key);
    FindByCodeIsFindByValue(GetCities(code), key);
    FindByCodeIsFindByValue(GetBarangays(code), key);
  }
}
