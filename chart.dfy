/** The chart of accounts (`PLAN_COMPTABLE`) offered by the entry form:
    account code to account title. The source writes it as one dictionary;
    here it is the union of one map per account class (the leading
    digit of the code), which holds the same 70 entries, no code twice. */
module Chart {

  /** Class 1: capital, reserves, provisions and borrowings. */
  const Capital: map<string, string> := map[
    "101" := "Capital",
    "106" := "Réserves",
    "110" := "Report à nouveau",
    "151" := "Provisions pour risques",
    "153" := "Provisions grosses réparations",
    "158" := "Autres provisions",
    "164" := "Emprunts auprès établissements crédit",
    "1675" := "Emprunts participatifs",
    "168" := "Autres emprunts et dettes assimilées"
  ]

  /** Class 2: fixed assets and their depreciation. */
  const FixedAssets: map<string, string> := map[
    "205" := "Logiciels",
    "206" := "Droit au bail",
    "207" := "Fonds commercial",
    "2131" := "Bâtiments",
    "2154" := "Matériel industriel (cuisine)",
    "2182" := "Matériel de transport",
    "2183" := "Matériel informatique",
    "2184" := "Mobilier",
    "2805" := "Amortissements logiciels",
    "2806" := "Amortissements droit au bail",
    "2807" := "Amortissements fonds commercial",
    "28131" := "Amortissements bâtiments",
    "28154" := "Amortissements matériel cuisine",
    "28182" := "Amortissements matériel transport",
    "28183" := "Amortissements matériel informatique",
    "28184" := "Amortissements mobilier"
  ]

  /** Class 3: inventories. */
  const Inventory: map<string, string> := map[
    "31" := "Matières premières",
    "321" := "Matières consommables",
    "37" := "Stocks de marchandises"
  ]

  /** Class 4: third parties (suppliers, customers, staff, taxes). */
  const ThirdParties: map<string, string> := map[
    "401" := "Fournisseurs",
    "404" := "Fournisseurs immobilisations",
    "408" := "Factures non parvenues",
    "411" := "Clients",
    "416" := "Clients douteux",
    "421" := "Personnel - Rémunérations dues",
    "431" := "Sécurité sociale",
    "437" := "Autres organismes sociaux",
    "445" := "TVA",
    "447" := "Autres impôts et taxes",
    "467" := "Autres créances"
  ]

  /** Class 5: bank and cash. */
  const Cash: map<string, string> := map[
    "512" := "Banque",
    "514" := "Chèques postaux",
    "53" := "Caisse"
  ]

  /** Class 6: expenses. */
  const Expenses: map<string, string> := map[
    "601" := "Achats stockés - Matières premières",
    "6061" := "Fournitures non stockables (eau, énergie)",
    "607" := "Achats de marchandises",
    "6132" := "Locations immobilières",
    "615" := "Entretien et réparations",
    "6161" := "Primes d'assurances",
    "6260" := "Frais postaux et télécommunications",
    "621" := "Personnel extérieur",
    "641" := "Rémunérations du personnel",
    "645" := "Charges sociales",
    "647" := "Autres cotisations sociales",
    "6611" := "Intérêts des emprunts",
    "666" := "Pertes de change",
    "6582" := "Pénalités, amendes",
    "6871" := "Dotations amortissements exceptionnels",
    "68111" := "Dotations aux amortissements"
  ]

  /** Class 7: revenue. */
  const Revenue: map<string, string> := map[
    "701" := "Ventes de produits finis (hébergement)",
    "706" := "Prestations de services (restaurant)",
    "707" := "Produits annexes",
    "708" := "Produits activités diverses",
    "709" := "Rabais accordés",
    "741" := "Subventions d'exploitation",
    "747" := "Quote-part subventions investissement",
    "757" := "Produits des cessions d'immobilisations",
    "764" := "Revenus des valeurs mobilières",
    "766" := "Gains de change",
    "768" := "Autres produits financiers",
    "7588" := "Autres produits exceptionnels"
  ]

  const Plan: map<string, string> := Capital + FixedAssets + Inventory + ThirdParties + Cash + Expenses + Revenue
}
