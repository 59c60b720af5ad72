/**
 * The static legal reference table `legalReferenceData`: eleven topics, each
 * with keywords, a canned response and citations, in catalog order.
 */
module Catalog {

  /** One topic of the reference table. */
  datatype Topic = Topic(keywords: seq<string>, response: string, citations: seq<string>)

  /**
   * Every topic has a keyword, no keyword is empty, and the response and the
   * citation list are non-empty.
   */
  predicate WellFormedTopic(t: Topic)
  {
    && |t.keywords| > 0
    && (forall i :: 0 <= i < |t.keywords| ==> |t.keywords[i]| > 0)
    && |t.response| > 0
    && |t.citations| > 0
  }

  predicate WellFormed(topics: seq<Topic>)
  {
    forall i :: 0 <= i < |topics| ==> WellFormedTopic(topics[i])
  }

  const FundamentalRights: Topic := Topic(
    ["fundamental rights", "basic rights", "मौलिक अधिकार", "right to equality", "right to freedom", "article 14", "article 19", "article 21"],
    "**Fundamental Rights under the Indian Constitution (Part III)**",
    ["Article 14 - Right to Equality",
     "Article 19 - Right to Freedom",
     "Article 21 - Right to Life and Personal Liberty",
     "Article 32 - Right to Constitutional Remedies",
     "Part III - Constitution of India"])

  const Fir: Topic := Topic(
    ["fir", "police complaint", "file complaint", "पुलिस शिकायत", "एफआईआर", "first information report", "lodge fir", "police report"],
    "**How to File an FIR (First Information Report) in India**",
    ["Section 173 BNSS - Information in Cognizable Cases",
     "Section 175(3) BNSS - Magistrate Power",
     "Section 211 BNS - False Charge of Offence",
     "Lalita Kumari v. Govt. of U.P. (2014) - Mandatory FIR Registration"])

  const Divorce: Topic := Topic(
    ["divorce", "तलाक", "marriage dissolution", "divorce process", "mutual divorce", "contested divorce", "विवाह विच्छेद"],
    "**Divorce Laws in India**",
    ["Section 13 - Hindu Marriage Act, 1955",
     "Section 13-B - Mutual Consent Divorce",
     "Section 125 CrPC / Section 144 BNSS - Maintenance",
     "Special Marriage Act, 1954",
     "Indian Divorce Act, 1869"])

  const ConsumerRights: Topic := Topic(
    ["consumer rights", "consumer complaint", "उपभोक्ता", "consumer protection", "product defect", "defective product", "consumer court", "consumer forum"],
    "**Consumer Rights & Consumer Protection Act, 2019**",
    ["Consumer Protection Act, 2019",
     "Section 34 - District Consumer Forum",
     "Section 47 - State Commission",
     "Section 58 - National Commission",
     "E-Commerce Rules, 2020"])

  const Tenancy: Topic := Topic(
    ["tenant", "rent", "landlord", "eviction", "किराया", "किरायेदार", "मकान मालिक", "rental agreement", "tenant rights"],
    "**Tenant Rights in India**",
    ["Model Tenancy Act, 2021",
     "Transfer of Property Act, 1882 - Section 106",
     "Section 441 BNS - Criminal Trespass",
     "Rent Control Acts (State-specific)",
     "Registration Act, 1908"])

  const CriminalLaw: Topic := Topic(
    ["ipc", "criminal", "bns", "bharatiya nyaya", "punishment", "offence", "crime", "अपराध", "दंड", "murder", "theft", "assault"],
    "**Criminal Law in India — Bharatiya Nyaya Sanhita (BNS), 2023**",
    ["Bharatiya Nyaya Sanhita (BNS), 2023",
     "Section 101 BNS - Murder",
     "Section 303 BNS - Theft",
     "Section 318 BNS - Cheating",
     "Bharatiya Nagarik Suraksha Sanhita (BNSS), 2023"])

  const Property: Topic := Topic(
    ["property", "land", "succession", "inheritance", "will", "संपत्ति", "जमीन", "उत्तराधिकार", "वसीयत", "property dispute", "land dispute"],
    "**Property Law in India**",
    ["Transfer of Property Act, 1882",
     "Hindu Succession Act, 1956 (Amendment 2005)",
     "Registration Act, 1908",
     "Indian Succession Act, 1925",
     "RERA Act, 2016"])

  const CyberCrime: Topic := Topic(
    ["cyber crime", "online fraud", "hacking", "साइबर अपराध", "ऑनलाइन धोखाधड़ी", "identity theft", "cyber bullying", "data privacy", "it act"],
    "**Cyber Crime Laws in India**",
    ["Information Technology Act, 2000",
     "Section 66 IT Act - Hacking",
     "Section 66C IT Act - Identity Theft",
     "Digital Personal Data Protection Act, 2023",
     "RBI Circular on Digital Fraud"])

  const Labour: Topic := Topic(
    ["labour", "labor", "employment", "salary", "wages", "termination", "वेतन", "नौकरी", "रोजगार", "minimum wage", "working hours", "pf", "provident fund", "gratuity"],
    "**Labour Laws in India**",
    ["Code on Wages, 2019",
     "Industrial Relations Code, 2020",
     "Social Security Code, 2020",
     "Occupational Safety Code, 2020",
     "Payment of Gratuity Act, 1972"])

  const Rti: Topic := Topic(
    ["rti", "right to information", "सूचना का अधिकार", "information act", "government information", "public information"],
    "**Right to Information (RTI) Act, 2005**",
    ["Right to Information Act, 2005",
     "Section 6 - Application for Information",
     "Section 7 - Disposal of Request",
     "Section 8 - Exemptions",
     "Section 20 - Penalties"])

  const WomenProtection: Topic := Topic(
    ["women", "domestic violence", "dowry", "harassment", "sexual harassment", "महिला", "घरेलू हिंसा", "दहेज", "उत्पीड़न", "posh", "workplace harassment"],
    "**Laws Protecting Women in India**",
    ["Protection of Women from Domestic Violence Act, 2005",
     "Dowry Prohibition Act, 1961",
     "POSH Act, 2013",
     "Section 63 BNS - Rape",
     "Section 354 BNS - Assault on Woman"])

  /** `legalReferenceData`, in catalog order (the order breaks ties). */
  const LegalReferenceData: seq<Topic> :=
    [FundamentalRights, Fir, Divorce, ConsumerRights, Tenancy, CriminalLaw,
     Property, CyberCrime, Labour, Rti, WomenProtection]

  // Each topic is checked on its own, which keeps every proof small.

  lemma FundamentalRightsWellFormed()
    ensures WellFormedTopic(FundamentalRights)
  {
  }

  lemma FirWellFormed()
    ensures WellFormedTopic(Fir)
  {
  }

  lemma DivorceWellFormed()
    ensures WellFormedTopic(Divorce)
  {
  }

  lemma ConsumerRightsWellFormed()
    ensures WellFormedTopic(ConsumerRights)
  {
  }

  lemma TenancyWellFormed()
    ensures WellFormedTopic(Tenancy)
  {
  }

  lemma CriminalLawWellFormed()
    ensures WellFormedTopic(CriminalLaw)
  {
  }

  lemma PropertyWellFormed()
    ensures WellFormedTopic(Property)
  {
  }

  lemma CyberCrimeWellFormed()
    ensures WellFormedTopic(CyberCrime)
  {
  }

  lemma LabourWellFormed()
    ensures WellFormedTopic(Labour)
  {
  }

  lemma RtiWellFormed()
    ensures WellFormedTopic(Rti)
  {
  }

  lemma WomenProtectionWellFormed()
    ensures WellFormedTopic(WomenProtection)
  {
  }

  /** The shipped table meets the topic invariant. */
  lemma LegalReferenceDataWellFormed()
    ensures |LegalReferenceData| == 11
    ensures WellFormed(LegalReferenceData)
  {
    FundamentalRightsWellFormed();
    FirWellFormed();
    DivorceWellFormed();
    ConsumerRightsWellFormed();
    TenancyWellFormed();
    CriminalLawWellFormed();
    PropertyWellFormed();
    CyberCrimeWellFormed();
    LabourWellFormed();
    RtiWellFormed();
    WomenProtectionWellFormed();
  }
}
