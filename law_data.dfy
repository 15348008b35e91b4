/** The static law catalog the library page filters. */
module LawData {

  /** One read-only catalog entry. */
  datatype Law = Law(
    id: nat,
    title: string,
    category: string,
    description: string,
    simplified: string,
    year: nat,
    sections: seq<string>,
    tags: seq<string>)

  const ItAct := Law(
    1,
    "Information Technology Act, 2000",
    "Cyber Crimes",
    "The primary law in India dealing with cybercrime and electronic commerce.",
    "Think of it as the main rulebook for the internet in India. It covers everything from digital signatures to hacking penalties.",
    2000,
    ["Section 43", "Section 66", "Section 67"],
    ["IT Act", "Cyber Crime", "Electronic Evidence"])

  const DpdpAct := Law(
    2,
    "Digital Personal Data Protection Act, 2023",
    "Data Protection & Privacy",
    "An Act to provide for the processing of digital personal data in a manner that recognizes both the right of individuals to protect their personal data and the need to process such personal data for lawful purposes.",
    "This law is all about your privacy. It forces companies to ask for your permission before using your data and punishes them if they misuse it.",
    2023,
    ["Section 3", "Section 8"],
    ["Privacy", "DPDP", "Data Rights"])

  const Section66F := Law(
    3,
    "Section 66F - Cyber Terrorism",
    "Cyber Terrorism",
    "Punishment for cyber terrorism.",
    "This section deals with acts that threaten the unity, integrity, security or sovereignty of India or strike terror in the people using digital means.",
    2008,
    ["Section 66F"],
    ["Terrorism", "National Security"])

  const Section66C := Law(
    4,
    "Section 66C - Identity Theft",
    "Identity Theft",
    "Punishment for identity theft.",
    "If someone uses your password or digital signature without your permission, they can be punished under this law.",
    2008,
    ["Section 66C"],
    ["Identity Theft", "Fraud"])

  const Section66D := Law(
    5,
    "Section 66D - Cheating by Personation",
    "Online Fraud & Financial Crimes",
    "Punishment for cheating by personation by using computer resource.",
    "This covers scenarios where someone pretends to be someone else online to cheat people.",
    2008,
    ["Section 66D"],
    ["Cheating", "Impersonation"])

  const SecurityPolicy := Law(
    6,
    "National Cyber Security Policy, 2013",
    "Compliance & Standards",
    "A policy framework to protect information and information infrastructure in cyberspace.",
    "A government plan to make the internet safer for everyone in the country.",
    2013,
    [],
    ["Policy", "Security Infrastructure"])

  const PocsoAct := Law(
    7,
    "POCSO Act (Digital Safety)",
    "Child Safety Online",
    "Protection of Children from Sexual Offences Act, specifically addressing digital exploitation.",
    "Strict laws to protect children from online abuse and exploitation.",
    2012,
    ["Section 13", "Section 14"],
    ["Child Safety", "POCSO"])

  const CopyrightAct := Law(
    8,
    "Copyright Act (Digital Amendments)",
    "Intellectual Property Rights",
    "Provisions related to digital copyright infringement.",
    "Rules that stop people from stealing digital creations like music, movies, and software.",
    2012,
    ["Section 65A"],
    ["Copyright", "Piracy"])

  const CardFraudRules := Law(
    9,
    "Credit Card Fraud Regulations",
    "Online Fraud & Financial Crimes",
    "RBI guidelines and legal provisions against credit card fraud.",
    "Rules protecting you if your credit card is used without your permission.",
    2020,
    [],
    ["Banking", "Fraud", "Financial"])

  /** The catalog, in source order. */
  const Catalog: seq<Law> := [
    ItAct, DpdpAct, Section66F, Section66C, Section66D,
    SecurityPolicy, PocsoAct, CopyrightAct, CardFraudRules
  ]
}
