/** The translation lookup of src/contexts/language-context.tsx: two constant tables,
    a current language that starts as Czech, and `t(key)`, which falls back to the key. */
module LanguageContext {
  import opened Wrappers
  import opened JsObjects

  /** The two supported languages. */
  datatype Language = Cs | De

  const DefaultLanguage: Language := Cs

  /** The Czech table, src/contexts/language-context.tsx:12-87. */
  function CsEntry(key: string): Option<string>
  {
    match key
    case "home" => Some("Domů")
    case "references" => Some("Reference")
    case "contact" => Some("Kontakt")
    case "heroTitle" => Some("MASTERSTAV s.r.o.")
    case "heroSubtitle" => Some("Rodinná stavební firma s tradicí")
    case "heroDescription" => Some("Specializujeme se na kompletní stavební služby, rekonstrukce a půdní vestavby. S více než 20letou zkušeností v Karlových Varech přinášíme kvalitu a spolehlivost.")
    case "getQuote" => Some("Získat cenovou nabídku")
    case "ourServices" => Some("Naše služby")
    case "newConstruction" => Some("Novostavby")
    case "newConstructionDesc" => Some("Kompletní výstavba rodinných domů na klíč včetně projektové dokumentace.")
    case "reconstruction" => Some("Rekonstrukce")
    case "reconstructionDesc" => Some("Celkové i částečné rekonstrukce bytů, domů a komerčních prostor.")
    case "atticConversion" => Some("Půdní vestavby")
    case "atticConversionDesc" => Some("Přeměna podkroví na obytné prostory s maximálním využitím prostoru.")
    case "earthwork" => Some("Zemní práce")
    case "earthworkDesc" => Some("Výkopy základů, terénní úpravy, odvodnění a kompletní zemní práce.")
    case "stoneWork" => Some("Kamenické práce")
    case "stoneWorkDesc" => Some("Kamenické práce Karlovy Vary - obklady, dlažby, schodiště a dekorativní prvky z kamene.")
    case "insulation" => Some("Zateplení")
    case "insulationDesc" => Some("Komplexní zateplení fasád a střech pro úsporu energií.")
    case "interiors" => Some("Interiéry")
    case "interiorsDesc" => Some("Kompletní realizace interiérů včetně designu a dodávky materiálů.")
    case "whyChooseUs" => Some("Proč si vybrat právě nás?")
    case "experience" => Some("Více než 20 let zkušeností")
    case "experienceDesc" => Some("Dlouholetá praxe v Karlových Varech a stovky spokojených zákazníků.")
    case "quality" => Some("Kvalitní materiály")
    case "qualityDesc" => Some("Používáme pouze prověřené materiály od renomovaných výrobců.")
    case "warranty" => Some("Záruka a servis")
    case "warrantyDesc" => Some("Na všechny naše práce poskytujeme záruку a následný servis.")
    case "pricing" => Some("Transparentní ceny")
    case "pricingDesc" => Some("Férové ceny bez skrytých poplatků a dodatečných nákladů.")
    case "referencesTitle" => Some("Naše reference")
    case "referencesSubtitle" => Some("Podívejte se na naše dokončené projekty v Karlových Varech a okolí")
    case "viewProject" => Some("Zobrazit projekt")
    case "contactTitle" => Some("Kontaktujte nás")
    case "contactSubtitle" => Some("Rádi vám připravíme cenovou nabídku na míru")
    case "contactInfo" => Some("Kontaktní informace")
    case "address" => Some("Adresa")
    case "phone" => Some("Telefon")
    case "email" => Some("E-mail")
    case "openingHours" => Some("Provozní doba")
    case "workdays" => Some("Po - Pá: 7:00 - 17:00")
    case "saturday" => Some("So: 8:00 - 12:00")
    case "sunday" => Some("Ne: Zavřeno")
    case "contactForm" => Some("Kontaktní formulář")
    case "name" => Some("Jméno a příjmení")
    case "nameRequired" => Some("Jméno je povinné")
    case "emailRequired" => Some("E-mail je povinný")
    case "phoneNumber" => Some("Telefonní číslo")
    case "subject" => Some("Předmět")
    case "message" => Some("Zpráva")
    case "messageRequired" => Some("Zpráva je povinná")
    case "sendMessage" => Some("Odeslat zprávu")
    case "messageSent" => Some("Zpráva byla úspěšně odeslána!")
    case "companyInfo" => Some("Informace o společnosti")
    case "footerDescription" => Some("MASTERSTAV s.r.o. je rodinná stavební firma s dlouholetou tradicí v Karlových Varech. Naše práce je naší vizitkou.")
    case "quickLinks" => Some("Rychlé odkazy")
    case "services" => Some("Služby")
    case "allRightsReserved" => Some("Všechna práva vyhrazena")
    case _ => None
  }

  /** The German table, src/contexts/language-context.tsx:88-163. */
  function DeEntry(key: string): Option<string>
  {
    match key
    case "home" => Some("Startseite")
    case "references" => Some("Referenzen")
    case "contact" => Some("Kontakt")
    case "heroTitle" => Some("MASTERSTAV s.r.o.")
    case "heroSubtitle" => Some("Familienbauunternehmen mit Tradition")
    case "heroDescription" => Some("Wir sind spezialisiert auf komplette Bauleistungen, Rekonstruktionen und Dachausbau. Mit über 20 Jahren Erfahrung in Karlsbad bringen wir Qualität und Zuverlässigkeit.")
    case "getQuote" => Some("Kostenvoranschlag erhalten")
    case "ourServices" => Some("Unsere Dienstleistungen")
    case "newConstruction" => Some("Neubauten")
    case "newConstructionDesc" => Some("Kompletter schlüsselfertiger Bau von Einfamilienhäusern einschließlich Projektdokumentation.")
    case "reconstruction" => Some("Rekonstruktionen")
    case "reconstructionDesc" => Some("Vollständige und teilweise Rekonstruktionen von Wohnungen, Häusern und Gewerbeflächen.")
    case "atticConversion" => Some("Dachausbau")
    case "atticConversionDesc" => Some("Umwandlung von Dachböden in Wohnräume mit maximaler Raumnutzung.")
    case "earthwork" => Some("Erdarbeiten")
    case "earthworkDesc" => Some("Fundamentaushub, Geländemodellierung, Entwässerung und komplette Erdarbeiten.")
    case "stoneWork" => Some("Steinmetzarbeiten")
    case "stoneWorkDesc" => Some("Steinmetzarbeiten Karlsbad - Verkleidungen, Böden, Treppen und dekorative Steinelemente.")
    case "insulation" => Some("Dämmung")
    case "insulationDesc" => Some("Komplexe Dämmung von Fassaden und Dächern zur Energieeinsparung.")
    case "interiors" => Some("Innenausbau")
    case "interiorsDesc" => Some("Komplette Innenraumgestaltung einschließlich Design und Materiallieferung.")
    case "whyChooseUs" => Some("Warum uns wählen?")
    case "experience" => Some("Über 20 Jahre Erfahrung")
    case "experienceDesc" => Some("Langjährige Praxis in Karlsbad und Hunderte zufriedener Kunden.")
    case "quality" => Some("Hochwertige Materialien")
    case "qualityDesc" => Some("Wir verwenden nur bewährte Materialien von renommierten Herstellern.")
    case "warranty" => Some("Garantie und Service")
    case "warrantyDesc" => Some("Auf alle unsere Arbeiten gewähren wir Garantie und Nachservice.")
    case "pricing" => Some("Transparente Preise")
    case "pricingDesc" => Some("Faire Preise ohne versteckte Gebühren und zusätzliche Kosten.")
    case "referencesTitle" => Some("Unsere Referenzen")
    case "referencesSubtitle" => Some("Schauen Sie sich unsere abgeschlossenen Projekte in Karlsbad und Umgebung an")
    case "viewProject" => Some("Projekt ansehen")
    case "contactTitle" => Some("Kontaktieren Sie uns")
    case "contactSubtitle" => Some("Gerne erstellen wir Ihnen ein maßgeschneidertes Angebot")
    case "contactInfo" => Some("Kontaktinformationen")
    case "address" => Some("Adresse")
    case "phone" => Some("Telefon")
    case "email" => Some("E-Mail")
    case "openingHours" => Some("Öffnungszeiten")
    case "workdays" => Some("Mo - Fr: 7:00 - 17:00")
    case "saturday" => Some("Sa: 8:00 - 12:00")
    case "sunday" => Some("So: Geschlossen")
    case "contactForm" => Some("Kontaktformular")
    case "name" => Some("Vor- und Nachname")
    case "nameRequired" => Some("Name ist erforderlich")
    case "emailRequired" => Some("E-Mail ist erforderlich")
    case "phoneNumber" => Some("Telefonnummer")
    case "subject" => Some("Betreff")
    case "message" => Some("Nachricht")
    case "messageRequired" => Some("Nachricht ist erforderlich")
    case "sendMessage" => Some("Nachricht senden")
    case "messageSent" => Some("Nachricht wurde erfolgreich gesendet!")
    case "companyInfo" => Some("Firmeninformation")
    case "footerDescription" => Some("MASTERSTAV s.r.o. ist ein Familienbauunternehmen mit langer Tradition in Karlsbad. Unsere Arbeit ist unsere Visitenkarte.")
    case "quickLinks" => Some("Schnelllinks")
    case "services" => Some("Dienstleistungen")
    case "allRightsReserved" => Some("Alle Rechte vorbehalten")
    case _ => None
  }

  /** The current language's entry for a key, if the table defines it. */
  function Entry(lang: Language, key: string): Option<string>
  {
    match lang
    case Cs => CsEntry(key)
    case De => DeEntry(key)
  }

  /** `t(key)`: the current language's entry when there is one and it is non-empty,
      otherwise the key itself (`|| key`). */
  function T(lang: Language, key: string): (r: string)
    ensures Entry(lang, key).Some? && Entry(lang, key).value != "" ==> r == Entry(lang, key).value
    ensures Entry(lang, key).None? || Entry(lang, key).value == "" ==> r == key
  {
    var entry := Entry(lang, key);
    if entry.Some? && entry.value != "" then entry.value else key
  }

  /** Both tables define the same keys, so a key falls back to itself in one
      language exactly when it does in the other, and no entry is its own key. */
  lemma TablesShareKeys(key: string)
    ensures CsEntry(key).Some? <==> DeEntry(key).Some?
    ensures CsEntry(key).Some? ==> CsEntry(key).value != key
    ensures DeEntry(key).Some? ==> DeEntry(key).value != key
  {
  }

  /** The references page labels its `roofWork` filter button with `t('roofWork')`;
      neither table defines that key, so the button shows the raw key in both languages. */
  lemma RoofWorkLabelIsKey()
    ensures Entry(Cs, "roofWork").None? && Entry(De, "roofWork").None?
    ensures T(Cs, "roofWork") == "roofWork" && T(De, "roofWork") == "roofWork"
  {
  }

  /** Sample entries: the category names the references page translates. */
  lemma SampleEntries()
    ensures T(Cs, "newConstruction") == "Novostavby" && T(De, "newConstruction") == "Neubauten"
    ensures T(Cs, "reconstruction") == "Rekonstrukce" && T(De, "reconstruction") == "Rekonstruktionen"
    ensures T(Cs, "atticConversion") == "Půdní vestavby" && T(De, "atticConversion") == "Dachausbau"
    ensures T(Cs, "insulation") == "Zateplení" && T(De, "insulation") == "Dämmung"
  {
  }

  // ---------------------------------------------------------------------------
  // The lookup as the source writes it: an index into a plain object literal
  // ---------------------------------------------------------------------------

  /** What `translations[language][key] || key` evaluates to: a string, or an
      inherited function or object (which is truthy, so `|| key` does not apply). */
  datatype LookupValue = Text(s: string) | InheritedMember(name: string)

  function LookupAsWritten(lang: Language, key: string): LookupValue
  {
    var entry := Entry(lang, key);
    if entry.Some? then Text(if entry.value != "" then entry.value else key)
    else if key in ObjectPrototypeMembers then InheritedMember(key)
    else Text(key)
  }

  /** The source's `t` does not return a string for an inherited property name,
      although its declared type promises one; `T` returns the key. */
  lemma LookupAsWrittenNotText(lang: Language)
    ensures LookupAsWritten(lang, "toString") == InheritedMember("toString")
    ensures LookupAsWritten(lang, "constructor") == InheritedMember("constructor")
    ensures T(lang, "toString") == "toString" && T(lang, "constructor") == "constructor"
  {
  }

  /** For every other key the source's `t` and `T` agree. */
  lemma LookupAgreesElsewhere(lang: Language, key: string)
    requires key !in ObjectPrototypeMembers
    ensures LookupAsWritten(lang, key) == Text(T(lang, key))
  {
  }

  /** The provider's state: the current language, changed by `setLanguage`. */
  class LanguageState {
    var language: Language

    constructor ()
      ensures language == DefaultLanguage
    {
      language := DefaultLanguage;
    }

    method SetLanguage(lang: Language)
      modifies this
      ensures language == lang
    {
      language := lang;
    }

    /** `t` bound to the current language. */
    function Translate(key: string): string
      reads this
    {
      T(language, key)
    }
  }
}
