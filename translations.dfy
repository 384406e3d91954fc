/** The site's English/Spanish dictionary (`translations` in
    src/context/LanguageContext.tsx). The source writes it as one object per
    locale whose keys are dotted names, grouped by comment-headed sections.
    Here each section of each locale is two functions: one gives the position
    of a key among the section's keys, the other the text at a position, in
    the order of the source. The dictionary of a locale is the union of its
    sections. All 128 entries of each locale are here, text verbatim. */
module Translations {
  import opened Wrappers
  import opened Text

  /** The two locales: `'en' | 'es'`. */
  datatype Language = En | Es

  /** The language the toggle buttons switch to. */
  function Toggled(lang: Language): (r: Language)
    ensures r != lang
  {
    if lang == En then Es else En
  }

  /** Toggling twice is the identity. */
  lemma ToggleTwice(lang: Language)
    ensures Toggled(Toggled(lang)) == lang
  {
  }

  /** The sections of the dictionary, in source order, named after the
      comments that head them. */
  datatype Section =
      Navbar
    | About
    | Projects
    | NioLearning
    | Crickett
    | Contact
    | Chatbot
    | Deck
    | Saas
    | Llm
    | SupportAutomation
    | Sap
    | Education
    | Approach
    | Delivery
    | Cta
    | AiConsultant

  /** Where an entry sits: its section and its position within it. */
  datatype Place = Place(sec: Section, index: nat)

  /** Where `key` sits in the `en` block, if it is there. */
  function EnPlace(key: string): Option<Place> {
    if EnNavbarKey(key).Some? then Some(Place(Navbar, EnNavbarKey(key).value))
    else if EnAboutKey(key).Some? then Some(Place(About, EnAboutKey(key).value))
    else if EnProjectsKey(key).Some? then Some(Place(Projects, EnProjectsKey(key).value))
    else if EnNioLearningKey(key).Some? then Some(Place(NioLearning, EnNioLearningKey(key).value))
    else if EnCrickettKey(key).Some? then Some(Place(Crickett, EnCrickettKey(key).value))
    else if EnContactKey(key).Some? then Some(Place(Contact, EnContactKey(key).value))
    else if EnChatbotKey(key).Some? then Some(Place(Chatbot, EnChatbotKey(key).value))
    else if EnDeckKey(key).Some? then Some(Place(Deck, EnDeckKey(key).value))
    else if EnSaasKey(key).Some? then Some(Place(Saas, EnSaasKey(key).value))
    else if EnLlmKey(key).Some? then Some(Place(Llm, EnLlmKey(key).value))
    else if EnSupportAutomationKey(key).Some? then Some(Place(SupportAutomation, EnSupportAutomationKey(key).value))
    else if EnSapKey(key).Some? then Some(Place(Sap, EnSapKey(key).value))
    else if EnEducationKey(key).Some? then Some(Place(Education, EnEducationKey(key).value))
    else if EnApproachKey(key).Some? then Some(Place(Approach, EnApproachKey(key).value))
    else if EnDeliveryKey(key).Some? then Some(Place(Delivery, EnDeliveryKey(key).value))
    else if EnCtaKey(key).Some? then Some(Place(Cta, EnCtaKey(key).value))
    else if EnAiConsultantKey(key).Some? then Some(Place(AiConsultant, EnAiConsultantKey(key).value))
    else None
  }

  /** The text at `p` in the `en` block. */
  function EnText(p: Place): string {
    match p.sec
    case Navbar => EnNavbarText(p.index)
    case About => EnAboutText(p.index)
    case Projects => EnProjectsText(p.index)
    case NioLearning => EnNioLearningText(p.index)
    case Crickett => EnCrickettText(p.index)
    case Contact => EnContactText(p.index)
    case Chatbot => EnChatbotText(p.index)
    case Deck => EnDeckText(p.index)
    case Saas => EnSaasText(p.index)
    case Llm => EnLlmText(p.index)
    case SupportAutomation => EnSupportAutomationText(p.index)
    case Sap => EnSapText(p.index)
    case Education => EnEducationText(p.index)
    case Approach => EnApproachText(p.index)
    case Delivery => EnDeliveryText(p.index)
    case Cta => EnCtaText(p.index)
    case AiConsultant => EnAiConsultantText(p.index)
  }

  // Navbar, lines 14-22
  function EnNavbarKey(key: string): (r: Option<nat>)
    ensures r.Some? ==> r.value < 8 && key != [] && key[0] == 'n'
  {
    match key
    case "nav.about" => Some(0)
    case "nav.services" => Some(1)
    case "nav.projects" => Some(2)
    case "nav.contact" => Some(3)
    case "nav.whatsapp" => Some(4)
    case "nav.allProjects" => Some(5)
    case "nav.aiEducation" => Some(6)
    case "nav.chatbotAutomation" => Some(7)
    case _ => None
  }

  function EnNavbarText(i: nat): string {
    match i
    case 0 => "About"
    case 1 => "Services"
    case 2 => "Projects"
    case 3 => "Contact"
    case 4 => "WhatsApp Us"
    case 5 => "All Projects"
    case 6 => "AI Education"
    case 7 => "Chatbot Automation"
    case _ => ""
  }

  // About section, lines 24-34
  function EnAboutKey(key: string): (r: Option<nat>)
    ensures r.Some? ==> r.value < 10 && key != [] && key[0] == 'a'
  {
    match key
    case "about.title" => Some(0)
    case "about.subtitle" => Some(1)
    case "about.lead" => Some(2)
    case "about.philosophy" => Some(3)
    case "about.whatWeOffer" => Some(4)
    case "about.offer1" => Some(5)
    case "about.offer2" => Some(6)
    case "about.offer3" => Some(7)
    case "about.offer4" => Some(8)
    case "about.closing" => Some(9)
    case _ => None
  }

  function EnAboutText(i: nat): string {
    match i
    case 0 => "About Karuna"
    case 1 => "Transforming businesses with intelligent automation"
    case 2 => "Karuna is a technology consultancy firm with an extreme focus on finding the best business solutions for systems administration. We believe that technology should serve humanity, not the other way around."
    case 3 => "Our philosophy is simple yet profound: we exist to serve others by implementing top-tier technology solutions that improve well-being and operational efficiency. Every line of code, every system design, and every consultation is guided by this principle."
    case 4 => "What We Offer"
    case 5 => "End-to-end automation solutions that transform manual processes into efficient, scalable systems across any architecture."
    case 6 => "Data optimization and business intelligence solutions that turn raw information into actionable insights and strategic advantages."
    case 7 => "Custom software development from web applications to enterprise SAAS solutions, built with precision and user-centric design."
    case 8 => "Hardware and IoT integration for modern infrastructure, bringing physical and digital systems into perfect harmony."
    case 9 => "We don't just implement solutions; we become partners in your journey toward operational excellence and technological advancement."
    case _ => ""
  }

  // Projects section, lines 36-49
  function EnProjectsKey(key: string): (r: Option<nat>)
    ensures r.Some? ==> r.value < 13 && key != [] && key[0] == 'p'
  {
    match key
    case "projects.title" => Some(0)
    case "projects.intro" => Some(1)
    case "projects.introText" => Some(2)
    case "projects.discuss" => Some(3)
    case "projects.whatsapp" => Some(4)
    case "projects.allProjects" => Some(5)
    case "projects.viewDetails" => Some(6)
    case "projects.visitSite" => Some(7)
    case "projects.challenge" => Some(8)
    case "projects.solution" => Some(9)
    case "projects.results" => Some(10)
    case "projects.cta" => Some(11)
    case "projects.ctaButton" => Some(12)
    case _ => None
  }

  function EnProjectsText(i: nat): string {
    match i
    case 0 => "What We've Built"
    case 1 => "We're business makers."
    case 2 => "We walk with our clients to build not just scalable software, but scalable business solutions. Here are some of the AI-powered products we've developed and launched."
    case 3 => "Let's Discuss Your Project"
    case 4 => "WhatsApp:"
    case 5 => "All Projects"
    case 6 => "View Details"
    case 7 => "Visit Site"
    case 8 => "The Challenge"
    case 9 => "Our Solution"
    case 10 => "Results"
    case 11 => "Ready to build something together?"
    case 12 => "Let's Talk"
    case _ => ""
  }

  // NIO Learning, lines 51-60
  function EnNioLearningKey(key: string): (r: Option<nat>)
    ensures r.Some? ==> r.value < 9 && key != [] && key[0] == 'n'
  {
    match key
    case "nio.title" => Some(0)
    case "nio.category" => Some(1)
    case "nio.description" => Some(2)
    case "nio.challenge" => Some(3)
    case "nio.solution" => Some(4)
    case "nio.result1" => Some(5)
    case "nio.result2" => Some(6)
    case "nio.result3" => Some(7)
    case "nio.result4" => Some(8)
    case _ => None
  }

  function EnNioLearningText(i: nat): string {
    match i
    case 0 => "NIO Learning"
    case 1 => "AI Education Platform"
    case 2 => "One of the first AI-powered education platforms in Latin America"
    case 3 => "Traditional education platforms lacked personalization and couldn't adapt to individual learning styles, leaving students struggling to keep pace or feeling unchallenged."
    case 4 => "We developed and scaled NIO Learning from the ground up \U{2014} an AI-powered education platform that personalizes learning paths, adapts content difficulty in real-time, and provides intelligent tutoring assistance to students across Latin America."
    case 5 => "Pioneer AI education platform in LATAM"
    case 6 => "Personalized learning paths for each student"
    case 7 => "Real-time content adaptation"
    case 8 => "Scalable architecture serving thousands of users"
    case _ => ""
  }

  // Crickett, lines 62-71
  function EnCrickettKey(key: string): (r: Option<nat>)
    ensures r.Some? ==> r.value < 9 && key != [] && key[0] == 'c'
  {
    match key
    case "crickett.title" => Some(0)
    case "crickett.category" => Some(1)
    case "crickett.description" => Some(2)
    case "crickett.challenge" => Some(3)
    case "crickett.solution" => Some(4)
    case "crickett.result1" => Some(5)
    case "crickett.result2" => Some(6)
    case "crickett.result3" => Some(7)
    case "crickett.result4" => Some(8)
    case _ => None
  }

  function EnCrickettText(i: nat): string {
    match i
    case 0 => "Crickett"
    case 1 => "Chatbot Automation"
    case 2 => "AI automation tool for lead capture \U{2014} plug and use, no flow design needed"
    case 3 => "Entrepreneurs and small businesses needed chatbot automation but were overwhelmed by complex flow builders, technical setup, and expensive solutions that required constant maintenance."
    case 4 => "We built Crickett \U{2014} an AI chatbot automation tool that's ready to use out of the box. Just connect it to your website and WhatsApp, and start capturing leads instantly. No flow design, no technical knowledge required. Pure plug-and-play automation."
    case 5 => "Zero-configuration chatbot deployment"
    case 6 => "Website + WhatsApp integration"
    case 7 => "Instant lead capture automation"
    case 8 => "Built for entrepreneurs and SMBs"
    case _ => ""
  }

  // Contact, lines 73-75
  function EnContactKey(key: string): (r: Option<nat>)
    ensures r.Some? ==> r.value < 2 && key != [] && key[0] == 'c'
  {
    match key
    case "contact.title" => Some(0)
    case "contact.subtitle" => Some(1)
    case _ => None
  }

  function EnContactText(i: nat): string {
    match i
    case 0 => "Get in Touch"
    case 1 => "Let's build something great together"
    case _ => ""
  }

  // Chatbot, lines 77-82
  function EnChatbotKey(key: string): (r: Option<nat>)
    ensures r.Some? ==> r.value < 5 && key != [] && key[0] == 'c'
  {
    match key
    case "chatbot.greeting" => Some(0)
    case "chatbot.placeholder" => Some(1)
    case "chatbot.bookCall" => Some(2)
    case "chatbot.online" => Some(3)
    case "chatbot.aiConsultant" => Some(4)
    case _ => None
  }

  function EnChatbotText(i: nat): string {
    match i
    case 0 => "Hi! I'm Karu, your AI consultant. I help businesses discover how AI can solve their challenges. What brings you here today?"
    case 1 => "Type your message..."
    case 2 => "Book a call with us via WhatsApp"
    case 3 => "Online"
    case 4 => "AI Consultant"
    case _ => ""
  }

  // Presentation Deck, lines 84-89
  function EnDeckKey(key: string): (r: Option<nat>)
    ensures r.Some? ==> r.value < 5 && key != [] && key[0] == 'd'
  {
    match key
    case "deck.title" => Some(0)
    case "deck.subtitle" => Some(1)
    case "deck.heroLead" => Some(2)
    case "deck.heroDesc" => Some(3)
    case "deck.specialtiesTitle" => Some(4)
    case _ => None
  }

  function EnDeckText(i: nat): string {
    match i
    case 0 => "Karuna"
    case 1 => "Technology Consulting & System Architecture"
    case 2 => "Designing, automating, and scaling technology systems with a premium, engineering-driven approach."
    case 3 => "Karuna is a boutique technology consultancy focused on building production-ready architectures, not generic solutions. We work closely with our clients to design, validate, and implement systems that scale reliably across software, data, AI, and enterprise platforms."
    case 4 => "Our Core Specialties"
    case _ => ""
  }

  // SaaS, lines 91-99
  function EnSaasKey(key: string): (r: Option<nat>)
    ensures r.Some? ==> r.value < 8 && key != [] && key[0] == 'd'
  {
    match key
    case "deck.saas.title" => Some(0)
    case "deck.saas.lead" => Some(1)
    case "deck.saas.item1" => Some(2)
    case "deck.saas.item2" => Some(3)
    case "deck.saas.item3" => Some(4)
    case "deck.saas.item4" => Some(5)
    case "deck.saas.item5" => Some(6)
    case "deck.saas.closing" => Some(7)
    case _ => None
  }

  function EnSaasText(i: nat): string {
    match i
    case 0 => "SaaS Product Design & Administration"
    case 1 => "We design and operate SaaS platforms from architecture to production."
    case 2 => "Product architecture and system design"
    case 3 => "Backend & frontend development"
    case 4 => "Cloud infrastructure and deployment pipelines"
    case 5 => "Observability, scaling, and operational governance"
    case 6 => "Admin tooling and internal dashboards"
    case 7 => "Our focus is not only building SaaS products, but ensuring they are operable, maintainable, and scalable over time."
    case _ => ""
  }

  // LLM, lines 101-109
  function EnLlmKey(key: string): (r: Option<nat>)
    ensures r.Some? ==> r.value < 8 && key != [] && key[0] == 'd'
  {
    match key
    case "deck.llm.title" => Some(0)
    case "deck.llm.lead" => Some(1)
    case "deck.llm.item1" => Some(2)
    case "deck.llm.item2" => Some(3)
    case "deck.llm.item3" => Some(4)
    case "deck.llm.item4" => Some(5)
    case "deck.llm.item5" => Some(6)
    case "deck.llm.closing" => Some(7)
    case _ => None
  }

  function EnLlmText(i: nat): string {
    match i
    case 0 => "LLM Integrations"
    case 1 => "We integrate Large Language Models as system components, not standalone features."
    case 2 => "LLM-driven workflows and decision engines"
    case 3 => "Retrieval-Augmented Generation (RAG)"
    case 4 => "Vector databases and data embedding strategies"
    case 5 => "Token optimization and cost control"
    case 6 => "Model evaluation and testing pipelines"
    case 7 => "LLMs are treated as part of the architecture, with clear boundaries, monitoring, and performance controls."
    case _ => ""
  }

  // Support Automation, lines 111-119
  function EnSupportAutomationKey(key: string): (r: Option<nat>)
    ensures r.Some? ==> r.value < 8 && key != [] && key[0] == 'd'
  {
    match key
    case "deck.support.title" => Some(0)
    case "deck.support.lead" => Some(1)
    case "deck.support.item1" => Some(2)
    case "deck.support.item2" => Some(3)
    case "deck.support.item3" => Some(4)
    case "deck.support.item4" => Some(5)
    case "deck.support.item5" => Some(6)
    case "deck.support.closing" => Some(7)
    case _ => None
  }

  function EnSupportAutomationText(i: nat): string {
    match i
    case 0 => "Support Automation Using LLMs"
    case 1 => "We design AI-powered support systems that reduce operational load while improving response quality."
    case 2 => "Automated tier-1 and tier-2 support"
    case 3 => "Knowledge base ingestion and contextual answering"
    case 4 => "Ticket classification and routing"
    case 5 => "Multi-channel integration (web, chat, enterprise tools)"
    case 6 => "Human-in-the-loop escalation models"
    case 7 => "These systems are designed to be auditable, explainable, and enterprise-ready."
    case _ => ""
  }

  // SAP, lines 121-129
  function EnSapKey(key: string): (r: Option<nat>)
    ensures r.Some? ==> r.value < 8 && key != [] && key[0] == 'd'
  {
    match key
    case "deck.sap.title" => Some(0)
    case "deck.sap.lead" => Some(1)
    case "deck.sap.item1" => Some(2)
    case "deck.sap.item2" => Some(3)
    case "deck.sap.item3" => Some(4)
    case "deck.sap.item4" => Some(5)
    case "deck.sap.item5" => Some(6)
    case "deck.sap.closing" => Some(7)
    case _ => None
  }

  function EnSapText(i: nat): string {
    match i
    case 0 => "SAP Basis & GRC Documentation Automation"
    case 1 => "We specialize in automation around SAP governance and operations, with a strong focus on auditability."
    case 2 => "SAP Basis operational documentation"
    case 3 => "GRC role assignment and validation flows"
    case 4 => "Segregation of Duties (SoD) support"
    case 5 => "Evidence generation for audits"
    case 6 => "Automation of repetitive governance processes"
    case 7 => "Our approach reduces manual effort while improving traceability and compliance."
    case _ => ""
  }

  // Education, lines 131-139
  function EnEducationKey(key: string): (r: Option<nat>)
    ensures r.Some? ==> r.value < 8 && key != [] && key[0] == 'd'
  {
    match key
    case "deck.edu.title" => Some(0)
    case "deck.edu.lead" => Some(1)
    case "deck.edu.item1" => Some(2)
    case "deck.edu.item2" => Some(3)
    case "deck.edu.item3" => Some(4)
    case "deck.edu.item4" => Some(5)
    case "deck.edu.item5" => Some(6)
    case "deck.edu.closing" => Some(7)
    case _ => None
  }

  function EnEducationText(i: nat): string {
    match i
    case 0 => "Education Services Design & Implementation"
    case 1 => "We design and deploy technology-driven education platforms."
    case 2 => "Curriculum design for technical and AI-focused programs"
    case 3 => "AI-assisted learning platforms"
    case 4 => "Content generation and assessment automation"
    case 5 => "Learning analytics and progress tracking"
    case 6 => "Scalable education architectures"
    case 7 => "We focus on learning systems, not just content delivery."
    case _ => ""
  }

  // Approach, lines 141-149
  function EnApproachKey(key: string): (r: Option<nat>)
    ensures r.Some? ==> r.value < 8 && key != [] && key[0] == 'd'
  {
    match key
    case "deck.approach.title" => Some(0)
    case "deck.approach.tagline" => Some(1)
    case "deck.approach.desc" => Some(2)
    case "deck.approach.roleTitle" => Some(3)
    case "deck.approach.role1" => Some(4)
    case "deck.approach.role2" => Some(5)
    case "deck.approach.role3" => Some(6)
    case "deck.approach.role4" => Some(7)
    case _ => None
  }

  function EnApproachText(i: nat): string {
    match i
    case 0 => "Our Approach"
    case 1 => "High involvement. Low volume. High impact."
    case 2 => "Karuna operates under a premium consulting model. We intentionally limit the number of concurrent projects to ensure deep technical immersion and architectural rigor."
    case 3 => "Our role is to:"
    case 4 => "Lead system design and technical decisions"
    case 5 => "Validate architectures through PoCs"
    case 6 => "Orchestrate execution across specialized partners when required"
    case 7 => "Ensure production alignment with client standards"
    case _ => ""
  }

  // Delivery, lines 151-154
  function EnDeliveryKey(key: string): (r: Option<nat>)
    ensures r.Some? ==> r.value < 3 && key != [] && key[0] == 'd'
  {
    match key
    case "deck.delivery.title" => Some(0)
    case "deck.delivery.flow" => Some(1)
    case "deck.delivery.desc" => Some(2)
    case _ => None
  }

  function EnDeliveryText(i: nat): string {
    match i
    case 0 => "Delivery Model"
    case 1 => "Diagnosis" + " \U{2192} " + ("Architecture" + " \U{2192} " + ("Validation" + " \U{2192} " + "Production"))
    case 2 => "Early stages often run in agile cloud environments for speed and validation. Final deployments are aligned with each client's security, compliance, and infrastructure standards."
    case _ => ""
  }

  // CTA, lines 156-166
  function EnCtaKey(key: string): (r: Option<nat>)
    ensures r.Some? ==> r.value < 10 && key != [] && key[0] == 'd'
  {
    match key
    case "deck.cta.title" => Some(0)
    case "deck.cta.lead" => Some(1)
    case "deck.cta.item1" => Some(2)
    case "deck.cta.item2" => Some(3)
    case "deck.cta.item3" => Some(4)
    case "deck.cta.item4" => Some(5)
    case "deck.cta.item5" => Some(6)
    case "deck.cta.closing" => Some(7)
    case "deck.cta.whatsapp" => Some(8)
    case "deck.cta.linkedin" => Some(9)
    case _ => None
  }

  function EnCtaText(i: nat): string {
    match i
    case 0 => "Let's Talk"
    case 1 => "If you're exploring:"
    case 2 => "SaaS architecture"
    case 3 => "AI and LLM integration"
    case 4 => "Support automation"
    case 5 => "SAP governance automation"
    case 6 => "Education platforms"
    case 7 => "We're happy to start with a technical conversation, not a sales pitch."
    case 8 => "WhatsApp: +52 720 253 3388"
    case 9 => "Reach out via LinkedIn"
    case _ => ""
  }

  // AI Consultant (deck-specific), lines 168-174
  function EnAiConsultantKey(key: string): (r: Option<nat>)
    ensures r.Some? ==> r.value < 6 && key != [] && key[0] == 'd'
  {
    match key
    case "deck.consultant.title" => Some(0)
    case "deck.consultant.subtitle" => Some(1)
    case "deck.consultant.greeting" => Some(2)
    case "deck.consultant.placeholder" => Some(3)
    case "deck.consultant.bookCall" => Some(4)
    case "deck.consultant.thinking" => Some(5)
    case _ => None
  }

  function EnAiConsultantText(i: nat): string {
    match i
    case 0 => "Talk to Our AI Consultant"
    case 1 => "Not sure where to start? Describe your challenge and Karu will help you understand how we can help."
    case 2 => "Hi! I'm Karu, Karuna's AI consultant. Tell me about your business challenge or the system you're looking to build, and I'll help you understand how our team can help."
    case 3 => "Describe your challenge or what you need..."
    case 4 => "Continue on WhatsApp"
    case 5 => "Thinking..."
    case _ => ""
  }

  /** Where `key` sits in the `es` block, if it is there. */
  function EsPlace(key: string): Option<Place> {
    if EsNavbarKey(key).Some? then Some(Place(Navbar, EsNavbarKey(key).value))
    else if EsAboutKey(key).Some? then Some(Place(About, EsAboutKey(key).value))
    else if EsProjectsKey(key).Some? then Some(Place(Projects, EsProjectsKey(key).value))
    else if EsNioLearningKey(key).Some? then Some(Place(NioLearning, EsNioLearningKey(key).value))
    else if EsCrickettKey(key).Some? then Some(Place(Crickett, EsCrickettKey(key).value))
    else if EsContactKey(key).Some? then Some(Place(Contact, EsContactKey(key).value))
    else if EsChatbotKey(key).Some? then Some(Place(Chatbot, EsChatbotKey(key).value))
    else if EsDeckKey(key).Some? then Some(Place(Deck, EsDeckKey(key).value))
    else if EsSaasKey(key).Some? then Some(Place(Saas, EsSaasKey(key).value))
    else if EsLlmKey(key).Some? then Some(Place(Llm, EsLlmKey(key).value))
    else if EsSupportAutomationKey(key).Some? then Some(Place(SupportAutomation, EsSupportAutomationKey(key).value))
    else if EsSapKey(key).Some? then Some(Place(Sap, EsSapKey(key).value))
    else if EsEducationKey(key).Some? then Some(Place(Education, EsEducationKey(key).value))
    else if EsApproachKey(key).Some? then Some(Place(Approach, EsApproachKey(key).value))
    else if EsDeliveryKey(key).Some? then Some(Place(Delivery, EsDeliveryKey(key).value))
    else if EsCtaKey(key).Some? then Some(Place(Cta, EsCtaKey(key).value))
    else if EsAiConsultantKey(key).Some? then Some(Place(AiConsultant, EsAiConsultantKey(key).value))
    else None
  }

  /** The text at `p` in the `es` block. */
  function EsText(p: Place): string {
    match p.sec
    case Navbar => EsNavbarText(p.index)
    case About => EsAboutText(p.index)
    case Projects => EsProjectsText(p.index)
    case NioLearning => EsNioLearningText(p.index)
    case Crickett => EsCrickettText(p.index)
    case Contact => EsContactText(p.index)
    case Chatbot => EsChatbotText(p.index)
    case Deck => EsDeckText(p.index)
    case Saas => EsSaasText(p.index)
    case Llm => EsLlmText(p.index)
    case SupportAutomation => EsSupportAutomationText(p.index)
    case Sap => EsSapText(p.index)
    case Education => EsEducationText(p.index)
    case Approach => EsApproachText(p.index)
    case Delivery => EsDeliveryText(p.index)
    case Cta => EsCtaText(p.index)
    case AiConsultant => EsAiConsultantText(p.index)
  }

  // Navbar, lines 177-185
  function EsNavbarKey(key: string): (r: Option<nat>)
    ensures r.Some? ==> r.value < 8 && key != [] && key[0] == 'n'
  {
    match key
    case "nav.about" => Some(0)
    case "nav.services" => Some(1)
    case "nav.projects" => Some(2)
    case "nav.contact" => Some(3)
    case "nav.whatsapp" => Some(4)
    case "nav.allProjects" => Some(5)
    case "nav.aiEducation" => Some(6)
    case "nav.chatbotAutomation" => Some(7)
    case _ => None
  }

  function EsNavbarText(i: nat): string {
    match i
    case 0 => "Nosotros"
    case 1 => "Servicios"
    case 2 => "Proyectos"
    case 3 => "Contacto"
    case 4 => "WhatsApp"
    case 5 => "Todos los Proyectos"
    case 6 => "Educación IA"
    case 7 => "Automatización Chatbot"
    case _ => ""
  }

  // About section, lines 187-197
  function EsAboutKey(key: string): (r: Option<nat>)
    ensures r.Some? ==> r.value < 10 && key != [] && key[0] == 'a'
  {
    match key
    case "about.title" => Some(0)
    case "about.subtitle" => Some(1)
    case "about.lead" => Some(2)
    case "about.philosophy" => Some(3)
    case "about.whatWeOffer" => Some(4)
    case "about.offer1" => Some(5)
    case "about.offer2" => Some(6)
    case "about.offer3" => Some(7)
    case "about.offer4" => Some(8)
    case "about.closing" => Some(9)
    case _ => None
  }

  function EsAboutText(i: nat): string {
    match i
    case 0 => "Acerca de Karuna"
    case 1 => "Transformando negocios con automatización inteligente"
    case 2 => "Karuna es una firma de consultoría tecnológica con un enfoque extremo en encontrar las mejores soluciones de negocio para administración de sistemas. Creemos que la tecnología debe servir a la humanidad, no al revés."
    case 3 => "Nuestra filosofía es simple pero profunda: existimos para servir a otros implementando soluciones tecnológicas de primer nivel que mejoran el bienestar y la eficiencia operacional. Cada línea de código, cada diseño de sistema y cada consultoría está guiada por este principio."
    case 4 => "Lo Que Ofrecemos"
    case 5 => "Soluciones de automatización de extremo a extremo que transforman procesos manuales en sistemas eficientes y escalables en cualquier arquitectura."
    case 6 => "Optimización de datos y soluciones de inteligencia de negocios que convierten información cruda en insights accionables y ventajas estratégicas."
    case 7 => "Desarrollo de software personalizado desde aplicaciones web hasta soluciones SAAS empresariales, construidas con precisión y diseño centrado en el usuario."
    case 8 => "Integración de hardware e IoT para infraestructura moderna, llevando sistemas físicos y digitales a una armonía perfecta."
    case 9 => "No solo implementamos soluciones; nos convertimos en socios en tu viaje hacia la excelencia operacional y el avance tecnológico."
    case _ => ""
  }

  // Projects section, lines 199-212
  function EsProjectsKey(key: string): (r: Option<nat>)
    ensures r.Some? ==> r.value < 13 && key != [] && key[0] == 'p'
  {
    match key
    case "projects.title" => Some(0)
    case "projects.intro" => Some(1)
    case "projects.introText" => Some(2)
    case "projects.discuss" => Some(3)
    case "projects.whatsapp" => Some(4)
    case "projects.allProjects" => Some(5)
    case "projects.viewDetails" => Some(6)
    case "projects.visitSite" => Some(7)
    case "projects.challenge" => Some(8)
    case "projects.solution" => Some(9)
    case "projects.results" => Some(10)
    case "projects.cta" => Some(11)
    case "projects.ctaButton" => Some(12)
    case _ => None
  }

  function EsProjectsText(i: nat): string {
    match i
    case 0 => "Lo Que Hemos Construido"
    case 1 => "Somos creadores de negocios."
    case 2 => "Caminamos junto a nuestros clientes para construir no solo software escalable, sino soluciones de negocio escalables. Aquí están algunos de los productos impulsados por IA que hemos desarrollado y lanzado."
    case 3 => "Hablemos de Tu Proyecto"
    case 4 => "WhatsApp:"
    case 5 => "Todos los Proyectos"
    case 6 => "Ver Detalles"
    case 7 => "Visitar Sitio"
    case 8 => "El Desafío"
    case 9 => "Nuestra Solución"
    case 10 => "Resultados"
    case 11 => "¿Listo para construir algo juntos?"
    case 12 => "Hablemos"
    case _ => ""
  }

  // NIO Learning, lines 214-223
  function EsNioLearningKey(key: string): (r: Option<nat>)
    ensures r.Some? ==> r.value < 9 && key != [] && key[0] == 'n'
  {
    match key
    case "nio.title" => Some(0)
    case "nio.category" => Some(1)
    case "nio.description" => Some(2)
    case "nio.challenge" => Some(3)
    case "nio.solution" => Some(4)
    case "nio.result1" => Some(5)
    case "nio.result2" => Some(6)
    case "nio.result3" => Some(7)
    case "nio.result4" => Some(8)
    case _ => None
  }

  function EsNioLearningText(i: nat): string {
    match i
    case 0 => "NIO Learning"
    case 1 => "Plataforma Educativa IA"
    case 2 => "Una de las primeras plataformas educativas impulsadas por IA en Latinoamérica"
    case 3 => "Las plataformas educativas tradicionales carecían de personalización y no podían adaptarse a los estilos de aprendizaje individuales, dejando a los estudiantes luchando por mantener el ritmo o sintiéndose sin desafíos."
    case 4 => "Desarrollamos y escalamos NIO Learning desde cero \U{2014} una plataforma educativa impulsada por IA que personaliza rutas de aprendizaje, adapta la dificultad del contenido en tiempo real y proporciona asistencia de tutoría inteligente a estudiantes en toda Latinoamérica."
    case 5 => "Plataforma educativa IA pionera en LATAM"
    case 6 => "Rutas de aprendizaje personalizadas para cada estudiante"
    case 7 => "Adaptación de contenido en tiempo real"
    case 8 => "Arquitectura escalable sirviendo a miles de usuarios"
    case _ => ""
  }

  // Crickett, lines 225-234
  function EsCrickettKey(key: string): (r: Option<nat>)
    ensures r.Some? ==> r.value < 9 && key != [] && key[0] == 'c'
  {
    match key
    case "crickett.title" => Some(0)
    case "crickett.category" => Some(1)
    case "crickett.description" => Some(2)
    case "crickett.challenge" => Some(3)
    case "crickett.solution" => Some(4)
    case "crickett.result1" => Some(5)
    case "crickett.result2" => Some(6)
    case "crickett.result3" => Some(7)
    case "crickett.result4" => Some(8)
    case _ => None
  }

  function EsCrickettText(i: nat): string {
    match i
    case 0 => "Crickett"
    case 1 => "Automatización de Chatbot"
    case 2 => "Herramienta de automatización IA para captura de leads \U{2014} conecta y usa, sin diseño de flujos"
    case 3 => "Los emprendedores y pequeñas empresas necesitaban automatización de chatbot pero estaban abrumados por constructores de flujos complejos, configuración técnica y soluciones costosas que requerían mantenimiento constante."
    case 4 => "Construimos Crickett \U{2014} una herramienta de automatización de chatbot IA lista para usar. Solo conéctala a tu sitio web y WhatsApp, y comienza a capturar leads instantáneamente. Sin diseño de flujos, sin conocimientos técnicos requeridos. Pura automatización plug-and-play."
    case 5 => "Despliegue de chatbot sin configuración"
    case 6 => "Integración con sitio web + WhatsApp"
    case 7 => "Automatización instantánea de captura de leads"
    case 8 => "Construido para emprendedores y PyMEs"
    case _ => ""
  }

  // Contact, lines 236-238
  function EsContactKey(key: string): (r: Option<nat>)
    ensures r.Some? ==> r.value < 2 && key != [] && key[0] == 'c'
  {
    match key
    case "contact.title" => Some(0)
    case "contact.subtitle" => Some(1)
    case _ => None
  }

  function EsContactText(i: nat): string {
    match i
    case 0 => "Contáctanos"
    case 1 => "Construyamos algo grande juntos"
    case _ => ""
  }

  // Chatbot, lines 240-245
  function EsChatbotKey(key: string): (r: Option<nat>)
    ensures r.Some? ==> r.value < 5 && key != [] && key[0] == 'c'
  {
    match key
    case "chatbot.greeting" => Some(0)
    case "chatbot.placeholder" => Some(1)
    case "chatbot.bookCall" => Some(2)
    case "chatbot.online" => Some(3)
    case "chatbot.aiConsultant" => Some(4)
    case _ => None
  }

  function EsChatbotText(i: nat): string {
    match i
    case 0 => "¡Hola! Soy Karu, tu consultor de IA. Ayudo a las empresas a descubrir cómo la IA puede resolver sus desafíos. ¿Qué te trae por aquí hoy?"
    case 1 => "Escribe tu mensaje..."
    case 2 => "Agenda una llamada por WhatsApp"
    case 3 => "En línea"
    case 4 => "Consultor IA"
    case _ => ""
  }

  // Presentation Deck, lines 247-252
  function EsDeckKey(key: string): (r: Option<nat>)
    ensures r.Some? ==> r.value < 5 && key != [] && key[0] == 'd'
  {
    match key
    case "deck.title" => Some(0)
    case "deck.subtitle" => Some(1)
    case "deck.heroLead" => Some(2)
    case "deck.heroDesc" => Some(3)
    case "deck.specialtiesTitle" => Some(4)
    case _ => None
  }

  function EsDeckText(i: nat): string {
    match i
    case 0 => "Karuna"
    case 1 => "Consultoría Tecnológica & Arquitectura de Sistemas"
    case 2 => "Diseñando, automatizando y escalando sistemas tecnológicos con un enfoque premium orientado a ingeniería."
    case 3 => "Karuna es una consultoría tecnológica boutique enfocada en construir arquitecturas listas para producción, no soluciones genéricas. Trabajamos de cerca con nuestros clientes para diseñar, validar e implementar sistemas que escalen de manera confiable en software, datos, IA y plataformas empresariales."
    case 4 => "Nuestras Especialidades"
    case _ => ""
  }

  // SaaS, lines 254-262
  function EsSaasKey(key: string): (r: Option<nat>)
    ensures r.Some? ==> r.value < 8 && key != [] && key[0] == 'd'
  {
    match key
    case "deck.saas.title" => Some(0)
    case "deck.saas.lead" => Some(1)
    case "deck.saas.item1" => Some(2)
    case "deck.saas.item2" => Some(3)
    case "deck.saas.item3" => Some(4)
    case "deck.saas.item4" => Some(5)
    case "deck.saas.item5" => Some(6)
    case "deck.saas.closing" => Some(7)
    case _ => None
  }

  function EsSaasText(i: nat): string {
    match i
    case 0 => "Diseño y Administración de Productos SaaS"
    case 1 => "Diseñamos y operamos plataformas SaaS desde la arquitectura hasta producción."
    case 2 => "Arquitectura de producto y diseño de sistemas"
    case 3 => "Desarrollo backend y frontend"
    case 4 => "Infraestructura en la nube y pipelines de despliegue"
    case 5 => "Observabilidad, escalamiento y gobernanza operacional"
    case 6 => "Herramientas de administración y dashboards internos"
    case 7 => "Nuestro enfoque no es solo construir productos SaaS, sino asegurar que sean operables, mantenibles y escalables a lo largo del tiempo."
    case _ => ""
  }

  // LLM, lines 264-272
  function EsLlmKey(key: string): (r: Option<nat>)
    ensures r.Some? ==> r.value < 8 && key != [] && key[0] == 'd'
  {
    match key
    case "deck.llm.title" => Some(0)
    case "deck.llm.lead" => Some(1)
    case "deck.llm.item1" => Some(2)
    case "deck.llm.item2" => Some(3)
    case "deck.llm.item3" => Some(4)
    case "deck.llm.item4" => Some(5)
    case "deck.llm.item5" => Some(6)
    case "deck.llm.closing" => Some(7)
    case _ => None
  }

  function EsLlmText(i: nat): string {
    match i
    case 0 => "Integraciones de LLM"
    case 1 => "Integramos Modelos de Lenguaje como componentes del sistema, no como funcionalidades aisladas."
    case 2 => "Flujos de trabajo y motores de decisión impulsados por LLM"
    case 3 => "Generación Aumentada por Recuperación (RAG)"
    case 4 => "Bases de datos vectoriales y estrategias de embedding"
    case 5 => "Optimización de tokens y control de costos"
    case 6 => "Pipelines de evaluación y testing de modelos"
    case 7 => "Los LLMs se tratan como parte de la arquitectura, con límites claros, monitoreo y controles de rendimiento."
    case _ => ""
  }

  // Support Automation, lines 274-282
  function EsSupportAutomationKey(key: string): (r: Option<nat>)
    ensures r.Some? ==> r.value < 8 && key != [] && key[0] == 'd'
  {
    match key
    case "deck.support.title" => Some(0)
    case "deck.support.lead" => Some(1)
    case "deck.support.item1" => Some(2)
    case "deck.support.item2" => Some(3)
    case "deck.support.item3" => Some(4)
    case "deck.support.item4" => Some(5)
    case "deck.support.item5" => Some(6)
    case "deck.support.closing" => Some(7)
    case _ => None
  }

  function EsSupportAutomationText(i: nat): string {
    match i
    case 0 => "Automatización de Soporte con LLMs"
    case 1 => "Diseñamos sistemas de soporte impulsados por IA que reducen la carga operativa mientras mejoran la calidad de respuesta."
    case 2 => "Soporte automatizado de nivel 1 y nivel 2"
    case 3 => "Ingestión de base de conocimiento y respuestas contextuales"
    case 4 => "Clasificación y enrutamiento de tickets"
    case 5 => "Integración multicanal (web, chat, herramientas empresariales)"
    case 6 => "Modelos de escalamiento con intervención humana"
    case 7 => "Estos sistemas están diseñados para ser auditables, explicables y listos para empresas."
    case _ => ""
  }

  // SAP, lines 284-292
  function EsSapKey(key: string): (r: Option<nat>)
    ensures r.Some? ==> r.value < 8 && key != [] && key[0] == 'd'
  {
    match key
    case "deck.sap.title" => Some(0)
    case "deck.sap.lead" => Some(1)
    case "deck.sap.item1" => Some(2)
    case "deck.sap.item2" => Some(3)
    case "deck.sap.item3" => Some(4)
    case "deck.sap.item4" => Some(5)
    case "deck.sap.item5" => Some(6)
    case "deck.sap.closing" => Some(7)
    case _ => None
  }

  function EsSapText(i: nat): string {
    match i
    case 0 => "Automatización de Documentación SAP Basis y GRC"
    case 1 => "Nos especializamos en automatización de gobernanza y operaciones SAP, con un fuerte enfoque en auditabilidad."
    case 2 => "Documentación operacional de SAP Basis"
    case 3 => "Flujos de asignación y validación de roles GRC"
    case 4 => "Soporte de Segregación de Funciones (SoD)"
    case 5 => "Generación de evidencia para auditorías"
    case 6 => "Automatización de procesos repetitivos de gobernanza"
    case 7 => "Nuestro enfoque reduce el esfuerzo manual mientras mejora la trazabilidad y el cumplimiento."
    case _ => ""
  }

  // Education, lines 294-302
  function EsEducationKey(key: string): (r: Option<nat>)
    ensures r.Some? ==> r.value < 8 && key != [] && key[0] == 'd'
  {
    match key
    case "deck.edu.title" => Some(0)
    case "deck.edu.lead" => Some(1)
    case "deck.edu.item1" => Some(2)
    case "deck.edu.item2" => Some(3)
    case "deck.edu.item3" => Some(4)
    case "deck.edu.item4" => Some(5)
    case "deck.edu.item5" => Some(6)
    case "deck.edu.closing" => Some(7)
    case _ => None
  }

  function EsEducationText(i: nat): string {
    match i
    case 0 => "Diseño e Implementación de Servicios Educativos"
    case 1 => "Diseñamos y desplegamos plataformas educativas impulsadas por tecnología."
    case 2 => "Diseño curricular para programas técnicos y enfocados en IA"
    case 3 => "Plataformas de aprendizaje asistidas por IA"
    case 4 => "Generación de contenido y automatización de evaluaciones"
    case 5 => "Analíticas de aprendizaje y seguimiento de progreso"
    case 6 => "Arquitecturas educativas escalables"
    case 7 => "Nos enfocamos en sistemas de aprendizaje, no solo en entrega de contenido."
    case _ => ""
  }

  // Approach, lines 304-312
  function EsApproachKey(key: string): (r: Option<nat>)
    ensures r.Some? ==> r.value < 8 && key != [] && key[0] == 'd'
  {
    match key
    case "deck.approach.title" => Some(0)
    case "deck.approach.tagline" => Some(1)
    case "deck.approach.desc" => Some(2)
    case "deck.approach.roleTitle" => Some(3)
    case "deck.approach.role1" => Some(4)
    case "deck.approach.role2" => Some(5)
    case "deck.approach.role3" => Some(6)
    case "deck.approach.role4" => Some(7)
    case _ => None
  }

  function EsApproachText(i: nat): string {
    match i
    case 0 => "Nuestro Enfoque"
    case 1 => "Alta involucración. Bajo volumen. Alto impacto."
    case 2 => "Karuna opera bajo un modelo de consultoría premium. Limitamos intencionalmente el número de proyectos concurrentes para asegurar una inmersión técnica profunda y rigor arquitectónico."
    case 3 => "Nuestro rol es:"
    case 4 => "Liderar el diseño de sistemas y decisiones técnicas"
    case 5 => "Validar arquitecturas a través de PoCs"
    case 6 => "Orquestar la ejecución con socios especializados cuando sea necesario"
    case 7 => "Asegurar la alineación de producción con los estándares del cliente"
    case _ => ""
  }

  // Delivery, lines 314-317
  function EsDeliveryKey(key: string): (r: Option<nat>)
    ensures r.Some? ==> r.value < 3 && key != [] && key[0] == 'd'
  {
    match key
    case "deck.delivery.title" => Some(0)
    case "deck.delivery.flow" => Some(1)
    case "deck.delivery.desc" => Some(2)
    case _ => None
  }

  function EsDeliveryText(i: nat): string {
    match i
    case 0 => "Modelo de Entrega"
    case 1 => "Diagn\U{00F3}stico" + " \U{2192} " + ("Arquitectura" + " \U{2192} " + ("Validaci\U{00F3}n" + " \U{2192} " + "Producci\U{00F3}n"))
    case 2 => "Las etapas iniciales suelen ejecutarse en entornos ágiles en la nube para velocidad y validación. Los despliegues finales se alinean con los estándares de seguridad, cumplimiento e infraestructura de cada cliente."
    case _ => ""
  }

  // CTA, lines 319-329
  function EsCtaKey(key: string): (r: Option<nat>)
    ensures r.Some? ==> r.value < 10 && key != [] && key[0] == 'd'
  {
    match key
    case "deck.cta.title" => Some(0)
    case "deck.cta.lead" => Some(1)
    case "deck.cta.item1" => Some(2)
    case "deck.cta.item2" => Some(3)
    case "deck.cta.item3" => Some(4)
    case "deck.cta.item4" => Some(5)
    case "deck.cta.item5" => Some(6)
    case "deck.cta.closing" => Some(7)
    case "deck.cta.whatsapp" => Some(8)
    case "deck.cta.linkedin" => Some(9)
    case _ => None
  }

  function EsCtaText(i: nat): string {
    match i
    case 0 => "Hablemos"
    case 1 => "Si estás explorando:"
    case 2 => "Arquitectura SaaS"
    case 3 => "Integración de IA y LLM"
    case 4 => "Automatización de soporte"
    case 5 => "Automatización de gobernanza SAP"
    case 6 => "Plataformas educativas"
    case 7 => "Nos encanta empezar con una conversación técnica, no con un discurso de ventas."
    case 8 => "WhatsApp: +52 720 253 3388"
    case 9 => "Contáctanos por LinkedIn"
    case _ => ""
  }

  // AI Consultant (deck-specific), lines 331-337
  function EsAiConsultantKey(key: string): (r: Option<nat>)
    ensures r.Some? ==> r.value < 6 && key != [] && key[0] == 'd'
  {
    match key
    case "deck.consultant.title" => Some(0)
    case "deck.consultant.subtitle" => Some(1)
    case "deck.consultant.greeting" => Some(2)
    case "deck.consultant.placeholder" => Some(3)
    case "deck.consultant.bookCall" => Some(4)
    case "deck.consultant.thinking" => Some(5)
    case _ => None
  }

  function EsAiConsultantText(i: nat): string {
    match i
    case 0 => "Habla con Nuestro Consultor IA"
    case 1 => "¿No sabes por dónde empezar? Describe tu desafío y Karu te ayudará a entender cómo podemos ayudarte."
    case 2 => "¡Hola! Soy Karu, el consultor IA de Karuna. Cuéntame sobre tu desafío de negocio o el sistema que quieres construir, y te ayudaré a entender cómo nuestro equipo puede ayudarte."
    case 3 => "Describe tu desafío o lo que necesitas..."
    case 4 => "Continuar por WhatsApp"
    case 5 => "Pensando..."
    case _ => ""
  }

  /** Where `key` sits in the block of `lang`. */
  function PlaceOf(lang: Language, key: string): Option<Place> {
    if lang == En then EnPlace(key) else EsPlace(key)
  }

  /** The text at `p` in the block of `lang`. */
  function TextAt(lang: Language, p: Place): string {
    if lang == En then EnText(p) else EsText(p)
  }

  /** `translations[lang][key]`: the text of `key` in the block of `lang`,
      or nothing when the block does not have the key. */
  function Entry(lang: Language, key: string): Option<string> {
    match PlaceOf(lang, key)
    case None => None
    case Some(p) => Some(TextAt(lang, p))
  }

  /** The two blocks list the same keys, section by section and in the same
      order: a key sits at the same place in both. */
  lemma ParallelBlocks(key: string)
    ensures EnPlace(key) == EsPlace(key)
  {
  }

  /** So a key found in one locale is found in the other. */
  lemma SameKeys(key: string)
    ensures Entry(En, key).Some? <==> Entry(Es, key).Some?
  {
    ParallelBlocks(key);
  }

  /** No key of either block starts with the letter `e`. */
  lemma NoKeyStartsWithE(lang: Language, key: string)
    requires key != [] && key[0] == 'e'
    ensures PlaceOf(lang, key) == None
  {
  }

  /** In particular neither block has an `elec.` key. */
  lemma NoElecEntry(lang: Language, key: string)
    requires StartsWith(key, "elec.")
    ensures Entry(lang, key) == None
  {
    assert key[0] == key[..5][0] == 'e';
    NoKeyStartsWithE(lang, key);
  }

  /** The flow text of the delivery model in each locale: the second text
      of the Delivery section (lines 153 and 316). It is not empty, so `t`
      shows it rather than falling back to the key. */
  function DeliveryFlow(lang: Language): (r: string)
    ensures r != ""
  {
    if lang == En then EnDeliveryText(1) else EsDeliveryText(1)
  }

  /** `deck.delivery.flow` is the second key of the Delivery section. */
  lemma DeliveryFlowPlace(lang: Language)
    ensures PlaceOf(lang, "deck.delivery.flow") == Some(Place(Delivery, 1))
  {
  }

  /** The text at the second place of the Delivery section is the flow. */
  lemma DeliveryFlowText(lang: Language)
    ensures TextAt(lang, Place(Delivery, 1)) == DeliveryFlow(lang)
  {
  }

  /** The dictionary maps `deck.delivery.flow` to the flow in both locales. */
  lemma DeliveryFlowEntry(lang: Language)
    ensures Entry(lang, "deck.delivery.flow") == Some(DeliveryFlow(lang))
  {
    DeliveryFlowPlace(lang);
    DeliveryFlowText(lang);
  }
}
