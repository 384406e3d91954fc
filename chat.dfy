/** The chat consultant "Karu", which the site carries in three copies: the
    floating widget of src/components/ui/AIChatbot.tsx and the embedded chats
    of src/pages/PresentationDeck.tsx and src/pages/ElectronicsDeck.tsx. The
    copies share their state and their two-step send; they differ in the
    system prompt, the greeting, the reply-length budget, the texts shown when
    a reply is missing or the request fails, the rule that raises the WhatsApp
    call to action, and the message handed over to WhatsApp. */
module Chat {
  import opened Wrappers
  import opened Text
  import opened Translations
  import opened LanguageContext
  import WhatsApp

  datatype Role = User | Assistant

  /** One entry of the transcript, `{ id, role, content }`. */
  datatype Message = Message(id: string, role: Role, content: string)

  /** Which copy of the widget. */
  datatype Variant = AIChatbot | PresentationDeck | ElectronicsDeck

  predicate IsDeck(v: Variant) {
    v != AIChatbot
  }

  /** How a completion request ended: a response whose
      `choices[0]?.message?.content` was read (and may be missing), or a
      failure: a network error, a status that is not ok, or a body that
      cannot be read. */
  datatype Outcome = Replied(content: Option<string>) | Failed

  /** One entry of the posted `messages` array: the copy's system prompt,
      `{ role: 'system', content: SystemPrompt(v) }`, or a transcript turn
      `{ role, content }`. */
  datatype ApiMessage = SystemTurn | Turn(role: Role, content: string)

  /** The JSON body posted to the chat-completions endpoint. */
  datatype Request = Request(model: string, messages: seq<ApiMessage>, maxTokens: nat, temperature: real)

  const ModelName := "grok-3-mini-fast"
  const Temperature: real := 0.7

  /** `SYSTEM_PROMPT` in src/components/ui/AIChatbot.tsx, lines 12-34. */
  const ChatbotPrompt: string :=
      "You are Karu, a friendly and professional AI IT consultant for Karuna Dev, a company specializing in corporate LLM solutions and AI integrations. Your role is to:\n"
    + "\n"
    + "1. Greet the user warmly and ask about their business challenges\n"
    + "2. Understand their needs through natural conversation (ask about their industry, team size, current pain points)\n"
    + "3. Identify which of our services could help them:\n"
    + "   - Enterprise Chatbots (customer service, HR, sales)\n"
    + "   - Document AI & RAG (legal docs, technical docs, compliance)\n"
    + "   - LLM Integrations (CRM, email, Slack)\n"
    + "   - AI Process Automation (invoices, resumes, reports)\n"
    + "   - Custom AI Solutions\n"
    + "\n"
    + "Keep responses concise (2-3 sentences max). Be helpful but don't oversell.\n"
    + "\n"
    + "After understanding their initial needs (usually 3-4 exchanges), mention they can book a call via WhatsApp, BUT CONTINUE asking follow-up questions to gather more details like:\n"
    + "- Budget range or timeline expectations\n"
    + "- Current tools/systems they use\n"
    + "- Team size and technical capacity\n"
    + "- Specific pain points or metrics they want to improve\n"
    + "- Any previous experience with AI solutions\n"
    + "\n"
    + "Always keep the conversation going to learn more. Even after suggesting WhatsApp, ask another relevant question. Never end the conversation abruptly.\n"
    + "\n"
    + "Always be professional, warm, and solution-oriented. Speak in English or Spanish based on user's language."

  /** `DECK_SYSTEM_PROMPT` in src/pages/PresentationDeck.tsx, lines 14-31. */
  const DeckPrompt: string :=
      "You are Karu, the AI consultant for Karuna \U{2014} a technology consultancy focused on production-ready architectures.\n"
    + "\n"
    + "Karuna's core services are:\n"
    + "1. SaaS Product Design & Administration \U{2014} architecture, dev, cloud infra, observability, admin tooling\n"
    + "2. LLM Integrations \U{2014} RAG, vector DBs, token optimization, model evaluation, LLM-driven workflows\n"
    + "3. Support Automation Using LLMs \U{2014} tier-1/2 automation, knowledge base ingestion, ticket routing, multi-channel\n"
    + "4. SAP Basis & GRC Documentation Automation \U{2014} SoD, audit evidence, governance process automation\n"
    + "5. Education Services \U{2014} curriculum design, AI-assisted platforms, learning analytics\n"
    + "\n"
    + "Model: Premium consulting, limited concurrent projects, deep technical immersion.\n"
    + "Delivery: Diagnosis \U{2192} Architecture \U{2192} Validation \U{2192} Production.\n"
    + "\n"
    + "Your job:\n"
    + "1. Listen to the user's challenge or need\n"
    + "2. Briefly explain which Karuna service(s) are relevant and how we'd approach it (1-3 sentences)\n"
    + "3. After explaining, suggest they book a call via WhatsApp to discuss further\n"
    + "\n"
    + "Keep responses concise (2-4 sentences max). Be friendly and direct \U{2014} talk like an engineer, not a salesperson. Never oversell. Speak in English or Spanish matching the user's language."

  /** `ELEC_SYSTEM_PROMPT` in src/pages/ElectronicsDeck.tsx, lines 13-30. */
  const ElectronicsPrompt: string :=
      "You are Karu, the AI consultant for Karuna Electronics \U{2014} the control engineering, applied electronics, and intelligent infrastructure division of Karuna.\n"
    + "\n"
    + "Karuna Electronics designs and implements advanced solutions for organizations seeking operational efficiency, technological resilience, and real-time traceability. Core services:\n"
    + "\n"
    + "1. Industrial IoT Architectures \U{2014} sensor networks, edge computing, cloud integration, industrial protocols (MQTT, Modbus TCP/IP, OPC-UA), predictive maintenance, multi-site remote monitoring\n"
    + "2. Automation & Control Systems \U{2014} PLC programming (Siemens, Allen-Bradley, Schneider Electric), SCADA/HMI, electrical panel design/fabrication, VFDs, legacy machinery digitalization. Turnkey with FAT/SAT testing.\n"
    + "3. Computer Vision & Edge Analytics \U{2014} automated quality control, label verification, in-line defect detection, PLC/MES integration, AI-powered image processing at the edge\n"
    + "4. Electronic Security Infrastructure \U{2014} enterprise CCTV, Hikvision integration, biometric/RFID access control, perimeter protection, emergency protocols. Security as critical infrastructure.\n"
    + "5. Applied Electronics & Embedded Systems \U{2014} custom PCB design, embedded firmware, edge modules, custom sensor interfaces, pilot batch production\n"
    + "\n"
    + "Model: End-to-end execution \U{2014} assessment, architecture design, prototyping, field implementation, commissioning, and operational handover.\n"
    + "\n"
    + "Your job:\n"
    + "1. Listen to the user's challenge or need related to electronics, IoT, control, vision, or security\n"
    + "2. Briefly explain which Karuna Electronics service(s) are relevant and how we'd approach it (1-3 sentences)\n"
    + "3. After explaining, suggest they book a call via WhatsApp to discuss further\n"
    + "\n"
    + "Keep responses concise (2-4 sentences max). Be friendly and direct \U{2014} talk like an engineer, not a salesperson. Never oversell. Speak in English or Spanish matching the user's language."

  /** `max_tokens`: 200 for the floating widget, 300 for the decks. */
  function MaxTokens(v: Variant): nat {
    if v == AIChatbot then 200 else 300
  }

  /** The system prompt of each copy. */
  function SystemPrompt(v: Variant): string {
    match v
    case AIChatbot => ChatbotPrompt
    case PresentationDeck => DeckPrompt
    case ElectronicsDeck => ElectronicsPrompt
  }

  /** The `role` and `content` strings an entry is serialised with. */
  function Serialized(v: Variant, m: ApiMessage): (string, string) {
    match m
    case SystemTurn => ("system", SystemPrompt(v))
    case Turn(role, content) => (if role == User then "user" else "assistant", content)
  }

  /** `messages.map(m => ({ role: m.role, content: m.content }))`. */
  function ApiView(ms: seq<Message>): (r: seq<ApiMessage>)
    ensures |r| == |ms|
    ensures forall i :: 0 <= i < |ms| ==> r[i] == Turn(ms[i].role, ms[i].content)
  {
    seq(|ms|, i requires 0 <= i < |ms| => Turn(ms[i].role, ms[i].content))
  }

  /** The request a send posts: the system prompt, then the transcript as it
      was before the send, in order, then the new user message. The system
      prompt is sent once, first, and the new user message once, last. */
  function RequestFor(v: Variant, history: seq<Message>, content: string): (r: Request)
    ensures r.model == ModelName && r.maxTokens == MaxTokens(v) && r.temperature == Temperature
    ensures |r.messages| == |history| + 2
    ensures r.messages[0] == SystemTurn
    ensures r.messages[1..|history| + 1] == ApiView(history)
    ensures r.messages[|history| + 1] == Turn(User, content)
    ensures forall i :: 1 <= i < |r.messages| ==> r.messages[i].Turn?
  {
    var turns := [SystemTurn] + ApiView(history) + [Turn(User, content)];
    assert turns[1..|history| + 1] == ApiView(history);
    Request(ModelName, turns, MaxTokens(v), Temperature)
  }

  // Greeting

  /** The id of the seeded greeting. */
  const SeedId := "1"

  const ChatbotGreeting := "Hi! I'm Karu, your AI consultant. I help businesses discover how AI can solve their challenges. What brings you here today?"

  /** The translation key of a deck's greeting. */
  function GreetingKey(v: Variant): string {
    if v == ElectronicsDeck then "elec.consultant.greeting" else "deck.consultant.greeting"
  }

  /** The greeting: a fixed English text in the floating widget, and in the
      decks their greeting key passed through `t`, the lookup the component
      takes from the language context, in the active language. */
  function Greeting(v: Variant, t: (Language, string) -> string, lang: Language): string {
    if v == AIChatbot then ChatbotGreeting else t(lang, GreetingKey(v))
  }

  /** The seeded greeting message. */
  function Seed(v: Variant, t: (Language, string) -> string, lang: Language): Message {
    Message(SeedId, Assistant, Greeting(v, t, lang))
  }

  /** The transcript is exactly the seeded greeting: the condition under which
      the decks re-localise it. */
  predicate IsSeeded(ms: seq<Message>) {
    |ms| == 1 && ms[0].role == Assistant && ms[0].id == SeedId
  }

  /** No block has `elec.consultant.greeting`, so the electronics deck greets
      with the key itself, whatever the language. */
  lemma ElectronicsGreetingIsKey(lang: Language)
    ensures Greeting(ElectronicsDeck, T, lang) == "elec.consultant.greeting"
  {
    ElecKeyShowsKey(lang, "elec.consultant.greeting");
  }

  // Replies

  /** The text that replaces a missing or empty reply. */
  function Apology(v: Variant, lang: Language): string {
    if v == AIChatbot then ChatbotApology
    else if lang == Es then DeckApologyEs
    else DeckApologyEn
  }

  const ChatbotApology := "I apologize, I'm having trouble responding. Please try again."
  const DeckApologyEs := "Disculpa, tuve un problema. Por favor intenta de nuevo."
  const DeckApologyEn := "Sorry, I had trouble responding. Please try again."

  /** The text appended when the request fails. Every version points to
      WhatsApp; it is written as the words before and after `WhatsApp`. */
  function Fallback(v: Variant, lang: Language): string {
    FallbackBefore(v, lang) + "WhatsApp" + FallbackAfter(v, lang)
  }

  function FallbackBefore(v: Variant, lang: Language): string {
    if v == AIChatbot then ChatbotFallbackBefore
    else if lang == Es then DeckFallbackBeforeEs
    else DeckFallbackBeforeEn
  }

  function FallbackAfter(v: Variant, lang: Language): string {
    if v == AIChatbot then ChatbotFallbackAfter
    else if lang == Es then DeckFallbackAfterEs
    else DeckFallbackAfterEn
  }

  const ChatbotFallbackBefore := "I'd love to learn more about your needs. Feel free to reach out directly via "
  const DeckFallbackBeforeEs := "Me encantaria saber mas sobre tus necesidades. Contactanos directamente por "
  const DeckFallbackBeforeEn := "I'd love to learn more about your needs. Reach out directly via "
  const ChatbotFallbackAfter := " and our team will help you find the perfect AI solution."
  const DeckFallbackAfterEs := " y nuestro equipo te ayudara."
  const DeckFallbackAfterEn := " and our team will help you."

  /** The content of the one assistant message a send ends with: the reply
      when there is a non-empty one, the apology when the reply is missing or
      empty, the fallback when the request failed. `lang` is
      the language the send was started in. */
  function ReplyText(v: Variant, lang: Language, outcome: Outcome): (r: string)
    ensures outcome.Replied? && outcome.content.Some? && outcome.content.value != "" ==> r == outcome.content.value
    ensures outcome.Replied? && outcome.content.GetOr("") == "" ==> r == Apology(v, lang)
    ensures outcome.Failed? ==> r == Fallback(v, lang)
  {
    match outcome
    case Replied(content) => OrElse(content.GetOr(""), Apology(v, lang))
    case Failed => Fallback(v, lang)
  }

  /** The phrase test of the floating widget: the lower-cased reply includes
      `whatsapp`, `connect you` or `our team`. */
  predicate MentionsHandOff(reply: string) {
    var low := Lower(reply);
    Contains(low, "whatsapp") || Contains(low, "connect you") || Contains(low, "our team")
  }

  /** Whether completing a send raises the call to action. A failure always
      does. A reply does in the floating widget when it mentions the hand-off
      or the transcript had at least 6 messages before the send, and in the
      decks when it had at least 2. */
  predicate RaisesCta(v: Variant, preLen: nat, outcome: Outcome, reply: string) {
    match outcome
    case Failed => true
    case Replied(_) => if v == AIChatbot then MentionsHandOff(reply) || preLen >= 6 else preLen >= 2
  }

  /** A failure always raises the call to action; in the decks a reply
      raises it exactly when the transcript had at least two messages before
      the send, whatever the reply says. */
  lemma CtaRules(v: Variant, preLen: nat, outcome: Outcome, reply: string)
    ensures outcome.Failed? ==> RaisesCta(v, preLen, outcome, reply)
    ensures IsDeck(v) && outcome.Replied? ==> (RaisesCta(v, preLen, outcome, reply) <==> preLen >= 2)
  {
  }

  /** The phrase test ignores case: a reply that contains any spelling of a
      trigger phrase, such as `WhatsApp` or `WHATSAPP`, mentions the
      hand-off. */
  lemma MentionsAnyCase(reply: string, word: string)
    requires Contains(reply, word)
    requires Lower(word) == "whatsapp" || Lower(word) == "connect you" || Lower(word) == "our team"
    ensures MentionsHandOff(reply)
  {
    LowerKeepsOccurrence(reply, word, Lower(word));
  }

  /** A reply that names WhatsApp, in any spelling of its case, mentions the
      hand-off. */
  lemma NamesWhatsApp(reply: string)
    requires Contains(reply, "WhatsApp")
    ensures MentionsHandOff(reply)
  {
    assert Lower("WhatsApp") == "whatsapp" by {
      assert forall k | 0 <= k < 8 :: Lower("WhatsApp")[k] == "whatsapp"[k];
    }
    MentionsAnyCase(reply, "WhatsApp");
  }

  /** Every fallback names WhatsApp, */
  lemma FallbackNamesWhatsApp(v: Variant, lang: Language)
    ensures Contains(Fallback(v, lang), "WhatsApp")
  {
    ContainsMiddle(FallbackBefore(v, lang), "WhatsApp", FallbackAfter(v, lang));
  }

  /** so every fallback would raise the call to action by its wording alone,
      had it been a reply: the unconditional flag on failure agrees with the
      phrase rule. */
  lemma FallbackMentionsHandOff(v: Variant, lang: Language)
    ensures MentionsHandOff(Fallback(v, lang))
  {
    FallbackNamesWhatsApp(v, lang);
    NamesWhatsApp(Fallback(v, lang));
  }

  // Hand-off messages

  /** `messages.filter(m => m.role === 'user').map(m => m.content)`: the user
      contents in chronological order. */
  function UserContents(ms: seq<Message>): (r: seq<string>)
    ensures |r| <= |ms|
    ensures forall i :: 0 <= i < |ms| && ms[i].role == User ==> ms[i].content in r
    ensures forall x :: x in r ==> exists i :: 0 <= i < |ms| && ms[i].role == User && ms[i].content == x
    decreases |ms|
  {
    if ms == [] then []
    else
      var last := ms[|ms| - 1];
      var before := UserContents(ms[..|ms| - 1]);
      assert forall i :: 0 <= i < |ms| - 1 ==> ms[..|ms| - 1][i] == ms[i];
      before + (if last.role == User then [last.content] else [])
  }

  /** Collecting user contents distributes over concatenation, so a
      transcript's user contents are those of its first part followed by
      those of the rest: the order is chronological. */
  lemma {:induction false} UserContentsAppend(a: seq<Message>, b: seq<Message>)
    ensures UserContents(a + b) == UserContents(a) + UserContents(b)
    decreases |b|
  {
    if b == [] {
      assert a + b == a;
    } else {
      var b' := b[..|b| - 1];
      assert (a + b)[..|a + b| - 1] == a + b';
      UserContentsAppend(a, b');
    }
  }

  /** `messages.filter(m => m.role === 'assistant').slice(-1)[0]?.content ||
      ''`: the content of the last assistant message, or the empty string when
      there is none. */
  function LastAssistantContent(ms: seq<Message>): string
    decreases |ms|
  {
    if ms == [] then ""
    else if ms[|ms| - 1].role == Assistant then ms[|ms| - 1].content
    else LastAssistantContent(ms[..|ms| - 1])
  }

  /** With no assistant message the result is empty; otherwise it is the
      content of an assistant message after which only user messages
      follow. */
  lemma {:induction false} LastAssistantContentIsLast(ms: seq<Message>)
    ensures (forall i :: 0 <= i < |ms| ==> ms[i].role == User) ==> LastAssistantContent(ms) == ""
    ensures (exists i :: 0 <= i < |ms| && ms[i].role == Assistant) ==>
      exists i :: 0 <= i < |ms| && ms[i].role == Assistant && ms[i].content == LastAssistantContent(ms)
        && forall j :: i < j < |ms| ==> ms[j].role == User
    decreases |ms|
  {
    if ms != [] && ms[|ms| - 1].role == User {
      var before := ms[..|ms| - 1];
      LastAssistantContentIsLast(before);
      assert forall i :: 0 <= i < |before| ==> before[i] == ms[i];
      if exists i :: 0 <= i < |ms| && ms[i].role == Assistant {
        var i :| 0 <= i < |ms| && ms[i].role == Assistant;
        assert before[i].role == Assistant;
        var k :| 0 <= k < |before| && before[k].role == Assistant
          && before[k].content == LastAssistantContent(before)
          && forall j :: k < j < |before| ==> before[j].role == User;
        assert LastAssistantContent(ms) == LastAssistantContent(before);
        assert forall j :: k < j < |ms| ==> ms[j].role == User by {
          forall j | k < j < |ms|
            ensures ms[j].role == User
          {
            if j < |before| {
              assert before[j].role == User;
            }
          }
        }
      }
    } else if ms != [] {
      assert ms[|ms| - 1].content == LastAssistantContent(ms);
    }
  }

  const SummaryOpening := "Hi Karuna! I chatted with Karu (AI consultant) and here's what we discussed:\n\n"
  const SummaryMiddle := "\n\nKaru's summary: "

  /** `generateRequirementsSummary` of the floating widget. */
  function Summary(ms: seq<Message>): string {
    SummaryOpening + Join(UserContents(ms), " | ") + SummaryMiddle + LastAssistantContent(ms)
  }

  /** The summary opens with the fixed greeting to Karuna. */
  lemma SummaryOpens(ms: seq<Message>)
    ensures StartsWith(Summary(ms), SummaryOpening)
  {
    var rest := Join(UserContents(ms), " | ") + SummaryMiddle + LastAssistantContent(ms);
    assert Summary(ms) == SummaryOpening + rest;
    StartsWithConcat(SummaryOpening, rest);
  }

  /** The summary quotes every user message. */
  lemma SummaryQuotesUser(ms: seq<Message>, i: nat)
    requires i < |ms| && ms[i].role == User
    ensures Contains(Summary(ms), ms[i].content)
  {
    var parts := UserContents(ms);
    var k :| 0 <= k < |parts| && parts[k] == ms[i].content;
    JoinContainsParts(parts, " | ", k);
    ContainsMiddle(SummaryOpening, Join(parts, " | "), SummaryMiddle + LastAssistantContent(ms));
    assert SummaryOpening + Join(parts, " | ") + (SummaryMiddle + LastAssistantContent(ms)) == Summary(ms);
    ContainsTransitive(Summary(ms), Join(parts, " | "), ms[i].content);
  }

  /** The summary ends with the last assistant message. */
  lemma SummaryEndsWithLastReply(ms: seq<Message>, i: nat)
    requires i < |ms| && ms[i].role == Assistant
    requires forall j :: i < j < |ms| ==> ms[j].role == User
    ensures Contains(Summary(ms), SummaryMiddle + ms[i].content)
  {
    var r := LastAssistantContent(ms);
    LastReplyAt(ms, i);
    var front := SummaryOpening + Join(UserContents(ms), " | ");
    ContainsMiddle(front, SummaryMiddle + r, "");
    assert front + (SummaryMiddle + r) + "" == Summary(ms);
  }

  /** An assistant message followed only by user messages is the last
      reply. */
  lemma {:induction false} LastReplyAt(ms: seq<Message>, i: nat)
    requires i < |ms| && ms[i].role == Assistant
    requires forall j :: i < j < |ms| ==> ms[j].role == User
    ensures LastAssistantContent(ms) == ms[i].content
    decreases |ms|
  {
    if i < |ms| - 1 {
      var before := ms[..|ms| - 1];
      assert ms[|ms| - 1].role == User;
      assert forall j :: 0 <= j < |before| ==> before[j] == ms[j];
      LastReplyAt(before, i);
    }
  }

  /** `.filter(msg => msg.length > 3)`, with JavaScript's UTF-16 length. */
  function LongContents(xs: seq<string>): (r: seq<string>)
    ensures forall k :: 0 <= k < |r| ==> Utf16Length(r[k]) > 3
    ensures forall x :: x in r <==> x in xs && Utf16Length(x) > 3
    decreases |xs|
  {
    if xs == [] then []
    else
      var last := xs[|xs| - 1];
      var before := xs[..|xs| - 1];
      assert xs == before + [last];
      LongContents(before) + (if Utf16Length(last) > 3 then [last] else [])
  }

  /** Keeping the long messages distributes over concatenation, so the
      kept messages stay in chronological order, each as often as it was
      written. */
  lemma {:induction false} LongContentsAppend(a: seq<string>, b: seq<string>)
    ensures LongContents(a + b) == LongContents(a) + LongContents(b)
    decreases |b|
  {
    if b == [] {
      assert a + b == a;
    } else {
      var b' := b[..|b| - 1];
      assert (a + b)[..|a + b| - 1] == a + b';
      LongContentsAppend(a, b');
    }
  }

  /** `needs` in `generateWhatsAppMessage`: the user messages longer than 3
      characters, joined by `'. '`. */
  function Needs(ms: seq<Message>): string {
    Join(LongContents(UserContents(ms)), ". ")
  }

  /** There are no needs to quote exactly when every user message is at most
      3 characters long. */
  lemma NeedsEmptyIff(ms: seq<Message>)
    ensures Needs(ms) == "" <==> forall i :: 0 <= i < |ms| && ms[i].role == User ==> Utf16Length(ms[i].content) <= 3
  {
    var parts := LongContents(UserContents(ms));
    JoinEmptyIff(parts, ". ");
    if |parts| > 0 {
      assert Utf16Length(parts[0]) > 3;
      assert parts[0] in parts;
      var i :| 0 <= i < |ms| && ms[i].role == User && ms[i].content == parts[0];
    } else {
      forall i | 0 <= i < |ms| && ms[i].role == User
        ensures Utf16Length(ms[i].content) <= 3
      {
        assert ms[i].content in UserContents(ms);
      }
    }
  }

  /** The opening, default need and closing of a deck's hand-off text. */
  function DeckOpening(v: Variant, lang: Language): string {
    if lang == Es then
      if v == PresentationDeck then "Hola! Hable con Karu en su presentation deck.\n\nEstoy buscando ayuda con: "
      else "Hola! Hable con Karu en el presentation deck de Karuna Electronics.\n\nEstoy buscando ayuda con: "
    else
      if v == PresentationDeck then "Hi! I chatted with Karu on your presentation deck.\n\nI'm looking for help with: "
      else "Hi! I chatted with Karu on the Karuna Electronics presentation deck.\n\nI'm looking for help with: "
  }

  function DefaultNeeds(v: Variant, lang: Language): string {
    if v == PresentationDeck then
      if lang == Es then "soluciones tecnologicas" else "technology solutions"
    else
      if lang == Es then "soluciones de electronica y control" else "electronics and control solutions"
  }

  function DeckClosing(lang: Language): string {
    if lang == Es then "\n\nPodemos agendar una llamada?" else "\n\nCan we schedule a call?"
  }

  /** A deck's hand-off text: the template of the active language around
      the needs, or around the default need when there are none. */
  function DeckHandOff(v: Variant, lang: Language, ms: seq<Message>): string {
    DeckOpening(v, lang) + OrElse(Needs(ms), DefaultNeeds(v, lang)) + DeckClosing(lang)
  }

  /** The message pre-filled in WhatsApp: the summary in the floating widget,
      the deck's hand-off text in the decks. */
  function HandOffText(v: Variant, lang: Language, ms: seq<Message>): string {
    if v == AIChatbot then Summary(ms) else DeckHandOff(v, lang, ms)
  }

  /** A deck's hand-off quotes the needs, or the default need when there are
      none. */
  lemma DeckHandOffQuotesNeeds(v: Variant, lang: Language, ms: seq<Message>)
    ensures Needs(ms) != "" ==> Contains(DeckHandOff(v, lang, ms), Needs(ms))
    ensures Needs(ms) == "" ==> Contains(DeckHandOff(v, lang, ms), DefaultNeeds(v, lang))
  {
    ContainsMiddle(DeckOpening(v, lang), OrElse(Needs(ms), DefaultNeeds(v, lang)), DeckClosing(lang));
  }

  /** A deck's hand-off quotes every user message longer than 3 characters. */
  lemma DeckHandOffQuotesUser(v: Variant, lang: Language, ms: seq<Message>, i: nat)
    requires i < |ms| && ms[i].role == User && Utf16Length(ms[i].content) > 3
    ensures Contains(DeckHandOff(v, lang, ms), ms[i].content)
  {
    var parts := LongContents(UserContents(ms));
    assert ms[i].content in UserContents(ms);
    assert ms[i].content in parts;
    var k :| 0 <= k < |parts| && parts[k] == ms[i].content;
    JoinContainsParts(parts, ". ", k);
    assert Needs(ms) != "" by {
      assert Utf16Length(Needs(ms)) > 0 by { NeedsEmptyIff(ms); }
    }
    DeckHandOffQuotesNeeds(v, lang, ms);
    ContainsTransitive(DeckHandOff(v, lang, ms), Needs(ms), ms[i].content);
  }

  // The controller

  /** The position where the user/assistant alternation starts: after the
      greeting when the transcript opens with one. */
  function Start(ms: seq<Message>): nat {
    if |ms| > 0 && ms[0].role == Assistant then 1 else 0
  }

  /** After the greeting, user and assistant messages alternate, starting
      with a user message. */
  ghost predicate Alternates(ms: seq<Message>) {
    forall i :: Start(ms) <= i < |ms| ==> ms[i].role == (if (i - Start(ms)) % 2 == 0 then User else Assistant)
  }

  /** A user message after a completed exchange keeps the alternation and
      leaves one message without a reply. */
  lemma UserTurnKeepsShape(ms: seq<Message>, m: Message)
    requires Alternates(ms) && (|ms| - Start(ms)) % 2 == 0 && m.role == User
    ensures Start(ms + [m]) == Start(ms)
    ensures Alternates(ms + [m]) && (|ms + [m]| - Start(ms + [m])) % 2 == 1
  {
  }

  /** A reply to the pending user message keeps the alternation and
      completes the exchange. */
  lemma ReplyKeepsShape(ms: seq<Message>, m: Message)
    requires Alternates(ms) && (|ms| - Start(ms)) % 2 == 1 && m.role == Assistant
    ensures Start(ms + [m]) == Start(ms)
    ensures Alternates(ms + [m]) && (|ms + [m]| - Start(ms + [m])) % 2 == 0
  {
  }

  /** The state of one copy of the widget. `sentHistory` and `sentLanguage`
      are what the pending send closes over: the transcript before the user
      message and the language it was started in. `lastOpenedUrl` is the
      last link handed to `window.open`. */
  class ChatController {
    const variant: Variant
    var isOpen: bool
    var messages: seq<Message>
    var input: string
    var isLoading: bool
    var showWhatsAppCTA: bool
    var sentHistory: seq<Message>
    var sentLanguage: Language
    var lastOpenedUrl: Option<string>

    /** Sends are serialised: a request is pending exactly when the transcript
        ends with a user message that has no reply yet, and the pending
        request was built from the transcript before that message. */
    ghost predicate Valid()
      reads this
    {
      && Alternates(messages)
      && (isLoading <==> (|messages| - Start(messages)) % 2 == 1)
      && (isLoading ==> sentHistory == messages[..|messages| - 1])
    }

    /** The initial state: closed, empty, idle, no call to action. */
    constructor(v: Variant)
      ensures Valid()
      ensures variant == v
      ensures !isOpen && messages == [] && input == "" && !isLoading && !showWhatsAppCTA
      ensures lastOpenedUrl == None
    {
      variant := v;
      isOpen := false;
      messages := [];
      input := "";
      isLoading := false;
      showWhatsAppCTA := false;
      sentHistory := [];
      sentLanguage := En;
      lastOpenedUrl := None;
    }

    /** The floating widget's toggle button, followed by its greeting effect:
        opening an empty chat seeds the greeting; closing keeps the
        transcript. */
    method ToggleOpen()
      requires Valid() && variant == AIChatbot
      modifies this
      ensures Valid()
      ensures isOpen == !old(isOpen)
      ensures messages == if isOpen && old(messages) == [] then [Message(SeedId, Assistant, ChatbotGreeting)] else old(messages)
      ensures input == old(input) && isLoading == old(isLoading) && showWhatsAppCTA == old(showWhatsAppCTA)
      ensures sentHistory == old(sentHistory) && sentLanguage == old(sentLanguage) && lastOpenedUrl == old(lastOpenedUrl)
    {
      isOpen := !isOpen;
      if isOpen && messages == [] {
        messages := [Message(SeedId, Assistant, ChatbotGreeting)];
      }
    }

    /** A deck's mount effects: the electronics deck switches the language to
        Spanish, and an empty chat is seeded with the greeting in the
        language of the first render. `t` is the lookup the component takes
        from the language context, `LanguageContext.T`. */
    method Mount(provider: LanguageProvider, t: (Language, string) -> string)
      requires Valid() && IsDeck(variant)
      modifies this, provider
      ensures Valid()
      ensures provider.language == if variant == ElectronicsDeck then Es else old(provider.language)
      ensures messages == if old(messages) == [] then [Seed(variant, t, old(provider.language))] else old(messages)
      ensures isOpen == old(isOpen) && input == old(input) && isLoading == old(isLoading)
      ensures showWhatsAppCTA == old(showWhatsAppCTA)
      ensures sentHistory == old(sentHistory) && sentLanguage == old(sentLanguage) && lastOpenedUrl == old(lastOpenedUrl)
    {
      var lang := provider.language;
      if variant == ElectronicsDeck {
        provider.SetLanguage(Es);
      }
      if messages == [] {
        messages := [Seed(variant, t, lang)];
      }
    }

    /** A deck's language-change effect: the greeting is re-localised when
        the transcript is exactly the seeded greeting, and nothing changes
        otherwise. */
    method RefreshGreeting(t: (Language, string) -> string, lang: Language)
      requires Valid() && IsDeck(variant)
      modifies this
      ensures Valid()
      ensures messages == if IsSeeded(old(messages)) then [Seed(variant, t, lang)] else old(messages)
      ensures isOpen == old(isOpen) && input == old(input) && isLoading == old(isLoading)
      ensures showWhatsAppCTA == old(showWhatsAppCTA)
      ensures sentHistory == old(sentHistory) && sentLanguage == old(sentLanguage) && lastOpenedUrl == old(lastOpenedUrl)
    {
      if IsSeeded(messages) {
        messages := [Seed(variant, t, lang)];
      }
    }

    /** Typing in the input box. */
    method SetInput(text: string)
      modifies this
      ensures input == text
      ensures messages == old(messages) && isOpen == old(isOpen) && isLoading == old(isLoading)
      ensures showWhatsAppCTA == old(showWhatsAppCTA)
      ensures sentHistory == old(sentHistory) && sentLanguage == old(sentLanguage) && lastOpenedUrl == old(lastOpenedUrl)
    {
      input := text;
    }

    /** The first half of `sendMessage`, up to the request. A blank input or
        a pending request makes it a no-op; otherwise it appends one user
        message holding the trimmed input, clears the input, sets loading,
        and returns the request built from the transcript before the send.
        `userId` stands for `Date.now().toString()` and `lang` for the
        language the component rendered with. */
    method BeginSend(userId: string, lang: Language) returns (request: Option<Request>)
      requires Valid()
      modifies this
      ensures Valid()
      ensures request.Some? <==> Trim(old(input)) != "" && !old(isLoading)
      ensures request.None? ==>
        && messages == old(messages) && input == old(input) && isLoading == old(isLoading)
        && sentHistory == old(sentHistory) && sentLanguage == old(sentLanguage)
      ensures request.Some? ==>
        && messages == old(messages) + [Message(userId, User, Trim(old(input)))]
        && input == "" && isLoading
        && sentHistory == old(messages) && sentLanguage == lang
        && request.value == RequestFor(variant, old(messages), Trim(old(input)))
      ensures isOpen == old(isOpen) && showWhatsAppCTA == old(showWhatsAppCTA) && lastOpenedUrl == old(lastOpenedUrl)
    {
      var content := Trim(input);
      if content == "" || isLoading {
        return None;
      }
      sentHistory := messages;
      sentLanguage := lang;
      UserTurnKeepsShape(messages, Message(userId, User, content));
      messages := messages + [Message(userId, User, content)];
      input := "";
      isLoading := true;
      request := Some(RequestFor(variant, sentHistory, content));
    }

    /** The second half of `sendMessage`: exactly one assistant message is
        appended (the reply, the apology or the fallback), loading is
        cleared, and the call to action is raised by `RaisesCta`, never
        lowered. `replyId` stands for `(Date.now() + 1).toString()`. */
    method CompleteSend(outcome: Outcome, replyId: string)
      requires Valid() && isLoading
      modifies this
      ensures Valid() && !isLoading
      ensures messages == old(messages) + [Message(replyId, Assistant, ReplyText(variant, sentLanguage, outcome))]
      ensures |messages| == |sentHistory| + 2
      ensures showWhatsAppCTA == (old(showWhatsAppCTA) || RaisesCta(variant, |sentHistory|, outcome, ReplyText(variant, sentLanguage, outcome)))
      ensures isOpen == old(isOpen) && input == old(input) && lastOpenedUrl == old(lastOpenedUrl)
      ensures sentHistory == old(sentHistory) && sentLanguage == old(sentLanguage)
    {
      var reply := ReplyText(variant, sentLanguage, outcome);
      ReplyKeepsShape(messages, Message(replyId, Assistant, reply));
      messages := messages + [Message(replyId, Assistant, reply)];
      showWhatsAppCTA := showWhatsAppCTA || RaisesCta(variant, |sentHistory|, outcome, reply);
      isLoading := false;
    }

    /** `openWhatsApp`: opens the `wa.me` link for the encoded hand-off text.
        `encode` stands for `encodeURIComponent`; `lang` is the active
        language. */
    method OpenWhatsApp(lang: Language, encode: string -> string)
      modifies this
      ensures lastOpenedUrl == Some(WhatsApp.Link(encode(HandOffText(variant, lang, messages))))
      ensures messages == old(messages) && isOpen == old(isOpen) && input == old(input) && isLoading == old(isLoading)
      ensures showWhatsAppCTA == old(showWhatsAppCTA)
      ensures sentHistory == old(sentHistory) && sentLanguage == old(sentLanguage)
    {
      lastOpenedUrl := Some(WhatsApp.Link(encode(HandOffText(variant, lang, messages))));
    }
  }
}
