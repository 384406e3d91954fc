/** The navigation bar of src/components/ui/Navbar.tsx: the scrolled look,
    the mobile menu, smooth scrolling to a section with an optional project
    filter handed to the gallery, the language switch and the WhatsApp
    button. */
module Navbar {
  import opened Wrappers
  import opened Translations
  import opened LanguageContext
  import WhatsApp

  /** An entry of the services dropdown: the translation key of its label
      (shown as `t(nameKey)`), the section it scrolls to and the filter it
      hands to the gallery. */
  datatype ServiceFilter = ServiceFilter(nameKey: string, id: string, filter: string)

  /** `serviceFilters`. */
  function ServiceFilters(): (r: seq<ServiceFilter>)
    ensures |r| == 3
  {
    [
      ServiceFilter("nav.allProjects", "work", "all"),
      ServiceFilter("nav.aiEducation", "work", "AI Education Platform"),
      ServiceFilter("nav.chatbotAutomation", "work", "Chatbot Automation")
    ]
  }

  /** The three entries scroll to the gallery and carry exactly the filters
      `'all'`, `'AI Education Platform'` and `'Chatbot Automation'`, in that
      order. */
  lemma ServiceFilterValues()
    ensures forall k :: 0 <= k < |ServiceFilters()| ==> ServiceFilters()[k].id == "work"
    ensures ServiceFilters()[0].filter == "all"
    ensures ServiceFilters()[1].filter == "AI Education Platform"
    ensures ServiceFilters()[2].filter == "Chatbot Automation"
  {
  }

  /** How far, in pixels, the page must be scrolled for the bar to take its
      scrolled look. */
  const ScrollThreshold: real := 20.0

  /** `filter` is given and truthy (not empty). */
  predicate HasFilter(filter: Option<string>) {
    filter.Some? && filter.value != ""
  }

  const EnglishInvitation := "Hi Karuna! I would like to discuss a project"
  const SpanishInvitation := "¡Hola Karuna! Me gustaría hablar sobre un proyecto"

  /** The text the WhatsApp button pre-fills: the English sentence exactly
      when the language is English, the Spanish one exactly when it is
      Spanish. */
  function InvitationText(lang: Language): (r: string)
    ensures r == EnglishInvitation <==> lang == En
    ensures r == SpanishInvitation <==> lang == Es
  {
    assert |EnglishInvitation| != |SpanishInvitation|;
    match lang
    case En => EnglishInvitation
    case Es => SpanishInvitation
  }

  /** The bar's state, with the effects it has on the page: the section last
      scrolled into view, the details of the `filterProjects` events it has
      scheduled, in order, and the last link handed to `window.open`. */
  class NavigationBar {
    var isScrolled: bool
    var isMobileMenuOpen: bool
    var scrolledTo: Option<string>
    var dispatched: seq<string>
    var lastOpenedUrl: Option<string>

    /** First render: not scrolled, menu closed, nothing done yet. */
    constructor()
      ensures !isScrolled && !isMobileMenuOpen
      ensures scrolledTo == None && dispatched == [] && lastOpenedUrl == None
    {
      isScrolled := false;
      isMobileMenuOpen := false;
      scrolledTo := None;
      dispatched := [];
      lastOpenedUrl := None;
    }

    /** The `scroll` listener: the bar is scrolled exactly when the page is
        more than the threshold down. */
    method HandleScroll(scrollY: real)
      modifies this
      ensures isScrolled <==> scrollY > ScrollThreshold
      ensures isMobileMenuOpen == old(isMobileMenuOpen) && scrolledTo == old(scrolledTo)
      ensures dispatched == old(dispatched) && lastOpenedUrl == old(lastOpenedUrl)
    {
      isScrolled := scrollY > ScrollThreshold;
    }

    /** `scrollToSection(sectionId, filter?)`; `elementExists` says whether
        the page has an element with that id. The menu is closed in every
        case; the section is scrolled into view only when it exists, and a
        filter event is scheduled only when, in addition, a filter is
        given. */
    method ScrollToSection(sectionId: string, filter: Option<string>, elementExists: bool)
      modifies this
      ensures !isMobileMenuOpen
      ensures scrolledTo == if elementExists then Some(sectionId) else old(scrolledTo)
      ensures |dispatched| > |old(dispatched)| <==> elementExists && HasFilter(filter)
      ensures |dispatched| > |old(dispatched)| ==> dispatched == old(dispatched) + [filter.value]
      ensures |dispatched| <= |old(dispatched)| ==> dispatched == old(dispatched)
      ensures isScrolled == old(isScrolled) && lastOpenedUrl == old(lastOpenedUrl)
    {
      if elementExists {
        scrolledTo := Some(sectionId);
        if HasFilter(filter) {
          dispatched := dispatched + [filter.value];
        }
      }
      isMobileMenuOpen := false;
    }

    /** A click on entry `k` of the services dropdown: scroll to its section
        and, when that section exists, hand its filter to the gallery. */
    method ChooseService(k: nat, elementExists: bool)
      requires k < |ServiceFilters()|
      modifies this
      ensures !isMobileMenuOpen
      ensures dispatched == old(dispatched) + if elementExists then [ServiceFilters()[k].filter] else []
      ensures scrolledTo == if elementExists then Some("work") else old(scrolledTo)
      ensures isScrolled == old(isScrolled) && lastOpenedUrl == old(lastOpenedUrl)
    {
      var entry := ServiceFilters()[k];
      ServiceFilterValues();
      ScrollToSection(entry.id, Some(entry.filter), elementExists);
    }

    /** The hamburger button. */
    method ToggleMobileMenu()
      modifies this
      ensures isMobileMenuOpen == !old(isMobileMenuOpen)
      ensures isScrolled == old(isScrolled) && scrolledTo == old(scrolledTo)
      ensures dispatched == old(dispatched) && lastOpenedUrl == old(lastOpenedUrl)
    {
      isMobileMenuOpen := !isMobileMenuOpen;
    }

    /** A click on the overlay behind the mobile menu. */
    method CloseMobileMenu()
      modifies this
      ensures !isMobileMenuOpen
      ensures isScrolled == old(isScrolled) && scrolledTo == old(scrolledTo)
      ensures dispatched == old(dispatched) && lastOpenedUrl == old(lastOpenedUrl)
    {
      isMobileMenuOpen := false;
    }

    /** `toggleLanguage`: switch the shared language to the other one. The
        bar's own state does not change. */
    method ToggleLanguage(provider: LanguageProvider)
      modifies provider
      ensures provider.language == Toggled(old(provider.language))
    {
      provider.SetLanguage(if provider.language == En then Es else En);
    }

    /** `openWhatsApp`; `encode` stands for `encodeURIComponent`. */
    method OpenWhatsApp(lang: Language, encode: string -> string)
      modifies this
      ensures lastOpenedUrl == Some(WhatsApp.Link(encode(InvitationText(lang))))
      ensures isScrolled == old(isScrolled) && isMobileMenuOpen == old(isMobileMenuOpen)
      ensures scrolledTo == old(scrolledTo) && dispatched == old(dispatched)
    {
      lastOpenedUrl := Some(WhatsApp.Link(encode(InvitationText(lang))));
    }
  }
}
