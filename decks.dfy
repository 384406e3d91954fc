/** The logic of the two slide decks beyond their chat: the PDF export of
    src/pages/PresentationDeck.tsx and the delivery-flow strip both decks
    render by splitting a translated text on ` → `. */
module Decks {
  import opened Wrappers
  import opened Text
  import opened Translations
  import opened LanguageContext

  /** The name `downloadPDF` saves under. */
  function PdfFileName(lang: Language): string {
    if lang == Es then "Karuna_Presentacion.pdf" else "Karuna_Presentation.pdf"
  }

  /** The `isDownloading` state of the presentation deck's export button. */
  class PdfExport {
    var isDownloading: bool

    constructor()
      ensures !isDownloading
    {
      isDownloading := false;
    }

    /** The guard and first step of `downloadPDF`: nothing happens without
        the slide content or while an export runs; otherwise the flag is set
        and the export starts under the file name of the active language. */
    method BeginDownload(contentPresent: bool, lang: Language) returns (file: Option<string>)
      modifies this
      ensures file.Some? <==> contentPresent && !old(isDownloading)
      ensures file.Some? ==> file.value == PdfFileName(lang) && isDownloading
      ensures file.None? ==> isDownloading == old(isDownloading)
    {
      if !contentPresent || isDownloading {
        return None;
      }
      isDownloading := true;
      file := Some(PdfFileName(lang));
    }

    /** The `finally` of `downloadPDF`: the flag is cleared however the
        export ended. */
    method FinishDownload()
      modifies this
      ensures !isDownloading
    {
      isDownloading := false;
    }
  }

  /** The separator of the flow texts, ` → `. */
  const FlowSeparator := " \U{2192} "

  /** The four steps of the delivery flow. */
  function DeliverySteps(lang: Language): (r: seq<string>)
    ensures |r| == 4
  {
    if lang == En then ["Diagnosis", "Architecture", "Validation", "Production"]
    else ["Diagn\U{00F3}stico", "Arquitectura", "Validaci\U{00F3}n", "Producci\U{00F3}n"]
  }

  /** The English flow, taken apart at its arrows. */
  lemma EnglishFlowParts()
    ensures var steps := DeliverySteps(En);
      DeliveryFlow(En) == steps[0] + FlowSeparator + (steps[1] + FlowSeparator + (steps[2] + FlowSeparator + steps[3]))
  {
  }

  /** The Spanish flow, taken apart at its arrows. */
  lemma SpanishFlowParts()
    ensures var steps := DeliverySteps(Es);
      DeliveryFlow(Es) == steps[0] + FlowSeparator + (steps[1] + FlowSeparator + (steps[2] + FlowSeparator + steps[3]))
  {
  }

  /** A join of four parts. */
  lemma JoinFour(parts: seq<string>, sep: string)
    requires |parts| == 4
    ensures Join(parts, sep) == parts[0] + sep + (parts[1] + sep + (parts[2] + sep + parts[3]))
  {
    var rest := parts[1..];
    assert Join(rest[1..][1..], sep) == parts[3];
    assert Join(rest[1..], sep) == parts[2] + sep + parts[3];
    assert Join(rest, sep) == parts[1] + sep + (parts[2] + sep + parts[3]);
  }

  /** The flow text is its steps joined by the separator. */
  lemma DeliveryFlowIsJoin(lang: Language)
    ensures DeliveryFlow(lang) == Join(DeliverySteps(lang), FlowSeparator)
  {
    JoinFour(DeliverySteps(lang), FlowSeparator);
    if lang == En {
      EnglishFlowParts();
    } else {
      SpanishFlowParts();
    }
  }

  /** No step contains the arrow, so splitting the joined steps gives them
      back. */
  lemma DeliveryStepsSplit(lang: Language)
    ensures Split(Join(DeliverySteps(lang), FlowSeparator), FlowSeparator) == DeliverySteps(lang)
  {
    var steps := DeliverySteps(lang);
    forall k | 0 <= k < 4
      ensures FlowSeparator[1] !in steps[k]
    {
    }
    SplitJoin(steps, FlowSeparator);
  }

  /** `t('deck.delivery.flow').split(' → ')` in the presentation deck: exactly
      the four steps, in either language. */
  lemma PresentationFlowSteps(lang: Language)
    ensures Split(T(lang, "deck.delivery.flow"), FlowSeparator) == DeliverySteps(lang)
    ensures |Split(T(lang, "deck.delivery.flow"), FlowSeparator)| == 4
  {
    DeliveryFlowLookup(lang);
    DeliveryFlowIsJoin(lang);
    DeliveryStepsSplit(lang);
  }

  /** `t('elec.delivery.flow').split(' → ')` in the electronics deck: the key
      is missing from both blocks, so the strip has a single step, the key
      itself. */
  lemma ElectronicsFlowSteps(lang: Language)
    ensures Split(T(lang, "elec.delivery.flow"), FlowSeparator) == ["elec.delivery.flow"]
  {
    ElecKeyShowsKey(lang, "elec.delivery.flow");
    assert FlowSeparator[1] !in "elec.delivery.flow";
    SplitSingle("elec.delivery.flow", FlowSeparator);
  }
}
