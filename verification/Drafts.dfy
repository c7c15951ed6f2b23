/** The eight-section article draft. */
module Drafts {
  import opened Wrappers

  datatype FaqItem = FaqItem(question: string, answer: string)

  datatype MediaSection = MediaSection(assetRef: Option<string>, caption: string)

  datatype DraftStatus = Drafted | NeedsRevision | NotExecuted

  datatype Draft = Draft(
    title: string,
    intro: string,
    quickFacts: seq<string>,
    eventBody: string,
    imageSections: seq<MediaSection>,
    videoSections: seq<MediaSection>,
    faq: seq<FaqItem>,
    summary: string,
    subheads: seq<string>,
    titleCandidates: seq<string>,
    tags: seq<string>,
    keywords: seq<string>,
    category: Option<string>,
    quotes: seq<string>,
    status: DraftStatus,
    reviewReason: Option<string>,
    executed: bool)

  function Captions(sections: seq<MediaSection>): seq<string> {
    seq(|sections|, i requires 0 <= i < |sections| => sections[i].caption)
  }

  /** Each question and its answer. */
  function FaqTexts(faq: seq<FaqItem>): seq<string> {
    if faq == [] then [] else [faq[0].question, faq[0].answer] + FaqTexts(faq[1..])
  }
}
