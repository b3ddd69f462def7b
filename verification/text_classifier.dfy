/** The chatbot's text path (`handleSendMessage` and `analyzeTextMessage`):
    the message is lower-cased and matched against seven keyword lists in a
    fixed priority order; the first list with a keyword occurring as a
    substring decides a fixed classification. With no match the bot asks
    for an image instead of guessing. */
module TextClassifier {
  import opened Common
  import opened Categories

  const PlasticKeywords: seq<string> := ["plastic", "bottle", "container", "packaging", "wrapper", "bag"]
  const PaperKeywords: seq<string> := ["paper", "cardboard", "newspaper", "magazine", "box", "carton"]
  const GlassKeywords: seq<string> := ["glass", "bottle", "jar", "window"]
  const MetalKeywords: seq<string> := ["metal", "can", "aluminum", "tin", "steel", "foil"]
  const ElectronicKeywords: seq<string> :=
    ["electronic", "device", "computer", "phone", "laptop", "battery", "charger", "cord", "appliance"]
  const OrganicKeywords: seq<string> :=
    ["food", "organic", "vegetable", "fruit", "leftover", "garden", "leaf", "plant", "compost"]
  const HazardousKeywords: seq<string> :=
    ["hazardous", "chemical", "paint", "oil", "solvent", "cleaner", "toxic", "poison"]

  /** `textHasKeyword`: some keyword of the list occurs in the text
      (`keywords.some(k => text.includes(k))`). */
  predicate HasKeyword(text: string, keywords: seq<string>) {
    |keywords| > 0 && (Contains(text, keywords[0]) || HasKeyword(text, keywords[1..]))
  }

  /** HasKeyword holds exactly when some listed keyword occurs. */
  lemma {:induction false} HasKeywordIff(text: string, keywords: seq<string>)
    ensures HasKeyword(text, keywords) <==> exists k :: k in keywords && Contains(text, k)
  {
    if |keywords| > 0 {
      HasKeywordIff(text, keywords[1..]);
      if HasKeyword(text, keywords) && !Contains(text, keywords[0]) {
        var k :| k in keywords[1..] && Contains(text, k);
        assert k in keywords;
      }
      if exists k :: k in keywords && Contains(text, k) {
        var k :| k in keywords && Contains(text, k);
        if k != keywords[0] {
          assert k in keywords[1..];
        }
      }
    }
  }

  /** `analyzeTextMessage` without the one-second delay: the classification
      the bot answers with, or None when it asks for an image. */
  function AnalyzeText(text: string): (r: Option<Classification>)
    ensures r.Some? ==> r.value.category != Mixed
    ensures r.Some? ==> 0.82 <= r.value.confidence <= 0.90
    ensures r.Some? ==> r.value.recyclable == Recyclable(r.value.category)
    ensures r.Some? ==> r.value.instructions == Instructions(r.value.category)
  {
    var t := Lower(text);
    if HasKeyword(t, PlasticKeywords) then
      Some(Classification(Plastic, 0.85, true, Instructions(Plastic)))
    else if HasKeyword(t, PaperKeywords) then
      Some(Classification(Paper, 0.88, true, Instructions(Paper)))
    else if HasKeyword(t, GlassKeywords) then
      Some(Classification(Glass, 0.9, true, Instructions(Glass)))
    else if HasKeyword(t, MetalKeywords) then
      Some(Classification(Metal, 0.87, true, Instructions(Metal)))
    else if HasKeyword(t, ElectronicKeywords) then
      Some(Classification(Electronic, 0.83, false, Instructions(Electronic)))
    else if HasKeyword(t, OrganicKeywords) then
      Some(Classification(Organic, 0.89, false, Instructions(Organic)))
    else if HasKeyword(t, HazardousKeywords) then
      Some(Classification(Hazardous, 0.82, false, Instructions(Hazardous)))
    else
      None
  }

  // ---------------------------------------------------------------------
  // Reference definition: a keyword table searched first-match
  // ---------------------------------------------------------------------

  /** The priority order of the keyword lists. */
  const TextRuleOrder: seq<Category> :=
    [Plastic, Paper, Glass, Metal, Electronic, Organic, Hazardous]

  /** The keyword list of each category (Mixed has none). */
  function Keywords(c: Category): seq<string> {
    match c
    case Plastic => PlasticKeywords
    case Paper => PaperKeywords
    case Glass => GlassKeywords
    case Metal => MetalKeywords
    case Electronic => ElectronicKeywords
    case Organic => OrganicKeywords
    case Hazardous => HazardousKeywords
    case Mixed => []
  }

  /** The fixed confidence each category is answered with. */
  function TextConfidence(c: Category): real {
    match c
    case Plastic => 0.85
    case Paper => 0.88
    case Glass => 0.9
    case Metal => 0.87
    case Electronic => 0.83
    case Organic => 0.89
    case Hazardous => 0.82
    case Mixed => 0.0
  }

  /** Whether a category's keyword list matches the lower-cased text. */
  function ListMatches(text: string): Category -> bool {
    c => HasKeyword(Lower(text), Keywords(c))
  }

  /** The category whose keyword list matches first, searching the table. */
  function TableMatch(text: string): Option<Category> {
    FirstWhere(TextRuleOrder, ListMatches(text))
  }

  /** The table search, written out as the seven tests it performs. */
  lemma TableMatchUnfolded(text: string)
    ensures var t := Lower(text);
      TableMatch(text) ==
        if HasKeyword(t, PlasticKeywords) then Some(Plastic)
        else if HasKeyword(t, PaperKeywords) then Some(Paper)
        else if HasKeyword(t, GlassKeywords) then Some(Glass)
        else if HasKeyword(t, MetalKeywords) then Some(Metal)
        else if HasKeyword(t, ElectronicKeywords) then Some(Electronic)
        else if HasKeyword(t, OrganicKeywords) then Some(Organic)
        else if HasKeyword(t, HazardousKeywords) then Some(Hazardous)
        else None
  {
    FirstWhereOfSeven(TextRuleOrder, ListMatches(text));
  }

  /** The cascade agrees with the table: it answers exactly when some
      keyword list matches, with the first matching category, that
      category's constant confidence, instructions and recyclability. */
  lemma AnalyzeIsTableMatch(text: string)
    ensures AnalyzeText(text).None? <==> TableMatch(text).None?
    ensures TableMatch(text).Some? ==>
      AnalyzeText(text) == Some(Classification(TableMatch(text).value,
        TextConfidence(TableMatch(text).value), Recyclable(TableMatch(text).value),
        Instructions(TableMatch(text).value)))
  {
    TableMatchUnfolded(text);
  }

  /** Classification ignores letter case: a message and its lower-cased
      form get the same answer. */
  lemma CaseInsensitive(text: string)
    ensures AnalyzeText(text) == AnalyzeText(Lower(text))
  {
    LowerIdempotent(text);
  }

  /** "bottle" is both a plastic and a glass keyword; plastic is tried
      first, so a message mentioning a bottle, in any letter case, is
      always Plastic and never Glass. */
  lemma BottleIsPlastic(text: string)
    requires Contains(text, "bottle")
    ensures AnalyzeText(text).Some?
    ensures AnalyzeText(text).value.category == Plastic
    ensures AnalyzeText(Lower(text)) == AnalyzeText(text)
  {
    ContainsLower(text, "bottle");
    HasKeywordIff(Lower(text), PlasticKeywords);
    assert "bottle" in PlasticKeywords;
    CaseInsensitive(text);
  }

  // ---------------------------------------------------------------------
  // handleSendMessage
  // ---------------------------------------------------------------------

  datatype TextReply =
    | Classified(classification: Classification)
    | AskForImage

  const AskForImageText: string :=
    "I couldn't identify the waste type from your description. Please upload an image for more accurate classification."

  /** The bot's reply to a sent message; None when the message is blank
      after trimming and nothing is sent or analysed. */
  function HandleSend(text: string): Option<TextReply> {
    if Trim(text) == "" then None
    else match AnalyzeText(text)
      case Some(c) => Some(Classified(c))
      case None => Some(AskForImage)
  }

  /** A blank or white-space-only message is never processed; any other
      message is answered with a classification exactly when some keyword
      list matches, and with a request for an image otherwise. */
  lemma HandleSendOutcomes(text: string)
    ensures HandleSend(text).None? <==> AllSpace(text)
    ensures HandleSend(text) == Some(AskForImage) <==>
      !AllSpace(text) && forall c :: c in TextRuleOrder ==> !HasKeyword(Lower(text), Keywords(c))
    ensures HandleSend(text).Some? && HandleSend(text).value.Classified? ==>
      HandleSend(text).value.classification.category in TextRuleOrder
  {
    TrimEmptyIffAllSpace(text);
    AnalyzeIsTableMatch(text);
  }
}
