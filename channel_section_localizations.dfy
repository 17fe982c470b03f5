/**
 * The SET action of the channel section localization sample: the channel section is looked
 * up, its snippet default language is set, and its localization map gets the entry
 * for one language (the title only). The channel section resource is an object
 * updated in place; the lookup response is the sequence of resources it
 * returned.
 */
module ChannelSectionLocalizations {
  import opened Wrappers
  import opened Localizations

  /** The parts of a channel section resource the sample reads and changes. */
  class ChannelSection {
    var snippetDefaultLanguage: Option<string>
    var localizations: Option<LocalizationMap>

    constructor (snippetDefaultLanguage: Option<string>, localizations: Option<LocalizationMap>)
      ensures this.snippetDefaultLanguage == snippetDefaultLanguage && this.localizations == localizations
    {
      this.snippetDefaultLanguage := snippetDefaultLanguage;
      this.localizations := localizations;
    }
  }

  /** The entry the sample stores for the localized language. */
  function Entry(title: string): (e: Localization)
    ensures e.title == Some(title) && e.description.None?
  {
    Localization(Some(title), None)
  }

  /**
   * `setChannelSectionLocalization`: nothing changes when the lookup returned no channel section;
   * otherwise the first one gets the default language and the upserted map.
   */
  method SetChannelSectionLocalization(items: seq<ChannelSection>, defaultLanguage: string, language: string, title: string) returns (found: bool)
    modifies if items == [] then {} else {items[0]}
    ensures found <==> items != []
    ensures found ==>
      && items[0].snippetDefaultLanguage == Some(defaultLanguage)
      && items[0].localizations == Some(Upsert(old(items[0].localizations), language, Entry(title)))
  {
    if |items| == 0 {
      return false;
    }
    var channelSection := items[0];
    channelSection.snippetDefaultLanguage := Some(defaultLanguage);
    var localizations := channelSection.localizations;
    if localizations.None? {
      localizations := Some(map[]);
      channelSection.localizations := localizations;
    }
    var localization := Localization(Some(title), None);
    localizations := Some(localizations.value[language := localization]);
    channelSection.localizations := localizations;
    return true;
  }

  /**
   * One run of the sample after authorisation, given the console lines in the
   * order the prompts read them and the resources the lookup returned.
   */
  method Run(actionLine: string, idLine: string, defaultLanguageLine: string, languageLine: string,
             titleLine: string, items: seq<ChannelSection>) returns (outcome: Outcome)
    modifies if items == [] then {} else {items[0]}
    ensures ParseAction(actionLine).None? ==> outcome == UnknownAction
    ensures ParseAction(actionLine) == Some(SET) && items == [] ==> outcome == NotFound(idLine)
    ensures ParseAction(actionLine) == Some(SET) && items != [] ==>
      var entry := Entry(Metadata("title", titleLine));
      && outcome == Localized(idLine, LocalizedLanguage(languageLine), entry)
      && items[0].snippetDefaultLanguage == Some(DefaultLanguage(defaultLanguageLine))
      && items[0].localizations == Some(Upsert(old(items[0].localizations), LocalizedLanguage(languageLine), entry))
    ensures ParseAction(actionLine).Some? && ParseAction(actionLine) != Some(SET) ==>
      outcome == Requested(ParseAction(actionLine).value, idLine)
    ensures !outcome.Localized? ==> items == [] || unchanged(items[0])
  {
    var action := ParseAction(actionLine);
    if action.None? {
      return UnknownAction;
    }
    match action.value
    case SET =>
      var defaultLanguage := DefaultLanguage(defaultLanguageLine);
      var language := LocalizedLanguage(languageLine);
      var title := Metadata("title", titleLine);
      var found := SetChannelSectionLocalization(items, defaultLanguage, language, title);
      if found {
        outcome := Localized(idLine, language, Entry(title));
      } else {
        outcome := NotFound(idLine);
      }
    case GET =>
      outcome := Requested(GET, idLine);
    case LIST =>
      outcome := Requested(LIST, idLine);
  }
}
