/**
 * The SET action of the channel localization sample: the channel is looked
 * up, the default language of its branding settings (not of its snippet) is
 * set, and its localization map gets the entry for one language (the
 * description only). The channel resource is an object updated in place;
 * the lookup response is the sequence of resources it returned.
 */
module ChannelLocalizations {
  import opened Wrappers
  import opened Localizations

  /** The parts of a channel resource the sample reads and changes. */
  class Channel {
    var snippetDefaultLanguage: Option<string>
    var brandingDefaultLanguage: Option<string>
    var localizations: Option<LocalizationMap>

    constructor (snippetDefaultLanguage: Option<string>, brandingDefaultLanguage: Option<string>, localizations: Option<LocalizationMap>)
      ensures this.snippetDefaultLanguage == snippetDefaultLanguage && this.brandingDefaultLanguage == brandingDefaultLanguage && this.localizations == localizations
    {
      this.snippetDefaultLanguage := snippetDefaultLanguage;
      this.brandingDefaultLanguage := brandingDefaultLanguage;
      this.localizations := localizations;
    }
  }

  /** The entry the sample stores for the localized language. */
  function Entry(description: string): (e: Localization)
    ensures e.title.None? && e.description == Some(description)
  {
    Localization(None, Some(description))
  }

  /**
   * `setChannelLocalization`: nothing changes when the lookup returned no channel;
   * otherwise the first one gets the default language and the upserted map.
   */
  method SetChannelLocalization(items: seq<Channel>, defaultLanguage: string, language: string, description: string) returns (found: bool)
    modifies if items == [] then {} else {items[0]}
    ensures found <==> items != []
    ensures found ==>
      && items[0].brandingDefaultLanguage == Some(defaultLanguage)
      && items[0].snippetDefaultLanguage == old(items[0].snippetDefaultLanguage)
      && items[0].localizations == Some(Upsert(old(items[0].localizations), language, Entry(description)))
  {
    if |items| == 0 {
      return false;
    }
    var channel := items[0];
    channel.brandingDefaultLanguage := Some(defaultLanguage);
    var localizations := channel.localizations;
    if localizations.None? {
      localizations := Some(map[]);
      channel.localizations := localizations;
    }
    var localization := Localization(None, Some(description));
    localizations := Some(localizations.value[language := localization]);
    channel.localizations := localizations;
    return true;
  }

  /**
   * One run of the sample after authorisation, given the console lines in the
   * order the prompts read them and the resources the lookup returned.
   */
  method Run(actionLine: string, idLine: string, defaultLanguageLine: string, languageLine: string,
             descriptionLine: string, items: seq<Channel>) returns (outcome: Outcome)
    modifies if items == [] then {} else {items[0]}
    ensures ParseAction(actionLine).None? ==> outcome == UnknownAction
    ensures ParseAction(actionLine) == Some(SET) && items == [] ==> outcome == NotFound(idLine)
    ensures ParseAction(actionLine) == Some(SET) && items != [] ==>
      var entry := Entry(Metadata("description", descriptionLine));
      && outcome == Localized(idLine, LocalizedLanguage(languageLine), entry)
      && items[0].brandingDefaultLanguage == Some(DefaultLanguage(defaultLanguageLine))
      && items[0].snippetDefaultLanguage == old(items[0].snippetDefaultLanguage)
      && items[0].localizations == Some(Upsert(old(items[0].localizations), LocalizedLanguage(languageLine), entry))
    ensures ParseAction(actionLine).Some? && ParseAction(actionLine) != Some(SET) ==>
      outcome == Requested(ParseAction(actionLine).value, idLine)
    ensures !outcome.Localized? ==> items == [] || unchanged(items[0])
  {
    var action := ParseAction(actionLine);
    if action.None? {
      return UnknownAction;
    }
    match action.value
    case SET =>
      var defaultLanguage := DefaultLanguage(defaultLanguageLine);
      var language := LocalizedLanguage(languageLine);
      var description := Metadata("description", descriptionLine);
      var found := SetChannelLocalization(items, defaultLanguage, language, description);
      if found {
        outcome := Localized(idLine, language, Entry(description));
      } else {
        outcome := NotFound(idLine);
      }
    case GET =>
      outcome := Requested(GET, idLine);
    case LIST =>
      outcome := Requested(LIST, idLine);
  }
}
