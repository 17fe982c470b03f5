/**
 * The SET action of the playlist localization sample: the playlist is looked
 * up, its snippet default language is set, and its localization map gets the entry
 * for one language (title and description). The playlist resource is an object
 * updated in place; the lookup response is the sequence of resources it
 * returned.
 */
module PlaylistLocalizations {
  import opened Wrappers
  import opened Localizations

  /** The parts of a playlist resource the sample reads and changes. */
  class Playlist {
    var snippetDefaultLanguage: Option<string>
    var localizations: Option<LocalizationMap>

    constructor (snippetDefaultLanguage: Option<string>, localizations: Option<LocalizationMap>)
      ensures this.snippetDefaultLanguage == snippetDefaultLanguage && this.localizations == localizations
    {
      this.snippetDefaultLanguage := snippetDefaultLanguage;
      this.localizations := localizations;
    }
  }

  /**
   * `setPlaylistLocalization`: nothing changes when the lookup returned no playlist;
   * otherwise the first one gets the default language and the upserted map.
   */
  method SetPlaylistLocalization(items: seq<Playlist>, defaultLanguage: string, language: string, title: string, description: string) returns (found: bool)
    modifies if items == [] then {} else {items[0]}
    ensures found <==> items != []
    ensures found ==>
      && items[0].snippetDefaultLanguage == Some(defaultLanguage)
      && items[0].localizations == Some(Upsert(old(items[0].localizations), language, TitledEntry(title, description)))
  {
    if |items| == 0 {
      return false;
    }
    var playlist := items[0];
    playlist.snippetDefaultLanguage := Some(defaultLanguage);
    var localizations := playlist.localizations;
    if localizations.None? {
      localizations := Some(map[]);
      playlist.localizations := localizations;
    }
    var localization := Localization(Some(title), Some(description));
    localizations := Some(localizations.value[language := localization]);
    playlist.localizations := localizations;
    return true;
  }

  /**
   * One run of the sample after authorisation, given the console lines in the
   * order the prompts read them and the resources the lookup returned.
   */
  method Run(actionLine: string, idLine: string, defaultLanguageLine: string, languageLine: string,
             titleLine: string, descriptionLine: string, items: seq<Playlist>) returns (outcome: Outcome)
    modifies if items == [] then {} else {items[0]}
    ensures ParseAction(actionLine).None? ==> outcome == UnknownAction
    ensures ParseAction(actionLine) == Some(SET) && items == [] ==> outcome == NotFound(idLine)
    ensures ParseAction(actionLine) == Some(SET) && items != [] ==>
      var entry := TitledEntry(Metadata("title", titleLine), Metadata("description", descriptionLine));
      && outcome == Localized(idLine, LocalizedLanguage(languageLine), entry)
      && items[0].snippetDefaultLanguage == Some(DefaultLanguage(defaultLanguageLine))
      && items[0].localizations == Some(Upsert(old(items[0].localizations), LocalizedLanguage(languageLine), entry))
    ensures ParseAction(actionLine).Some? && ParseAction(actionLine) != Some(SET) ==>
      outcome == Requested(ParseAction(actionLine).value, idLine)
    ensures !outcome.Localized? ==> items == [] || unchanged(items[0])
  {
    var action := ParseAction(actionLine);
    if action.None? {
      return UnknownAction;
    }
    match action.value
    case SET =>
      var defaultLanguage := DefaultLanguage(defaultLanguageLine);
      var language := LocalizedLanguage(languageLine);
      var title := Metadata("title", titleLine);
      var description := Metadata("description", descriptionLine);
      var found := SetPlaylistLocalization(items, defaultLanguage, language, title, description);
      if found {
        outcome := Localized(idLine, language, TitledEntry(title, description));
      } else {
        outcome := NotFound(idLine);
      }
    case GET =>
      outcome := Requested(GET, idLine);
    case LIST =>
      outcome := Requested(LIST, idLine);
  }
}
