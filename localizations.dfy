/**
 * What the four localization samples (videos, playlists, channels, channel
 * sections) share: the localization map and its upsert, the console prompts
 * that replace an empty line by a fixed default, and the parsing of the
 * action name.
 */
module Localizations {
  import opened Wrappers
  import opened Prompts

  /** One localized entry; each sample fills in the fields its resource has. */
  datatype Localization = Localization(title: Option<string>, description: Option<string>)

  type LocalizationMap = map<string, Localization>

  /** The entry of a resource localized by its title and its description, as videos and playlists are. */
  function TitledEntry(title: string, description: string): (e: Localization)
    ensures e.title == Some(title) && e.description == Some(description)
  {
    Localization(Some(title), Some(description))
  }

  /**
   * The map after `put(language, entry)`: a null map is first replaced by a
   * fresh empty one; an entry already there for `language` is overwritten and
   * every other key keeps its entry.
   */
  function Upsert(m: Option<LocalizationMap>, language: string, entry: Localization): (r: LocalizationMap)
    ensures language in r && r[language] == entry
    ensures m.None? ==> r.Keys == {language}
    ensures m.Some? ==> r.Keys == m.value.Keys + {language}
    ensures m.Some? ==> forall k :: k in m.value && k != language ==> r[k] == m.value[k]
  {
    var base := if m.None? then map[] else m.value;
    base[language := entry]
  }

  /** Putting the same entry twice changes nothing the second time. */
  lemma UpsertIdempotent(m: Option<LocalizationMap>, language: string, entry: Localization)
    ensures Upsert(Some(Upsert(m, language, entry)), language, entry) == Upsert(m, language, entry)
  {
  }

  /** A second put for the same language wins over the first. */
  lemma UpsertOverwrites(m: Option<LocalizationMap>, language: string, first: Localization, second: Localization)
    ensures Upsert(Some(Upsert(m, language, first)), language, second) == Upsert(m, language, second)
  {
  }

  /** Puts for different languages commute. */
  lemma UpsertCommutes(m: Option<LocalizationMap>, a: string, x: Localization, b: string, y: Localization)
    requires a != b
    ensures Upsert(Some(Upsert(m, a, x)), b, y) == Upsert(Some(Upsert(m, b, y)), a, x)
  {
  }

  // ---------------------------------------------------------------------------
  // Console prompts

  const LocalizedSuffix := "(localized)"
  const DefaultMetadataLanguage := "en"
  const DefaultLocalizedLanguage := "de"

  /** The localized `kind` ("title" or "description"); an empty line means `kind + "(localized)"`. */
  function Metadata(kind: string, line: string): (r: string)
    ensures |line| < 1 ==> r == kind + LocalizedSuffix
    ensures |line| >= 1 ==> r == line
  {
    OrDefault(line, kind + LocalizedSuffix)
  }

  /** The language of the resource's default metadata; an empty line means "en". */
  function DefaultLanguage(line: string): (r: string)
    ensures |line| < 1 ==> r == DefaultMetadataLanguage
    ensures |line| >= 1 ==> r == line
  {
    OrDefault(line, DefaultMetadataLanguage)
  }

  /** The language of the localized metadata; an empty line means "de". */
  function LocalizedLanguage(line: string): (r: string)
    ensures |line| < 1 ==> r == DefaultLocalizedLanguage
    ensures |line| >= 1 ==> r == line
  {
    OrDefault(line, DefaultLocalizedLanguage)
  }

  // ---------------------------------------------------------------------------
  // The action

  datatype Action = SET | GET | LIST

  /** The constant name of an action. */
  function Name(a: Action): string
  {
    match a
    case SET => "SET"
    case GET => "GET"
    case LIST => "LIST"
  }

  /** Upper case of one ASCII letter; other characters are kept. */
  function UpperChar(c: char): char
  {
    if 'a' <= c <= 'z' then (c as int - 32) as char else c
  }

  function ToUpperAscii(s: string): (u: string)
    ensures |u| == |s|
    ensures forall i :: 0 <= i < |s| ==> u[i] == UpperChar(s[i])
  {
    seq(|s|, i requires 0 <= i < |s| => UpperChar(s[i]))
  }

  /** Upper-casing twice is upper-casing once. */
  lemma ToUpperIdempotent(s: string)
    ensures ToUpperAscii(ToUpperAscii(s)) == ToUpperAscii(s)
  {
    var u := ToUpperAscii(s);
    assert forall i :: 0 <= i < |u| ==> UpperChar(u[i]) == u[i];
  }

  /**
   * `Action.valueOf(line.toUpperCase())`: `None` stands for the
   * IllegalArgumentException thrown for a string that names no constant.
   */
  function ParseAction(line: string): (r: Option<Action>)
    ensures r.Some? ==> ToUpperAscii(line) == Name(r.value)
    ensures r.None? ==> forall a: Action :: ToUpperAscii(line) != Name(a)
  {
    var u := ToUpperAscii(line);
    if u == "SET" then Some(SET)
    else if u == "GET" then Some(GET)
    else if u == "LIST" then Some(LIST)
    else None
  }

  /** The names parse to their actions, whatever the case of their letters. */
  lemma ParseActionAnyCase(a: Action, line: string)
    requires ToUpperAscii(line) == Name(a)
    ensures ParseAction(line) == Some(a)
  {
  }

  /** The spellings the prompt offers, 'set', 'get' and 'list', are accepted. */
  lemma OfferedSpellingsParse()
    ensures ParseAction("set") == Some(SET)
    ensures ParseAction("get") == Some(GET)
    ensures ParseAction("list") == Some(LIST)
  {
    assert ToUpperAscii("set") == "SET";
    assert ToUpperAscii("get") == "GET";
    assert ToUpperAscii("list") == "LIST";
  }

  /** An empty line or a misspelt name is refused. */
  lemma UnknownActionsRefused()
    ensures ParseAction("") == None
    ensures ParseAction("sets") == None
  {
    assert |ToUpperAscii("sets")| == 4;
    assert ToUpperAscii("sets")[3] == 'S';
  }

  /** What one run of a localization sample ends with. */
  datatype Outcome =
    | UnknownAction                       // the action name matched no constant
    | NotFound(id: string)                // the lookup returned no resource
    | Localized(id: string, language: string, entry: Localization)
    | Requested(action: Action, id: string)   // GET or LIST, which only print
}
