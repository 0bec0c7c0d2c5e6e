/**
 * Construction of a strict parser: the defaults for the key list and the
 * case-sensitivity flag, and the parse-info creator they are handed to.
 */
module StrictParser {
  import opened Wrappers
  import opened StrictParseInfo

  /** `listOfKeys || []`. `None` stands for an absent or falsy argument
      (`undefined`, `null`, `false`, `0`, `""`). */
  function SanitisedKeys(listOfKeys: Option<seq<string>>): (r: seq<string>)
  {
    if listOfKeys.Some? then listOfKeys.value else []
  }

  /** A key list that is given is handed on exactly as it is. */
  lemma GivenListKept(list: seq<string>)
    ensures SanitisedKeys(Some(list)) == list
  {
  }

  /** Without a key list, the list used is empty, so no key is accepted,
      whatever the flag. */
  lemma AbsentListRejectsAll(key: string, flag: bool)
    ensures SanitisedKeys(None) == []
    ensures !Contains(SanitisedKeys(None), key, flag)
  {
  }

  /** The default parameter `caseSensitivityFlag = true`. `None` stands for an
      omitted argument. */
  function CaseSensitivity(caseSensitivityFlag: Option<bool>): (r: bool)
  {
    if caseSensitivityFlag.Some? then caseSensitivityFlag.value else true
  }

  /** A flag that is given is handed on exactly as it is. */
  lemma GivenFlagKept(flag: bool)
    ensures CaseSensitivity(Some(flag)) == flag
  {
  }

  /** With the flag omitted, only exact spellings on the list are accepted. */
  lemma OmittedFlagIsCaseSensitive(list: seq<string>, key: string)
    ensures Contains(list, key, CaseSensitivity(None)) <==> key != "" && key in list
  {
  }

  /** What the strict parse-info creator captures: the key list and the flag
      every parse info it makes will carry. */
  datatype ParseInfoCreator = StrictParseInfoCreator(validKeys: seq<string>, flag: bool)

  class StrictParser {
    var parseInfoCreator: ParseInfoCreator

    /** Builds the parser's parse-info creator from the sanitised key list and
        the (defaulted) flag. */
    constructor (listOfKeys: Option<seq<string>>, caseSensitivityFlag: Option<bool>)
      ensures parseInfoCreator.validKeys == SanitisedKeys(listOfKeys)
      ensures listOfKeys.None? ==> parseInfoCreator.validKeys == []
      ensures parseInfoCreator.flag == CaseSensitivity(caseSensitivityFlag)
    {
      parseInfoCreator := StrictParseInfoCreator(SanitisedKeys(listOfKeys), CaseSensitivity(caseSensitivityFlag));
    }

    /** A fresh parse info for one parse, carrying the creator's list and flag. */
    method NewParseInfo() returns (info: StrictParseInfo)
      ensures fresh(info)
      ensures info.validKeys == parseInfoCreator.validKeys && info.flag == parseInfoCreator.flag
      ensures info.parsedKeys == map[] && info.currentKey == "" && info.currentValue == ""
      ensures info.KeysAllowed()
    {
      info := new StrictParseInfo(parseInfoCreator.validKeys, parseInfoCreator.flag);
    }
  }
}
