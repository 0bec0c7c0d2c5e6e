/**
 * The commit logic of the strict key/value parser: the allow-list test `contains`
 * and the parse-info object whose `pushKeyValuePair` stores one finished pair.
 */
module StrictParseInfo {
  import opened Wrappers

  // ---------------------------------------------------------------------------
  // Allow-list membership
  // ---------------------------------------------------------------------------

  /** `toLowerCase` of one character, over ASCII. */
  function LowerChar(c: char): (r: char)
  {
    if 'A' <= c <= 'Z' then (c as int + 32) as char else c
  }

  /** `toLowerCase` of a string, over ASCII. */
  function Lower(s: string): (r: string)
  {
    seq(|s|, i requires 0 <= i < |s| => LowerChar(s[i]))
  }

  /** The predicate handed to `find`: exact equality when `flag` is truthy,
      equality of the lowercased spellings otherwise. */
  predicate Matches(key: string, validKey: string, flag: bool)
  {
    if flag then key == validKey else Lower(key) == Lower(validKey)
  }

  /** `list.find(...)`: the first entry that matches `key`, or `undefined`. */
  function Find(list: seq<string>, key: string, flag: bool): (r: Option<string>)
    ensures r.None? <==> forall i | 0 <= i < |list| :: !Matches(key, list[i], flag)
    ensures r.Some? ==>
      exists i | 0 <= i < |list| ::
        && list[i] == r.value
        && Matches(key, list[i], flag)
        && forall j | 0 <= j < i :: !Matches(key, list[j], flag)
  {
    if |list| == 0 then None
    else if Matches(key, list[0], flag) then Some(list[0])
    else
      var r := Find(list[1..], key, flag);
      assert forall i | 1 <= i < |list| :: list[i] == list[1..][i - 1];
      r
  }

  /** JavaScript truthiness of the value `find` returns: `undefined` and the
      empty string are falsy, every other string is truthy. */
  predicate Truthy(r: Option<string>)
  {
    r.Some? && r.value != ""
  }

  /** `contains(list, key, flag)` as the strict parser reads it: the truthiness of
      the `find` result. A key is accepted exactly when it is non-empty and some
      entry matches it; an entry `""` can only match the empty key, and then the
      returned `""` is falsy, so the empty key is never accepted. */
  function Contains(list: seq<string>, key: string, flag: bool): (b: bool)
    ensures b <==> key != "" && exists i | 0 <= i < |list| :: Matches(key, list[i], flag)
  {
    Truthy(Find(list, key, flag))
  }

  /** With `flag` truthy, a key is accepted iff it is non-empty and literally on the list. */
  lemma ContainsCaseSensitive(list: seq<string>, key: string)
    ensures Contains(list, key, true) <==> key != "" && key in list
  {
  }

  /** With `flag` falsy, a key is accepted iff it is non-empty and equal to some
      entry once both are lowercased. */
  lemma ContainsCaseInsensitive(list: seq<string>, key: string)
    ensures Contains(list, key, false) <==> key != "" && exists v | v in list :: Lower(v) == Lower(key)
  {
  }

  /** An empty allow-list accepts no key at all. */
  lemma EmptyListRejects(key: string, flag: bool)
    ensures !Contains([], key, flag)
  {
  }

  /** An entry `""` never lets anything in: the empty key is rejected whatever the list. */
  lemma EmptyKeyRejected(list: seq<string>, flag: bool)
    ensures !Contains(list, "", flag)
  {
  }

  /** The spellings on an allow-list, forgetting order and repetition. */
  function Spellings(list: seq<string>): (r: set<string>)
  {
    set v | v in list
  }

  /** Acceptance depends only on which spellings are on the list, not on their
      order or repetition, although `find` may return a different entry. */
  lemma ContainsIgnoresOrder(list1: seq<string>, list2: seq<string>, key: string, flag: bool)
    requires Spellings(list1) == Spellings(list2)
    ensures Contains(list1, key, flag) == Contains(list2, key, flag)
  {
    if Contains(list1, key, flag) {
      var i :| 0 <= i < |list1| && Matches(key, list1[i], flag);
      assert list1[i] in Spellings(list2);
      var j :| 0 <= j < |list2| && list2[j] == list1[i];
      assert Matches(key, list2[j], flag);
    }
    if Contains(list2, key, flag) {
      var j :| 0 <= j < |list2| && Matches(key, list2[j], flag);
      assert list2[j] in Spellings(list1);
      var i :| 0 <= i < |list1| && list1[i] == list2[j];
      assert Matches(key, list1[i], flag);
    }
  }

  /** Case-insensitive matching accepts every key that case-sensitive matching accepts. */
  lemma SensitiveImpliesInsensitive(list: seq<string>, key: string)
    ensures Contains(list, key, true) ==> Contains(list, key, false)
  {
  }

  /** Declared against `["name"]`, the key `NAME` is rejected case-sensitively. */
  lemma UpperKeyRejectedCaseSensitive()
    ensures !Contains(["name"], "NAME", true)
  {
  }

  /** `nAmE` is accepted against `["NAME", "name"]` case-insensitively, and `find`
      returns the first entry, `NAME`. */
  lemma MixedKeyAcceptedCaseInsensitive()
    ensures Find(["NAME", "name"], "nAmE", false) == Some("NAME")
    ensures Contains(["NAME", "name"], "nAmE", false)
  {
  }

  // ---------------------------------------------------------------------------
  // The parse-info object
  // ---------------------------------------------------------------------------

  /** The error `pushKeyValuePair` throws for a key that is not on the allow-list. */
  datatype InvalidKeyError = InvalidKeyError(message: string, invalidKey: string, position: nat)

  /** Property assignment `parsed[key] = value` on the result object: the key
      holds the value afterwards and every other key is as before. */
  function Store(parsed: map<string, string>, key: string, value: string): (r: map<string, string>)
    ensures key in r && r[key] == value
    ensures r.Keys == parsed.Keys + {key}
    ensures forall k | k in parsed && k != key :: r[k] == parsed[k]
  {
    parsed[key := value]
  }

  /** The state the strict scanner carries and commits into. */
  class StrictParseInfo {
    /** The key, value and offset of the pair being scanned (written by the scanner). */
    var currentKey: string
    var currentValue: string
    var currentPos: nat
    /** The pairs committed so far. */
    var parsedKeys: map<string, string>
    /** The allow-list and its case-sensitivity flag, as handed over at
        construction (the source keeps a reference to the caller's array). */
    var validKeys: seq<string>
    var flag: bool

    /** Every committed key is on the allow-list. */
    predicate KeysAllowed()
      reads this
    {
      forall k | k in parsedKeys :: Contains(validKeys, k, flag)
    }

    /** Sets `flag` and `validKeys`; the inherited scan state starts empty. */
    constructor (validKeys: seq<string>, flag: bool)
      ensures this.validKeys == validKeys && this.flag == flag
      ensures parsedKeys == map[] && currentKey == "" && currentValue == "" && currentPos == 0
      ensures KeysAllowed()
    {
      this.validKeys := validKeys;
      this.flag := flag;
      parsedKeys := map[];
      currentKey := "";
      currentValue := "";
      currentPos := 0;
    }

    /** Clears the key and value accumulators; the offset is left alone. */
    method ResetKeysAndValues()
      modifies this`currentKey, this`currentValue
      ensures currentKey == "" && currentValue == ""
    {
      currentKey := "";
      currentValue := "";
    }

    /** Commits the current pair. A key not on the allow-list throws an
        `InvalidKeyError` carrying the key and the current offset, and nothing
        changes; otherwise the value is stored under the key as spelled in the
        input, every other entry is kept, and the accumulators are cleared. */
    method PushKeyValuePair() returns (outcome: Outcome<InvalidKeyError>)
      modifies this`parsedKeys, this`currentKey, this`currentValue
      ensures outcome.Fail? <==> !Contains(validKeys, old(currentKey), flag)
      ensures outcome.Fail? ==>
        && outcome.error == InvalidKeyError("invalid key", old(currentKey), currentPos)
        && unchanged(this)
      ensures outcome.Pass? ==>
        && parsedKeys == Store(old(parsedKeys), old(currentKey), old(currentValue))
        && currentKey == "" && currentValue == ""
      ensures old(KeysAllowed()) ==> KeysAllowed()
    {
      if !Contains(validKeys, currentKey, flag) {
        return Fail(InvalidKeyError("invalid key", currentKey, currentPos));
      }
      parsedKeys := Store(parsedKeys, currentKey, currentValue);
      ResetKeysAndValues();
      outcome := Pass;
    }
  }
}
