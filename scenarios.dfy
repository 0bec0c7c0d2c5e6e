/**
 * The strict parser's test cases, replayed on the commit step. The scanner that
 * finds each pair is not part of this model, so each scenario writes the pair it
 * would have found into the parse info and passes the offset the scanner would
 * report as a parameter.
 */
module Scenarios {
  import opened Wrappers
  import opened StrictParseInfo
  import opened StrictParser

  /** Makes `key=value`, found at offset `pos`, the pair in progress. */
  method ScanPair(info: StrictParseInfo, key: string, value: string, pos: nat)
    modifies info`currentKey, info`currentValue, info`currentPos
    ensures info.currentKey == key && info.currentValue == value && info.currentPos == pos
  {
    info.currentKey := key;
    info.currentValue := value;
    info.currentPos := pos;
  }

  /** `["name"]` rejects `age=23` with an invalid-key error for `age`. */
  method UnlistedKeyRejected(pos: nat) returns (outcome: Outcome<InvalidKeyError>)
    ensures outcome == Fail(InvalidKeyError("invalid key", "age", pos))
  {
    var parser := new StrictParser(Some(["name"]), None);
    var info := parser.NewParseInfo();
    ScanPair(info, "age", "23", pos);
    outcome := info.PushKeyValuePair();
  }

  /** `["name", "age"]` accepts `name=john age=23` and stores both pairs; a later
      parse of `color=blue` with the same parser starts from a fresh parse info
      and throws for `color`. */
  method ListedKeysStored(pos1: nat, pos2: nat, pos3: nat)
    returns (parsed: map<string, string>, later: Outcome<InvalidKeyError>)
    ensures parsed == map["name" := "john", "age" := "23"]
    ensures later == Fail(InvalidKeyError("invalid key", "color", pos3))
  {
    var parser := new StrictParser(Some(["name", "age"]), None);
    var info := parser.NewParseInfo();
    ScanPair(info, "name", "john", pos1);
    assert Matches("name", ["name", "age"][0], true);
    var first := info.PushKeyValuePair();
    ScanPair(info, "age", "23", pos2);
    assert Matches("age", ["name", "age"][1], true);
    var second := info.PushKeyValuePair();
    assert info.parsedKeys == map["name" := "john"]["age" := "23"];
    parsed := info.parsedKeys;
    var next := parser.NewParseInfo();
    ScanPair(next, "color", "blue", pos3);
    assert "color" !in ["name", "age"] by {
      assert "color"[0] != "name"[0] && "color"[0] != "age"[0];
    }
    ContainsCaseSensitive(["name", "age"], "color");
    later := next.PushKeyValuePair();
  }

  /** In `name=john color=blue age=23` against `["name", "age"]` the first pair is
      stored and the second throws for `color`; nothing after it is committed. */
  method FirstInvalidKeyAborts(pos1: nat, pos2: nat)
    returns (second: Outcome<InvalidKeyError>, parsed: map<string, string>)
    ensures second == Fail(InvalidKeyError("invalid key", "color", pos2))
    ensures parsed == map["name" := "john"]
  {
    var parser := new StrictParser(Some(["name", "age"]), None);
    var info := parser.NewParseInfo();
    ScanPair(info, "name", "john", pos1);
    assert Matches("name", ["name", "age"][0], true);
    var first := info.PushKeyValuePair();
    ScanPair(info, "color", "blue", pos2);
    assert "color" !in ["name", "age"] by {
      assert "color"[0] != "name"[0] && "color"[0] != "age"[0];
    }
    ContainsCaseSensitive(["name", "age"], "color");
    second := info.PushKeyValuePair();
    parsed := info.parsedKeys;
  }

  /** A parser built with an empty list, or with no list at all, rejects
      `name=john` with an invalid-key error for `name`. */
  method NoKeysRejectsName(noList: bool, pos: nat) returns (outcome: Outcome<InvalidKeyError>)
    ensures outcome == Fail(InvalidKeyError("invalid key", "name", pos))
  {
    var parser := new StrictParser(if noList then None else Some([]), None);
    var info := parser.NewParseInfo();
    ScanPair(info, "name", "john", pos);
    outcome := info.PushKeyValuePair();
  }

  /** Case-insensitively, `NAME=jayanth` against `["name"]` is stored under the
      input's spelling `NAME`. */
  method InputSpellingKept(pos: nat) returns (parsed: map<string, string>)
    ensures parsed == map["NAME" := "jayanth"]
  {
    var parser := new StrictParser(Some(["name"]), Some(false));
    var info := parser.NewParseInfo();
    ScanPair(info, "NAME", "jayanth", pos);
    assert Lower("NAME") == Lower("name");
    var outcome := info.PushKeyValuePair();
    parsed := info.parsedKeys;
  }

  /** Case-insensitively, `naMe_123=jayanth AGe_123=31` against
      `["NaMe_123", "age_123"]` stores both pairs under the input's spellings. */
  method MixedCaseKeysStored(pos1: nat, pos2: nat) returns (parsed: map<string, string>)
    ensures parsed == map["naMe_123" := "jayanth", "AGe_123" := "31"]
  {
    var parser := new StrictParser(Some(["NaMe_123", "age_123"]), Some(false));
    var info := parser.NewParseInfo();
    ScanPair(info, "naMe_123", "jayanth", pos1);
    assert Lower("naMe_123") == Lower("NaMe_123");
    assert Matches("naMe_123", ["NaMe_123", "age_123"][0], false);
    var first := info.PushKeyValuePair();
    ScanPair(info, "AGe_123", "31", pos2);
    assert Lower("AGe_123") == Lower("age_123");
    assert Matches("AGe_123", ["NaMe_123", "age_123"][1], false);
    var second := info.PushKeyValuePair();
    parsed := info.parsedKeys;
  }

  /** Case-sensitively, `NAME=jayanth` against `["name"]` throws. */
  method CaseSensitiveRejectsUpper(pos: nat) returns (outcome: Outcome<InvalidKeyError>)
    ensures outcome == Fail(InvalidKeyError("invalid key", "NAME", pos))
  {
    var parser := new StrictParser(Some(["name"]), Some(true));
    var info := parser.NewParseInfo();
    ScanPair(info, "NAME", "jayanth", pos);
    UpperKeyRejectedCaseSensitive();
    outcome := info.PushKeyValuePair();
  }
}
