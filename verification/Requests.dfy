/** The requests an outbox row can carry, and the text tests the outbox applies to endpoints. */
module Requests {
  import opened Wrappers

  /** A correction sent to /api/memory/inspect/<source>/corrections. */
  datatype CorrectionRequest = CorrectionRequest(
    action: string,
    reason: string,
    replacementSourceId: Option<string>,
    duplicateOfSourceId: Option<string>,
    revisedContent: Option<string>,
    expectedRevision: Option<nat>,
    metadata: map<string, string>)

  /**
   A request body. Its SHA-256 is an injective function of it, so where the tables compare
   request hashes the model compares requests. `rest` is the JSON of the members not singled out.
   */
  datatype Request =
    | RawMemory(title: string, content: string, sourceId: string, rest: string)
    | Exposure(exposedIds: seq<string>, rest: string)
    | Correction(correction: CorrectionRequest)
    | OtherJson(rest: string)

  predicate StartsWith(s: string, prefix: string) {
    prefix <= s
  }

  predicate EndsWith(s: string, suffix: string) {
    |suffix| <= |s| && s[|s| - |suffix|..] == suffix
  }

  predicate Contains(s: string, part: string) {
    StartsWith(s, part) || (s != "" && Contains(s[1..], part))
  }

  /** str.upper on ASCII letters. */
  function Upper(s: string): string {
    if s == "" then "" else
      [if 'a' <= s[0] <= 'z' then ((s[0] as int) - 32) as char else s[0]] + Upper(s[1..])
  }

  lemma PostIsUpper()
    ensures Upper("POST") == "POST"
  {
    assert "POST"[1..] == "OST" && "OST"[1..] == "ST" && "ST"[1..] == "T" && "T"[1..] == "";
    assert Upper("OST") == "OST" by {
      assert Upper("ST") == "ST" by {
        assert Upper("T") == "T";
      }
    }
  }
}
