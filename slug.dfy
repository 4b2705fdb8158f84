/** The share link's path segment `:slugId` and the Firestore document id it
    carries: `slugId.split("-")`, then the last piece (server.js lines 33-34). */
module Slug {
  import opened Strings

  const DELIMITER := '-'

  /** The document id: the piece after the last `-`, or the whole slug when it
      has no `-`. It is never undefined, because a split has at least one
      piece; it may be empty. */
  function ExtractKey(slugId: string): (key: string)
    ensures DELIMITER !in key
    ensures |key| <= |slugId| && slugId[|slugId| - |key|..] == key
    ensures DELIMITER !in slugId ==> key == slugId
    ensures DELIMITER in slugId ==> |key| < |slugId| && slugId[|slugId| - |key| - 1] == DELIMITER
  {
    var parts := Split(slugId, DELIMITER);
    SplitLast(slugId, DELIMITER);
    SplitPiecesLackSeparator(slugId, DELIMITER);
    parts[|parts| - 1]
  }

  /** `key` is a dash-free suffix of `slugId` that is the whole slug or follows a dash. */
  predicate IsTrailingComponent(slugId: string, key: string)
  {
    && DELIMITER !in key
    && |key| <= |slugId| && slugId[|slugId| - |key|..] == key
    && (key == slugId || (|key| < |slugId| && slugId[|slugId| - |key| - 1] == DELIMITER))
  }

  /** The extracted key is the one and only trailing component of the slug. */
  lemma TrailingComponentIsKey(slugId: string, key: string)
    ensures IsTrailingComponent(slugId, key) <==> key == ExtractKey(slugId)
  {
  }

  /** Extracting again changes nothing: a key contains no dash. */
  lemma ExtractKeyIdempotent(slugId: string)
    ensures ExtractKey(ExtractKey(slugId)) == ExtractKey(slugId)
  {
  }

  /** The key is empty exactly when the slug is empty or ends with a dash; nothing
      rejects such a key before it is used for the lookup. */
  lemma EmptyKey(slugId: string)
    ensures ExtractKey(slugId) == "" <==> slugId == "" || slugId[|slugId| - 1] == DELIMITER
  {
  }

  /** Whatever precedes the last dash, the key is what follows it. */
  lemma KeyAfterLastDash(title: string, key: string)
    requires DELIMITER !in key
    ensures ExtractKey(title + [DELIMITER] + key) == key
  {
    TrailingComponentIsKey(title + [DELIMITER] + key, key);
  }

  lemma ExampleWithTitle()
    ensures ExtractKey("my-beat-title-abc123") == "abc123"
  {
    KeyAfterLastDash("my-beat-title", "abc123");
    assert "my-beat-title" + [DELIMITER] + "abc123" == "my-beat-title-abc123";
  }

  lemma ExampleBareKey()
    ensures ExtractKey("abc123") == "abc123"
  {
  }

  lemma ExampleTrailingDash()
    ensures ExtractKey("abc-") == ""
  {
    EmptyKey("abc-");
  }
}
