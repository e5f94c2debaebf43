/**
 * The session-duration cache (assumerole/main.py, get_max_duration, load_cache,
 * write_cache, cache_max_duration): a JSON document whose table "MaxSessionDuration"
 * maps a role ARN to the longest session duration, in seconds, that succeeded for it.
 * The file is modelled by its parsed content; reading, writing and JSON text are not.
 */
module DurationCache {
  import opened Wrappers

  /** Top-level key of the table of best known maximum durations. */
  const MaxKey: string := "MaxSessionDuration"

  /** A top-level value of the document: the duration table, or any other JSON value, kept as its text. */
  datatype Json = Durations(table: map<string, int>) | Other(text: string)

  /** The parsed cache document; under MaxKey it holds a table of integers, as the tool writes it. */
  type Document = doc: map<string, Json> | MaxKey in doc ==> doc[MaxKey].Durations?

  /** The duration table of a document, empty when it has none. */
  function TableOf(doc: Document): map<string, int>
  {
    if MaxKey in doc then doc[MaxKey].table else map[]
  }

  /**
   * The cache as the program sees it. `None` stands for a file that does not exist
   * or whose text is not valid JSON; both read as the empty cache.
   */
  function LoadCache(file: Option<Document>): Document
  {
    match file
    case None => map[]
    case Some(parsed) => parsed
  }

  /** Best known maximum duration of a role: its table entry, or 0 ("no hint"). */
  function GetMaxDuration(doc: Document, roleArn: string): (hint: int)
    ensures roleArn in TableOf(doc) ==> hint == TableOf(doc)[roleArn]
    ensures roleArn !in TableOf(doc) ==> hint == 0
  {
    if |doc| == 0 then 0
    else if MaxKey !in doc then 0
    else if roleArn !in doc[MaxKey].table then 0
    else doc[MaxKey].table[roleArn]
  }

  /** The document with the role's table entry set to the duration (the table created if missing). */
  function Raised(doc: Document, roleArn: string, duration: int): Document
  {
    doc[MaxKey := Durations(TableOf(doc)[roleArn := duration])]
  }

  /** The file after recording a granted duration: rewritten only when the duration beats the stored one. */
  function Recorded(file: Option<Document>, roleArn: string, duration: int): Option<Document>
  {
    var doc := LoadCache(file);
    if duration > GetMaxDuration(doc, roleArn) then Some(Raised(doc, roleArn, duration)) else file
  }

  /** The cache file on disk, by its parsed content. */
  class CacheFile {
    /** The file's parsed content; `None` when it is absent or not valid JSON. */
    var contents: Option<Document>

    constructor (initial: Option<Document>)
      ensures contents == initial
    {
      contents := initial;
    }

    /** Replace the whole file with the document; loading it back gives the document. */
    method WriteCache(data: Document)
      modifies this
      ensures contents == Some(data)
      ensures LoadCache(contents) == data
    {
      contents := Some(data);
    }

    /**
     * Load the cache, make sure it has a duration table, and raise the role's entry
     * to the new duration and rewrite the file only if the duration is larger than
     * the stored one (a missing entry counts as 0).
     */
    method CacheMaxDuration(roleArn: string, sessionDuration: int)
      modifies this
      ensures contents == Recorded(old(contents), roleArn, sessionDuration)
    {
      var cache := LoadCache(contents);
      if MaxKey !in cache {
        cache := cache[MaxKey := Durations(map[])];
      }
      var maxDurations := cache[MaxKey].table;
      var stored := if roleArn in maxDurations then maxDurations[roleArn] else 0;
      assert maxDurations == TableOf(LoadCache(contents));
      assert stored == GetMaxDuration(LoadCache(contents), roleArn);
      if sessionDuration > stored {
        maxDurations := maxDurations[roleArn := sessionDuration];
        cache := cache[MaxKey := Durations(maxDurations)];
        assert cache == Raised(LoadCache(contents), roleArn, sessionDuration);
        WriteCache(cache);
      }
    }
  }

  /** An absent or corrupt file gives no hint for any role. */
  lemma AbsentOrCorruptHasNoHint(roleArn: string)
    ensures GetMaxDuration(LoadCache(None), roleArn) == 0
  {
  }

  /** Over an absent or corrupt file, the first positive grant writes a table holding that one entry. */
  lemma RecordedOverAbsent(roleArn: string, duration: int)
    ensures Recorded(None, roleArn, duration)
         == if duration > 0 then Some(map[MaxKey := Durations(map[roleArn := duration])]) else None
  {
    assert TableOf(map[]) == map[];
  }

  /** After recording, the role's hint is the larger of its old hint and the duration: it never decreases. */
  lemma RecordedIsHighWaterMark(file: Option<Document>, roleArn: string, duration: int)
    ensures var before := GetMaxDuration(LoadCache(file), roleArn);
      var after := GetMaxDuration(LoadCache(Recorded(file, roleArn, duration)), roleArn);
      after == (if duration > before then duration else before) && after >= before && after >= duration
  {
  }

  /** Recording touches neither the other top-level keys nor the other roles' entries. */
  lemma RecordedFrame(file: Option<Document>, roleArn: string, duration: int)
    ensures var before := LoadCache(file);
      var after := LoadCache(Recorded(file, roleArn, duration));
      after - {MaxKey} == before - {MaxKey} && TableOf(after) - {roleArn} == TableOf(before) - {roleArn}
  {
  }

  /** So no other role's hint moves. */
  lemma RecordedKeepsOtherHints(file: Option<Document>, roleArn: string, duration: int, other: string)
    requires other != roleArn
    ensures GetMaxDuration(LoadCache(Recorded(file, roleArn, duration)), other)
         == GetMaxDuration(LoadCache(file), other)
  {
  }

  /** The file is rewritten exactly when the duration exceeds the role's stored hint. */
  lemma RecordedWritesOnlyWhenLarger(file: Option<Document>, roleArn: string, duration: int)
    ensures Recorded(file, roleArn, duration) != file
        <==> duration > GetMaxDuration(LoadCache(file), roleArn)
  {
  }
}
