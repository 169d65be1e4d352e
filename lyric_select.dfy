/**
 * `get_lyric` of lrxy/modules.py: picks the synced or the plain lyric text out of a
 * provider's record, as the option asks.
 */
module LyricSelect {
  import opened Wrappers

  /** A provider record: a key may be missing, or present and `null` (`None`). */
  type Record = map<string, Option<string>>

  /** `data.get(key)`: a missing key reads as `None`. */
  function Lookup(data: Record, key: string): Option<string>
  {
    if key in data then data[key] else None
  }

  /** Python truthiness of an optional text: `None` and `""` are false. */
  predicate Truthy(s: Option<string>) { s.Some? && s.value != "" }

  /** `get_lyric(data, default_lyric)`: the table of the three options, then a lookup
      that gives `None` for any other option. */
  function GetLyric(data: Record, option: string): (r: Option<string>)
    ensures option != "auto" && option != "synced_lyric" && option != "plain_lyric" ==> r == None
    ensures option == "synced_lyric" ==> r == Lookup(data, "syncedLyrics")
    ensures option == "plain_lyric" ==> r == Lookup(data, "plainLyrics")
    ensures option == "auto" && Truthy(Lookup(data, "syncedLyrics")) ==> r == Lookup(data, "syncedLyrics")
    ensures option == "auto" && !Truthy(Lookup(data, "syncedLyrics")) ==> r == Lookup(data, "plainLyrics")
  {
    var plain := Lookup(data, "plainLyrics");
    var synced := Lookup(data, "syncedLyrics");
    var table := map[
      "auto" := if Truthy(synced) then synced else plain,
      "synced_lyric" := synced,
      "plain_lyric" := plain];
    if option in table then table[option] else None
  }

  // ---------------------------------------------------------------------------
  // Properties
  // ---------------------------------------------------------------------------

  /** Whatever the option, the answer is one of the record's two texts, or `None`. */
  lemma FromRecord(data: Record, option: string)
    ensures GetLyric(data, option) == None
      || GetLyric(data, option) == Lookup(data, "syncedLyrics")
      || GetLyric(data, option) == Lookup(data, "plainLyrics")
  {
  }

  /** A missing key behaves as a key holding `None`. */
  lemma MissingIsNone(data: Record, key: string, option: string)
    requires key !in data
    ensures GetLyric(data, option) == GetLyric(data[key := None], option)
  {
    assert Lookup(data, "plainLyrics") == Lookup(data[key := None], "plainLyrics");
    assert Lookup(data, "syncedLyrics") == Lookup(data[key := None], "syncedLyrics");
  }

  /** A record holding neither text gives `None` for every option. */
  lemma EmptyRecord(data: Record, option: string)
    requires "syncedLyrics" !in data && "plainLyrics" !in data
    ensures GetLyric(data, option) == None
  {
  }

  /** `auto` gives a text whenever either is present with some text, preferring the
      synced one. */
  lemma AutoFindsText(data: Record)
    ensures Truthy(GetLyric(data, "auto")) <==>
      Truthy(Lookup(data, "syncedLyrics")) || Truthy(Lookup(data, "plainLyrics"))
  {
  }
}
