/**
  The song-list screen's text logic: `formatSongName`, which turns a raw
  resource name into a display title, and the name filter of
  `getSongsFromRaw`, which lists the bundled audio resources.
 */
module SongList {

  import opened Optional
  import opened Text

  // ---------------------------------------------------------------------------
  // formatSongName
  // ---------------------------------------------------------------------------

  /** The lambda given to `joinToString`: a non-empty word gets its first character upper-cased. */
  function CapitalizeWord(word: string): (r: string)
    ensures |r| == |word|
    ensures 0 < |word| ==> r[0] == ToUpper(word[0]) && r[1..] == word[1..]
  {
    if |word| > 0 then [ToUpper(word[0])] + word[1..] else ""
  }

  /**
    Underscores become spaces, the result is split at spaces and rejoined
    with capitalized words. The title has the length of the name, and each
    of its characters is the one the reference definition `TitleChar` gives:
    separators become spaces, the first character of every non-empty word is
    upper-cased, all else is unchanged.
   */
  function FormatSongName(name: string): (r: string)
    ensures |r| == |name|
    ensures forall i :: 0 <= i < |name| ==> r[i] == TitleChar(name, i)
  {
    var t := Replace(name, '_', ' ');
    SplitScan(t, true);
    JoinCapitalized(Split(t, ' '));
    TitleScanMatches(name);
    Join(Map(CapitalizeWord, Split(t, ' ')), ' ')
  }

  /** The characters that separate words in a resource name. */
  predicate IsSeparator(c: char) {
    c == '_' || c == ' '
  }

  /** True when position `i` of `name` begins a word. */
  predicate StartsWord(name: string, i: nat)
    requires i < |name|
  {
    i == 0 || IsSeparator(name[i - 1])
  }

  /**
    Reference definition, one position at a time: a separator shows as a
    space, the first character of a word is upper-cased, any other
    character is kept.
   */
  function TitleChar(name: string, i: nat): char
    requires i < |name|
  {
    if IsSeparator(name[i]) then ' '
    else if StartsWord(name, i) then ToUpper(name[i])
    else name[i]
  }

  /**
    The same title computed by a left-to-right scan of a name whose
    underscores are already spaces; `atStart` says whether a word begins
    at the first character.
   */
  function TitleScan(t: string, atStart: bool): (r: string)
    ensures |r| == |t|
  {
    if |t| == 0 then []
    else if t[0] == ' ' then [' '] + TitleScan(t[1..], true)
    else [if atStart then ToUpper(t[0]) else t[0]] + TitleScan(t[1..], false)
  }

  /** What follows the first word when capitalized words are rejoined. */
  function JoinedRest(ws: seq<string>): string {
    if |ws| <= 1 then [] else [' '] + Join(Map(CapitalizeWord, ws[1..]), ' ')
  }

  lemma JoinCapitalized(ws: seq<string>)
    requires 1 <= |ws|
    ensures Join(Map(CapitalizeWord, ws), ' ') == CapitalizeWord(ws[0]) + JoinedRest(ws)
  {
    if 1 < |ws| {
      assert Map(CapitalizeWord, ws)[1..] == Map(CapitalizeWord, ws[1..]);
    }
  }

  /** Splitting, capitalizing and rejoining agrees with the scan. */
  lemma {:induction false} SplitScan(t: string, atStart: bool)
    ensures var ws := Split(t, ' ');
      (if atStart then CapitalizeWord(ws[0]) else ws[0]) + JoinedRest(ws) == TitleScan(t, atStart)
    decreases |t|
  {
    if |t| > 0 {
      var rest := Split(t[1..], ' ');
      var ws := Split(t, ' ');
      if t[0] == ' ' {
        SplitScan(t[1..], true);
        JoinCapitalized(rest);
        assert ws[1..] == rest;
      } else {
        SplitScan(t[1..], false);
        assert ws[0] == [t[0]] + rest[0];
        assert ws[1..] == rest[1..];
        assert JoinedRest(ws) == JoinedRest(rest);
      }
    }
  }

  lemma {:induction false} TitleScanAt(t: string, atStart: bool, i: nat)
    requires i < |t|
    ensures TitleScan(t, atStart)[i]
         == if t[i] == ' ' then ' '
            else if (if i == 0 then atStart else t[i - 1] == ' ') then ToUpper(t[i])
            else t[i]
    decreases i
  {
    if 0 < i {
      TitleScanAt(t[1..], t[0] == ' ', i - 1);
    }
  }

  /** The scan over the name with underscores made spaces agrees with the reference definition. */
  lemma TitleScanMatches(name: string)
    ensures var t := Replace(name, '_', ' ');
      forall i :: 0 <= i < |name| ==> TitleScan(t, true)[i] == TitleChar(name, i)
  {
    var t := Replace(name, '_', ' ');
    forall i | 0 <= i < |name|
      ensures TitleScan(t, true)[i] == TitleChar(name, i)
    {
      TitleScanAt(t, true, i);
    }
  }

  /**
    A position of the title is a space exactly when the name has an
    underscore or a space there, so the title never holds an underscore and
    empty words leave their separators in place.
   */
  lemma FormatSongNameSeparators(name: string)
    ensures |FormatSongName(name)| == |name|
    ensures forall i :: 0 <= i < |name| ==> (FormatSongName(name)[i] == ' ' <==> IsSeparator(name[i]))
    ensures '_' !in FormatSongName(name)
  {
  }

  /** Formatting a title again leaves it unchanged. */
  lemma FormatSongNameIdempotent(name: string)
    ensures FormatSongName(FormatSongName(name)) == FormatSongName(name)
  {
  }

  /** The empty name gives the empty title. */
  lemma FormatSongNameEmpty()
    ensures FormatSongName("") == ""
  {
  }

  /** A typical resource name: underscores become spaces and every word is capitalized. */
  lemma FormatSongNameExample()
    ensures FormatSongName("my_song_name") == "My Song Name"
  {
    TitleCharsExample();
    FormatSongNameFromChars("my_song_name", "My Song Name");
  }

  /** A string that agrees with the reference definition everywhere is the title. */
  lemma FormatSongNameFromChars(name: string, title: string)
    requires |title| == |name|
    requires forall i :: 0 <= i < |name| ==> TitleChar(name, i) == title[i]
    ensures FormatSongName(name) == title
  {
  }

  /** The reference definition, position by position, on the sample name. */
  lemma TitleCharsExample()
    ensures forall i :: 0 <= i < |"my_song_name"| ==> TitleChar("my_song_name", i) == "My Song Name"[i]
  {
    var name, title := "my_song_name", "My Song Name";
    forall i | 0 <= i < |name|
      ensures TitleChar(name, i) == title[i]
    {
      if i == 0 || i == 3 || i == 8 {
        assert StartsWord(name, i);
      }
    }
  }

  // ---------------------------------------------------------------------------
  // getSongsFromRaw
  // ---------------------------------------------------------------------------

  /** `name.startsWith("__")`: a resource the platform generates, not a song. */
  predicate IsSystemResource(name: string) {
    "__" <= name
  }

  /** `a` is `b` with some elements deleted, the rest in their original order. */
  ghost predicate IsSubsequence<T>(a: seq<T>, b: seq<T>) {
    if |a| == 0 then true
    else if |b| == 0 then false
    else (a[0] == b[0] && IsSubsequence(a[1..], b[1..])) || IsSubsequence(a, b[1..])
  }

  /**
    `filter { !it.startsWith("__") }`: the names kept are, in order, exactly
    the non-system ones, each as often as it occurs in the input.
   */
  function VisibleNames(names: seq<string>): (r: seq<string>)
    ensures IsSubsequence(r, names)
    ensures forall n :: multiset(r)[n] == if IsSystemResource(n) then 0 else multiset(names)[n]
  {
    if |names| == 0 then []
    else
      assert names == [names[0]] + names[1..];
      if IsSystemResource(names[0]) then VisibleNames(names[1..])
      else [names[0]] + VisibleNames(names[1..])
  }

  /**
    `getSongsFromRaw`: `rawFields` holds the field names of the generated
    raw-resource class, or `None` when that class cannot be loaded, in which
    case the library is empty rather than an error.
   */
  function GetSongsFromRaw(rawFields: Option<seq<string>>): (songs: seq<string>)
    ensures rawFields.None? ==> songs == []
    ensures rawFields.Some? ==> IsSubsequence(songs, rawFields.value)
    ensures forall n :: n in songs <==> rawFields.Some? && n in rawFields.value && !IsSystemResource(n)
    ensures rawFields.Some? ==>
      forall n :: multiset(songs)[n] == if IsSystemResource(n) then 0 else multiset(rawFields.value)[n]
  {
    match rawFields
    case None => []
    case Some(names) => VisibleNames(names)
  }
}
