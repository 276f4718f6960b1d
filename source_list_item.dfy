/** The decisions of one row of the source library list: the short tag
    label, the modifier-key dispatch of a click on the source icon, the chips
    and buttons the row shows, and the in-place URL editor. */
module SourceListItem {
  import opened Js

  /** The source types of `ST` that the row tells apart; every other kind of
      web source is `Other`. */
  datatype SourceType = Local | Video | Playlist | Other

  datatype Clip = Clip(id: int)

  /** The fields of a library source that the row reads. */
  datatype LibrarySource = LibrarySource(
    id: int,
    url: string,
    count: nat,
    countComplete: bool,
    clips: Option<seq<Clip>>,
    disabledClips: Option<seq<int>>)

  /** The helpers of `data/utils` the row calls, with the configuration
      already applied to `cachePath`. Their definitions are not part of this
      model, so they are taken as given functions. */
  datatype Utils = Utils(
    sourceType: string -> SourceType,
    cachePath: string -> string,
    fileName: string -> string,
    urlToPath: string -> string)

  // ---------------------------------------------------------------------
  // The short tag label

  predicate IsAsciiLower(c: char)
  {
    'a' <= c <= 'z'
  }

  /** The characters JavaScript's `\s` matches: the white space and line
      terminator characters of ECMAScript. None is a lower-case ASCII letter,
      so the two replacements of the short tag never compete for a character. */
  function IsJsSpace(c: char): (b: bool)
    ensures c == ' ' || c == '\t' || c == '\n' || c == '\r' ==> b
    ensures b ==> !IsAsciiLower(c)
  {
    || '\U{9}' <= c <= '\U{D}'
    || c == ' ' || c == '\U{A0}' || c == '\U{1680}'
    || '\U{2000}' <= c <= '\U{200A}'
    || c == '\U{2028}' || c == '\U{2029}' || c == '\U{202F}' || c == '\U{205F}'
    || c == '\U{3000}' || c == '\U{FEFF}'
  }

  predicate NotLower(c: char) { !IsAsciiLower(c) }

  predicate NotSpace(c: char) { !IsJsSpace(c) }

  /** The characters that survive both replacements. */
  predicate KeptInTag(c: char) { NotLower(c) && NotSpace(c) }

  /** `s.replace(/[...]/g, '')`: the characters satisfying `p`, in order. */
  function Filter(p: char -> bool, s: string): (r: string)
    ensures |r| <= |s|
    ensures forall i :: 0 <= i < |r| ==> p(r[i])
    ensures forall c :: c in r <==> c in s && p(c)
    decreases |s|
  {
    if s == [] then []
    else (if p(s[0]) then [s[0]] else []) + Filter(p, s[1..])
  }

  lemma {:induction false} FilterConcat(p: char -> bool, a: string, b: string)
    ensures Filter(p, a + b) == Filter(p, a) + Filter(p, b)
    decreases |a|
  {
    if a == [] {
      assert a + b == b;
    } else {
      assert (a + b)[1..] == a[1..] + b;
      FilterConcat(p, a[1..], b);
    }
  }

  /** Two filters in a row keep what one filter by both tests keeps. */
  lemma {:induction false} FilterTwice(p: char -> bool, q: char -> bool, both: char -> bool, s: string)
    requires forall c :: both(c) == (p(c) && q(c))
    ensures Filter(q, Filter(p, s)) == Filter(both, s)
    decreases |s|
  {
    if s != [] {
      var head := if p(s[0]) then [s[0]] else [];
      FilterConcat(q, head, Filter(p, s[1..]));
      FilterTwice(p, q, both, s[1..]);
    }
  }

  /** A filter leaves a string whose characters all pass untouched. */
  lemma {:induction false} FilterKeepsPassing(p: char -> bool, s: string)
    requires forall i :: 0 <= i < |s| ==> p(s[i])
    ensures Filter(p, s) == s
    decreases |s|
  {
    if s != [] {
      FilterKeepsPassing(p, s[1..]);
    }
  }

  /** `getSimpleTag`: drop the lower-case ASCII letters, then the white space.
      The result is the characters of the tag that are neither, in order. */
  function GetSimpleTag(tagName: string): (r: string)
    ensures r == Filter(KeptInTag, tagName)
    ensures |r| <= |tagName|
    ensures forall i :: 0 <= i < |r| ==> !IsAsciiLower(r[i]) && !IsJsSpace(r[i])
  {
    FilterTwice(NotLower, NotSpace, KeptInTag, tagName);
    Filter(NotSpace, Filter(NotLower, tagName))
  }

  /** The short tag of a short tag is itself. */
  lemma SimpleTagIdempotent(tagName: string)
    ensures GetSimpleTag(GetSimpleTag(tagName)) == GetSimpleTag(tagName)
  {
    var r := GetSimpleTag(tagName);
    FilterKeepsPassing(KeptInTag, r);
  }

  /** The short tag of a concatenation is the concatenation of the short
      tags: no character moves and none depends on its neighbours. */
  lemma SimpleTagOfConcat(a: string, b: string)
    ensures GetSimpleTag(a + b) == GetSimpleTag(a) + GetSimpleTag(b)
  {
    FilterConcat(KeptInTag, a, b);
  }

  // ---------------------------------------------------------------------
  // Clicking the source icon

  /** The calls a handler makes, in order. */
  datatype Effect =
    | OpenExternal(url: string)
    | SavePosition
    | Play(sourceId: int)
    | SystemMessage(text: string)

  /** The cache location opened by Ctrl+click: the source's cache directory,
      with the file name appended for videos and playlists. */
  function CachePath(url: string, u: Utils): (path: string)
    ensures StartsWith(path, u.cachePath(url))
    ensures path[|u.cachePath(url)|..] ==
              if u.sourceType(url) == Video || u.sourceType(url) == Playlist then u.fileName(url) else ""
  {
    var fileType := u.sourceType(url);
    if fileType == Video || fileType == Playlist then
      u.cachePath(url) + u.fileName(url)
    else
      u.cachePath(url)
  }

  /** `openDirectory`: Windows opens the path as it is, every other platform
      opens the `urlToPath` form of it. */
  function OpenDirectory(path: string, platform: string, u: Utils): (e: Effect)
    ensures e.OpenExternal?
    ensures platform == "win32" ==> e.url == path
    ensures platform != "win32" ==> e.url == u.urlToPath(path)
  {
    if platform == "win32" then OpenExternal(path) else OpenExternal(u.urlToPath(path))
  }

  /** The message shown when playing fails; the URL can be read back from it. */
  function NotInLibraryMessage(url: string): (text: string)
    ensures |text| == |url| + 33
    ensures text[..11] == "The source " && text[|text| - 22..] == " isn't in your Library"
    ensures text[11..|text| - 22] == url
  {
    "The source " + url + " isn't in your Library"
  }

  /** `onSourceIconClick`: Shift alone opens the URL, Ctrl alone opens the
      cache, no modifier saves the position and plays the source (reporting
      it missing when `onPlay` throws), both modifiers do nothing. */
  function OnSourceIconClick(shift: bool, ctrl: bool, source: LibrarySource, u: Utils,
                             platform: string, playThrows: bool): (effects: seq<Effect>)
    ensures shift && ctrl ==> effects == []
    ensures (shift != ctrl) <==> (|effects| == 1 && effects[0].OpenExternal?)
    ensures shift && !ctrl ==> effects == [OpenExternal(source.url)]
    ensures !shift && ctrl ==> effects == [OpenDirectory(CachePath(source.url, u), platform, u)]
    ensures (SavePosition in effects) <==> !shift && !ctrl
    ensures !shift && !ctrl ==>
              && |effects| == (if playThrows then 3 else 2)
              && effects[..2] == [SavePosition, Play(source.id)]
              && (playThrows ==> effects[2] == SystemMessage(NotInLibraryMessage(source.url)))
  {
    var sourceURL := source.url;
    if shift && !ctrl then
      [OpenExternal(sourceURL)]
    else if !shift && ctrl then
      [OpenDirectory(CachePath(sourceURL, u), platform, u)]
    else if !shift && !ctrl then
      [SavePosition, Play(source.id)] +
      (if playThrows then [SystemMessage(NotInLibraryMessage(sourceURL))] else [])
    else
      []
  }

  // ---------------------------------------------------------------------
  // Chips and buttons

  /** The count chip: shown for a positive count on anything but a video;
      its text is the count, with `+` appended while counting is unfinished. */
  function CountChip(source: LibrarySource, sourceType: SourceType): (chip: Option<string>)
    ensures chip.Some? <==> source.count > 0 && sourceType != Video
    ensures chip.Some? ==> |chip.value| == |Decimal(source.count)| + (if source.countComplete then 0 else 1)
    ensures chip.Some? ==> (chip.value[|chip.value| - 1] == '+' <==> !source.countComplete)
    ensures chip.Some? ==> chip.value[..|Decimal(source.count)|] == Decimal(source.count)
  {
    if source.count > 0 && sourceType != Video then
      Some(Decimal(source.count) + (if source.countComplete then "" else "+"))
    else
      None
  }

  predicate ClipDisabled(c: Clip, disabledClips: Option<seq<int>>)
  {
    disabledClips.Some? && c.id in disabledClips.value
  }

  /** The clips that are not disabled, in order; all of them when nothing is
      disabled. Every clip that is not disabled is kept as often as it
      occurs, and no disabled clip is kept. */
  function EnabledClips(clips: seq<Clip>, disabledClips: Option<seq<int>>): (r: seq<Clip>)
    ensures |r| <= |clips|
    ensures disabledClips.None? ==> r == clips
    ensures forall c :: c in r <==> c in clips && !ClipDisabled(c, disabledClips)
    ensures forall c :: multiset(r)[c] == if ClipDisabled(c, disabledClips) then 0 else multiset(clips)[c]
    decreases |clips|
  {
    if clips == [] then []
    else
      assert clips == [clips[0]] + clips[1..];
      if ClipDisabled(clips[0], disabledClips) then
        EnabledClips(clips[1..], disabledClips)
      else
        [clips[0]] + EnabledClips(clips[1..], disabledClips)
  }

  /** Enabling is a filter over the list: splitting the list splits the
      enabled clips the same way, so they keep their order. */
  lemma {:induction false} EnabledClipsConcat(a: seq<Clip>, b: seq<Clip>, disabledClips: Option<seq<int>>)
    ensures EnabledClips(a + b, disabledClips) == EnabledClips(a, disabledClips) + EnabledClips(b, disabledClips)
    decreases |a|
  {
    if a == [] {
      assert a + b == b;
    } else {
      assert (a + b)[1..] == a[1..] + b;
      EnabledClipsConcat(a[1..], b, disabledClips);
    }
  }

  /** The clip chip of a video with clips. Outside the library it reads
      `enabled/total`; inside it reads the total alone. */
  function ClipChip(source: LibrarySource, isLibrary: bool, sourceType: SourceType): (chip: Option<string>)
    ensures chip.Some? <==> source.clips.Some? && |source.clips.value| > 0 && sourceType == Video
    ensures chip.Some? && isLibrary ==> chip.value == Decimal(|source.clips.value|)
    ensures chip.Some? && !isLibrary ==>
              chip.value == Decimal(|EnabledClips(source.clips.value, source.disabledClips)|) + "/" +
                            Decimal(|source.clips.value|)
    ensures chip.Some? && !isLibrary && source.disabledClips.None? ==>
              chip.value == Decimal(|source.clips.value|) + "/" + Decimal(|source.clips.value|)
  {
    if source.clips.Some? && |source.clips.value| > 0 && sourceType == Video then
      var clips := source.clips.value;
      if isLibrary then Some(Decimal(|clips|))
      else
        var enabled := |EnabledClips(clips, source.disabledClips)|;
        Some(Decimal(enabled) + "/" + Decimal(|clips|))
    else
      None
  }

  /** The test `/^https?:\/\//` applies: `http`, an optional `s`, then `://`. */
  function MatchesHttpScheme(url: string): (b: bool)
    ensures b ==> |url| >= 7 && url[..4] == "http"
  {
    && |url| >= 4 && url[..4] == "http"
    && var rest := if |url| > 4 && url[4] == 's' then url[5..] else url[4..];
       StartsWith(rest, "://")
  }

  /** The scheme test is exactly "starts with http:// or https://". */
  lemma HttpSchemeIsPrefix(url: string)
    ensures MatchesHttpScheme(url) <==> StartsWith(url, "http://") || StartsWith(url, "https://")
  {
    if StartsWith(url, "http://") {
      assert url[..4] == url[..7][..4];
      assert url[4..][..3] == url[..7][4..];
    }
    if StartsWith(url, "https://") {
      assert url[..4] == url[..8][..4];
      assert url[4] == 's';
      assert url[5..][..3] == url[..8][5..];
    }
    if MatchesHttpScheme(url) {
      if |url| > 4 && url[4] == 's' {
        assert url[5..][..3] == "://";
        assert url[..8] == url[..4] + [url[4]] + url[5..][..3];
      } else {
        assert url[4..][..3] == "://";
        assert url[..7] == url[..4] + url[4..][..3];
      }
    }
  }

  /** The clean-cache button: caching is on, the source is not local, and a
      video or playlist is fetched over HTTP(S). */
  function ShowsCleanCache(cachingEnabled: bool, sourceType: SourceType, url: string): (shown: bool)
    ensures !cachingEnabled || sourceType == Local ==> !shown
    ensures cachingEnabled && sourceType == Other ==> shown
    ensures sourceType == Video || sourceType == Playlist ==>
              (shown <==> cachingEnabled && (StartsWith(url, "http://") || StartsWith(url, "https://")))
  {
    HttpSchemeIsPrefix(url);
    cachingEnabled && sourceType != Local &&
    ((sourceType != Video && sourceType != Playlist) || MatchesHttpScheme(url))
  }

  // ---------------------------------------------------------------------
  // Edit mode

  /** What the row shows: the URL field, or the title with its tags and the
      secondary actions. */
  datatype RowLayout = RowLayout(editField: bool, title: bool, secondaryActions: bool)

  function Layout(isEditing: int, sourceId: int): (l: RowLayout)
    ensures l.editField <==> isEditing == sourceId
    ensures l.title == !l.editField && l.secondaryActions == !l.editField
  {
    RowLayout(isEditing == sourceId, isEditing != sourceId, isEditing != sourceId)
  }

  /** The row's state: the text of the URL field. */
  class Row {
    var urlInput: string

    constructor (source: LibrarySource)
      ensures urlInput == source.url
    {
      urlInput := source.url;
    }

    /** `onStartEdit` asks the list to edit this source. */
    method OnStartEdit(source: LibrarySource) returns (editId: int)
      ensures editId == source.id
    {
      editId := source.id;
    }

    /** `onEditSource`: the field's new text. */
    method OnEditSource(value: string)
      modifies this
      ensures urlInput == value
    {
      urlInput := value;
    }

    /** `onEndEdit` reports the current text of the field. */
    method OnEndEdit() returns (newURL: string)
      ensures newURL == urlInput
    {
      newURL := urlInput;
    }
  }
}
