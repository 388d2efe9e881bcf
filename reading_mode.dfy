/** The distraction-free reading view (src/components/ReadingMode.tsx): the plain text is
    split into lines, each rendered by its prefix; the word count and reading time; and
    the classes chosen by the reading settings. The conversion of the editor's HTML into
    plain text is not part of this model: the plain text is an input. */
module ReadingMode {
  import opened Types
  import opened Text

  /** `s.split('\n')`. */
  function SplitLines(s: string): (lines: seq<string>)
    ensures |lines| >= 1
    ensures forall i :: 0 <= i < |lines| ==> '\n' !in lines[i]
    decreases |s|
  {
    var k := FirstIndexOf(s, '\n');
    if k.None? then
      assert forall j :: 0 <= j < |s| ==> s[j] != '\n';
      [s]
    else
      var head := s[..k.value];
      assert forall j :: 0 <= j < |head| ==> head[j] != '\n';
      [head] + SplitLines(s[k.value + 1..])
  }

  /** `lines.join('\n')`. */
  function JoinLines(lines: seq<string>): string
    decreases |lines|
  {
    if lines == [] then "" else if |lines| == 1 then lines[0] else lines[0] + "\n" + JoinLines(lines[1..])
  }

  /** Splitting loses nothing: joining the lines gives the text back. */
  lemma {:induction false} SplitJoin(s: string)
    ensures JoinLines(SplitLines(s)) == s
    decreases |s|
  {
    var k := FirstIndexOf(s, '\n');
    if k.Some? {
      var rest := s[k.value + 1..];
      SplitJoin(rest);
      assert s == s[..k.value] + "\n" + rest;
    }
  }

  /** How a line is rendered. */
  datatype Block = H1(text: string) | H2(text: string) | H3(text: string)
                 | Quote(text: string) | Item(text: string) | Paragraph(text: string)

  /** The render map for one line: the first matching prefix decides and is dropped; any
      other non-blank line is a paragraph as it is; a blank line renders nothing. */
  function Classify(line: string): (b: Option<Block>)
    ensures StartsWith(line, "# ") ==> b == Some(H1(line[2..]))
    ensures StartsWith(line, "## ") ==> b == Some(H2(line[3..]))
    ensures StartsWith(line, "### ") ==> b == Some(H3(line[4..]))
    ensures (!StartsWith(line, "# ") && !StartsWith(line, "## ") && !StartsWith(line, "### ")
             && StartsWith(line, "> ")) ==> b == Some(Quote(line[2..]))
    ensures (!StartsWith(line, "# ") && !StartsWith(line, "## ") && !StartsWith(line, "### ")
             && !StartsWith(line, "> ") && StartsWith(line, "• ")) ==> b == Some(Item(line[2..]))
    ensures b.None? <==> IsBlank(line)
    ensures b.Some? && b.value.Paragraph? <==>
            !IsBlank(line) && !StartsWith(line, "# ") && !StartsWith(line, "## ") && !StartsWith(line, "### ")
            && !StartsWith(line, "> ") && !StartsWith(line, "• ")
    ensures b.Some? && b.value.Paragraph? ==> b.value.text == line
  {
    TrimEmptyIffBlank(line);
    HeadingPrefixesDisjoint(line);
    if StartsWith(line, "# ") then Some(H1(line[2..]))
    else if StartsWith(line, "## ") then Some(H2(line[3..]))
    else if StartsWith(line, "### ") then Some(H3(line[4..]))
    else if StartsWith(line, "> ") then Some(Quote(line[2..]))
    else if StartsWith(line, "• ") then Some(Item(line[2..]))
    else if Trim(line) != "" then Some(Paragraph(line))
    else None
  }

  /** What the view renders for the plain text, line by line. */
  function Render(plainText: string): (blocks: seq<Option<Block>>)
    ensures |blocks| == |SplitLines(plainText)|
    ensures forall i :: 0 <= i < |blocks| ==> blocks[i] == Classify(SplitLines(plainText)[i])
  {
    var lines := SplitLines(plainText);
    seq(|lines|, i requires 0 <= i < |lines| => Classify(lines[i]))
  }

  /** A heading's level is its number of leading '#' characters: the three heading
      prefixes never overlap, whatever order they are tried in. */
  lemma {:induction false} HeadingPrefixesDisjoint(line: string)
    ensures !(StartsWith(line, "# ") && StartsWith(line, "## "))
    ensures !(StartsWith(line, "# ") && StartsWith(line, "### "))
    ensures !(StartsWith(line, "## ") && StartsWith(line, "### "))
  {
    if StartsWith(line, "## ") {
      assert line[1] == '#';
    }
    if StartsWith(line, "### ") {
      assert line[1] == '#' && line[2] == '#';
    }
  }

  /** Words per minute of the reading-time estimate. */
  const WordsPerMinute := 200

  /** `Math.ceil(words / 200)`: the fewest whole minutes that cover the words. */
  function ReadingTime(words: nat): (minutes: nat)
    ensures minutes * WordsPerMinute >= words
    ensures minutes > 0 ==> (minutes - 1) * WordsPerMinute < words
  {
    (words + WordsPerMinute - 1) / WordsPerMinute
  }

  /** The two statistics below the text. */
  function Stats(plainText: string): (r: (nat, nat))
    ensures r.1 == 0 <==> IsBlank(plainText)
    ensures r.0 == WordCount(plainText)
    ensures r.1 == ReadingTime(r.0)
  {
    WordCountBounds(plainText);
    (WordCount(plainText), ReadingTime(WordCount(plainText)))
  }

  /** The title in the header: the draft's title, or "Untitled" for an empty one. */
  function Title(metadata: DraftMetadata): (t: string)
    ensures metadata.title != "" ==> t == metadata.title
    ensures metadata.title == "" ==> t == "Untitled"
  {
    if metadata.title != "" then metadata.title else "Untitled"
  }

  // The classes of the settings. Each switch has a default branch; with the settings'
  // closed types only the font family reaches it, for the 'sans-serif' option.

  function FontSizeClass(s: FontSize): string {
    match s
    case Small => "text-base"
    case MediumSize => "text-lg"
    case Large => "text-xl"
    case XLarge => "text-2xl"
  }

  function LineHeightClass(h: LineHeight): string {
    match h
    case Tight => "leading-snug"
    case NormalHeight => "leading-normal"
    case Relaxed => "leading-relaxed"
  }

  function MaxWidthClass(w: MaxWidth): string {
    match w
    case Narrow => "max-w-2xl"
    case MediumWidth => "max-w-4xl"
    case Wide => "max-w-6xl"
  }

  function ThemeClass(t: Theme): string {
    match t
    case Dark => "reading-mode-dark"
    case Sepia => "reading-mode-sepia"
    case Light => "reading-mode-light"
  }

  function FontFamilyClass(f: FontFamily): (c: string)
    ensures c == "font-sans" <==> f == SansSerif
  {
    match f
    case Serif => "font-serif"
    case Mono => "font-mono"
    case SansSerif => "font-sans"
  }

  /** The classes of the content area, in the order the view lists them. */
  function ContentClasses(s: ReadingModeSettings): seq<string> {
    [MaxWidthClass(s.maxWidth), FontSizeClass(s.fontSize), LineHeightClass(s.lineHeight), FontFamilyClass(s.fontFamily)]
  }

  /** The default settings render large, relaxed, narrow, serif text on the light theme. */
  lemma {:induction false} DefaultClasses(s: ReadingModeSettings)
    requires s.fontFamily == Serif && s.fontSize == Large && s.lineHeight == Relaxed
    requires s.maxWidth == Narrow && s.theme == Light
    ensures ContentClasses(s) == ["max-w-2xl", "text-xl", "leading-relaxed", "font-serif"]
    ensures ThemeClass(s.theme) == "reading-mode-light"
  {
  }
}
