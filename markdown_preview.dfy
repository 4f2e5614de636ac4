/** The markdown renderer's own logic: links to images and videos are
    shown as media, and Mermaid node labels holding braces are quoted
    before the diagram is drawn. */
module MarkdownPreview {
  import opened Wrappers
  import opened Text

  // ---------------------------------------------------------------------
  // Media links
  // ---------------------------------------------------------------------

  const ImageExtensions: seq<string> := [
    ".png", ".jpg", ".jpeg", ".gif", ".bmp", ".webp", ".svg", ".ico",
    ".tiff", ".tif", ".avif", ".heic", ".heif", ".jfif", ".pjpeg", ".pjp"]

  const VideoExtensions: seq<string> := [".mp4", ".webm", ".ogg", ".mov", ".avi", ".mkv"]

  /** `new URL(href)`: the path of a URL, or the exception a malformed one
      raises. */
  datatype ParsedUrl = Unparsable | Url(pathname: string)

  /** `extensions.some((ext) => s.endsWith(ext))`. */
  function EndsWithSome(s: string, extensions: seq<string>): (b: bool)
    ensures b <==> exists i :: 0 <= i < |extensions| && EndsWith(s, extensions[i])
  {
    if extensions == [] then false
    else if EndsWith(s, extensions[0]) then true
    else
      var b := EndsWithSome(s, extensions[1..]);
      assert forall i :: 1 <= i < |extensions| ==> extensions[i] == extensions[1..][i - 1];
      b
  }

  /** `isImageUrl`: a URL whose lower-cased path ends in an image
      extension; false when the URL does not parse. */
  function IsImageUrl(url: ParsedUrl): (b: bool)
    ensures b <==> url.Url? && exists i :: 0 <= i < |ImageExtensions| && EndsWith(Lower(url.pathname), ImageExtensions[i])
  {
    url.Url? && EndsWithSome(Lower(url.pathname), ImageExtensions)
  }

  /** `isVideoUrl`, the same with the video extensions. */
  function IsVideoUrl(url: ParsedUrl): (b: bool)
    ensures b <==> url.Url? && exists i :: 0 <= i < |VideoExtensions| && EndsWith(Lower(url.pathname), VideoExtensions[i])
  {
    url.Url? && EndsWithSome(Lower(url.pathname), VideoExtensions)
  }

  /** The last two characters of a string. */
  function LastTwo(s: string): (char, char)
    requires |s| >= 2
  {
    (s[|s| - 2], s[|s| - 1])
  }

  /** Two suffixes of one string, each at least two long, end alike. */
  lemma SuffixesEndAlike(s: string, a: string, b: string)
    requires |a| >= 2 && |b| >= 2 && EndsWith(s, a) && EndsWith(s, b)
    ensures LastTwo(a) == LastTwo(b)
  {
    assert a[|a| - 2] == s[|s| - 2] && a[|a| - 1] == s[|s| - 1];
    assert b[|b| - 2] == s[|s| - 2] && b[|b| - 1] == s[|s| - 1];
  }

  const ImageEndings: set<(char, char)> :=
    {('n', 'g'), ('p', 'g'), ('e', 'g'), ('i', 'f'), ('m', 'p'), ('b', 'p'), ('v', 'g'), ('c', 'o'), ('f', 'f'), ('i', 'c'), ('j', 'p')}

  const VideoEndings: set<(char, char)> := {('p', '4'), ('b', 'm'), ('g', 'g'), ('o', 'v'), ('v', 'i'), ('k', 'v')}

  /** Every image extension ends in one of the image endings. */
  lemma ImageEnding(i: nat)
    requires i < |ImageExtensions|
    ensures LastTwo(ImageExtensions[i]) in ImageEndings
  {
  }

  /** Every video extension ends in one of the video endings. */
  lemma VideoEnding(j: nat)
    requires j < |VideoExtensions|
    ensures LastTwo(VideoExtensions[j]) in VideoEndings
  {
  }

  /** No pair of characters is both an image and a video ending. */
  lemma EndingsDisjoint(t: (char, char))
    requires t in ImageEndings
    ensures t !in VideoEndings
  {
  }

  /** No string ends both in an image and in a video extension. */
  lemma NoImageAndVideoEnding(s: string, i: nat, j: nat)
    requires i < |ImageExtensions| && j < |VideoExtensions|
    ensures !(EndsWith(s, ImageExtensions[i]) && EndsWith(s, VideoExtensions[j]))
  {
    ImageEnding(i);
    VideoEnding(j);
    EndingsDisjoint(LastTwo(ImageExtensions[i]));
    if EndsWith(s, ImageExtensions[i]) && EndsWith(s, VideoExtensions[j]) {
      SuffixesEndAlike(s, ImageExtensions[i], VideoExtensions[j]);
    }
  }

  /** No path ends both in an image and in a video extension: no image
      extension ends with the same two characters as a video extension. */
  lemma ImageAndVideoDisjoint(url: ParsedUrl)
    ensures !(IsImageUrl(url) && IsVideoUrl(url))
  {
    if IsImageUrl(url) && IsVideoUrl(url) {
      var s := Lower(url.pathname);
      var i :| 0 <= i < |ImageExtensions| && EndsWith(s, ImageExtensions[i]);
      var j :| 0 <= j < |VideoExtensions| && EndsWith(s, VideoExtensions[j]);
      NoImageAndVideoEnding(s, i, j);
    }
  }

  /** How `MediaAwareLink` renders a link. */
  datatype LinkKind = PlainLink | VideoLink | ImageLink

  /** `href` is the link target, `url` what parsing it gives. A missing or
      empty target, or one that is neither media kind, is a plain link;
      videos are tested first, but the two kinds never overlap. */
  function LinkKindOf(href: Option<string>, url: ParsedUrl): (r: LinkKind)
    ensures href.None? || href.value == "" ==> r == PlainLink
    ensures r == VideoLink <==> href.Some? && href.value != "" && IsVideoUrl(url)
    ensures r == ImageLink <==> href.Some? && href.value != "" && IsImageUrl(url)
    ensures r == PlainLink <==> href.None? || href.value == "" || (!IsImageUrl(url) && !IsVideoUrl(url))
  {
    ImageAndVideoDisjoint(url);
    if href.None? || href.value == "" || (!IsImageUrl(url) && !IsVideoUrl(url)) then PlainLink
    else if IsVideoUrl(url) then VideoLink
    else ImageLink
  }

  /** The `<source>` type of a video: "video/" and the target's text after
      its last '.'. */
  function VideoSourceType(href: string): (r: string)
    ensures exists t :: IsTextAfterLast(href, '.', t) && r == "video/" + t
  {
    var t := AfterLast(href, '.');
    assert IsTextAfterLast(href, '.', t);
    "video/" + t
  }

  /** A target ending in ".ext" (with no '.' in `ext`) gets the type
      "video/ext". */
  lemma {:induction false} VideoTypeOfExtension(base: string, ext: string)
    requires '.' !in ext
    ensures VideoSourceType(base + "." + ext) == "video/" + ext
  {
    var s := base + "." + ext;
    var p := base + ".";
    assert s == p + ext;
    var r := AfterLast(s, '.');
    assert s[|p| - 1] == '.';
    forall k | |p| <= k < |s|
      ensures s[k] != '.'
    {
      assert s[k] == ext[k - |p|];
    }
    assert |r| == |ext|;
    assert r == s[|p|..];
  }

  // ---------------------------------------------------------------------
  // Mermaid label quoting
  // ---------------------------------------------------------------------

  const MermaidOpen := "```mermaid"
  const Fence := "```"

  /** The length of the white space at the front of `s`. */
  function SpaceRun(s: string): (n: nat)
    ensures n <= |s|
    ensures forall k :: 0 <= k < n ==> IsSpace(s[k])
    ensures n < |s| ==> !IsSpace(s[n])
  {
    if s == [] || !IsSpace(s[0]) then 0 else 1 + SpaceRun(s[1..])
  }

  /** The opening's `\s*\n` after backtracking: the first `n` characters
      (all white space) up to and including their last line break. */
  function LineBreakEnd(s: string, n: nat): (r: Option<nat>)
    requires n <= |s|
    ensures r.Some? ==> 0 < r.value <= n && s[r.value - 1] == '\n'
    ensures r.Some? ==> forall k :: r.value <= k < n ==> s[k] != '\n'
    ensures r.None? ==> forall k :: 0 <= k < n ==> s[k] != '\n'
  {
    if n == 0 then None else if s[n - 1] == '\n' then Some(n) else LineBreakEnd(s, n - 1)
  }

  /** The length of a block's opening at the front of `s`: the fence, the
      language name, and white space through its last line break. */
  function OpeningLength(s: string): (r: Option<nat>)
    ensures r.Some? ==> StartsWith(s, MermaidOpen) && |MermaidOpen| < r.value <= |s|
    ensures !StartsWith(s, MermaidOpen) ==> r.None?
  {
    if !StartsWith(s, MermaidOpen) then None
    else
      var rest := s[|MermaidOpen|..];
      var k := LineBreakEnd(rest, SpaceRun(rest));
      if k.None? then None else Some(|MermaidOpen| + k.value)
  }

  /** An opening ends with its line break. */
  lemma OpeningEndsLine(s: string)
    requires OpeningLength(s).Some?
    ensures s[OpeningLength(s).value - 1] == '\n'
  {
    var rest := s[|MermaidOpen|..];
    var k := LineBreakEnd(rest, SpaceRun(rest)).value;
    assert s[|MermaidOpen| + k - 1] == rest[k - 1];
  }

  /** A Mermaid block at the front of `s`: the length of its opening and
      of its code, which runs to a closing fence. */
  function BlockAt(s: string): (r: Option<(nat, nat)>)
    ensures r.Some? ==> StartsWith(s, MermaidOpen) && |MermaidOpen| < r.value.0
    ensures r.Some? ==> r.value.0 + r.value.1 + |Fence| <= |s|
    ensures r.Some? ==> s[r.value.0 + r.value.1..r.value.0 + r.value.1 + |Fence|] == Fence
    ensures !StartsWith(s, MermaidOpen) ==> r.None?
  {
    var o := OpeningLength(s);
    if o.None? then None
    else
      var open := o.value;
      var c := IndexOf(s[open..], Fence);
      if c.None? then None
      else
        FenceAt(s, open, c.value);
        Some((open, c.value))
  }

  lemma FenceAt(s: string, open: nat, c: nat)
    requires open <= |s| && OccursAt(s[open..], Fence, c)
    ensures open + c + |Fence| <= |s| && s[open + c..open + c + |Fence|] == Fence
  {
    assert s[open..][c..c + |Fence|] == s[open + c..open + c + |Fence|];
  }

  /** The opening ends with a line break and the code runs to the first
      closing fence after it (the lazy `[\s\S]*?`). */
  lemma BlockShape(s: string)
    requires BlockAt(s).Some?
    ensures s[BlockAt(s).value.0 - 1] == '\n'
    ensures forall k :: BlockAt(s).value.0 <= k < BlockAt(s).value.0 + BlockAt(s).value.1 ==> !OccursAt(s, Fence, k)
  {
    OpeningEndsLine(s);
    NoFenceBefore(s, OpeningLength(s).value, BlockAt(s).value.1);
  }

  /** No fence starts in the first `c` characters after `open` when none
      starts in the first `c` characters of `s[open..]`. */
  lemma NoFenceBefore(s: string, open: nat, c: nat)
    requires open <= |s| && forall j :: 0 <= j < c ==> !OccursAt(s[open..], Fence, j)
    ensures forall k :: open <= k < open + c ==> !OccursAt(s, Fence, k)
  {
    forall k | open <= k < open + c
      ensures !OccursAt(s, Fence, k)
    {
      assert !OccursAt(s[open..], Fence, k - open);
      if k + |Fence| <= |s| {
        assert s[k..k + |Fence|] == s[open..][k - open..k - open + |Fence|];
      }
    }
  }

  /** `[^\]"]*\{`: the label text holds a '{' before any '"'. */
  predicate BraceBeforeQuote(c: string) {
    c != [] && (c[0] == '{' || (c[0] != '"' && BraceBeforeQuote(c[1..])))
  }

  lemma {:induction false} BraceBeforeQuoteHasBrace(c: string)
    ensures BraceBeforeQuote(c) ==> '{' in c
  {
    if c != [] && c[0] != '{' {
      BraceBeforeQuoteHasBrace(c[1..]);
    }
  }

  /** A label to quote at the front of `s`: '[' then text up to the first
      ']', holding a '{' before any '"'. The result is the text's length,
      and every such label is found. */
  function LabelAt(s: string): (r: Option<nat>)
    ensures r.Some? ==> r.value + 2 <= |s| && s[0] == '[' && s[r.value + 1] == ']'
    ensures r.Some? ==> ']' !in s[1..r.value + 1] && BraceBeforeQuote(s[1..r.value + 1])
    ensures (s != [] && s[0] == '[' && IndexOf(s[1..], "]").Some? &&
             BraceBeforeQuote(s[1..IndexOf(s[1..], "]").value + 1])) ==> r == IndexOf(s[1..], "]")
  {
    if s == [] || s[0] != '[' then None
    else
      match IndexOf(s[1..], "]")
      case None => None
      case Some(j) =>
        assert OccursAt(s[1..], "]", j);
        assert s[1..][j..j + 1] == [s[j + 1]];
        forall k | 1 <= k <= j
          ensures s[k] != ']'
        {
          assert !OccursAt(s[1..], "]", k - 1);
          assert s[1..][k - 1..k] == [s[k]];
        }
        if BraceBeforeQuote(s[1..j + 1]) then Some(j) else None
  }

  /** A label that already starts with a quote is never matched, so the
      "already quoted" test of the replacement is never reached. */
  lemma QuotedLabelNotMatched(s: string)
    requires |s| >= 2 && s[0] == '[' && s[1] == '"'
    ensures LabelAt(s).None?
  {
  }

  /** The inner replacement over one block's code: every matched label is
      wrapped in quotes, scanning on after it. */
  function FixLabels(s: string): string
    decreases |s|
  {
    if s == [] then []
    else
      match LabelAt(s)
      case Some(n) => "[\"" + s[1..n + 1] + "\"]" + FixLabels(s[n + 2..])
      case None => [s[0]] + FixLabels(s[1..])
  }

  /** A bracketed label holding a brace before any quote is wrapped in
      quotes, and the scan goes on after its closing bracket: the
      replacement `[text {x}]` to `["text {x}"]`. */
  lemma LabelQuoted(inner: string, rest: string)
    requires ']' !in inner && BraceBeforeQuote(inner)
    ensures FixLabels("[" + inner + "]" + rest) == "[\"" + inner + "\"]" + FixLabels(rest)
  {
    var s := "[" + inner + "]" + rest;
    var t := s[1..];
    assert t == inner + "]" + rest;
    assert t[|inner|..|inner| + 1] == "]";
    forall j | 0 <= j < |inner|
      ensures !OccursAt(t, "]", j)
    {
      assert t[j..j + 1] == [inner[j]];
    }
    IndexOfFirst(t, "]", |inner|);
    assert s[1..|inner| + 1] == inner;
    assert s[|inner| + 2..] == rest;
  }

  /** A character other than '[' starts no label and is copied. */
  lemma PlainCharKept(c: char, t: string)
    requires c != '['
    ensures FixLabels([c] + t) == [c] + FixLabels(t)
  {
    assert ([c] + t)[1..] == t;
  }

  /** Text without '"' followed by a '{' starts a label to quote. */
  lemma {:induction false} BraceAfterPlain(p: string, c: string)
    requires '"' !in p
    ensures BraceBeforeQuote(p + "{" + c)
    decreases |p|
  {
    if p != [] {
      assert (p + "{" + c)[1..] == p[1..] + "{" + c;
      BraceAfterPlain(p[1..], c);
    }
  }

  /** `preprocessMermaidContent`: each Mermaid block's code has its labels
      fixed; everything else is copied. */
  function PreprocessMermaid(s: string): string
    decreases |s|
  {
    if s == [] then []
    else
      var b := BlockAt(s);
      if b.None? then [s[0]] + PreprocessMermaid(s[1..])
      else
        var open, code := b.value.0, b.value.1;
        s[..open] + FixLabels(s[open..open + code]) + Fence + PreprocessMermaid(s[open + code + |Fence|..])
  }

  /** One step of the scan where no block starts. */
  lemma PreprocessNoBlock(s: string)
    requires s != [] && BlockAt(s).None?
    ensures PreprocessMermaid(s) == [s[0]] + PreprocessMermaid(s[1..])
  {
  }

  /** One step of the scan over a block: the text splits into opening,
      code, closing fence and the rest, and only the code is rewritten. */
  lemma PreprocessBlock(s: string)
    requires s != [] && BlockAt(s).Some?
    ensures PreprocessMermaid(s) ==
      var open, code := BlockAt(s).value.0, BlockAt(s).value.1;
      s[..open] + FixLabels(s[open..open + code]) + Fence + PreprocessMermaid(s[open + code + |Fence|..])
  {
  }

  /** The converse of the opening's shape: the fence, then white space
      through a line break at `k`, is an opening, and it reaches past `k`
      over white space only. */
  lemma OpeningFound(s: string, k: nat)
    requires StartsWith(s, MermaidOpen) && |MermaidOpen| <= k < |s| && s[k] == '\n'
    requires forall j :: |MermaidOpen| <= j < k ==> IsSpace(s[j])
    ensures OpeningLength(s).Some? && k < OpeningLength(s).value
    ensures forall j :: |MermaidOpen| <= j < OpeningLength(s).value ==> IsSpace(s[j])
  {
    var m := |MermaidOpen|;
    var rest := s[m..];
    forall j | 0 <= j <= k - m
      ensures IsSpace(rest[j])
    {
      assert rest[j] == s[m + j];
    }
    var n := SpaceRun(rest);
    assert n > k - m;
    assert rest[k - m] == '\n';
    var e := LineBreakEnd(rest, n);
    assert e.Some?;
    forall j | m <= j < m + e.value
      ensures IsSpace(s[j])
    {
      assert s[j] == rest[j - m];
    }
  }

  /** The converse of the block's shape: an opening through the line break
      at `k` and a fence somewhere after it make a block, whose code ends
      at that fence or at an earlier one. */
  lemma BlockFound(s: string, k: nat, f: nat)
    requires StartsWith(s, MermaidOpen) && |MermaidOpen| <= k < |s| && s[k] == '\n'
    requires forall j :: |MermaidOpen| <= j < k ==> IsSpace(s[j])
    requires k < f && OccursAt(s, Fence, f)
    ensures BlockAt(s).Some? && BlockAt(s).value.0 + BlockAt(s).value.1 <= f
  {
    OpeningFound(s, k);
    var open := OpeningLength(s).value;
    assert s[f] == Fence[0];
    assert f >= open;
    assert s[open..][f - open..f - open + |Fence|] == s[f..f + |Fence|];
    assert OccursAt(s[open..], Fence, f - open);
  }

  /** A Mermaid block whose code starts at once on the next line has that
      code's labels fixed; the fences and the rest of the text around it
      are kept. */
  lemma MermaidBlockQuoted(code: string, rest: string)
    requires IndexOf(code + Fence, Fence) == Some(|code|)
    requires code == [] || !IsSpace(code[0])
    ensures PreprocessMermaid(MermaidOpen + "\n" + code + Fence + rest) ==
            MermaidOpen + "\n" + FixLabels(code) + Fence + PreprocessMermaid(rest)
  {
    var o := MermaidOpen + "\n";
    var s := o + code + Fence + rest;
    assert s == MermaidOpen + "\n" + (code + Fence + rest);
    MermaidBlockAt(s, code, rest);
    BlockParts(o, code, rest);
    BlockRewrite(s, o, code, rest);
  }

  /** A block found right after the opening `o` is rewritten in place. */
  lemma BlockRewrite(s: string, o: string, code: string, rest: string)
    requires s != [] && BlockAt(s).Some? && BlockAt(s).value.0 == |o| && BlockAt(s).value.1 == |code|
    requires s[..|o|] == o && s[|o|..|o| + |code|] == code && s[|o| + |code| + |Fence|..] == rest
    ensures PreprocessMermaid(s) == o + FixLabels(code) + Fence + PreprocessMermaid(rest)
  {
    PreprocessBlock(s);
    BlockPieces(s, BlockAt(s).value.0, BlockAt(s).value.1, o, code, rest);
  }

  /** The rewritten block, read from its pieces. */
  lemma BlockPieces(s: string, a: nat, c: nat, o: string, code: string, rest: string)
    requires a + c + |Fence| <= |s|
    requires s[..a] == o && s[a..a + c] == code && s[a + c + |Fence|..] == rest
    ensures s[..a] + FixLabels(s[a..a + c]) + Fence + PreprocessMermaid(s[a + c + |Fence|..]) ==
            o + FixLabels(code) + Fence + PreprocessMermaid(rest)
  {
  }

  /** Where the block of `MermaidBlockQuoted` is found. */
  lemma MermaidBlockAt(s: string, code: string, rest: string)
    requires s == MermaidOpen + "\n" + (code + Fence + rest)
    requires IndexOf(code + Fence, Fence) == Some(|code|)
    requires code == [] || !IsSpace(code[0])
    ensures BlockAt(s).Some? && BlockAt(s).value.0 == |MermaidOpen| + 1 && BlockAt(s).value.1 == |code|
  {
    var t := code + Fence + rest;
    assert t[0] == if code == [] then Fence[0] else code[0];
    OpeningThenCode(s, t);
    BlockAfter(s, code, rest);
  }

  /** An opening followed at once by text that does not start with white
      space ends at its line break. */
  lemma OpeningThenCode(s: string, t: string)
    requires s == MermaidOpen + "\n" + t && (t == [] || !IsSpace(t[0]))
    ensures OpeningLength(s) == Some(|MermaidOpen| + 1)
  {
    var m := |MermaidOpen|;
    assert s[..m] == MermaidOpen;
    assert s[m] == '\n';
    OpeningFound(s, m);
    if t == [] {
      assert |s| == m + 1;
    } else {
      assert s[m + 1] == t[0];
    }
  }

  /** After such an opening, the code runs to its own fence. */
  lemma BlockAfter(s: string, code: string, rest: string)
    requires s == MermaidOpen + "\n" + (code + Fence + rest) && IndexOf(code + Fence, Fence) == Some(|code|)
    requires OpeningLength(s) == Some(|MermaidOpen| + 1)
    ensures BlockAt(s).Some? && BlockAt(s).value.0 == |MermaidOpen| + 1 && BlockAt(s).value.1 == |code|
  {
    assert s[|MermaidOpen| + 1..] == (code + Fence) + rest;
    IndexOfExtended(code + Fence, rest, Fence);
  }

  /** The pieces of text laid out as opening, code, fence and rest. */
  lemma BlockParts(open: string, code: string, rest: string)
    ensures var s := open + code + Fence + rest;
      && s[..|open|] == open
      && s[|open|..|open| + |code|] == code
      && s[|open| + |code| + |Fence|..] == rest
  {
  }

  /** Code without a backtick ends at the fence that follows it. */
  lemma FenceAfterPlainCode(code: string)
    requires '`' !in code
    ensures IndexOf(code + Fence, Fence) == Some(|code|)
  {
    assert Fence[0] == '`';
    IndexOfAfterFree(code, Fence);
  }

  /** `s` without its double quotes. */
  function Unquoted(s: string): (r: string)
    ensures '"' !in r
  {
    if s == [] then [] else (if s[0] == '"' then [] else [s[0]]) + Unquoted(s[1..])
  }

  lemma {:induction false} UnquotedAppend(a: string, b: string)
    ensures Unquoted(a + b) == Unquoted(a) + Unquoted(b)
  {
    if a == [] {
      assert a + b == b;
    } else {
      var h := if a[0] == '"' then [] else [a[0]];
      assert (a + b)[0] == a[0] && (a + b)[1..] == a[1..] + b;
      assert Unquoted(a + b) == h + Unquoted(a[1..] + b);
      UnquotedAppend(a[1..], b);
      assert Unquoted(a) == h + Unquoted(a[1..]);
    }
  }

  lemma UnquotedBrackets()
    ensures Unquoted("[\"") == "[" == Unquoted("[")
    ensures Unquoted("\"]") == "]" == Unquoted("]")
  {
    assert "[\""[1..] == "\"" && "\""[1..] == [];
    assert "\"]"[1..] == "]" && "]"[1..] == [];
    assert "["[1..] == [];
  }

  /** Quoting a label's text adds only the two quotes. */
  lemma UnquotedLabel(inner: string)
    ensures Unquoted("[\"" + inner + "\"]") == "[" + Unquoted(inner) + "]"
    ensures Unquoted("[" + inner + "]") == "[" + Unquoted(inner) + "]"
  {
    UnquotedBrackets();
    UnquotedAppend("[\"" + inner, "\"]");
    UnquotedAppend("[\"", inner);
    UnquotedAppend("[" + inner, "]");
    UnquotedAppend("[", inner);
  }

  /** Label fixing only inserts double quotes. */
  lemma {:induction false} FixLabelsOnlyAddsQuotes(s: string)
    ensures Unquoted(FixLabels(s)) == Unquoted(s)
    decreases |s|
  {
    if s != [] {
      match LabelAt(s)
      case Some(n) =>
        var inner := s[1..n + 1];
        var rest := s[n + 2..];
        assert s == "[" + inner + "]" + rest;
        assert FixLabels(s) == "[\"" + inner + "\"]" + FixLabels(rest);
        FixLabelsOnlyAddsQuotes(rest);
        UnquotedLabel(inner);
        UnquotedAppend("[\"" + inner + "\"]", FixLabels(rest));
        UnquotedAppend("[" + inner + "]", rest);
      case None =>
        assert FixLabels(s) == [s[0]] + FixLabels(s[1..]);
        FixLabelsOnlyAddsQuotes(s[1..]);
        assert s == [s[0]] + s[1..];
        UnquotedAppend([s[0]], FixLabels(s[1..]));
        UnquotedAppend([s[0]], s[1..]);
    }
  }

  lemma SplitThree(s: string, i: nat, j: nat, k: nat)
    requires i <= j <= k <= |s|
    ensures s == s[..i] + s[i..j] + s[j..k] + s[k..]
  {
    assert s[..j] == s[..i] + s[i..j];
    assert s[..k] == s[..j] + s[j..k];
    assert s == s[..k] + s[k..];
  }

  /** A rewritten block followed by text that only gained quotes has only
      gained quotes. */
  lemma UnquotedBlock(head: string, body: string, x: string, y: string)
    requires Unquoted(x) == Unquoted(y)
    ensures Unquoted(head + FixLabels(body) + Fence + x) == Unquoted(head + body + Fence + y)
  {
    FixLabelsOnlyAddsQuotes(body);
    UnquotedAppend(head + FixLabels(body) + Fence, x);
    UnquotedAppend(head + FixLabels(body), Fence);
    UnquotedAppend(head, FixLabels(body));
    UnquotedAppend(head + body + Fence, y);
    UnquotedAppend(head + body, Fence);
    UnquotedAppend(head, body);
  }

  /** Preprocessing only inserts double quotes: apart from them the text,
      inside and outside the blocks, is what it was. */
  lemma {:induction false} PreprocessOnlyAddsQuotes(s: string)
    ensures Unquoted(PreprocessMermaid(s)) == Unquoted(s)
    decreases |s|
  {
    if s != [] {
      if BlockAt(s).Some? {
        var open, code := BlockAt(s).value.0, BlockAt(s).value.1;
        var close := open + code + |Fence|;
        PreprocessBlock(s);
        PreprocessOnlyAddsQuotes(s[close..]);
        BlockOnlyAddsQuotes(s, open, code, PreprocessMermaid(s[close..]));
      } else {
        PreprocessNoBlock(s);
        PreprocessOnlyAddsQuotes(s[1..]);
        UnquotedCons(s[0], PreprocessMermaid(s[1..]), s[1..]);
      }
    }
  }

  /** The block case of `PreprocessOnlyAddsQuotes`: a text split around a
      closing fence, whose block code has its labels fixed and whose rest
      `x` has only gained quotes, has only gained quotes. */
  lemma BlockOnlyAddsQuotes(s: string, open: nat, code: nat, x: string)
    requires open + code + |Fence| <= |s| && s[open + code..open + code + |Fence|] == Fence
    requires Unquoted(x) == Unquoted(s[open + code + |Fence|..])
    ensures Unquoted(s[..open] + FixLabels(s[open..open + code]) + Fence + x) == Unquoted(s)
  {
    var close := open + code + |Fence|;
    SplitThree(s, open, open + code, close);
    UnquotedBlock(s[..open], s[open..open + code], x, s[close..]);
  }

  /** A character put in front of two texts equal up to quotes keeps them so. */
  lemma UnquotedCons(c: char, x: string, y: string)
    requires Unquoted(x) == Unquoted(y)
    ensures Unquoted([c] + x) == Unquoted([c] + y)
  {
    UnquotedAppend([c], x);
    UnquotedAppend([c], y);
  }

  lemma LabelHasBrace(s: string)
    ensures LabelAt(s).Some? ==> '{' in s
  {
    if LabelAt(s).Some? {
      var n := LabelAt(s).value;
      BraceBeforeQuoteHasBrace(s[1..n + 1]);
      var i :| 0 <= i < n && s[1..n + 1][i] == '{';
      assert s[i + 1] == '{';
    }
  }

  /** Code without braces has no label to fix. */
  lemma {:induction false} NoBraceNoChange(s: string)
    requires '{' !in s
    ensures FixLabels(s) == s
    decreases |s|
  {
    if s != [] {
      LabelHasBrace(s);
      NoBraceNoChange(s[1..]);
      assert s == [s[0]] + s[1..];
    }
  }

  /** Text before the first backtick is copied unchanged: no block can
      start inside it. */
  lemma {:induction false} TextBeforeBlockKept(s: string, i: nat)
    requires i <= |s| && '`' !in s[..i]
    ensures PreprocessMermaid(s) == s[..i] + PreprocessMermaid(s[i..])
    decreases i
  {
    if i > 0 {
      assert s[0] == s[..i][0] && s[0] != MermaidOpen[0];
      PreprocessNoBlock(s);
      assert s[1..][..i - 1] == s[1..i] && '`' !in s[1..i];
      TextBeforeBlockKept(s[1..], i - 1);
      assert s[1..][i - 1..] == s[i..];
      assert s[..i] == [s[0]] + s[1..][..i - 1];
    }
  }

  lemma StartOccurs(s: string, q: string, k: nat)
    requires k <= |s|
    ensures StartsWith(s[k..], q) ==> OccursAt(s, q, k)
  {
    if StartsWith(s[k..], q) {
      assert s[k..k + |q|] == s[k..][..|q|];
    }
  }

  /** An occurrence in the tail is an occurrence in the whole text. */
  lemma TailOccurs(s: string, q: string)
    requires s != []
    ensures forall k :: OccursAt(s[1..], q, k) ==> OccursAt(s, q, k + 1)
  {
    forall k | OccursAt(s[1..], q, k)
      ensures OccursAt(s, q, k + 1)
    {
      assert s[1..][k..k + |q|] == s[k + 1..k + 1 + |q|];
    }
  }

  /** Content with no Mermaid opening fence is left as it is. */
  lemma {:induction false} NoMermaidNoChange(s: string)
    requires !Includes(s, MermaidOpen)
    ensures PreprocessMermaid(s) == s
    decreases |s|
  {
    if s != [] {
      StartOccurs(s, MermaidOpen, 0);
      assert s[0..] == s;
      PreprocessNoBlock(s);
      TailOccurs(s, MermaidOpen);
      NoMermaidNoChange(s[1..]);
      assert s == [s[0]] + s[1..];
    }
  }

}
