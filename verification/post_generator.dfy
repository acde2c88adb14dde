/** The LinkedIn post generator of pages/07_Day7.py: theme and font choices
    select CSS to inject, an empty content URL is refused before any call,
    the prompt embeds tone, word count and URL, and the answer's literal
    `\n` sequences are turned into line breaks for display. The completion
    call is a parameter. */
module PostGenerator {
  import opened Wrappers
  import opened Text

  /** The colours of one theme: page background and text, headings, and
      button background and text. */
  datatype Palette = Palette(background: string, text: string, heading: string, button: string, buttonText: string)

  const NamedThemes: set<string> := {"Light", "Elegant", "Ocean", "Sunset", "Forest", "Midnight", "Minimal"}

  /** A top-to-bottom gradient background from one colour to another. */
  function Gradient(from: string, to: string): string
  {
    "linear-gradient(180deg, " + from + " 0%, " + to + " 100%)"
  }

  const LightPalette: Palette := Palette("#f7f7fb", "#1f2937", "#111827", "#2563eb", "white")
  const ElegantPalette: Palette := Palette(Gradient("#2c1e5b", "#1a1336"), "#e5e7eb", "#f9fafb", "#7c3aed", "white")
  const OceanPalette: Palette := Palette("#0b1220", "#e2e8f0", "#bae6fd", "#0ea5e9", "#0b1220")
  const SunsetPalette: Palette := Palette(Gradient("#2b1b2f", "#3b1f2b"), "#fde68a", "#fcd34d", "#f97316", "white")
  const ForestPalette: Palette := Palette("#0f1e17", "#d1fae5", "#a7f3d0", "#10b981", "#0f1e17")
  const MidnightPalette: Palette := Palette("#0b0f1a", "#e5e7eb", "#c7d2fe", "#6366f1", "white")
  const MinimalPalette: Palette := Palette("#ffffff", "#111827", "#111827", "#111827", "white")

  /** The palette of each theme with its own CSS; "Default" has none. */
  function PaletteOf(theme: string): (p: Option<Palette>)
    ensures p.Some? <==> theme in NamedThemes
  {
    match theme
    case "Light" => Some(LightPalette)
    case "Elegant" => Some(ElegantPalette)
    case "Ocean" => Some(OceanPalette)
    case "Sunset" => Some(SunsetPalette)
    case "Forest" => Some(ForestPalette)
    case "Midnight" => Some(MidnightPalette)
    case "Minimal" => Some(MinimalPalette)
    case _ => None
  }

  /** No palette value contains ';', the end of a CSS declaration. */
  predicate PlainPalette(p: Palette)
  {
    ';' !in p.background && ';' !in p.text && ';' !in p.heading && ';' !in p.button && ';' !in p.buttonText
  }

  const BlockStart: string := "\n        <style>\n        .stApp { background: "
  const AfterBackground: string := ";" + " color: "
  const AfterText: string := ";" + " }\n        .stApp h1, .stApp h2, .stApp h3 { color: "
  const AfterHeading: string := ";" + " }\n        .stButton>button { background: "
  const AfterButton: string := ";" + " color: "
  const BlockEnd: string := ";" + " border: none; }\n        [data-testid=\"stExpander\"] { background: transparent !important; }\n        </style>\n        "

  /** The `<style>` block every theme shares, filled with its palette. */
  function ThemeBlock(p: Palette): string
  {
    BlockStart + (p.background + (AfterBackground + (p.text + (AfterText + (p.heading
      + (AfterHeading + (p.button + (AfterButton + (p.buttonText + BlockEnd)))))))))
  }

  /** `theme_css`: the theme's block, or nothing for "Default". */
  function ThemeCss(theme: string): (css: string)
    ensures css == "" <==> theme !in NamedThemes
    ensures theme in NamedThemes ==> css == ThemeBlock(PaletteOf(theme).value)
  {
    match PaletteOf(theme)
    case Some(p) => ThemeBlock(p)
    case None => ""
  }

  lemma {:induction false} FirstIndexAfter(a: string, x: string, c: char)
    requires c !in a && |x| > 0 && x[0] == c
    ensures IndexOf(a + x, c) == |a|
  {
    if a != [] {
      assert (a + x)[1..] == a[1..] + x;
      FirstIndexAfter(a[1..], x, c);
    }
  }

  /** Two texts free of ';', each followed by text starting with ';', are
      told apart at the first ';'. */
  lemma CutAtSemicolon(a: string, x: string, b: string, y: string)
    requires ';' !in a && ';' !in b
    requires |x| > 0 && x[0] == ';' && |y| > 0 && y[0] == ';'
    requires a + x == b + y
    ensures a == b && x == y
  {
    FirstIndexAfter(a, x, ';');
    FirstIndexAfter(b, y, ';');
    assert a == (a + x)[..|a|];
    assert b == (b + y)[..|b|];
    StripPrefix(a, x, y);
  }

  lemma StripPrefix(pre: string, x: string, y: string)
    requires pre + x == pre + y
    ensures x == y
  {
    assert x == (pre + x)[|pre|..];
    assert y == (pre + y)[|pre|..];
  }

  /** A theme block determines its palette. */
  lemma {:induction false} ThemeBlockInjective(p: Palette, q: Palette)
    requires PlainPalette(p) && PlainPalette(q)
    requires ThemeBlock(p) == ThemeBlock(q)
    ensures p == q
  {
    var r5p, r5q := p.buttonText + BlockEnd, q.buttonText + BlockEnd;
    var r4p, r4q := p.button + (AfterButton + r5p), q.button + (AfterButton + r5q);
    var r3p, r3q := p.heading + (AfterHeading + r4p), q.heading + (AfterHeading + r4q);
    var r2p, r2q := p.text + (AfterText + r3p), q.text + (AfterText + r3q);
    var r1p, r1q := p.background + (AfterBackground + r2p), q.background + (AfterBackground + r2q);
    assert AfterBackground[0] == ';' && AfterText[0] == ';' && AfterHeading[0] == ';';
    assert AfterButton[0] == ';' && BlockEnd[0] == ';';
    StripPrefix(BlockStart, r1p, r1q);
    CutAtSemicolon(p.background, AfterBackground + r2p, q.background, AfterBackground + r2q);
    StripPrefix(AfterBackground, r2p, r2q);
    CutAtSemicolon(p.text, AfterText + r3p, q.text, AfterText + r3q);
    StripPrefix(AfterText, r3p, r3q);
    CutAtSemicolon(p.heading, AfterHeading + r4p, q.heading, AfterHeading + r4q);
    StripPrefix(AfterHeading, r4p, r4q);
    CutAtSemicolon(p.button, AfterButton + r5p, q.button, AfterButton + r5q);
    StripPrefix(AfterButton, r5p, r5q);
    CutAtSemicolon(p.buttonText, BlockEnd, q.buttonText, BlockEnd);
  }

  /** A gradient between `;`-free colours has no `;`. */
  lemma GradientPlain(from: string, to: string)
    requires ';' !in from && ';' !in to
    ensures ';' !in Gradient(from, to)
  {
    var a, b, c := "linear-gradient(", "180deg, ", " 0%, ";
    assert ';' !in a && ';' !in b && ';' !in c && ';' !in " 100%)";
    assert "linear-gradient(180deg, " == a + b;
  }

  /** Each palette checked on its own, which keeps every proof small. */
  lemma LightPlain()
    ensures PlainPalette(LightPalette)
  {
  }

  lemma ElegantPlain()
    ensures PlainPalette(ElegantPalette)
  {
    GradientPlain("#2c1e5b", "#1a1336");
  }

  lemma OceanPlain()
    ensures PlainPalette(OceanPalette)
  {
  }

  lemma SunsetPlain()
    ensures PlainPalette(SunsetPalette)
  {
    GradientPlain("#2b1b2f", "#3b1f2b");
  }

  lemma ForestPlain()
    ensures PlainPalette(ForestPalette)
  {
  }

  lemma MidnightPlain()
    ensures PlainPalette(MidnightPalette)
  {
  }

  lemma MinimalPlain()
    ensures PlainPalette(MinimalPalette)
  {
  }

  /** No colour of a named theme contains `;`. */
  lemma NamedPalettesPlain(t: string)
    requires t in NamedThemes
    ensures PlainPalette(PaletteOf(t).value)
  {
    if t == "Light" { LightPlain(); }
    else if t == "Elegant" { ElegantPlain(); }
    else if t == "Ocean" { OceanPlain(); }
    else if t == "Sunset" { SunsetPlain(); }
    else if t == "Forest" { ForestPlain(); }
    else if t == "Midnight" { MidnightPlain(); }
    else { MinimalPlain(); }
  }

  lemma NamedPalettesDistinct(t1: string, t2: string)
    requires t1 in NamedThemes && t2 in NamedThemes
    requires PaletteOf(t1) == PaletteOf(t2)
    ensures t1 == t2
  {
  }

  /** Each named theme has its own block: different themes never inject the
      same CSS. */
  lemma ThemeCssInjective(t1: string, t2: string)
    requires t1 in NamedThemes && t2 in NamedThemes
    requires ThemeCss(t1) == ThemeCss(t2)
    ensures t1 == t2
  {
    NamedPalettesPlain(t1);
    NamedPalettesPlain(t2);
    ThemeBlockInjective(PaletteOf(t1).value, PaletteOf(t2).value);
    NamedPalettesDistinct(t1, t2);
  }

  const NamedFonts: set<string> := {"Georgia", "Trebuchet MS", "Arial", "Times New Roman", "Courier New", "Verdana"}

  /** The CSS font-family value of each font other than "System". */
  function FamilyOf(font: string): (family: Option<string>)
    ensures family.Some? <==> font in NamedFonts
  {
    match font
    case "Georgia" => Some("Georgia, serif")
    case "Trebuchet MS" => Some("'Trebuchet MS', sans-serif")
    case "Arial" => Some("Arial, sans-serif")
    case "Times New Roman" => Some("'Times New Roman', serif")
    case "Courier New" => Some("'Courier New', monospace")
    case "Verdana" => Some("Verdana, sans-serif")
    case _ => None
  }

  const FontRuleStart: string := "<style>.stMarkdown p, .stMarkdown span, .stMarkdown div:not([data-testid='stExpander']) { font-family: "
  const FontRuleEnd: string := " !important; }</style>"

  /** `font_css`: one font-family rule, or nothing for "System". */
  function FontCss(font: string): (css: string)
    ensures css == "" <==> font !in NamedFonts
    ensures font in NamedFonts ==>
      |css| == |FontRuleStart| + |FamilyOf(font).value| + |FontRuleEnd|
      && css[..|FontRuleStart|] == FontRuleStart
      && OccursAt(css, FamilyOf(font).value, |FontRuleStart|)
      && css[|FontRuleStart| + |FamilyOf(font).value|..] == FontRuleEnd
  {
    match FamilyOf(font)
    case Some(family) =>
      var css := FontRuleStart + family + FontRuleEnd;
      assert css[|FontRuleStart|..|FontRuleStart| + |family|] == family;
      css
    case None => ""
  }

  /** Different fonts give different rules. */
  lemma FontCssInjective(f1: string, f2: string)
    requires f1 in NamedFonts && f2 in NamedFonts
    requires FontCss(f1) == FontCss(f2)
    ensures f1 == f2
  {
    var a, b := FamilyOf(f1).value, FamilyOf(f2).value;
    assert |a| == |b|;
    assert a == FontCss(f1)[|FontRuleStart|..|FontRuleStart| + |a|];
    assert b == FontCss(f2)[|FontRuleStart|..|FontRuleStart| + |b|];
  }

  /** What `st.markdown(theme_css + font_css)` injects, if anything. */
  function InjectedCss(theme: string, font: string): (css: Option<string>)
    ensures css.None? <==> theme !in NamedThemes && font !in NamedFonts
    ensures css.Some? ==> |css.value| >= |ThemeCss(theme)|
                          && css.value[..|ThemeCss(theme)|] == ThemeCss(theme)
                          && css.value[|ThemeCss(theme)|..] == FontCss(font)
  {
    var both := ThemeCss(theme) + FontCss(font);
    if both == "" then None
    else
      assert both[|ThemeCss(theme)|..] == FontCss(font);
      Some(both)
  }

  /** The word-count slider: 50 to 300, default 100. */
  type WordCount = n: nat | 50 <= n <= 300 witness 100

  /** The fixed text of a post prompt around the tone, the word count and
      the content URL. */
  datatype PromptText = PromptText(beforeTone: string, beforeWords: string, beforeUrl: string, after: string)

  /** The page's prompt text. */
  const LinkedInPrompt: PromptText := PromptText(
    "\n        You are an expert social media manager. Generate a LinkedIn post based on the following:\n\n        Tone: ",
    "\n        Desired Length: Approximately ",
    " words\n        Use content from this URL: ",
    "\n\n        Generate only the LinkedIn post text. Use dash for bullet points.\n        ")

  /** Seven pieces laid end to end: each of them sits right after the ones
      before it. */
  function Assemble(a: string, b: string, c: string, d: string, e: string, f: string, g: string): (p: string)
    ensures |p| == |a| + |b| + |c| + |d| + |e| + |f| + |g|
    ensures p[..|a|] == a
    ensures OccursAt(p, b, |a|)
    ensures OccursAt(p, c, |a| + |b|)
    ensures OccursAt(p, d, |a| + |b| + |c|)
    ensures OccursAt(p, e, |a| + |b| + |c| + |d|)
    ensures OccursAt(p, f, |a| + |b| + |c| + |d| + |e|)
    ensures OccursAt(p, g, |a| + |b| + |c| + |d| + |e| + |f|)
  {
    var p := a + b + c + d + e + f + g;
    assert p[..|a|] == a by { PieceAt([], a, b + c + d + e + f + g); }
    assert OccursAt(p, b, |a|) by { PieceAt(a, b, c + d + e + f + g); }
    assert OccursAt(p, c, |a| + |b|) by { PieceAt(a + b, c, d + e + f + g); }
    assert OccursAt(p, d, |a| + |b| + |c|) by { PieceAt(a + b + c, d, e + f + g); }
    assert OccursAt(p, e, |a| + |b| + |c| + |d|) by { PieceAt(a + b + c + d, e, f + g); }
    assert OccursAt(p, f, |a| + |b| + |c| + |d| + |e|) by { PieceAt(a + b + c + d + e, f, g); }
    assert OccursAt(p, g, |a| + |b| + |c| + |d| + |e| + |f|) by { PieceAt(a + b + c + d + e + f, g, []); }
    p
  }

  /** The middle piece of three sits right after the first. */
  lemma PieceAt(x: string, y: string, z: string)
    ensures OccursAt(x + y + z, y, |x|)
    ensures (x + y + z)[..|x|] == x
  {
    assert (x + y + z)[|x|..|x| + |y|] == y;
  }

  /** The post prompt: the fixed text, with the tone, the word count and the
      content URL embedded verbatim, in that order, and nothing else. */
  function PostPrompt(t: PromptText, tone: string, words: WordCount, content: string): (p: string)
    ensures var n := DecimalString(words);
      var i1 := |t.beforeTone| + |tone|;
      var i2 := i1 + |t.beforeWords| + |n|;
      var i3 := i2 + |t.beforeUrl| + |content|;
      && |p| == i3 + |t.after|
      && p[..|t.beforeTone|] == t.beforeTone
      && OccursAt(p, tone, |t.beforeTone|)
      && OccursAt(p, t.beforeWords, i1)
      && OccursAt(p, n, i1 + |t.beforeWords|)
      && OccursAt(p, t.beforeUrl, i2)
      && OccursAt(p, content, i2 + |t.beforeUrl|)
      && OccursAt(p, t.after, i3)
  {
    var n := DecimalString(words);
    Assemble(t.beforeTone, tone, t.beforeWords, n, t.beforeUrl, content, t.after)
  }

  /** The word count in the prompt reads back as the slider's value. */
  lemma PromptWordCount(t: PromptText, tone: string, words: WordCount, content: string)
    ensures var p, n := PostPrompt(t, tone, words, content), DecimalString(words);
      var i := |t.beforeTone| + |tone| + |t.beforeWords|;
      && i + |n| <= |p|
      && AllDigits(p[i..i + |n|])
      && ParseDecimal(p[i..i + |n|]) == words
  {
    var p, n := PostPrompt(t, tone, words, content), DecimalString(words);
    var i := |t.beforeTone| + |tone| + |t.beforeWords|;
    assert OccursAt(p, n, i);
    assert p[i..i + |n|] == n;
    ParseDecimalString(words);
  }

  /** The two-character sequence backslash, `n` occurs at `i`. */
  predicate EscapedNewlineAt(s: string, i: int)
  {
    0 <= i && i + 1 < |s| && s[i] == '\\' && s[i + 1] == 'n'
  }

  predicate NoEscapedNewline(s: string)
  {
    forall i :: 0 <= i < |s| ==> !EscapedNewlineAt(s, i)
  }

  /** `str(response).replace("\\n", "\n")`: left to right, each backslash
      followed by `n` becomes one line break; everything else is kept. */
  function Normalize(s: string): (r: string)
    ensures NoEscapedNewline(r)
    ensures NoEscapedNewline(s) ==> r == s
    ensures |s| > 0 <==> |r| > 0
    ensures |s| > 0 ==> r[0] == (if EscapedNewlineAt(s, 0) then '\n' else s[0])
    decreases |s|
  {
    if |s| < 2 then s
    else if s[0] == '\\' && s[1] == 'n' then
      var r := "\n" + Normalize(s[2..]);
      assert EscapedNewlineAt(s, 0);
      assert forall i :: 1 <= i < |r| ==> !EscapedNewlineAt(r, i) by {
        forall i | 1 <= i < |r| ensures !EscapedNewlineAt(r, i) {
          assert !EscapedNewlineAt(Normalize(s[2..]), i - 1);
        }
      }
      r
    else
      var tail := Normalize(s[1..]);
      var r := [s[0]] + tail;
      assert NoEscapedNewline(s) ==> NoEscapedNewline(s[1..]) by {
        if NoEscapedNewline(s) {
          forall i | 0 <= i < |s[1..]| ensures !EscapedNewlineAt(s[1..], i) {
            assert !EscapedNewlineAt(s, i + 1);
          }
        }
      }
      assert forall i :: 1 <= i < |r| ==> !EscapedNewlineAt(r, i) by {
        forall i | 1 <= i < |r| ensures !EscapedNewlineAt(r, i) {
          assert !EscapedNewlineAt(tail, i - 1);
        }
      }
      assert s == [s[0]] + s[1..];
      r
  }

  /** Each backslash-n becomes exactly one line break, and the text on
      either side of it is normalised on its own: the scan never pairs the
      last character before it with the backslash. */
  lemma {:induction false} NormalizeReplacesEach(a: string, b: string)
    ensures Normalize(a + "\\n" + b) == Normalize(a) + "\n" + Normalize(b)
    decreases |a|
  {
    if a == [] {
      ReplacesEachEmpty(b);
    } else if |a| == 1 {
      ReplacesEachEmpty(b);
      ReplacesEachSingle(a, b);
    } else if EscapedNewlineAt(a, 0) {
      NormalizeReplacesEach(a[2..], b);
      ReplacesEachEscaped(a, b);
    } else {
      NormalizeReplacesEach(a[1..], b);
      ReplacesEachPlain(a, b);
    }
  }

  lemma ReplacesEachEmpty(b: string)
    ensures Normalize("\\n" + b) == "\n" + Normalize(b)
  {
    var s := "\\n" + b;
    NormalizeEscaped(s);
    assert s[2..] == b;
  }

  lemma ReplacesEachSingle(a: string, b: string)
    requires |a| == 1
    requires Normalize("\\n" + b) == "\n" + Normalize(b)
    ensures Normalize(a + "\\n" + b) == Normalize(a) + "\n" + Normalize(b)
  {
    var s := a + "\\n" + b;
    NormalizePlain(s);
    assert s[1..] == "\\n" + b;
  }

  lemma ReplacesEachEscaped(a: string, b: string)
    requires EscapedNewlineAt(a, 0)
    requires Normalize(a[2..] + "\\n" + b) == Normalize(a[2..]) + "\n" + Normalize(b)
    ensures Normalize(a + "\\n" + b) == Normalize(a) + "\n" + Normalize(b)
  {
    var s := a + "\\n" + b;
    assert EscapedNewlineAt(s, 0);
    NormalizeEscaped(s);
    NormalizeEscaped(a);
    DropInFirst(a, "\\n", b, 2);
    AppendAssoc("\n", Normalize(a[2..]), "\n", Normalize(b));
  }

  lemma ReplacesEachPlain(a: string, b: string)
    requires |a| >= 2 && !EscapedNewlineAt(a, 0)
    requires Normalize(a[1..] + "\\n" + b) == Normalize(a[1..]) + "\n" + Normalize(b)
    ensures Normalize(a + "\\n" + b) == Normalize(a) + "\n" + Normalize(b)
  {
    var s := a + "\\n" + b;
    assert !EscapedNewlineAt(s, 0) && s[0] == a[0];
    NormalizePlain(s);
    NormalizePlain(a);
    DropInFirst(a, "\\n", b, 1);
    AppendAssoc([a[0]], Normalize(a[1..]), "\n", Normalize(b));
  }

  lemma AppendAssoc<T>(x: seq<T>, y: seq<T>, e: seq<T>, z: seq<T>)
    ensures x + (y + e + z) == (x + y) + e + z
  {
  }

  lemma DropInFirst<T>(x: seq<T>, e: seq<T>, y: seq<T>, k: nat)
    requires k <= |x|
    ensures (x + e + y)[k..] == x[k..] + e + y
  {
  }

  /** The scan turns a leading backslash-n into one line break ... */
  lemma NormalizeEscaped(s: string)
    requires EscapedNewlineAt(s, 0)
    ensures Normalize(s) == "\n" + Normalize(s[2..])
  {
  }

  /** ... and keeps any other leading character. */
  lemma NormalizePlain(s: string)
    requires |s| >= 2 && !EscapedNewlineAt(s, 0)
    ensures Normalize(s) == [s[0]] + Normalize(s[1..])
  {
  }

  /** Normalising displayed text a second time changes nothing. */
  lemma NormalizeIdempotent(s: string)
    ensures Normalize(Normalize(s)) == Normalize(s)
  {
  }

  /** The model's side of the convention: every line break written as
      backslash, `n`. */
  function EscapeNewlines(t: string): (s: string)
    ensures |s| >= |t|
    ensures '\n' !in s
  {
    if t == [] then [] else (if t[0] == '\n' then "\\n" else [t[0]]) + EscapeNewlines(t[1..])
  }

  /** A text without backslashes whose line breaks arrive escaped is
      displayed exactly as it was written. */
  lemma {:induction false} NormalizeUndoesEscaping(t: string)
    requires '\\' !in t
    ensures Normalize(EscapeNewlines(t)) == t
    decreases |t|
  {
    if t != [] {
      var s, rest := EscapeNewlines(t), EscapeNewlines(t[1..]);
      NormalizeUndoesEscaping(t[1..]);
      assert t == [t[0]] + t[1..];
      if t[0] == '\n' {
        assert s == "\\n" + rest;
        assert s[2..] == rest;
      } else {
        assert s == [t[0]] + rest;
        assert s[1..] == rest;
        if |s| < 2 {
          assert rest == [] && t[1..] == [];
        }
      }
    }
  }

  /** What the page shows after "Generate Post". */
  datatype PostView =
    | NeedContent                                  // "Please enter a content URL", no call
    | PostFailed(message: string)                  // "Error generating post: ..."
    | Post(display: string, raw: string)           // normalised post and raw text

  /** Clicking "Generate Post": an empty URL is refused before any call;
      otherwise the model is sent the filled prompt. The page passes
      `LinkedInPrompt`. */
  function Generate(t: PromptText, content: string, tone: string, words: WordCount, llm: string -> Result<string>): (v: PostView)
    ensures v.NeedContent? <==> content == ""
    ensures content != "" ==>
      var answer := llm(PostPrompt(t, tone, words, content));
      && (v.Post? <==> answer.Ok?)
      && (v.Post? ==> v.raw == answer.value && v.display == Normalize(answer.value) && NoEscapedNewline(v.display))
      && (v.PostFailed? ==> v.message == "Error generating post: " + answer.error)
  {
    if content == "" then NeedContent
    else
      match llm(PostPrompt(t, tone, words, content))
      case Ok(response) => Post(Normalize(response), response)
      case Err(e) => PostFailed("Error generating post: " + e)
  }
}
