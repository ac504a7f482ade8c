/**
 * One transcript entry on screen (src/components/Message.jsx): which side it is
 * aligned to, and how the `code` renderer handed to the markdown library decides
 * between a highlighted block and plain inline code. Markdown parsing and the
 * colouring itself belong to the libraries and are not modelled.
 */
module MessageView {
  import opened Js

  /** `justifyContent`: user messages to the right, bot messages to the left. */
  datatype Alignment = FlexEnd | FlexStart

  /** `const isUser = !message.isBot` */
  function IsUser(isBot: bool): bool {
    !isBot
  }

  function Align(isBot: bool): (a: Alignment)
    ensures a == FlexEnd <==> !isBot
    ensures a == FlexStart <==> isBot
  {
    if IsUser(isBot) then FlexEnd else FlexStart
  }

  // ---------------------------------------------------------------------------
  // The regular expression /language-(\w+)/

  const LanguageTag: string := "language-"

  /** `\w`: an ASCII letter, digit or underscore. */
  predicate IsWordChar(c: char) {
    ('A' <= c <= 'Z') || ('a' <= c <= 'z') || ('0' <= c <= '9') || c == '_'
  }

  /** The pattern can start matching at `p`: the tag, then at least one word character. */
  predicate MatchesAt(s: string, p: int) {
    0 <= p && p + |LanguageTag| < |s|
    && s[p..p + |LanguageTag|] == LanguageTag
    && IsWordChar(s[p + |LanguageTag|])
  }

  /** `p` is the first position where the pattern can match. */
  predicate LeftmostMatch(s: string, p: int) {
    MatchesAt(s, p) && forall q :: 0 <= q < p ==> !MatchesAt(s, q)
  }

  /** `lang` is the maximal run of word characters right after the tag at `p`. */
  predicate CapturedAt(s: string, p: nat, lang: string) {
    var start := p + |LanguageTag|;
    && start + |lang| <= |s|
    && lang == s[start..start + |lang|]
    && (forall k :: 0 <= k < |lang| ==> IsWordChar(lang[k]))
    && (start + |lang| == |s| || !IsWordChar(s[start + |lang|]))
  }

  /** The length of the run of word characters that starts at `i`; `\w+` is greedy
      and nothing follows it in the pattern, so the group takes all of it. */
  function WordRunLength(s: string, i: nat): (n: nat)
    requires i <= |s|
    ensures i + n <= |s|
    ensures forall k :: i <= k < i + n ==> IsWordChar(s[k])
    ensures i + n == |s| || !IsWordChar(s[i + n])
    decreases |s| - i
  {
    if i < |s| && IsWordChar(s[i]) then 1 + WordRunLength(s, i + 1) else 0
  }

  /** Where `exec` finds its match, scanning left to right from `from`. */
  function FindMatch(s: string, from: nat): (r: Option<nat>)
    ensures r.Some? ==> from <= r.value && MatchesAt(s, r.value)
    ensures r.Some? ==> forall q :: from <= q < r.value ==> !MatchesAt(s, q)
    ensures r.None? ==> forall q :: from <= q ==> !MatchesAt(s, q)
    decreases |s| - from
  {
    if from + |LanguageTag| >= |s| then None
    else if MatchesAt(s, from) then Some(from)
    else FindMatch(s, from + 1)
  }

  /** `match[1]` when `/language-(\w+)/.exec(s)` matches, `None` when it returns null.
      A match exists exactly when the tag followed by a word character occurs; the
      language is the whole word run after the leftmost such tag. */
  function Language(s: string): (r: Option<string>)
    ensures r.None? <==> forall p :: 0 <= p < |s| ==> !MatchesAt(s, p)
    ensures r.Some? ==> exists p :: LeftmostMatch(s, p) && CapturedAt(s, p, r.value)
    ensures r.Some? ==> |r.value| > 0 && forall k :: 0 <= k < |r.value| ==> IsWordChar(r.value[k])
  {
    match FindMatch(s, 0)
    case None => None
    case Some(p) =>
      var start := p + |LanguageTag|;
      var lang := s[start..start + WordRunLength(s, start)];
      assert LeftmostMatch(s, p) && CapturedAt(s, p, lang);
      Some(lang)
  }

  // ---------------------------------------------------------------------------
  // The `code` renderer

  /** `String(children).replace(/\n$/, '')`: without the `m` flag `$` is only the end
      of the string, so at most one final newline goes. */
  function StripFinalNewline(s: string): (r: string)
    ensures |s| > 0 && s[|s| - 1] == '\n' ==> r + "\n" == s
    ensures !(|s| > 0 && s[|s| - 1] == '\n') ==> r == s
  {
    if |s| > 0 && s[|s| - 1] == '\n' then s[..|s| - 1] else s
  }

  /** Stripping undoes appending one newline, and only one. */
  lemma StripUndoesNewline(s: string)
    ensures StripFinalNewline(s + "\n") == s
    ensures StripFinalNewline(s + "\n\n") == s + "\n"
  {
  }

  /** What the renderer emits for one code span. */
  datatype CodeElement =
    | Highlighted(language: string, code: string)   // a SyntaxHighlighter block
    | Plain(className: Value, children: Value)      // `<code className=…>{children}</code>`

  /** `className || ''` as the string `exec` searches: a missing or empty class is
      searched as "", a class string as itself. */
  function ClassText(className: Value): (r: string)
    ensures !Truthy(className) ==> r == ""
    ensures className.Str? ==> r == className.s
  {
    if Truthy(className) then ToString(className) else ""
  }

  /** The `code` component: highlight only a block span (not `inline`) whose class
      names a language; otherwise pass the span through untouched. */
  function RenderCode(inline: Value, className: Value, children: Value): (r: CodeElement)
    ensures r.Highlighted? <==> !Truthy(inline) && Language(ClassText(className)).Some?
    ensures r.Highlighted? ==> r.language == Language(ClassText(className)).value
    ensures r.Highlighted? ==>
      var text := ToString(children);
      if |text| > 0 && text[|text| - 1] == '\n' then r.code + "\n" == text else r.code == text
    ensures r.Plain? ==> r.className == className && r.children == children
  {
    var match_ := Language(ClassText(className));
    if !Truthy(inline) && match_.Some? then
      Highlighted(match_.value, StripFinalNewline(ToString(children)))
    else
      Plain(className, children)
  }

  /** A span without a class is never highlighted. */
  lemma NoClassIsPlain(inline: Value, children: Value)
    ensures RenderCode(inline, Undefined, children) == Plain(Undefined, children)
  {
  }

  /** A fenced block tagged `python` holding "print(1)\n" is highlighted as python
      with the final newline gone. */
  lemma PythonBlockExample()
    ensures RenderCode(Bool(false), Str("language-python"), Str("print(1)\n"))
         == Highlighted("python", "print(1)")
  {
    var s := "language-python";
    assert MatchesAt(s, 0);
    assert FindMatch(s, 0) == Some(0);
    assert WordRunLength(s, 15) == 0;
    assert WordRunLength(s, 9) == 6;
    assert s[9..15] == "python";
  }
}
