/**
 * The `#include` preprocessor of the `star` demo's WGSL shaders.  Every
 * directive `#include <path>` at the start of the source or of a line is
 * replaced by the preprocessed text of the library file `path`; the `\n`
 * before a directive belongs to the match and is replaced with it.  A path
 * already in the context resolves to `""`.
 *
 * The library (`./lib/<path>.wgsl`, loaded by a dynamic `import`) is a map
 * from include paths to sources: a path without an entry fails to load and
 * yields `""`.  This model resolves the directives sequentially, left to
 * right, so that each path's entry is in the context before the next
 * directive is looked at; in that sequential model each path is included at
 * most once.  The source resolves sibling directives concurrently, which
 * does not give that guarantee.
 */
module ShaderPreprocess {
  import opened Wrappers

  type Library = map<string, string>

  /** The `context` map: include paths already resolved, and their preprocessed text. */
  type Context = map<string, string>

  /** `loadFromIncludePath`: the library source, or `""` when loading fails. */
  function LoadFromIncludePath(lib: Library, includePath: string): string {
    if includePath in lib then lib[includePath] else ""
  }

  // ---------------------------------------------------------------------
  // The pattern `(?:^|\n)#include\s*<(?!sceneUboDeclaration|meshUboDeclaration)([^>]+)>`
  // ---------------------------------------------------------------------

  /** `\s`: the ECMAScript white space and line terminator characters. */
  predicate IsSpace(c: char) {
    c == '\t' || c == '\n' || c == '\U{000B}' || c == '\U{000C}' || c == '\r' || c == ' '
    || c == '\U{00A0}' || c == '\U{1680}' || ('\U{2000}' <= c <= '\U{200A}')
    || c == '\U{2028}' || c == '\U{2029}' || c == '\U{202F}' || c == '\U{205F}'
    || c == '\U{3000}' || c == '\U{FEFF}'
  }

  predicate StartsWith(s: string, prefix: string) {
    |prefix| <= |s| && s[..|prefix|] == prefix
  }

  predicate AllSpace(w: string) {
    forall k :: 0 <= k < |w| ==> IsSpace(w[k])
  }

  /** What `[^>]+` accepts. */
  predicate IncludePath(path: string) {
    |path| > 0 && forall k :: 0 <= k < |path| ==> path[k] != '>'
  }

  /** The paths the negative lookahead rejects: Babylon's own uniform-buffer declarations. */
  predicate Reserved(path: string) {
    StartsWith(path, "sceneUboDeclaration") || StartsWith(path, "meshUboDeclaration")
  }

  /** The end of the run of `\s` characters starting at `i`. */
  function SkipSpace(s: string, i: nat): (j: nat)
    requires i <= |s|
    ensures i <= j <= |s| && AllSpace(s[i..j]) && (j < |s| ==> !IsSpace(s[j]))
    decreases |s| - i
  {
    if i < |s| && IsSpace(s[i]) then SkipSpace(s, i + 1) else i
  }

  /** The first `>` at or after `i`, or `|s|` when there is none. */
  function FindClose(s: string, i: nat): (j: nat)
    requires i <= |s|
    ensures i <= j <= |s| && (forall k :: i <= k < j ==> s[k] != '>') && (j < |s| ==> s[j] == '>')
    decreases |s| - i
  {
    if i < |s| && s[i] != '>' then FindClose(s, i + 1) else i
  }

  /** A directive recognised at some position: where its `<` is, where it ends, and the path it names. */
  datatype Directive = Directive(open: nat, end: nat, includePath: string)

  /**
   * `#include\s*<(?!…)([^>]+)>` tried at position `q`.  Backtracking never
   * helps: `<` is not white space and `[^>]+` cannot pass a `>`, so the
   * white space and the path are the longest runs available.
   */
  function DirectiveAt(s: string, q: nat): Option<Directive>
    requires q <= |s|
  {
    if StartsWith(s[q..], "#include") then OpenAt(s, SkipSpace(s, q + 8)) else None
  }

  /** `<(?!sceneUboDeclaration|meshUboDeclaration)` where the white space ended. */
  function OpenAt(s: string, open: nat): Option<Directive>
    requires open <= |s|
  {
    if open < |s| && s[open] == '<' && !Reserved(s[open + 1..]) then CloseAt(s, open, FindClose(s, open + 1))
    else None
  }

  /** `([^>]+)>`: a non-empty path, then the first `>`. */
  function CloseAt(s: string, open: nat, close: nat): Option<Directive>
    requires open < close <= |s|
  {
    if close < |s| && close > open + 1 then Some(Directive(open, close + 1, s[open + 1..close])) else None
  }

  /** `s` holds, from `q` on, `#include`, white space, `<` at `d.open`, the path, and `>` ending at `d.end`. */
  predicate DirectiveText(s: string, q: nat, d: Directive) {
    q + 8 <= d.open && d.end == d.open + |d.includePath| + 2 && d.end <= |s|
    && s[q..q + 8] == "#include" && AllSpace(s[q + 8..d.open]) && s[d.open] == '<'
    && s[d.open + 1..d.end - 1] == d.includePath && s[d.end - 1] == '>'
  }

  /** The directives recognised at `q` are exactly the texts of that shape with a non-reserved path. */
  lemma DirectiveIff(s: string, q: nat, d: Directive)
    requires q <= |s|
    ensures DirectiveAt(s, q) == Some(d) <==>
      DirectiveText(s, q, d) && IncludePath(d.includePath) && !Reserved(d.includePath)
  {
    if DirectiveAt(s, q) == Some(d) {
      DirectiveSound(s, q);
    }
    if DirectiveText(s, q, d) && IncludePath(d.includePath) && !Reserved(d.includePath) {
      DirectiveComplete(s, q, d);
    }
  }

  lemma DirectiveSound(s: string, q: nat)
    requires q <= |s| && DirectiveAt(s, q).Some?
    ensures var d := DirectiveAt(s, q).value;
      DirectiveText(s, q, d) && IncludePath(d.includePath) && !Reserved(d.includePath)
  {
    assert s[q..q + 8] == s[q..][..8];
    var open := SkipSpace(s, q + 8);
    var close := FindClose(s, open + 1);
    var d := DirectiveAt(s, q).value;
    assert d == Directive(open, close + 1, s[open + 1..close]);
    assert s[open + 1..] == d.includePath + s[close..];
    ReservedOfRest(d.includePath, s[open + 1..]);
  }

  lemma DirectiveComplete(s: string, q: nat, d: Directive)
    requires DirectiveText(s, q, d) && IncludePath(d.includePath) && !Reserved(d.includePath)
    ensures DirectiveAt(s, q) == Some(d)
  {
    assert s[q..][..8] == s[q..q + 8];
    SkipSpaceRun(s, q + 8, d.open);
    assert s[d.open + 1..] == d.includePath + s[d.end - 1..];
    ReservedOfRest(d.includePath, s[d.open + 1..]);
    forall k | d.open + 1 <= k < d.end - 1
      ensures s[k] != '>'
    {
      assert s[k] == d.includePath[k - d.open - 1];
    }
    FindCloseRun(s, d.open + 1, d.end - 1);
    assert CloseAt(s, d.open, d.end - 1) == Some(Directive(d.open, d.end, d.includePath));
    assert OpenAt(s, d.open) == CloseAt(s, d.open, d.end - 1);
    assert StartsWith(s[q..], "#include");
  }

  lemma SkipSpaceRun(s: string, i: nat, j: nat)
    requires i <= j < |s| && AllSpace(s[i..j]) && !IsSpace(s[j])
    ensures SkipSpace(s, i) == j
    decreases j - i
  {
    if i < j {
      assert s[i] == s[i..j][0];
      assert s[i + 1..j] == s[i..j][1..];
      SkipSpaceRun(s, i + 1, j);
    }
  }

  lemma FindCloseRun(s: string, i: nat, j: nat)
    requires i <= j < |s| && (forall k :: i <= k < j ==> s[k] != '>') && s[j] == '>'
    ensures FindClose(s, i) == j
    decreases j - i
  {
    if i < j {
      FindCloseRun(s, i + 1, j);
    }
  }

  /** The lookahead sees the path followed by `>`; the reserved names contain no `>`. */
  lemma ReservedOfRest(path: string, rest: string)
    requires IncludePath(path) && |path| < |rest| && rest[..|path|] == path && rest[|path|] == '>'
    ensures Reserved(rest) <==> Reserved(path)
  {
    ReservedPrefix(path, rest, "sceneUboDeclaration");
    ReservedPrefix(path, rest, "meshUboDeclaration");
  }

  lemma ReservedPrefix(path: string, rest: string, name: string)
    requires IncludePath(path) && |path| < |rest| && rest[..|path|] == path && rest[|path|] == '>'
    requires forall k :: 0 <= k < |name| ==> name[k] != '>'
    ensures StartsWith(rest, name) <==> StartsWith(path, name)
  {
    if StartsWith(rest, name) && |name| <= |path| {
      assert rest[..|name|] == path[..|name|];
    }
    if StartsWith(path, name) {
      assert rest[..|name|] == path[..|name|];
    }
  }

  // ---------------------------------------------------------------------
  // `source.matchAll(includeStatementRegExp)`
  // ---------------------------------------------------------------------

  /** One element of `matchAll`: `match.index`, `match.index + matched.length`, and the captured path. */
  datatype Match = Match(start: nat, end: nat, includePath: string)

  /** The directive recognised at `q` ends where `m` ends and names the path `m` captured. */
  predicate Recognised(s: string, m: Match, q: nat) {
    q <= |s| && DirectiveAt(s, q).Some?
    && DirectiveAt(s, q).value.end == m.end && DirectiveAt(s, q).value.includePath == m.includePath
  }

  /**
   * `m` is a directive at the very start of `s`, or a `\n` followed by a
   * directive, the `\n` being the first character of the match.
   */
  predicate AtLineStart(s: string, m: Match) {
    (m.start == 0 && Recognised(s, m, 0))
    || (m.start < |s| && s[m.start] == '\n' && Recognised(s, m, m.start + 1))
  }

  /**
   * The pattern tried at position `p`: `^` (only at 0, the `m` flag is
   * absent) before `#include`, or a `\n` that becomes part of the match.
   */
  function MatchAt(s: string, p: nat): (r: Option<Match>)
    requires p < |s|
    ensures r.Some? ==> r.value.start == p < r.value.end <= |s|
  {
    var first := if p == 0 then DirectiveAt(s, 0) else None;
    if first.Some? then DirectiveMatch(s, 0, first.value)
    else if s[p] == '\n' && DirectiveAt(s, p + 1).Some? then DirectiveMatch(s, p, DirectiveAt(s, p + 1).value)
    else None
  }

  function DirectiveMatch(s: string, p: nat, d: Directive): (r: Option<Match>)
    ensures r == Some(Match(p, d.end, d.includePath))
  {
    Some(Match(p, d.end, d.includePath))
  }

  /** The matches from position `p` on: the next one found, then the search resumes where it ended. */
  function MatchAll(s: string, p: nat): seq<Match>
    requires p <= |s|
    decreases |s| - p
  {
    if p == |s| then []
    else
      match MatchAt(s, p)
      case Some(m) => [m] + MatchAll(s, m.end)
      case None => MatchAll(s, p + 1)
  }

  /** The matches start at or after `from`, are non-empty, lie inside `s`, and follow one another without overlap. */
  predicate Ordered(ms: seq<Match>, from: nat, n: nat) {
    (forall i :: 0 <= i < |ms| ==> from <= ms[i].start < ms[i].end <= n)
    && (forall i, j :: 0 <= i < j < |ms| ==> ms[i].end <= ms[j].start)
  }

  lemma {:induction false} MatchAllOrdered(s: string, p: nat)
    requires p <= |s|
    ensures Ordered(MatchAll(s, p), p, |s|)
    decreases |s| - p
  {
    if p < |s| {
      match MatchAt(s, p)
      case Some(m) =>
        MatchAllOrdered(s, m.end);
        OrderedCons(m, MatchAll(s, m.end), p, |s|);
      case None =>
        MatchAllOrdered(s, p + 1);
    }
  }

  lemma OrderedCons(m: Match, rest: seq<Match>, from: nat, n: nat)
    requires from <= m.start < m.end <= n && Ordered(rest, m.end, n)
    ensures Ordered([m] + rest, from, n)
  {
    assert forall i :: 0 < i < |[m] + rest| ==> ([m] + rest)[i] == rest[i - 1];
  }

  /** A directive is recognised only at the very start or right after a `\n`. */
  lemma {:induction false} MatchesStartLines(s: string, p: nat)
    requires p <= |s|
    ensures forall m :: m in MatchAll(s, p) ==> AtLineStart(s, m)
    decreases |s| - p
  {
    if p < |s| {
      match MatchAt(s, p)
      case Some(m) =>
        MatchAtStartsLine(s, p);
        MatchesStartLines(s, m.end);
      case None => MatchesStartLines(s, p + 1);
    }
  }

  lemma MatchAtStartsLine(s: string, p: nat)
    requires p < |s| && MatchAt(s, p).Some?
    ensures AtLineStart(s, MatchAt(s, p).value)
  {
  }

  /** A path the lookahead rejects is never matched where a directive naming it starts. */
  lemma ReservedNeverMatched(s: string, q: nat)
    requires q <= |s| && DirectiveAt(s, q).Some?
    ensures !Reserved(DirectiveAt(s, q).value.includePath)
  {
    DirectiveSound(s, q);
  }

  // ---------------------------------------------------------------------
  // The `reduceRight` splice
  // ---------------------------------------------------------------------

  /** `{ start, end, src }`: a matched span and the text that replaces it. */
  datatype Splice = Splice(start: nat, end: nat, src: string)

  /** The spans lie inside a text of length `n` and follow one another without overlap. */
  predicate InOrder(spans: seq<Splice>, n: nat) {
    (forall i :: 0 <= i < |spans| ==> spans[i].start <= spans[i].end <= n)
    && (forall i, j :: 0 <= i < j < |spans| ==> spans[i].end <= spans[j].start)
  }

  /** Pairs each match with its resolved text. */
  function Splices(ms: seq<Match>, texts: seq<string>): (r: seq<Splice>)
    requires |ms| == |texts|
    ensures |r| == |ms|
    ensures forall i :: 0 <= i < |ms| ==> r[i] == Splice(ms[i].start, ms[i].end, texts[i])
  {
    seq(|ms|, i requires 0 <= i < |ms| => Splice(ms[i].start, ms[i].end, texts[i]))
  }

  lemma SplicesInOrder(ms: seq<Match>, texts: seq<string>, n: nat)
    requires |ms| == |texts| && Ordered(ms, 0, n)
    ensures InOrder(Splices(ms, texts), n)
  {
  }

  /** `acc.slice(0, start) + src + acc.slice(end)`. */
  function SpliceInto(acc: string, sp: Splice): string
    requires sp.start <= sp.end <= |acc|
  {
    acc[..sp.start] + sp.src + acc[sp.end..]
  }

  lemma SpliceIntoSplit(acc: string, sp: Splice)
    requires sp.start <= sp.end <= |acc|
    ensures SpliceInto(acc, sp) == acc[..sp.start] + (sp.src + acc[sp.end..])
  {
  }

  /** `spans.reduceRight(…, acc)`: the last span is spliced first. */
  function ReduceRight(spans: seq<Splice>, acc: string): string
    requires InOrder(spans, |acc|)
    decreases |spans|
  {
    if spans == [] then acc
    else
      var last := spans[|spans| - 1];
      var acc' := SpliceInto(acc, last);
      InOrderInit(spans, |acc|);
      ReduceRight(spans[..|spans| - 1], acc')
  }

  /** Without its last span, the spans all lie before the last one's start. */
  lemma InOrderInit(spans: seq<Splice>, n: nat)
    requires spans != [] && InOrder(spans, n)
    ensures InOrder(spans[..|spans| - 1], spans[|spans| - 1].start)
  {
  }

  lemma InOrderTail(spans: seq<Splice>, n: nat)
    requires spans != [] && InOrder(spans, n)
    ensures InOrder(spans[1..], n) && (|spans| > 1 ==> spans[0].end <= spans[1].start)
  {
  }

  /**
   * Reference definition: the text from `from` on with each span replaced
   * by its text and every other character kept, in order.
   */
  function Assemble(source: string, spans: seq<Splice>, from: nat): string
    requires from <= |source| && InOrder(spans, |source|)
    requires spans != [] ==> from <= spans[0].start
    decreases |spans|
  {
    if spans == [] then source[from..]
    else
      InOrderTail(spans, |source|);
      source[from..spans[0].start] + spans[0].src + Assemble(source, spans[1..], spans[0].end)
  }

  /** Splices that all end inside `x` leave a suffix `y` alone. */
  lemma {:induction false} ReduceRightPrefix(spans: seq<Splice>, x: string, y: string)
    requires InOrder(spans, |x|)
    ensures InOrder(spans, |x + y|) && ReduceRight(spans, x + y) == ReduceRight(spans, x) + y
    decreases |spans|
  {
    if spans != [] {
      var last := spans[|spans| - 1];
      assert (x + y)[..last.start] == x[..last.start];
      assert (x + y)[last.end..] == x[last.end..] + y;
      assert SpliceInto(x + y, last) == SpliceInto(x, last) + y;
      var init := spans[..|spans| - 1];
      assert forall i :: 0 <= i < |init| ==> init[i].end <= last.start;
      ReduceRightPrefix(init, SpliceInto(x, last), y);
    }
  }

  /** Assembling up to the last span, on the text cut before it. */
  lemma {:induction false} AssembleLast(source: string, spans: seq<Splice>, from: nat)
    requires spans != [] && InOrder(spans, |source|) && from <= spans[0].start
    requires InOrder(spans[..|spans| - 1], spans[|spans| - 1].start)
    ensures Assemble(source, spans, from)
      == Assemble(source[..spans[|spans| - 1].start], spans[..|spans| - 1], from)
        + (spans[|spans| - 1].src + source[spans[|spans| - 1].end..])
    decreases |spans|
  {
    var last := spans[|spans| - 1];
    var cut := source[..last.start];
    if |spans| == 1 {
      SliceOfPrefix(source, from, last.start, last.start);
    } else {
      var head, tail, init := spans[0], spans[1..], spans[..|spans| - 1];
      InOrderTail(spans, |source|);
      assert tail[..|tail| - 1] == init[1..] && tail[|tail| - 1] == last;
      InOrderTail(init, last.start);
      AssembleLast(source, tail, head.end);
      AssembleFront(cut, init, from);
      assert head.end <= last.start;
      SliceOfPrefix(source, from, head.start, last.start);
      AssembleFront(source, spans, from);
      ConcatAssociates(source[from..head.start] + head.src, Assemble(cut, init[1..], head.end),
        last.src + source[last.end..]);
    }
  }

  lemma ConcatAssociates<T>(a: seq<T>, b: seq<T>, c: seq<T>)
    ensures a + (b + c) == (a + b) + c
  {
  }

  lemma SliceOfPrefix(s: string, a: nat, b: nat, c: nat)
    requires a <= b <= c <= |s|
    ensures s[..c][a..] == s[a..c] && s[..c][a..b] == s[a..b]
  {
  }

  /** One unfolding of `Assemble`. */
  lemma AssembleFront(source: string, spans: seq<Splice>, from: nat)
    requires spans != [] && InOrder(spans, |source|) && from <= spans[0].start
    ensures InOrder(spans[1..], |source|)
    ensures Assemble(source, spans, from)
      == source[from..spans[0].start] + spans[0].src + Assemble(source, spans[1..], spans[0].end)
  {
    InOrderTail(spans, |source|);
  }

  /**
   * Splicing right to left keeps the earlier offsets valid: the result is
   * the source with each span replaced by its text and everything else kept.
   */
  lemma {:induction false} ReduceRightAssembles(spans: seq<Splice>, source: string)
    requires InOrder(spans, |source|)
    ensures ReduceRight(spans, source) == Assemble(source, spans, 0)
    decreases |spans|
  {
    if spans != [] {
      var last := spans[|spans| - 1];
      var init := spans[..|spans| - 1];
      InOrderInit(spans, |source|);
      AssembleLast(source, spans, 0);
      var x, y := source[..last.start], last.src + source[last.end..];
      SpliceIntoSplit(source, last);
      ReduceRightPrefix(init, x, y);
      ReduceRightAssembles(init, x);
    }
  }

  // ---------------------------------------------------------------------
  // Resolution: `resolveFromIncludePath`, `_preprocess`, `preprocess`
  // ---------------------------------------------------------------------

  /** A resolved text, and the context after resolving it. */
  datatype Resolved = Resolved(text: string, context: Context)

  /** The texts resolved for a run of matches, in order, and the context after the last. */
  datatype Results = Results(texts: seq<string>, context: Context)

  /** The library paths not yet in the context: each resolution step that loads a file removes one. */
  function Pending(lib: Library, ctx: Context): set<string> {
    lib.Keys - ctx.Keys
  }

  lemma CardSubset(a: set<string>, b: set<string>)
    requires a <= b
    ensures |a| <= |b|
  {
    assert b == a + (b - a);
  }

  lemma PendingShrinks(lib: Library, ctx: Context, ctx': Context)
    requires ctx.Keys <= ctx'.Keys
    ensures |Pending(lib, ctx')| <= |Pending(lib, ctx)|
  {
    CardSubset(Pending(lib, ctx'), Pending(lib, ctx));
  }

  lemma PendingMark(lib: Library, ctx: Context, path: string)
    requires path !in ctx
    ensures |Pending(lib, ctx[path := ""])| <= |Pending(lib, ctx)|
    ensures path in lib ==> |Pending(lib, ctx[path := ""])| < |Pending(lib, ctx)|
  {
    var rest := Pending(lib, ctx);
    assert Pending(lib, ctx[path := ""]) == rest - {path};
    CardSubset(rest - {path}, rest);
  }

  /**
   * `resolveFromIncludePath`, corrected: a path already in the context
   * yields `""`; otherwise the path is entered in the context (with `""`)
   * before its source is preprocessed, so that an include cycle reaching
   * it again yields `""`, and afterwards it maps to the preprocessed text.
   */
  function Resolve(lib: Library, path: string, ctx: Context): (r: Resolved)
    ensures ctx.Keys <= r.context.Keys && path in r.context
    ensures path in ctx ==> r == Resolved("", ctx)
    ensures path !in ctx ==> r.context[path] == r.text
    ensures LoadFromIncludePath(lib, path) == "" ==> r.text == ""
    decreases |Pending(lib, ctx)|, 1
  {
    if path in ctx then Resolved("", ctx)
    else
      var source := LoadFromIncludePath(lib, path);
      PendingMark(lib, ctx, path);
      var inner := PreprocessWith(lib, source, ctx[path := ""]);
      Resolved(inner.text, inner.context[path := inner.text])
  }

  /** `_preprocess`: the matches resolved left to right, then spliced in from the right. */
  function PreprocessWith(lib: Library, source: string, ctx: Context): (r: Resolved)
    ensures ctx.Keys <= r.context.Keys
    ensures source == "" ==> r == Resolved("", ctx)
    decreases |Pending(lib, ctx)|, if source == "" then 0 else 3
  {
    if source == "" then Resolved(source, ctx)
    else
      var ms := MatchAll(source, 0);
      var resolved := ResolveAll(lib, ms, 0, ctx);
      MatchAllOrdered(source, 0);
      SplicesInOrder(ms, resolved.texts, |source|);
      Resolved(ReduceRight(Splices(ms, resolved.texts), source), resolved.context)
  }

  /** The matches from index `i` on, each resolved in the context the previous one left. */
  function ResolveAll(lib: Library, ms: seq<Match>, i: nat, ctx: Context): (r: Results)
    requires i <= |ms|
    ensures |r.texts| == |ms| - i && ctx.Keys <= r.context.Keys
    decreases |Pending(lib, ctx)|, 2, |ms| - i
  {
    if i == |ms| then Results([], ctx)
    else
      var first := Resolve(lib, ms[i].includePath, ctx);
      PendingShrinks(lib, ctx, first.context);
      var rest := ResolveAll(lib, ms, i + 1, first.context);
      Results([first.text] + rest.texts, rest.context)
  }

  /** `preprocess`: always from an empty context. */
  function Preprocessed(lib: Library, source: string): string {
    PreprocessWith(lib, source, map[]).text
  }

  /**
   * The preprocessed text is the source with each matched span replaced by
   * the text its include resolved to, and every other character kept in order.
   */
  lemma PreprocessSplices(lib: Library, source: string, ctx: Context)
    requires source != ""
    ensures var ms := MatchAll(source, 0); var texts := ResolveAll(lib, ms, 0, ctx).texts;
      InOrder(Splices(ms, texts), |source|)
      && PreprocessWith(lib, source, ctx).text == Assemble(source, Splices(ms, texts), 0)
  {
    var ms := MatchAll(source, 0);
    var texts := ResolveAll(lib, ms, 0, ctx).texts;
    MatchAllOrdered(source, 0);
    SplicesInOrder(ms, texts, |source|);
    ReduceRightAssembles(Splices(ms, texts), source);
  }

  /** No `#include` directive at the start of the source or after any `\n`. */
  predicate NoDirective(s: string) {
    DirectiveAt(s, 0).None? && forall p :: 0 <= p < |s| && s[p] == '\n' ==> DirectiveAt(s, p + 1).None?
  }

  lemma {:induction false} NoMatches(s: string, p: nat)
    requires p <= |s| && NoDirective(s)
    ensures MatchAll(s, p) == []
    decreases |s| - p
  {
    if p < |s| {
      assert MatchAt(s, p).None?;
      NoMatches(s, p + 1);
    }
  }

  /** A source without directives comes back unchanged, and the context with it. */
  lemma NoDirectiveUnchanged(lib: Library, source: string, ctx: Context)
    requires NoDirective(source)
    ensures PreprocessWith(lib, source, ctx) == Resolved(source, ctx)
  {
    if source != "" {
      NoMatches(source, 0);
    }
  }

  /** A path already in the context contributes `""` wherever it is matched. */
  lemma {:induction false} KnownPathEmpty(lib: Library, ms: seq<Match>, i: nat, ctx: Context, j: nat)
    requires i <= j < |ms| && ms[j].includePath in ctx
    ensures ResolveAll(lib, ms, i, ctx).texts[j - i] == ""
    decreases j - i
  {
    var first := Resolve(lib, ms[i].includePath, ctx);
    if i < j {
      KnownPathEmpty(lib, ms, i + 1, first.context, j);
    }
  }

  /**
   * In the sequential model each path is included at most once: a later match
   * of the same path resolves to `""`.
   */
  lemma {:induction false} IncludedOnce(lib: Library, ms: seq<Match>, i: nat, ctx: Context, k: nat, j: nat)
    requires i <= k < j < |ms| && ms[k].includePath == ms[j].includePath
    ensures ResolveAll(lib, ms, i, ctx).texts[j - i] == ""
    decreases k - i
  {
    var first := Resolve(lib, ms[i].includePath, ctx);
    if i < k {
      IncludedOnce(lib, ms, i + 1, first.context, k, j);
    } else {
      KnownPathEmpty(lib, ms, i + 1, first.context, j);
    }
  }

  // ---------------------------------------------------------------------
  // As written: the context is set only after the recursion returns
  // ---------------------------------------------------------------------

  /**
   * `resolveFromIncludePath` as written, with the nesting of includes
   * bounded by `fuel`: `None` when resolution has not finished within
   * `fuel` levels. Nothing enters the context while its own source is
   * being preprocessed.
   */
  function ResolveAsWritten(lib: Library, path: string, ctx: Context, fuel: nat): (r: Option<Resolved>)
    ensures r.Some? ==> ctx.Keys <= r.value.context.Keys && path in r.value.context
    decreases fuel, 1
  {
    if fuel == 0 then None
    else if path in ctx then Some(Resolved("", ctx))
    else
      match PreprocessAsWritten(lib, LoadFromIncludePath(lib, path), ctx, fuel - 1)
      case None => None
      case Some(inner) => Some(Resolved(inner.text, inner.context[path := inner.text]))
  }

  function PreprocessAsWritten(lib: Library, source: string, ctx: Context, fuel: nat): (r: Option<Resolved>)
    ensures r.Some? ==> ctx.Keys <= r.value.context.Keys
    ensures source == "" ==> r == Some(Resolved("", ctx))
    decreases fuel, 3
  {
    if source == "" then Some(Resolved(source, ctx))
    else
      var ms := MatchAll(source, 0);
      match ResolveAllAsWritten(lib, ms, 0, ctx, fuel)
      case None => None
      case Some(resolved) =>
        MatchAllOrdered(source, 0);
        SplicesInOrder(ms, resolved.texts, |source|);
        Some(Resolved(ReduceRight(Splices(ms, resolved.texts), source), resolved.context))
  }

  function ResolveAllAsWritten(lib: Library, ms: seq<Match>, i: nat, ctx: Context, fuel: nat): (r: Option<Results>)
    requires i <= |ms|
    ensures r.Some? ==> |r.value.texts| == |ms| - i && ctx.Keys <= r.value.context.Keys
    decreases fuel, 2, |ms| - i
  {
    if i == |ms| then Some(Results([], ctx))
    else
      match ResolveAsWritten(lib, ms[i].includePath, ctx, fuel)
      case None => None
      case Some(first) =>
        match ResolveAllAsWritten(lib, ms, i + 1, first.context, fuel)
        case None => None
        case Some(rest) => Some(Results([first.text] + rest.texts, rest.context))
  }

  /** A library whose file `a` includes itself. */
  const SelfIncluding: Library := map["a" := "#include<a>"]

  lemma SelfIncludeMatches()
    ensures MatchAll("#include<a>", 0) == [Match(0, 11, "a")]
  {
    var s := "#include<a>";
    assert s[0..][..8] == "#include";
    assert SkipSpace(s, 8) == 8;
    assert FindClose(s, 10) == 10;
    assert FindClose(s, 9) == 10;
    assert s[9..] == "a>";
    assert !Reserved(s[9..]);
    assert s[8] == '<' && s[9..10] == "a";
    assert CloseAt(s, 8, 10) == Some(Directive(8, 11, "a"));
    assert OpenAt(s, 8) == Some(Directive(8, 11, "a"));
    assert DirectiveAt(s, 0) == Some(Directive(8, 11, "a"));
    assert MatchAt(s, 0) == Some(Match(0, 11, "a"));
  }

  /** As written, preprocessing `#include<a>` against that library finishes within no bound. */
  lemma {:induction false} SelfIncludeNeverFinishes(fuel: nat)
    ensures PreprocessAsWritten(SelfIncluding, "#include<a>", map[], fuel) == None
  {
    SelfIncludeMatches();
    if fuel > 0 {
      SelfIncludeNeverFinishes(fuel - 1);
    }
    assert ResolveAsWritten(SelfIncluding, "a", map[], fuel) == None;
  }

  /** Corrected, the inner include of `a` finds `a` in progress and the directive is replaced by `""`. */
  lemma SelfIncludeResolves()
    ensures Preprocessed(SelfIncluding, "#include<a>") == ""
  {
    var s := "#include<a>";
    SelfIncludeMatches();
    var ms := [Match(0, 11, "a")];
    var inProgress: Context := map["a" := ""];
    assert ResolveAll(SelfIncluding, ms, 0, inProgress).texts == [""];
    assert ReduceRight([Splice(0, 11, "")], s) == "";
    assert PreprocessWith(SelfIncluding, s, inProgress).text == "";
    assert Resolve(SelfIncluding, "a", map[]).text == "";
    assert ResolveAll(SelfIncluding, ms, 0, map[]).texts == [""];
  }

  // ---------------------------------------------------------------------
  // Without include cycles the two resolutions agree
  // ---------------------------------------------------------------------

  /** `rank` strictly decreases along every include of the library, so no path reaches itself. */
  predicate Ranked(lib: Library, rank: string -> nat) {
    forall a :: a in lib ==> IncludesBelow(lib[a], rank, rank(a))
  }

  /** Every path `source` includes ranks below `bound`. */
  predicate IncludesBelow(source: string, rank: string -> nat, bound: nat) {
    forall m :: m in MatchAll(source, 0) ==> rank(m.includePath) < bound
  }

  /** The paths in progress, each entered with `""` as the corrected resolution enters them. */
  function Marked(stack: set<string>): Context {
    map p | p in stack :: ""
  }

  /** The paths in progress rank at least `bound` and are not yet resolved. */
  predicate InProgress(ctx: Context, stack: set<string>, rank: string -> nat, bound: nat) {
    stack !! ctx.Keys && forall p :: p in stack ==> rank(p) >= bound
  }

  /**
   * The written resolution `w` finished with the text of the corrected `c`,
   * and its context is the corrected one without the paths in progress.
   */
  predicate Agree(w: Option<Resolved>, c: Resolved, stack: set<string>) {
    w.Some? && c.text == w.value.text && c.context == w.value.context + Marked(stack) && stack !! w.value.context.Keys
  }

  /** `Agree` for runs of matches. */
  predicate AgreeAll(w: Option<Results>, c: Results, stack: set<string>) {
    w.Some? && c.texts == w.value.texts && c.context == w.value.context + Marked(stack) && stack !! w.value.context.Keys
  }

  /**
   * Resolving a path of rank below `bound` with the paths in progress
   * marked: the written resolution, which marks nothing, agrees with the
   * corrected one.
   */
  lemma {:induction false} ResolveAgrees(lib: Library, rank: string -> nat, path: string, ctx: Context,
                                         stack: set<string>, bound: nat, fuel: nat)
    requires Ranked(lib, rank) && rank(path) < bound <= fuel && InProgress(ctx, stack, rank, bound)
    ensures Agree(ResolveAsWritten(lib, path, ctx, fuel), Resolve(lib, path, ctx + Marked(stack)), stack)
    decreases fuel, 1
  {
    if path !in ctx {
      var source := LoadFromIncludePath(lib, path);
      var inner := fuel - 1;
      MarkEnter(ctx, stack, path);
      RankedSource(lib, rank, path);
      PreprocessAgrees(lib, rank, source, ctx, stack + {path}, rank(path), inner);
      var w := PreprocessAsWritten(lib, source, ctx, inner).value;
      var c := PreprocessWith(lib, source, ctx + Marked(stack + {path}));
      LeaveAgrees(w, c, stack, path);
      EnterUnfolds(lib, path, ctx, ctx + Marked(stack), inner);
    }
  }

  /** One step of both resolutions for a path that is in neither context. */
  lemma EnterUnfolds(lib: Library, path: string, ctx: Context, marked: Context, inner: nat)
    requires path !in ctx && path !in marked
    requires PreprocessAsWritten(lib, LoadFromIncludePath(lib, path), ctx, inner).Some?
    ensures var w := PreprocessAsWritten(lib, LoadFromIncludePath(lib, path), ctx, inner).value;
            ResolveAsWritten(lib, path, ctx, inner + 1) == Some(Resolved(w.text, w.context[path := w.text]))
    ensures var c := PreprocessWith(lib, LoadFromIncludePath(lib, path), marked[path := ""]);
            Resolve(lib, path, marked) == Resolved(c.text, c.context[path := c.text])
  {
  }

  /** Every path the source of `path` includes ranks below `path`. */
  lemma RankedSource(lib: Library, rank: string -> nat, path: string)
    requires Ranked(lib, rank)
    ensures var source := LoadFromIncludePath(lib, path);
            source != "" ==> IncludesBelow(source, rank, rank(path))
  {
  }

  /** Entering a path in progress adds it to the marked paths. */
  lemma MarkEnter(ctx: Context, stack: set<string>, path: string)
    requires path !in ctx && path !in stack
    ensures path !in ctx + Marked(stack)
    ensures (ctx + Marked(stack))[path := ""] == ctx + Marked(stack + {path})
  {
  }

  /** Setting a path's text after its source is done removes it from the paths in progress. */
  lemma LeaveAgrees(w: Resolved, c: Resolved, stack: set<string>, path: string)
    requires path !in stack && Agree(Some(w), c, stack + {path})
    ensures Agree(Some(Resolved(w.text, w.context[path := w.text])), Resolved(c.text, c.context[path := c.text]), stack)
  {
  }

  lemma {:induction false} PreprocessAgrees(lib: Library, rank: string -> nat, source: string, ctx: Context,
                                            stack: set<string>, bound: nat, fuel: nat)
    requires Ranked(lib, rank) && bound <= fuel && InProgress(ctx, stack, rank, bound)
    requires source != "" ==> IncludesBelow(source, rank, bound)
    ensures Agree(PreprocessAsWritten(lib, source, ctx, fuel), PreprocessWith(lib, source, ctx + Marked(stack)), stack)
    decreases fuel, 3
  {
    if source != "" {
      ResolveAllAgrees(lib, rank, MatchAll(source, 0), 0, ctx, stack, bound, fuel);
    }
  }

  lemma {:induction false} ResolveAllAgrees(lib: Library, rank: string -> nat, ms: seq<Match>, i: nat, ctx: Context,
                                            stack: set<string>, bound: nat, fuel: nat)
    requires i <= |ms| && Ranked(lib, rank) && bound <= fuel && InProgress(ctx, stack, rank, bound)
    requires forall j :: i <= j < |ms| ==> rank(ms[j].includePath) < bound
    ensures AgreeAll(ResolveAllAsWritten(lib, ms, i, ctx, fuel), ResolveAll(lib, ms, i, ctx + Marked(stack)), stack)
    decreases fuel, 2, |ms| - i
  {
    if i < |ms| {
      ResolveAgrees(lib, rank, ms[i].includePath, ctx, stack, bound, fuel);
      var first := ResolveAsWritten(lib, ms[i].includePath, ctx, fuel).value;
      ResolveAllAgrees(lib, rank, ms, i + 1, first.context, stack, bound, fuel);
    }
  }

  /**
   * In a library without include cycles the written preprocessor finishes
   * once `fuel` exceeds the rank of every path the source includes, and it
   * yields the text and the context of the corrected one.
   */
  lemma PreprocessAsWrittenAgrees(lib: Library, rank: string -> nat, source: string, ctx: Context, fuel: nat)
    requires Ranked(lib, rank)
    requires IncludesBelow(source, rank, fuel)
    ensures PreprocessAsWritten(lib, source, ctx, fuel) == Some(PreprocessWith(lib, source, ctx))
  {
    PreprocessAgrees(lib, rank, source, ctx, {}, fuel, fuel);
    MarkNone(ctx);
    MarkNone(PreprocessAsWritten(lib, source, ctx, fuel).value.context);
  }

  lemma MarkNone(ctx: Context)
    ensures ctx + Marked({}) == ctx
  {
  }

  // ---------------------------------------------------------------------
  // The shared `context` Map, updated in place
  // ---------------------------------------------------------------------

  /** The `context` of one preprocessing run: include paths and their preprocessed text. */
  class IncludeContext {
    var entries: Context

    constructor()
      ensures entries == map[]
    {
      entries := map[];
    }

    /** `resolveFromIncludePath`, corrected (the path is entered before its source is preprocessed). */
    method ResolveFromIncludePath(lib: Library, includePath: string) returns (text: string)
      modifies this
      ensures Resolved(text, entries) == Resolve(lib, includePath, old(entries))
      decreases |Pending(lib, entries)|, 1
    {
      if includePath in entries {
        return "";
      }
      var source := LoadFromIncludePath(lib, includePath);
      PendingMark(lib, entries, includePath);
      entries := entries[includePath := ""];
      var preprocessed := PreprocessSource(lib, source);
      entries := entries[includePath := preprocessed];
      return preprocessed;
    }

    /** `_preprocess`: resolves the matches in order, then splices them in from the right. */
    method PreprocessSource(lib: Library, source: string) returns (text: string)
      modifies this
      ensures Resolved(text, entries) == PreprocessWith(lib, source, old(entries))
      decreases |Pending(lib, entries)|, if source == "" then 0 else 3
    {
      if source == "" {
        return source;
      }
      var ms := MatchAll(source, 0);
      var texts: seq<string> := [];
      var i := 0;
      while i < |ms|
        invariant i <= |ms| && |texts| == i && old(entries).Keys <= entries.Keys
        invariant ResolveAll(lib, ms, 0, old(entries))
          == Results(texts + ResolveAll(lib, ms, i, entries).texts, ResolveAll(lib, ms, i, entries).context)
        decreases |ms| - i
      {
        ghost var before := entries;
        PendingShrinks(lib, old(entries), entries);
        var src := ResolveFromIncludePath(lib, ms[i].includePath);
        ConcatAssociates(texts, [src], ResolveAll(lib, ms, i + 1, entries).texts);
        assert ResolveAll(lib, ms, i, before).texts == [src] + ResolveAll(lib, ms, i + 1, entries).texts;
        texts := texts + [src];
        i := i + 1;
      }
      assert texts == ResolveAll(lib, ms, 0, old(entries)).texts;
      MatchAllOrdered(source, 0);
      SplicesInOrder(ms, texts, |source|);
      text := ReduceRight(Splices(ms, texts), source);
    }
  }

  /** `preprocess`: a fresh, empty context for each run. */
  method Preprocess(lib: Library, source: string) returns (text: string)
    ensures text == Preprocessed(lib, source)
  {
    var context := new IncludeContext();
    text := context.PreprocessSource(lib, source);
  }

}
