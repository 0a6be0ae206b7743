/**
 * The WGSL shader-file registry of the `star` demo: shader file paths are
 * classified by their `<material>.vert.wgsl` / `<material>.frag.wgsl` file
 * name into a per-material table (the first file of each kind wins),
 * materials lacking one of the two shaders are dropped, and each remaining
 * material yields a vertex and a fragment load job whose source is stored
 * in Babylon's WGSL shader store under `<material><Kind>Shader`.
 *
 * Regular expressions are modelled by the function that decides them;
 * JavaScript strings are sequences of `char`.
 */
module ShaderRegistry {
  import opened Wrappers

  datatype ShaderType = Vertex | Fragment

  /** The spelling of a shader type in store keys and messages. */
  function TypeName(t: ShaderType): string {
    match t
    case Vertex => "Vertex"
    case Fragment => "Fragment"
  }

  /** The file-name extension each of the two regular expressions ends with. */
  function Extension(t: ShaderType): string {
    match t
    case Vertex => ".vert.wgsl"
    case Fragment => ".frag.wgsl"
  }

  // ---------------------------------------------------------------------
  // The two file-name patterns `^(?:.*\/)?([\w.]+)\.vert\.wgsl$` and
  // `^(?:.*\/)?([\w.]+)\.frag\.wgsl$`
  // ---------------------------------------------------------------------

  /** `\w` of a regular expression without the `u` flag. */
  predicate IsWordChar(c: char) {
    ('a' <= c <= 'z') || ('A' <= c <= 'Z') || ('0' <= c <= '9') || c == '_'
  }

  /** The class `[\w.]` of a material name. */
  predicate IsNameChar(c: char) {
    IsWordChar(c) || c == '.'
  }

  /** The characters `.` does not match (no `s` flag). */
  predicate IsLineTerminator(c: char) {
    c == '\n' || c == '\r' || c == '\U{2028}' || c == '\U{2029}'
  }

  predicate EndsWith(s: string, suffix: string) {
    |suffix| <= |s| && s[|s| - |suffix|..] == suffix
  }

  /** A non-empty run of `[\w.]`: what the capture group `([\w.]+)` accepts. */
  predicate MaterialName(n: string) {
    |n| > 0 && forall i :: 0 <= i < |n| ==> IsNameChar(n[i])
  }

  /** What the optional group `(?:.*\/)?` accepts: nothing, or a line ending in `/`. */
  predicate DirectoryPrefix(p: string) {
    p == [] || (p[|p| - 1] == '/' && forall i :: 0 <= i < |p| ==> !IsLineTerminator(p[i]))
  }

  /** The start of the longest run of name characters that ends at `k`. */
  function NameStart(s: string, k: nat): (j: nat)
    requires k <= |s|
    ensures j <= k
    ensures forall i :: j <= i < k ==> IsNameChar(s[i])
    ensures j > 0 ==> !IsNameChar(s[j - 1])
    decreases k
  {
    if k > 0 && IsNameChar(s[k - 1]) then NameStart(s, k - 1) else k
  }

  /**
   * The material name the pattern of type `t` captures from `path`, or
   * `None` when the path does not match.
   */
  function MatchMaterial(path: string, t: ShaderType): Option<string> {
    MatchBefore(path, Extension(t))
  }

  /**
   * The pattern with extension `ext`.  The name cannot contain `/`, so it
   * is the last run of name characters before the extension, and what
   * precedes it must be empty or end in `/`.
   */
  function MatchBefore(path: string, ext: string): Option<string> {
    if !EndsWith(path, ext) then None
    else
      var stem := path[..|path| - |ext|];
      var j := NameStart(stem, |stem|);
      if j < |stem| && DirectoryPrefix(stem[..j]) then Some(stem[j..]) else None
  }

  /** A match splits the path into a directory prefix, a material name and the extension. */
  lemma MatchMaterialSound(path: string, t: ShaderType)
    requires MatchMaterial(path, t).Some?
    ensures var n := MatchMaterial(path, t).value;
      var p := path[..|path| - |n| - |Extension(t)|];
      MaterialName(n) && DirectoryPrefix(p) && path == p + n + Extension(t)
  {
    MatchBeforeSound(path, Extension(t));
  }

  lemma MatchBeforeSound(path: string, ext: string)
    requires MatchBefore(path, ext).Some?
    ensures var n := MatchBefore(path, ext).value;
      var p := path[..|path| - |n| - |ext|];
      MaterialName(n) && DirectoryPrefix(p) && path == p + n + ext
  {
    var stem := path[..|path| - |ext|];
    var j := NameStart(stem, |stem|);
    var n := stem[j..];
    assert |path| - |n| - |ext| == j;
    assert path[..j] == stem[..j];
    assert path == stem[..j] + n + ext;
  }

  /** Every path built from a directory prefix, a material name and the extension matches, capturing that name. */
  lemma MatchMaterialComplete(p: string, n: string, t: ShaderType)
    requires DirectoryPrefix(p) && MaterialName(n)
    ensures MatchMaterial(p + n + Extension(t), t) == Some(n)
  {
    MatchBeforeComplete(p, n, Extension(t));
  }

  lemma MatchBeforeComplete(p: string, n: string, ext: string)
    requires DirectoryPrefix(p) && MaterialName(n)
    ensures MatchBefore(p + n + ext, ext) == Some(n)
  {
    var path := p + n + ext;
    assert path[|path| - |ext|..] == ext;
    var stem := path[..|path| - |ext|];
    assert stem == p + n;
    NameStartOfRun(p, n);
    assert stem[..|p|] == p && stem[|p|..] == n;
  }

  lemma {:induction false} NameStartOfRun(p: string, n: string)
    requires DirectoryPrefix(p) && MaterialName(n)
    ensures NameStart(p + n, |p + n|) == |p|
  {
    NameStartFrom(p, n, |n|);
  }

  lemma {:induction false} NameStartFrom(p: string, n: string, k: nat)
    requires DirectoryPrefix(p) && MaterialName(n) && k <= |n|
    ensures NameStart(p + n, |p| + k) == |p|
    decreases k
  {
    var s := p + n;
    if k > 0 {
      assert s[|p| + k - 1] == n[k - 1];
      NameStartFrom(p, n, k - 1);
    } else if |p| > 0 {
      assert s[|p| - 1] == p[|p| - 1] == '/';
    }
  }

  /** No path is both a vertex and a fragment shader file. */
  lemma ExtensionsExclusive(path: string)
    ensures !(EndsWith(path, Extension(Vertex)) && EndsWith(path, Extension(Fragment)))
  {
  }

  /** The example of the doc comment: directories are ignored. */
  lemma EarthIsAVertexShader()
    ensures MatchMaterial("/res/shader/material/planet/earth.vert.wgsl", Vertex) == Some("earth")
    ensures MatchMaterial("/res/shader/material/planet/earth.vert.wgsl", Fragment) == None
  {
    var p := "/res/shader/material/planet/";
    assert DirectoryPrefix(p);
    assert MaterialName("earth");
    assert p + "earth" + Extension(Vertex) == "/res/shader/material/planet/earth.vert.wgsl";
    MatchMaterialComplete(p, "earth", Vertex);
    ExtensionsExclusive("/res/shader/material/planet/earth.vert.wgsl");
  }

  // ---------------------------------------------------------------------
  // Classifying a path (`constructMaterialShaders`, the two `match` calls)
  // ---------------------------------------------------------------------

  /** A recognised shader file: the material it belongs to and its kind. */
  datatype ShaderFile = ShaderFile(material: string, kind: ShaderType)

  /** The vertex pattern is tried first, then the fragment pattern. */
  function Classify(path: string): Option<ShaderFile> {
    FirstMatch(MatchMaterial(path, Vertex), MatchMaterial(path, Fragment))
  }

  /** The vertex result `v` if there is one, else the fragment result `g`. */
  function FirstMatch(v: Option<string>, g: Option<string>): Option<ShaderFile> {
    match v
    case Some(n) => Some(ShaderFile(n, Vertex))
    case None =>
      match g
      case Some(n) => Some(ShaderFile(n, Fragment))
      case None => None
  }

  lemma FirstMatchOfExclusive(v: Option<string>, g: Option<string>, f: ShaderFile)
    requires v.None? || g.None?
    ensures FirstMatch(v, g) == Some(f) <==> (if f.kind == Vertex then v else g) == Some(f.material)
  {
  }

  /** A path is classified as kind `f.kind` of material `f.material` exactly when that pattern captures the name. */
  lemma ClassifyMatches(path: string, f: ShaderFile)
    ensures Classify(path) == Some(f) <==> MatchMaterial(path, f.kind) == Some(f.material)
  {
    var v, g := MatchMaterial(path, Vertex), MatchMaterial(path, Fragment);
    if v.Some? {
      MatchNeedsExtension(path, Vertex);
      ExtensionsExclusive(path);
      assert !EndsWith(path, Extension(Fragment));
      assert g == None;
    }
    FirstMatchOfExclusive(v, g, f);
  }

  lemma MatchNeedsExtension(path: string, t: ShaderType)
    requires MatchMaterial(path, t).Some?
    ensures EndsWith(path, Extension(t))
  {
  }

  /** A classified path is at least its extension long, so it is never the empty string. */
  lemma ClassifiedNonEmpty(path: string)
    requires Classify(path).Some?
    ensures |path| > |Extension(Classify(path).value.kind)| && path != ""
  {
  }

  // ---------------------------------------------------------------------
  // Material entries
  // ---------------------------------------------------------------------

  /** `MaterialShader`; `None` stands for `null`. */
  datatype MaterialShader = MaterialShader(vertexShaderFile: Option<string>, fragmentShaderFile: Option<string>)

  /** A freshly created entry: `{ vertexShaderFile: null, fragmentShaderFile: null }`. */
  const Unassigned := MaterialShader(None, None)

  function Slot(m: MaterialShader, t: ShaderType): Option<string> {
    match t
    case Vertex => m.vertexShaderFile
    case Fragment => m.fragmentShaderFile
  }

  /** Sets the slot of kind `t`; the other slot is untouched. */
  function WithSlot(m: MaterialShader, t: ShaderType, file: string): (r: MaterialShader)
    ensures Slot(r, t) == Some(file) && Slot(r, Other(t)) == Slot(m, Other(t))
  {
    match t
    case Vertex => m.(vertexShaderFile := Some(file))
    case Fragment => m.(fragmentShaderFile := Some(file))
  }

  function Other(t: ShaderType): ShaderType {
    match t
    case Vertex => Fragment
    case Fragment => Vertex
  }

  /** JavaScript truthiness of a `string | null` slot: `null` and `""` are falsy. */
  predicate Truthy(o: Option<string>) {
    o.Some? && o.value != ""
  }

  /** `isMissingShader`. */
  predicate IsMissingShader(m: MaterialShader) {
    !Truthy(m.vertexShaderFile) || !Truthy(m.fragmentShaderFile)
  }

  // ---------------------------------------------------------------------
  // The material table as a value
  // ---------------------------------------------------------------------

  /** The `shaderFiles` object: its keys in `Object.keys` order, and the entry of each key. */
  datatype Table = Table(names: seq<string>, entries: map<string, MaterialShader>)

  const EmptyTable := Table([], map[])

  /** The keys are listed once each, and no slot holds the empty string. */
  ghost predicate WellFormed(tb: Table) {
    (forall i, j :: 0 <= i < j < |tb.names| ==> tb.names[i] != tb.names[j])
    && (forall n :: n in tb.entries <==> n in tb.names)
    && (forall n, t | n in tb.entries && Slot(tb.entries[n], t).Some? :: Slot(tb.entries[n], t).value != "")
  }

  /**
   * One iteration of the loop of `constructMaterialShaders`: an unrecognised
   * path changes nothing; a recognised one creates its material's entry if
   * needed (`??=`) and fills its slot unless the slot is already truthy.
   */
  function AddFile(tb: Table, path: string): Table {
    AddClassified(tb, path, Classify(path))
  }

  /** `AddFile` once the path has been classified as `c`. */
  function AddClassified(tb: Table, path: string, c: Option<ShaderFile>): Table {
    match c
    case None => tb
    case Some(ShaderFile(n, t)) =>
      var tb' := if n in tb.entries then tb else Table(tb.names + [n], tb.entries[n := Unassigned]);
      if Truthy(Slot(tb'.entries[n], t)) then tb'
      else Table(tb'.names, tb'.entries[n := WithSlot(tb'.entries[n], t, path)])
  }

  /** The table after the loop has visited `files` in order. */
  function Construct(files: seq<string>): Table
    decreases |files|
  {
    if files == [] then EmptyTable
    else AddFile(Construct(files[..|files| - 1]), files[|files| - 1])
  }

  /** Reference definition: the first of `files` that is a shader of kind `t` for material `n`. */
  function FirstFile(files: seq<string>, n: string, t: ShaderType): Option<string>
    decreases |files|
  {
    if files == [] then None
    else if Classify(files[0]) == Some(ShaderFile(n, t)) then Some(files[0])
    else FirstFile(files[1..], n, t)
  }

  lemma {:induction false} FirstFileClassified(files: seq<string>, n: string, t: ShaderType)
    requires FirstFile(files, n, t).Some?
    ensures Classify(FirstFile(files, n, t).value) == Some(ShaderFile(n, t))
    ensures FirstFile(files, n, t).value in files
    decreases |files|
  {
    if Classify(files[0]) != Some(ShaderFile(n, t)) {
      FirstFileClassified(files[1..], n, t);
    }
  }

  /** Appending a file changes the first file of a kind only when there was none. */
  lemma {:induction false} FirstFileAppend(files: seq<string>, f: string, n: string, t: ShaderType)
    ensures FirstFile(files + [f], n, t) ==
      if FirstFile(files, n, t).Some? then FirstFile(files, n, t)
      else if Classify(f) == Some(ShaderFile(n, t)) then Some(f)
      else None
    decreases |files|
  {
    if files == [] {
      assert FirstFile([f][1..], n, t) == None;
    } else {
      assert (files + [f])[1..] == files[1..] + [f];
      FirstFileAppend(files[1..], f, n, t);
    }
  }

  /** Every table the loop builds is well formed. */
  lemma {:induction false} ConstructWellFormed(files: seq<string>)
    ensures WellFormed(Construct(files))
    decreases |files|
  {
    if files != [] {
      var f := files[|files| - 1];
      ConstructWellFormed(files[..|files| - 1]);
      if Classify(f).Some? {
        ClassifiedNonEmpty(f);
      }
      AddClassifiedWellFormed(Construct(files[..|files| - 1]), f, Classify(f));
    }
  }

  lemma AddClassifiedWellFormed(tb: Table, path: string, c: Option<ShaderFile>)
    requires WellFormed(tb) && (c.Some? ==> path != "")
    ensures WellFormed(AddClassified(tb, path, c))
  {
    match c
    case None =>
    case Some(ShaderFile(n, t)) =>
      var tb' := if n in tb.entries then tb else Table(tb.names + [n], tb.entries[n := Unassigned]);
      assert WellFormed(tb');
      if !Truthy(Slot(tb'.entries[n], t)) {
        var r := AddClassified(tb, path, c);
        assert r == Table(tb'.names, tb'.entries[n := WithSlot(tb'.entries[n], t, path)]);
        forall m, u | m in r.entries && Slot(r.entries[m], u).Some?
          ensures Slot(r.entries[m], u).value != ""
        {
          if m == n && u == Other(t) {
            assert Slot(r.entries[m], u) == Slot(tb'.entries[n], u);
          }
        }
      }
  }

  /**
   * First wins: a material has an entry exactly when some file is a shader
   * of it, and each slot holds the first file of that kind for it; later
   * duplicates change nothing.
   */
  lemma {:induction false} ConstructFirstWins(files: seq<string>, n: string, t: ShaderType)
    ensures n in Construct(files).entries <==>
      FirstFile(files, n, Vertex).Some? || FirstFile(files, n, Fragment).Some?
    ensures n in Construct(files).entries ==> Slot(Construct(files).entries[n], t) == FirstFile(files, n, t)
    decreases |files|
  {
    if files != [] {
      var init, f := files[..|files| - 1], files[|files| - 1];
      assert files == init + [f];
      ConstructFirstWins(init, n, Vertex);
      ConstructFirstWins(init, n, Fragment);
      FirstFileAppend(init, f, n, Vertex);
      FirstFileAppend(init, f, n, Fragment);
      var tb := Construct(init);
      if n in tb.entries {
        SlotsOfTable(init, n, Vertex);
        SlotsOfTable(init, n, Fragment);
      }
      AddClassifiedSlots(tb, f, Classify(f), n, Vertex);
      AddClassifiedSlots(tb, f, Classify(f), n, Fragment);
    }
  }

  /** Slots of a built table are truthy exactly when they are set. */
  lemma SlotsOfTable(files: seq<string>, n: string, t: ShaderType)
    requires n in Construct(files).entries
    ensures Truthy(Slot(Construct(files).entries[n], t)) <==> Slot(Construct(files).entries[n], t).Some?
  {
    ConstructWellFormed(files);
  }

  /** How one loop iteration acts on the entry of material `n`. */
  lemma AddClassifiedSlots(tb: Table, f: string, c: Option<ShaderFile>, n: string, t: ShaderType)
    requires n in tb.entries ==> forall u :: Truthy(Slot(tb.entries[n], u)) <==> Slot(tb.entries[n], u).Some?
    ensures n in AddClassified(tb, f, c).entries <==> n in tb.entries || (c.Some? && c.value.material == n)
    ensures n in AddClassified(tb, f, c).entries ==>
      Slot(AddClassified(tb, f, c).entries[n], t) ==
        if n in tb.entries && Slot(tb.entries[n], t).Some? then Slot(tb.entries[n], t)
        else if c == Some(ShaderFile(n, t)) then Some(f)
        else None
  {
    match c
    case None =>
    case Some(ShaderFile(m, u)) =>
      if m == n && u != t {
        var tb' := if n in tb.entries then tb else Table(tb.names + [n], tb.entries[n := Unassigned]);
        assert Other(u) == t;
        assert Slot(WithSlot(tb'.entries[n], u, f), t) == Slot(tb'.entries[n], t);
      }
  }

  /** A vertex file only ever fills a vertex slot, and a fragment file a fragment slot, of its own material. */
  lemma SlotHoldsOwnKind(files: seq<string>, n: string, t: ShaderType)
    requires n in Construct(files).entries && Slot(Construct(files).entries[n], t).Some?
    ensures Classify(Slot(Construct(files).entries[n], t).value) == Some(ShaderFile(n, t))
  {
    ConstructFirstWins(files, n, t);
    FirstFileClassified(files, n, t);
  }

  /** In a built table a material is missing a shader exactly when one of its slots is still `null`. */
  lemma MissingMeansUnassigned(files: seq<string>, n: string)
    requires n in Construct(files).entries
    ensures IsMissingShader(Construct(files).entries[n]) <==>
      Construct(files).entries[n].vertexShaderFile.None? || Construct(files).entries[n].fragmentShaderFile.None?
  {
    SlotsOfTable(files, n, Vertex);
    SlotsOfTable(files, n, Fragment);
  }

  // ---------------------------------------------------------------------
  // The loop as written: names an object literal inherits
  // ---------------------------------------------------------------------

  /** The properties every object literal inherits from `Object.prototype`. */
  const ObjectPrototypeNames: set<string> := {
    "constructor", "__proto__", "toString", "toLocaleString", "valueOf", "hasOwnProperty",
    "isPrototypeOf", "propertyIsEnumerable", "__defineGetter__", "__defineSetter__",
    "__lookupGetter__", "__lookupSetter__"
  }

  /** The inherited accessor that yields `Object.prototype` itself. */
  const ProtoKey := "__proto__"

  /** The property a slot of kind `t` is stored in. */
  function SlotProperty(t: ShaderType): string {
    match t
    case Vertex => "vertexShaderFile"
    case Fragment => "fragmentShaderFile"
  }

  /** `__proto__` is inherited; the two slot properties are not, and differ. */
  lemma NameFacts()
    ensures ProtoKey in ObjectPrototypeNames
    ensures SlotProperty(Vertex) !in ObjectPrototypeNames && SlotProperty(Fragment) !in ObjectPrototypeNames
    ensures SlotProperty(Vertex) != SlotProperty(Fragment)
  {
  }

  /**
   * The state the loop as written works on: the table, the two slot
   * properties of `Object.prototype` (a `MaterialShader` too, with `None`
   * for an absent property), and whether an assignment has thrown, which
   * ends the loop.
   */
  datatype Run = Run(table: Table, proto: MaterialShader, threw: bool)

  /** `shaderFiles[n]` is a string inherited from a slot property of `Object.prototype`. */
  predicate PollutedName(proto: MaterialShader, n: string) {
    (n == SlotProperty(Vertex) && proto.vertexShaderFile.Some?) ||
    (n == SlotProperty(Fragment) && proto.fragmentShaderFile.Some?)
  }

  /**
   * One iteration of the loop as written.  `shaderFiles[n] ??= …` creates
   * an own entry only when nothing is inherited under `n`:
   * - `__proto__` yields `Object.prototype`, whose slot property is filled
   *   unless it is already truthy;
   * - the other `Object.prototype` names yield functions, which take the
   *   write, so the table does not change;
   * - a slot property that a `__proto__` file has put on `Object.prototype`
   *   yields a string: its slots are read from `Object.prototype`, and
   *   setting one on the string throws a `TypeError` (module code is strict).
   * A run that has thrown goes no further.
   */
  function AddFileAsWritten(r: Run, path: string): Run {
    AddClassifiedAsWritten(r, path, Classify(path))
  }

  /** `AddFileAsWritten` once the path has been classified as `c`. */
  function AddClassifiedAsWritten(r: Run, path: string, c: Option<ShaderFile>): Run {
    if r.threw then r
    else
      match c
      case None => r
      case Some(ShaderFile(n, t)) =>
        if n in r.table.entries then r.(table := AddClassified(r.table, path, c))
        else if n == ProtoKey then
          (if Truthy(Slot(r.proto, t)) then r else r.(proto := WithSlot(r.proto, t, path)))
        else if n in ObjectPrototypeNames then r
        else if PollutedName(r.proto, n) then
          (if Truthy(Slot(r.proto, t)) then r else r.(threw := true))
        else r.(table := AddClassified(r.table, path, c))
  }

  /** The loop as written over `files`, with `proto` the slot properties `Object.prototype` starts with. */
  function ConstructAsWritten(files: seq<string>, proto: MaterialShader): Run
    decreases |files|
  {
    if files == [] then Run(EmptyTable, proto, false)
    else AddFileAsWritten(ConstructAsWritten(files[..|files| - 1], proto), files[|files| - 1])
  }

  /** A file named `<n>.vert.wgsl` or `<n>.frag.wgsl`, with no directory, belongs to material `n`. */
  lemma NamedFileClassified(n: string, t: ShaderType)
    requires MaterialName(n)
    ensures Classify(n + Extension(t)) == Some(ShaderFile(n, t))
  {
    assert "" + n + Extension(t) == n + Extension(t);
    MatchMaterialComplete("", n, t);
    ClassifyMatches(n + Extension(t), ShaderFile(n, t));
  }

  /** Both files of a material called `constructor` are recognised. */
  lemma ConstructorFilesClassified()
    ensures Classify("constructor.vert.wgsl") == Some(ShaderFile("constructor", Vertex))
    ensures Classify("constructor.frag.wgsl") == Some(ShaderFile("constructor", Fragment))
  {
    assert MaterialName("constructor");
    assert "constructor" + Extension(Vertex) == "constructor.vert.wgsl";
    assert "constructor" + Extension(Fragment) == "constructor.frag.wgsl";
    NamedFileClassified("constructor", Vertex);
    NamedFileClassified("constructor", Fragment);
  }

  /** As written, a complete material called `constructor` never reaches the table. */
  lemma PrototypeNamedMaterialLost()
    ensures var r := ConstructAsWritten(["constructor.vert.wgsl", "constructor.frag.wgsl"], Unassigned);
      !r.threw && r.table.entries == map[] && r.proto == Unassigned
  {
    var vert, frag := "constructor.vert.wgsl", "constructor.frag.wgsl";
    ConstructorFilesClassified();
    assert "constructor" in ObjectPrototypeNames;
    assert [vert, frag][..1] == [vert] && [vert][..0] == [];
    var start := Run(EmptyTable, Unassigned, false);
    assert ConstructAsWritten([vert], Unassigned) == AddFileAsWritten(start, vert) == start;
    assert ConstructAsWritten([vert, frag], Unassigned) == AddFileAsWritten(start, frag);
  }

  /** `Construct`, which treats every name as an own key, records both of its shaders. */
  lemma PrototypeNamedMaterialKept()
    ensures Construct(["constructor.vert.wgsl", "constructor.frag.wgsl"]).entries ==
      map["constructor" := MaterialShader(Some("constructor.vert.wgsl"), Some("constructor.frag.wgsl"))]
  {
    var vert, frag := "constructor.vert.wgsl", "constructor.frag.wgsl";
    ConstructorFilesClassified();
    assert [vert, frag][..1] == [vert] && [vert][..0] == [];
    var first := AddFile(EmptyTable, vert);
    assert Construct([vert]) == first;
    assert first.entries == map["constructor" := MaterialShader(Some(vert), None)];
    assert Construct([vert, frag]) == AddFile(first, frag);
  }

  /** A `__proto__` material followed by a material named after a slot property. */
  const PollutingFiles: seq<string> :=
    ["__proto__.vert.wgsl", "__proto__.frag.wgsl", "vertexShaderFile.vert.wgsl", "vertexShaderFile.frag.wgsl"]

  lemma PollutingFilesClassified()
    ensures Classify(PollutingFiles[0]) == Some(ShaderFile(ProtoKey, Vertex))
    ensures Classify(PollutingFiles[1]) == Some(ShaderFile(ProtoKey, Fragment))
    ensures Classify(PollutingFiles[2]) == Some(ShaderFile(SlotProperty(Vertex), Vertex))
    ensures Classify(PollutingFiles[3]) == Some(ShaderFile(SlotProperty(Vertex), Fragment))
  {
    assert MaterialName(ProtoKey) && MaterialName(SlotProperty(Vertex));
    assert PollutingFiles[0] == ProtoKey + Extension(Vertex);
    assert PollutingFiles[1] == ProtoKey + Extension(Fragment);
    assert PollutingFiles[2] == SlotProperty(Vertex) + Extension(Vertex);
    assert PollutingFiles[3] == SlotProperty(Vertex) + Extension(Fragment);
    NamedFileClassified(ProtoKey, Vertex);
    NamedFileClassified(ProtoKey, Fragment);
    NamedFileClassified(SlotProperty(Vertex), Vertex);
    NamedFileClassified(SlotProperty(Vertex), Fragment);
  }

  /**
   * As written, the `__proto__` files land on `Object.prototype`, and the
   * complete material `vertexShaderFile` then finds an inherited string:
   * no entry is made, so nothing is ever loaded.
   */
  lemma PollutedMaterialLost()
    ensures var r := ConstructAsWritten(PollutingFiles, Unassigned);
      !r.threw && r.table.entries == map[] &&
      r.proto == MaterialShader(Some(PollutingFiles[0]), Some(PollutingFiles[1]))
  {
    var fs := PollutingFiles;
    PollutingFilesClassified();
    NameFacts();
    assert fs[..4] == fs && fs[..3][..2] == fs[..2] && fs[..2][..1] == fs[..1] && fs[..1][..0] == [];
    var r0 := Run(EmptyTable, Unassigned, false);
    var r1 := r0.(proto := MaterialShader(Some(fs[0]), None));
    var r2 := r0.(proto := MaterialShader(Some(fs[0]), Some(fs[1])));
    assert ConstructAsWritten(fs[..1], Unassigned) == AddFileAsWritten(r0, fs[0]) == r1;
    assert ConstructAsWritten(fs[..2], Unassigned) == AddFileAsWritten(r1, fs[1]) == r2;
    assert ConstructAsWritten(fs[..3], Unassigned) == AddFileAsWritten(r2, fs[2]) == r2;
    assert ConstructAsWritten(fs, Unassigned) == AddFileAsWritten(r2, fs[3]) == r2;
  }

  /**
   * As written, a `vertexShaderFile` fragment file after a lone `__proto__`
   * vertex file makes the loop assign to a string, which throws.
   */
  lemma PollutionThrows()
    ensures ConstructAsWritten([PollutingFiles[0], PollutingFiles[3]], Unassigned).threw
  {
    var fs := [PollutingFiles[0], PollutingFiles[3]];
    PollutingFilesClassified();
    NameFacts();
    assert fs[..1] == [fs[0]] && [fs[0]][..0] == [];
    var r0 := Run(EmptyTable, Unassigned, false);
    var r1 := r0.(proto := MaterialShader(Some(fs[0]), None));
    assert ConstructAsWritten([fs[0]], Unassigned) == AddFileAsWritten(r0, fs[0]) == r1;
    assert ConstructAsWritten(fs, Unassigned) == AddFileAsWritten(r1, fs[1]);
  }

  /** `Construct` records both materials of those files, complete. */
  lemma PollutedMaterialKept()
    ensures Construct(PollutingFiles).entries == map[
      ProtoKey := MaterialShader(Some(PollutingFiles[0]), Some(PollutingFiles[1])),
      SlotProperty(Vertex) := MaterialShader(Some(PollutingFiles[2]), Some(PollutingFiles[3]))]
  {
    PollutingFilesClassified();
    NameFacts();
    var fs := PollutingFiles;
    TwoMaterialsKept(fs[0], fs[1], fs[2], fs[3], ProtoKey, SlotProperty(Vertex));
  }

  /** Both kinds of material `p`, then both kinds of another material `m`, give two complete entries. */
  lemma TwoMaterialsKept(pv: string, pf: string, mv: string, mf: string, p: string, m: string)
    requires p != m
    requires Classify(pv) == Some(ShaderFile(p, Vertex)) && Classify(pf) == Some(ShaderFile(p, Fragment))
    requires Classify(mv) == Some(ShaderFile(m, Vertex)) && Classify(mf) == Some(ShaderFile(m, Fragment))
    ensures Construct([pv, pf, mv, mf]).entries ==
      map[p := MaterialShader(Some(pv), Some(pf)), m := MaterialShader(Some(mv), Some(mf))]
  {
    ConstructFour(pv, pf, mv, mf);
    MaterialAdded(EmptyTable, pv, pf, p);
    assert EmptyTable.names + [p] == [p];
    MaterialAdded(Table([p], map[p := MaterialShader(Some(pv), Some(pf))]), mv, mf, m);
  }

  /** The loop over four files, one iteration at a time. */
  lemma ConstructFour(a: string, b: string, c: string, d: string)
    ensures Construct([a, b, c, d]) == AddFile(AddFile(AddFile(AddFile(EmptyTable, a), b), c), d)
  {
    assert Construct([a]) == AddFile(EmptyTable, a) by {
      ConstructAppend([], a);
      assert [] + [a] == [a];
    }
    assert Construct([a, b]) == AddFile(Construct([a]), b) by {
      ConstructAppend([a], b);
      assert [a] + [b] == [a, b];
    }
    assert Construct([a, b, c]) == AddFile(Construct([a, b]), c) by {
      ConstructAppend([a, b], c);
      assert [a, b] + [c] == [a, b, c];
    }
    assert Construct([a, b, c, d]) == AddFile(Construct([a, b, c]), d) by {
      ConstructAppend([a, b, c], d);
      assert [a, b, c] + [d] == [a, b, c, d];
    }
  }

  /** The loop over `pre + [f]` is one iteration after the loop over `pre`. */
  lemma ConstructAppend(pre: seq<string>, f: string)
    ensures Construct(pre + [f]) == AddFile(Construct(pre), f)
  {
    assert (pre + [f])[..|pre|] == pre;
  }

  /** A vertex and then a fragment file of a material without an entry add that material, complete. */
  lemma MaterialAdded(tb: Table, a: string, b: string, m: string)
    requires m !in tb.entries
    requires Classify(a) == Some(ShaderFile(m, Vertex)) && Classify(b) == Some(ShaderFile(m, Fragment))
    ensures AddFile(AddFile(tb, a), b) == Table(tb.names + [m], tb.entries[m := MaterialShader(Some(a), Some(b))])
  {
    var t1 := Table(tb.names + [m], tb.entries[m := MaterialShader(Some(a), None)]);
    assert AddFile(tb, a) == t1 by {
      NewMaterialStep(tb, a, m, Vertex);
    }
    var full := MaterialShader(Some(a), Some(b));
    assert AddFile(t1, b) == Table(t1.names, t1.entries[m := full]) by {
      EmptySlotStep(t1, b, m, Fragment);
    }
    assert t1.entries[m := full] == tb.entries[m := full];
  }

  /** A file of a material without an entry creates the entry with that slot filled. */
  lemma NewMaterialStep(tb: Table, f: string, n: string, t: ShaderType)
    requires Classify(f) == Some(ShaderFile(n, t)) && n !in tb.entries
    ensures AddFile(tb, f) == Table(tb.names + [n], tb.entries[n := WithSlot(Unassigned, t, f)])
  {
  }

  /** A file whose slot in an existing entry is empty fills it. */
  lemma EmptySlotStep(tb: Table, f: string, n: string, t: ShaderType)
    requires Classify(f) == Some(ShaderFile(n, t)) && n in tb.entries && Slot(tb.entries[n], t).None?
    ensures AddFile(tb, f) == Table(tb.names, tb.entries[n := WithSlot(tb.entries[n], t, f)])
  {
  }

  // ---------------------------------------------------------------------
  // First wins, as written
  // ---------------------------------------------------------------------

  /** Slot properties already on `Object.prototype` hold non-empty strings, as every one the loop writes does. */
  predicate ProtoFilled(proto: MaterialShader) {
    (proto.vertexShaderFile.Some? ==> proto.vertexShaderFile.value != "") &&
    (proto.fragmentShaderFile.Some? ==> proto.fragmentShaderFile.value != "")
  }

  /** One iteration on the table: it gains the file's own-named material, or stays as it was. */
  lemma TableStep(r0: Run, f: string, c: Option<ShaderFile>, n: string, t: ShaderType)
    requires WellFormed(r0.table) && (c.Some? ==> f != "")
    ensures var r := AddClassifiedAsWritten(r0, f, c);
      && WellFormed(r.table)
      && (r.table == r0.table || (!r0.threw && r.table == AddClassified(r0.table, f, c)))
      && (!r0.threw ==>
        (n in r.table.entries <==>
          (n in r0.table.entries ||
            (c.Some? && c.value.material == n && n !in ObjectPrototypeNames && !PollutedName(r0.proto, n)))))
      && (!r0.threw && n in r.table.entries ==>
        Slot(r.table.entries[n], t) ==
          if n in r0.table.entries && Slot(r0.table.entries[n], t).Some? then Slot(r0.table.entries[n], t)
          else if c == Some(ShaderFile(n, t)) then Some(f)
          else None)
  {
    AddClassifiedWellFormed(r0.table, f, c);
    AddClassifiedSlots(r0.table, f, c, n, t);
  }

  /** One iteration on `Object.prototype`: only a `__proto__` file fills an empty slot property. */
  lemma ProtoStep(r0: Run, f: string, c: Option<ShaderFile>, t: ShaderType)
    requires ProtoKey !in r0.table.entries && ProtoFilled(r0.proto) && (c.Some? ==> f != "")
    ensures var r := AddClassifiedAsWritten(r0, f, c);
      && ProtoFilled(r.proto)
      && (!r0.threw ==>
        Slot(r.proto, t) ==
          if Slot(r0.proto, t).Some? then Slot(r0.proto, t)
          else if c == Some(ShaderFile(ProtoKey, t)) then Some(f)
          else None)
  {
    NameFacts();
    if !r0.threw && c.Some? && c.value.material == ProtoKey && c.value.kind != t {
      assert t == Other(c.value.kind);
    }
  }

  /** One iteration throws exactly when it assigns to a slot of a string inherited from `Object.prototype`. */
  lemma ThrowStep(r0: Run, f: string, c: Option<ShaderFile>)
    ensures var r := AddClassifiedAsWritten(r0, f, c);
      r.threw <==>
        (r0.threw ||
          (c.Some? && c.value.material !in r0.table.entries && c.value.material !in ObjectPrototypeNames &&
            PollutedName(r0.proto, c.value.material) && !Truthy(Slot(r0.proto, c.value.kind))))
  {
    NameFacts();
  }

  /**
   * The written loop keeps its table well formed, never makes an own entry
   * for an `Object.prototype` name, and only puts paths on `Object.prototype`.
   */
  lemma {:induction false} ConstructAsWrittenWellFormed(files: seq<string>, proto: MaterialShader)
    ensures var r := ConstructAsWritten(files, proto);
      && WellFormed(r.table)
      && (forall n :: n in r.table.entries ==> n !in ObjectPrototypeNames)
      && (ProtoFilled(proto) ==> ProtoFilled(r.proto))
    decreases |files|
  {
    if files != [] {
      var init, f := files[..|files| - 1], files[|files| - 1];
      ConstructAsWrittenWellFormed(init, proto);
      var r0, c := ConstructAsWritten(init, proto), Classify(f);
      if c.Some? {
        ClassifiedNonEmpty(f);
      }
      var r := AddClassifiedAsWritten(r0, f, c);
      assert ConstructAsWritten(files, proto) == r;
      forall n | n in r.table.entries
        ensures n !in ObjectPrototypeNames
      {
        TableStep(r0, f, c, n, Vertex);
      }
      TableStep(r0, f, c, "", Vertex);
      if ProtoFilled(proto) {
        NameFacts();
        ProtoStep(r0, f, c, Vertex);
      }
    }
  }

  /** The written loop over the first `i + 1` files is one iteration after the loop over the first `i`. */
  lemma ConstructAsWrittenNext(files: seq<string>, proto: MaterialShader, i: nat)
    requires i < |files|
    ensures ConstructAsWritten(files[..i + 1], proto) == AddFileAsWritten(ConstructAsWritten(files[..i], proto), files[i])
  {
    assert files[..i + 1][..i] == files[..i];
  }

  /** Once the loop has thrown, the later files change nothing. */
  lemma {:induction false} ThrownRunStays(files: seq<string>, proto: MaterialShader, k: nat)
    requires k <= |files| && ConstructAsWritten(files[..k], proto).threw
    ensures ConstructAsWritten(files, proto) == ConstructAsWritten(files[..k], proto)
    decreases |files|
  {
    if k < |files| {
      var init := files[..|files| - 1];
      assert init[..k] == files[..k];
      ThrownRunStays(init, proto, k);
    } else {
      assert files[..k] == files;
    }
  }

  /** The slot property `u` of `Object.prototype` is set once the files `prefix` have been visited. */
  predicate Polluted(proto: MaterialShader, prefix: seq<string>, u: ShaderType) {
    Slot(proto, u).Some? || FirstFile(prefix, ProtoKey, u).Some?
  }

  /** After the files `prefix`, `shaderFiles[n]` is an inherited string. */
  predicate Blocked(proto: MaterialShader, prefix: seq<string>, n: string) {
    (n == SlotProperty(Vertex) && Polluted(proto, prefix, Vertex)) ||
    (n == SlotProperty(Fragment) && Polluted(proto, prefix, Fragment))
  }

  /** `path` is a shader file of material `n`. */
  predicate Mentions(path: string, n: string) {
    Classify(path).Some? && Classify(path).value.material == n
  }

  /** The index of the first file of material `n`, or `|files|` when there is none. */
  function FirstMention(files: seq<string>, n: string): (k: nat)
    ensures k <= |files|
    decreases |files|
  {
    if files == [] then 0
    else if Mentions(files[0], n) then 0
    else 1 + FirstMention(files[1..], n)
  }

  lemma {:induction false} FirstMentionIsFirst(files: seq<string>, n: string)
    ensures var k := FirstMention(files, n);
      (k < |files| ==> Mentions(files[k], n)) && forall i :: 0 <= i < k ==> !Mentions(files[i], n)
    decreases |files|
  {
    if files != [] && !Mentions(files[0], n) {
      FirstMentionIsFirst(files[1..], n);
      assert forall i :: 1 <= i < |files| ==> files[i] == files[1..][i - 1];
    }
  }

  lemma {:induction false} FirstMentionAppend(files: seq<string>, f: string, n: string)
    ensures FirstMention(files + [f], n) ==
      if FirstMention(files, n) < |files| then FirstMention(files, n)
      else if Mentions(f, n) then |files| else |files| + 1
    decreases |files|
  {
    if files == [] {
      assert [f][1..] == [];
    } else {
      assert (files + [f])[0] == files[0] && (files + [f])[1..] == files[1..] + [f];
      FirstMentionAppend(files[1..], f, n);
    }
  }

  /** For a last file of material `n`, the files before the first mention are those of `init`. */
  lemma FirstMentionLast(init: seq<string>, f: string, n: string)
    requires Mentions(f, n)
    ensures var files := init + [f]; files[..FirstMention(files, n)] == init[..FirstMention(init, n)]
  {
    FirstMentionAppend(init, f, n);
    var files, k0 := init + [f], FirstMention(init, n);
    assert files[..k0] == init[..k0];
  }

  /** A material with a file of some kind is mentioned before the end. */
  lemma FirstFileMentioned(files: seq<string>, n: string, t: ShaderType)
    ensures FirstFile(files, n, t).Some? ==> FirstMention(files, n) < |files|
  {
    if FirstFile(files, n, t).Some? {
      FirstMentionIsFirst(files, n);
      FirstFileClassified(files, n, t);
      var i :| 0 <= i < |files| && files[i] == FirstFile(files, n, t).value;
      assert Mentions(files[i], n);
    }
  }

  lemma {:induction false} FirstFileConcat(a: seq<string>, b: seq<string>, n: string, t: ShaderType)
    ensures FirstFile(a + b, n, t) == if FirstFile(a, n, t).Some? then FirstFile(a, n, t) else FirstFile(b, n, t)
    decreases |a|
  {
    if a == [] {
      assert a + b == b;
    } else {
      assert (a + b)[0] == a[0] && (a + b)[1..] == a[1..] + b;
      FirstFileConcat(a[1..], b, n, t);
    }
  }

  /** A slot property once set stays set: pollution only grows along the files. */
  lemma PollutedGrows(proto: MaterialShader, files: seq<string>, j: nat, m: nat, u: ShaderType)
    requires j <= m <= |files|
    ensures Polluted(proto, files[..j], u) ==> Polluted(proto, files[..m], u)
  {
    var pre := files[..m];
    assert pre[..j] == files[..j] && pre == pre[..j] + pre[j..];
    FirstFileConcat(pre[..j], pre[j..], ProtoKey, u);
  }

  /** A name once blocked stays blocked. */
  lemma BlockedGrows(proto: MaterialShader, files: seq<string>, j: nat, m: nat, n: string)
    requires j <= m <= |files|
    ensures Blocked(proto, files[..j], n) ==> Blocked(proto, files[..m], n)
  {
    PollutedGrows(proto, files, j, m, Vertex);
    PollutedGrows(proto, files, j, m, Fragment);
  }

  /**
   * While the run has not thrown, each slot property of `Object.prototype`
   * is the one it started with, or else the first `__proto__` file of that kind.
   */
  lemma {:induction false} PrototypeAsWritten(files: seq<string>, proto: MaterialShader, t: ShaderType)
    requires ProtoFilled(proto)
    ensures var r := ConstructAsWritten(files, proto);
      !r.threw ==> Slot(r.proto, t) == if Slot(proto, t).Some? then Slot(proto, t) else FirstFile(files, ProtoKey, t)
    decreases |files|
  {
    if files != [] {
      var init, f := files[..|files| - 1], files[|files| - 1];
      assert files == init + [f];
      PrototypeAsWritten(init, proto, t);
      PrototypeStep(init, f, proto, t);
    }
  }

  /** One iteration of `PrototypeAsWritten`, from the files `init` to `init + [f]`. */
  lemma PrototypeStep(init: seq<string>, f: string, proto: MaterialShader, t: ShaderType)
    requires ProtoFilled(proto)
    requires var r0 := ConstructAsWritten(init, proto);
      !r0.threw ==> Slot(r0.proto, t) == if Slot(proto, t).Some? then Slot(proto, t) else FirstFile(init, ProtoKey, t)
    ensures var r := ConstructAsWritten(init + [f], proto);
      !r.threw ==> Slot(r.proto, t) == if Slot(proto, t).Some? then Slot(proto, t) else FirstFile(init + [f], ProtoKey, t)
  {
    var files := init + [f];
    assert files[..|files| - 1] == init;
    var r0, c := ConstructAsWritten(init, proto), Classify(f);
    assert ConstructAsWritten(files, proto) == AddClassifiedAsWritten(r0, f, c);
    FirstFileAppend(init, f, ProtoKey, t);
    assert ProtoKey !in r0.table.entries && ProtoFilled(r0.proto) by {
      ConstructAsWrittenWellFormed(init, proto);
      NameFacts();
    }
    if c.Some? {
      ClassifiedNonEmpty(f);
    }
    ProtoStep(r0, f, c, t);
    ThrowStep(r0, f, c);
  }

  /** While the run has not thrown, the names that yield an inherited string are the blocked ones. */
  lemma PollutedNameAsWritten(files: seq<string>, proto: MaterialShader, n: string)
    requires ProtoFilled(proto)
    ensures var r := ConstructAsWritten(files, proto);
      !r.threw ==> (PollutedName(r.proto, n) <==> Blocked(proto, files, n))
  {
    PrototypeAsWritten(files, proto, Vertex);
    PrototypeAsWritten(files, proto, Fragment);
  }

  /**
   * First wins, for the loop as written, while it has not thrown: a material
   * has an entry exactly when it is not an `Object.prototype` name, it has a
   * file, and no `__proto__` file before its first file has made its name an
   * inherited slot property; each slot of an entry holds the first file of
   * that kind.
   */
  lemma {:induction false} FirstWinsAsWritten(files: seq<string>, proto: MaterialShader, n: string, t: ShaderType)
    requires ProtoFilled(proto)
    ensures var r := ConstructAsWritten(files, proto); var k := FirstMention(files, n);
      !r.threw ==> (n in r.table.entries <==> n !in ObjectPrototypeNames && k < |files| && !Blocked(proto, files[..k], n))
    ensures var r := ConstructAsWritten(files, proto);
      !r.threw && n in r.table.entries ==> Slot(r.table.entries[n], t) == FirstFile(files, n, t)
    decreases |files|
  {
    if files != [] {
      var init, f := files[..|files| - 1], files[|files| - 1];
      assert files == init + [f];
      FirstWinsAsWritten(init, proto, n, t);
      if !ConstructAsWritten(files, proto).threw {
        FirstWinsStep(init, f, proto, n, t);
      }
    }
  }

  /** One iteration of `FirstWinsAsWritten`, from the files `init` to `init + [f]`. */
  lemma FirstWinsStep(init: seq<string>, f: string, proto: MaterialShader, n: string, t: ShaderType)
    requires ProtoFilled(proto)
    requires var r0 := ConstructAsWritten(init, proto); var k := FirstMention(init, n);
      && (!r0.threw ==> (n in r0.table.entries <==> n !in ObjectPrototypeNames && k < |init| && !Blocked(proto, init[..k], n)))
      && (!r0.threw && n in r0.table.entries ==> Slot(r0.table.entries[n], t) == FirstFile(init, n, t))
    requires !ConstructAsWritten(init + [f], proto).threw
    ensures var files := init + [f]; var r := ConstructAsWritten(files, proto); var k := FirstMention(files, n);
      && (n in r.table.entries <==> n !in ObjectPrototypeNames && k < |files| && !Blocked(proto, files[..k], n))
      && (n in r.table.entries ==> Slot(r.table.entries[n], t) == FirstFile(files, n, t))
  {
    var files := init + [f];
    assert files[..|files| - 1] == init;
    var r0, c := ConstructAsWritten(init, proto), Classify(f);
    assert ConstructAsWritten(files, proto) == AddClassifiedAsWritten(r0, f, c);
    ThrowStep(r0, f, c);
    assert WellFormed(r0.table) by {
      ConstructAsWrittenWellFormed(init, proto);
    }
    if c.Some? {
      ClassifiedNonEmpty(f);
    }
    TableStep(r0, f, c, n, t);
    PollutedNameAsWritten(init, proto, n);
    FirstMentionAppend(init, f, n);
    FirstFileAppend(init, f, n, t);
    var k0 := FirstMention(init, n);
    if k0 < |init| {
      assert files[..k0] == init[..k0];
      BlockedGrows(proto, init, k0, |init|, n);
      assert init[..|init|] == init;
    } else {
      FirstFileMentioned(init, n, t);
      assert files[..|init|] == init;
    }
  }

  // ---------------------------------------------------------------------
  // Without `__proto__` files: the own-key table of the other files
  // ---------------------------------------------------------------------

  /** `f` is a shader file of a material named after an inherited property. */
  predicate Inherited(f: string) {
    Classify(f).Some? && Classify(f).value.material in ObjectPrototypeNames
  }

  /** The files of `files` whose material is not named after an inherited property, in order. */
  function OwnNamed(files: seq<string>): seq<string>
    decreases |files|
  {
    if files == [] then []
    else (if Inherited(files[0]) then [] else [files[0]]) + OwnNamed(files[1..])
  }

  lemma {:induction false} OwnNamedAppend(files: seq<string>, f: string)
    ensures OwnNamed(files + [f]) == OwnNamed(files) + (if Inherited(f) then [] else [f])
    decreases |files|
  {
    var tail := if Inherited(f) then [] else [f];
    if files == [] {
      assert [f][1..] == [];
      assert OwnNamed([f]) == tail + OwnNamed([]);
    } else {
      var all := files + [f];
      assert all[0] == files[0] && all[1..] == files[1..] + [f];
      OwnNamedAppend(files[1..], f);
      var head := if Inherited(files[0]) then [] else [files[0]];
      assert OwnNamed(all) == head + (OwnNamed(files[1..]) + tail);
      assert OwnNamed(files) == head + OwnNamed(files[1..]);
    }
  }

  /** Dropping the files of inherited names hides exactly those materials from the first-file lookup. */
  lemma {:induction false} FirstFileOwnNamed(files: seq<string>, n: string, t: ShaderType)
    ensures FirstFile(OwnNamed(files), n, t) == if n in ObjectPrototypeNames then None else FirstFile(files, n, t)
    decreases |files|
  {
    if files != [] {
      var f, rest := files[0], files[1..];
      FirstFileOwnNamed(rest, n, t);
      if Inherited(f) {
        assert OwnNamed(files) == OwnNamed(rest);
      } else {
        var own := [f] + OwnNamed(rest);
        assert OwnNamed(files) == own;
        assert own[0] == f && own[1..] == OwnNamed(rest);
        if Classify(f) == Some(ShaderFile(n, t)) {
          assert n !in ObjectPrototypeNames;
        }
      }
    }
  }

  /**
   * When no file is a `__proto__` shader and `Object.prototype` starts
   * clean, the loop as written never throws, leaves `Object.prototype`
   * alone, and builds the own-key table of the files whose material is not
   * named after an inherited property: it skips the others.
   */
  lemma {:induction false} ConstructAsWrittenOwnNamed(files: seq<string>)
    requires FirstFile(files, ProtoKey, Vertex) == None && FirstFile(files, ProtoKey, Fragment) == None
    ensures ConstructAsWritten(files, Unassigned) == Run(Construct(OwnNamed(files)), Unassigned, false)
    decreases |files|
  {
    if files != [] {
      var init, f := files[..|files| - 1], files[|files| - 1];
      assert files == init + [f];
      FirstFileAppend(init, f, ProtoKey, Vertex);
      FirstFileAppend(init, f, ProtoKey, Fragment);
      ConstructAsWrittenOwnNamed(init);
      OwnNamedStep(init, f);
    }
  }

  /** One iteration of `ConstructAsWrittenOwnNamed`, from the files `init` to `init + [f]`. */
  lemma OwnNamedStep(init: seq<string>, f: string)
    requires ConstructAsWritten(init, Unassigned) == Run(Construct(OwnNamed(init)), Unassigned, false)
    requires Classify(f) != Some(ShaderFile(ProtoKey, Vertex)) && Classify(f) != Some(ShaderFile(ProtoKey, Fragment))
    ensures ConstructAsWritten(init + [f], Unassigned) == Run(Construct(OwnNamed(init + [f])), Unassigned, false)
  {
    var files := init + [f];
    assert files[..|files| - 1] == init;
    OwnNamedAppend(init, f);
    var own := OwnNamed(init);
    if Inherited(f) {
      var n := Classify(f).value.material;
      assert n != ProtoKey;
      ConstructFirstWins(own, n, Vertex);
      FirstFileOwnNamed(init, n, Vertex);
      FirstFileOwnNamed(init, n, Fragment);
      assert n !in Construct(own).entries;
      assert OwnNamed(files) == own;
    } else {
      assert OwnNamed(files) == own + [f];
      assert (own + [f])[..|own|] == own;
    }
  }

  /** Without files of inherited names the written loop and the own-key construction agree. */
  lemma {:induction false} ConstructAsWrittenAgrees(files: seq<string>)
    requires forall i :: 0 <= i < |files| ==> !Inherited(files[i])
    ensures ConstructAsWritten(files, Unassigned) == Run(Construct(files), Unassigned, false)
  {
    OwnNamedOfOwn(files);
    FirstFileOwnNamed(files, ProtoKey, Vertex);
    FirstFileOwnNamed(files, ProtoKey, Fragment);
    NameFacts();
    ConstructAsWrittenOwnNamed(files);
  }

  lemma {:induction false} OwnNamedOfOwn(files: seq<string>)
    requires forall i :: 0 <= i < |files| ==> !Inherited(files[i])
    ensures OwnNamed(files) == files
    decreases |files|
  {
    if files != [] {
      assert !Inherited(files[0]);
      OwnNamedOfOwn(files[1..]);
      assert [files[0]] + files[1..] == files;
    }
  }

  // ---------------------------------------------------------------------
  // When the loop as written throws
  // ---------------------------------------------------------------------

  /**
   * The file at `j` makes the loop throw through slot property `u`: it is a
   * shader of kind `Other(u)` of the material named `SlotProperty(u)`; a
   * `__proto__` file of kind `u` comes before the first file of that
   * material (so it has no own entry); and no `__proto__` file of kind
   * `Other(u)` comes before `j` (so the inherited slot it reads is empty).
   */
  predicate ThrowsAt(proto: MaterialShader, files: seq<string>, j: nat, u: ShaderType) {
    && j < |files|
    && Classify(files[j]) == Some(ShaderFile(SlotProperty(u), Other(u)))
    && Polluted(proto, files[..FirstMention(files, SlotProperty(u))], u)
    && !Polluted(proto, files[..j], Other(u))
  }

  /** The loop as written throws exactly when some file makes it throw. */
  lemma {:induction false} ThrowsAsWritten(files: seq<string>, proto: MaterialShader)
    requires ProtoFilled(proto)
    ensures ConstructAsWritten(files, proto).threw <==> exists j: nat, u :: ThrowsAt(proto, files, j, u)
    decreases |files|
  {
    if files != [] {
      var init, f := files[..|files| - 1], files[|files| - 1];
      assert files == init + [f];
      ThrowsAsWritten(init, proto);
      var r0 := ConstructAsWritten(init, proto);
      if r0.threw {
        var j: nat, u :| ThrowsAt(proto, init, j, u);
        ThrowsAtExtends(init, f, proto, j, u);
      } else if ConstructAsWritten(files, proto).threw {
        ThrowsAtLast(init, f, proto);
      } else if exists j: nat, u :: ThrowsAt(proto, files, j, u) {
        var j: nat, u :| ThrowsAt(proto, files, j, u);
        if j < |init| {
          ThrowsAtRestricts(init, f, proto, j, u);
        } else {
          ThrowsAtLastThrows(init, f, proto, u);
        }
      }
    }
  }

  /** Where `init` throws, so does `init + [f]`, at the same file. */
  lemma ThrowsAtExtends(init: seq<string>, f: string, proto: MaterialShader, j: nat, u: ShaderType)
    requires ThrowsAt(proto, init, j, u)
    ensures ThrowsAt(proto, init + [f], j, u)
  {
    var files, m := init + [f], SlotProperty(u);
    var k := FirstMention(init, m);
    assert k < |init| by {
      FirstMentionIsFirst(init, m);
      assert Mentions(init[j], m);
    }
    assert FirstMention(files, m) == k by {
      FirstMentionAppend(init, f, m);
    }
    assert files[..k] == init[..k];
    assert files[..j] == init[..j] && files[j] == init[j];
  }

  /** A file of `init` that makes `init + [f]` throw makes `init` throw. */
  lemma ThrowsAtRestricts(init: seq<string>, f: string, proto: MaterialShader, j: nat, u: ShaderType)
    requires j < |init| && ThrowsAt(proto, init + [f], j, u)
    ensures ThrowsAt(proto, init, j, u)
  {
    var files, m := init + [f], SlotProperty(u);
    var k := FirstMention(init, m);
    assert files[j] == init[j];
    assert k < |init| by {
      FirstMentionIsFirst(init, m);
      assert Mentions(init[j], m);
    }
    assert FirstMention(files, m) == k by {
      FirstMentionAppend(init, f, m);
    }
    assert files[..k] == init[..k];
    assert files[..j] == init[..j];
  }

  /**
   * While the run has not thrown, a slot property's name without an own
   * entry was already blocked at its first file, if it has one yet.
   */
  lemma UnownedPolluted(init: seq<string>, proto: MaterialShader, u: ShaderType)
    requires ProtoFilled(proto)
    requires var r0 := ConstructAsWritten(init, proto); !r0.threw && SlotProperty(u) !in r0.table.entries
    requires Polluted(proto, init, u)
    ensures Polluted(proto, init[..FirstMention(init, SlotProperty(u))], u)
  {
    var m := SlotProperty(u);
    var k0 := FirstMention(init, m);
    FirstWinsAsWritten(init, proto, m, u);
    NameFacts();
    if k0 == |init| {
      assert init[..k0] == init;
    }
  }

  /** While the run has not thrown, a slot property is set, and then truthy, exactly when it is polluted. */
  lemma SlotsAsWritten(init: seq<string>, proto: MaterialShader, u: ShaderType)
    requires ProtoFilled(proto) && !ConstructAsWritten(init, proto).threw
    ensures var r0 := ConstructAsWritten(init, proto);
      && (Slot(r0.proto, u).Some? <==> Polluted(proto, init, u))
      && (Truthy(Slot(r0.proto, u)) <==> Slot(r0.proto, u).Some?)
  {
    PrototypeAsWritten(init, proto, u);
    ConstructAsWrittenWellFormed(init, proto);
  }

  /** A slot property's name blocked at its first file has no own entry. */
  lemma PollutedUnowned(init: seq<string>, proto: MaterialShader, u: ShaderType)
    requires ProtoFilled(proto) && !ConstructAsWritten(init, proto).threw
    requires Polluted(proto, init[..FirstMention(init, SlotProperty(u))], u)
    ensures SlotProperty(u) !in ConstructAsWritten(init, proto).table.entries
  {
    FirstWinsAsWritten(init, proto, SlotProperty(u), u);
    NameFacts();
  }

  /** The step that throws at the last file `f` is described by `ThrowsAt`. */
  lemma ThrowsAtLast(init: seq<string>, f: string, proto: MaterialShader)
    requires ProtoFilled(proto)
    requires !ConstructAsWritten(init, proto).threw && ConstructAsWritten(init + [f], proto).threw
    ensures exists u :: ThrowsAt(proto, init + [f], |init|, u)
  {
    var files, r0, c := init + [f], ConstructAsWritten(init, proto), Classify(f);
    LastFileThrew(init, f, proto);
    var n, t := c.value.material, c.value.kind;
    var u := ThrowingSlot(init, proto, n, t);
    assert Polluted(proto, files[..FirstMention(files, n)], u) by {
      UnownedPolluted(init, proto, u);
      FirstMentionLast(init, f, n);
    }
    assert files[..|init|] == init && files[|init|] == f;
    assert ThrowsAt(proto, files, |init|, u);
  }

  /** The slot property whose inherited string a throwing file of kind `t` assigns to. */
  lemma ThrowingSlot(init: seq<string>, proto: MaterialShader, n: string, t: ShaderType) returns (u: ShaderType)
    requires ProtoFilled(proto) && !ConstructAsWritten(init, proto).threw
    requires var r0 := ConstructAsWritten(init, proto); PollutedName(r0.proto, n) && !Truthy(Slot(r0.proto, t))
    ensures n == SlotProperty(u) && t == Other(u)
    ensures Polluted(proto, init, u) && !Polluted(proto, init, t)
  {
    u := if n == SlotProperty(Vertex) then Vertex else Fragment;
    SlotsAsWritten(init, proto, u);
    SlotsAsWritten(init, proto, t);
  }

  /** The last file throws only by assigning to a slot of an inherited string. */
  lemma LastFileThrew(init: seq<string>, f: string, proto: MaterialShader)
    requires !ConstructAsWritten(init, proto).threw && ConstructAsWritten(init + [f], proto).threw
    ensures var r0, c := ConstructAsWritten(init, proto), Classify(f);
      c.Some? && c.value.material !in r0.table.entries && PollutedName(r0.proto, c.value.material) &&
      !Truthy(Slot(r0.proto, c.value.kind))
  {
    var files, r0, c := init + [f], ConstructAsWritten(init, proto), Classify(f);
    assert files[..|files| - 1] == init;
    assert ConstructAsWritten(files, proto) == AddClassifiedAsWritten(r0, f, c);
    ThrowStep(r0, f, c);
  }

  /** A last file `f` described by `ThrowsAt` makes the loop throw. */
  lemma ThrowsAtLastThrows(init: seq<string>, f: string, proto: MaterialShader, u: ShaderType)
    requires ProtoFilled(proto)
    requires !ConstructAsWritten(init, proto).threw && ThrowsAt(proto, init + [f], |init|, u)
    ensures ConstructAsWritten(init + [f], proto).threw
  {
    var files, r0, c := init + [f], ConstructAsWritten(init, proto), Classify(f);
    ThrowingLastFile(init, f, proto, u);
    assert files[..|files| - 1] == init;
    assert ConstructAsWritten(files, proto) == AddClassifiedAsWritten(r0, f, c);
    NameFacts();
    ThrowStep(r0, f, c);
  }

  /** What `ThrowsAt` at the last file says about the run before it. */
  lemma ThrowingLastFile(init: seq<string>, f: string, proto: MaterialShader, u: ShaderType)
    requires ProtoFilled(proto)
    requires !ConstructAsWritten(init, proto).threw && ThrowsAt(proto, init + [f], |init|, u)
    ensures var r0, m := ConstructAsWritten(init, proto), SlotProperty(u);
      && Classify(f) == Some(ShaderFile(m, Other(u)))
      && m !in r0.table.entries && PollutedName(r0.proto, m) && !Truthy(Slot(r0.proto, Other(u)))
  {
    var files, m := init + [f], SlotProperty(u);
    var k0 := FirstMention(init, m);
    assert Classify(f) == Some(ShaderFile(m, Other(u))) && !Polluted(proto, init, Other(u)) by {
      assert files[..|init|] == init && files[|init|] == f;
    }
    assert Polluted(proto, init[..k0], u) by {
      FirstMentionLast(init, f, m);
    }
    PollutedUnowned(init, proto, u);
    PollutedGrows(proto, init, k0, |init|, u);
    assert init[..|init|] == init;
    SlotsAsWritten(init, proto, u);
    SlotsAsWritten(init, proto, Other(u));
  }

  // ---------------------------------------------------------------------
  // `sanitizeMaterialShaders`
  // ---------------------------------------------------------------------

  /**
   * `Object.entries(...).filter(isMissingShader).map(name)`: the materials
   * lacking a shader, in key order.
   */
  function MissingMaterials(names: seq<string>, entries: map<string, MaterialShader>): seq<string>
    decreases |names|
  {
    if names == [] then []
    else
      (if names[0] in entries && IsMissingShader(entries[names[0]]) then [names[0]] else [])
      + MissingMaterials(names[1..], entries)
  }

  lemma {:induction false} MissingMaterialsMembers(names: seq<string>, entries: map<string, MaterialShader>, m: string)
    ensures m in MissingMaterials(names, entries) <==> m in names && m in entries && IsMissingShader(entries[m])
    decreases |names|
  {
    if names != [] {
      MissingMaterialsMembers(names[1..], entries, m);
      assert names == [names[0]] + names[1..];
    }
  }

  /** The materials of `tb` lacking a vertex or a fragment shader. */
  function MissingSet(tb: Table): set<string> {
    set n | n in tb.entries && IsMissingShader(tb.entries[n])
  }

  function Members(s: seq<string>): set<string> {
    set x | x in s
  }

  lemma MembersAppend(s: seq<string>, i: nat)
    requires i < |s|
    ensures Members(s[..i + 1]) == Members(s[..i]) + {s[i]}
  {
    assert s[..i + 1] == s[..i] + [s[i]];
  }

  /** In a well-formed table the filtered list names exactly the missing set. */
  lemma MissingMaterialsSet(tb: Table)
    requires WellFormed(tb)
    ensures Members(MissingMaterials(tb.names, tb.entries)) == MissingSet(tb)
  {
    forall m
      ensures m in Members(MissingMaterials(tb.names, tb.entries)) <==> m in MissingSet(tb)
    {
      MissingMaterialsMembers(tb.names, tb.entries, m);
    }
  }

  /** `names` without the members of `drop`, in their order: `Object.keys` after `delete`. */
  function Without(names: seq<string>, drop: set<string>): seq<string>
    decreases |names|
  {
    if names == [] then []
    else (if names[0] in drop then [] else [names[0]]) + Without(names[1..], drop)
  }

  lemma {:induction false} WithoutMembers(names: seq<string>, drop: set<string>, m: string)
    ensures m in Without(names, drop) <==> m in names && m !in drop
    decreases |names|
  {
    if names != [] {
      WithoutMembers(names[1..], drop, m);
      assert names == [names[0]] + names[1..];
    }
  }

  /** Deleting one more key after some others is deleting them all. */
  lemma {:induction false} WithoutTwice(names: seq<string>, drop: set<string>, m: string)
    ensures Without(Without(names, drop), {m}) == Without(names, drop + {m})
    decreases |names|
  {
    if names != [] {
      WithoutTwice(names[1..], drop, m);
      var head := if names[0] in drop then [] else [names[0]];
      assert Without(names, drop) == head + Without(names[1..], drop);
      WithoutAppend(head, Without(names[1..], drop), {m});
    }
  }

  lemma {:induction false} WithoutAppend(a: seq<string>, b: seq<string>, drop: set<string>)
    ensures Without(a + b, drop) == Without(a, drop) + Without(b, drop)
    decreases |a|
  {
    if a != [] {
      assert (a + b)[0] == a[0] && (a + b)[1..] == a[1..] + b;
      var head := if a[0] in drop then [] else [a[0]];
      assert Without(a + b, drop) == head + Without(a[1..] + b, drop);
      assert Without(a, drop) == head + Without(a[1..], drop);
      WithoutAppend(a[1..], b, drop);
      var x, y := Without(a[1..], drop), Without(b, drop);
      assert head + (x + y) == (head + x) + y;
    } else {
      assert a + b == b;
    }
  }

  lemma {:induction false} WithoutNothing(names: seq<string>)
    ensures Without(names, {}) == names
    decreases |names|
  {
    if names != [] {
      WithoutNothing(names[1..]);
    }
  }

  lemma {:induction false} WithoutDistinct(names: seq<string>, drop: set<string>)
    requires forall i, j :: 0 <= i < j < |names| ==> names[i] != names[j]
    ensures var r := Without(names, drop); forall i, j :: 0 <= i < j < |r| ==> r[i] != r[j]
    decreases |names|
  {
    if names != [] {
      WithoutDistinct(names[1..], drop);
      var rest := Without(names[1..], drop);
      WithoutMembers(names[1..], drop, names[0]);
      assert names[0] !in names[1..];
      var r := Without(names, drop);
      assert r == (if names[0] in drop then [] else [names[0]]) + rest;
    }
  }

  /** The table `sanitizeMaterialShaders` leaves behind. */
  function Sanitized(tb: Table): Table {
    Table(Without(tb.names, MissingSet(tb)), tb.entries - MissingSet(tb))
  }

  /** Exactly the complete materials remain, with their entries unchanged. */
  lemma SanitizedExact(tb: Table, n: string)
    requires WellFormed(tb)
    ensures n in Sanitized(tb).entries <==> n in tb.entries && !IsMissingShader(tb.entries[n])
    ensures n in Sanitized(tb).entries ==> Sanitized(tb).entries[n] == tb.entries[n]
  {
    assert n in MissingSet(tb) <==> n in tb.entries && IsMissingShader(tb.entries[n]);
  }

  /** The remaining key list still lists every remaining key once, and the kept slots are still non-empty. */
  lemma SanitizedWellFormed(tb: Table)
    requires WellFormed(tb)
    ensures WellFormed(Sanitized(tb))
  {
    var r := Sanitized(tb);
    WithoutDistinct(tb.names, MissingSet(tb));
    assert r.names == Without(tb.names, MissingSet(tb));
    forall m
      ensures m in r.entries <==> m in r.names
    {
      WithoutMembers(tb.names, MissingSet(tb), m);
    }
    forall m, t | m in r.entries && Slot(r.entries[m], t).Some?
      ensures Slot(r.entries[m], t).value != ""
    {
      assert r.entries[m] == tb.entries[m];
    }
  }

  /**
   * After the written construction, unless it threw, and sanitizing, a
   * material is listed exactly when it is not named after an inherited
   * property, both of its shader kinds have a file, and no `__proto__` file
   * before its first file has made its name an inherited slot property.
   */
  lemma LoadedMaterialsAsWritten(files: seq<string>, proto: MaterialShader, n: string)
    requires ProtoFilled(proto)
    ensures var r := ConstructAsWritten(files, proto);
      !r.threw ==> (n in Sanitized(r.table).entries <==>
        && n !in ObjectPrototypeNames
        && FirstFile(files, n, Vertex).Some? && FirstFile(files, n, Fragment).Some?
        && !Blocked(proto, files[..FirstMention(files, n)], n))
  {
    var r := ConstructAsWritten(files, proto);
    ConstructAsWrittenWellFormed(files, proto);
    SanitizedExact(r.table, n);
    FirstWinsAsWritten(files, proto, n, Vertex);
    FirstWinsAsWritten(files, proto, n, Fragment);
    FirstFileMentioned(files, n, Vertex);
  }

  /** After the own-key construction and sanitizing, a material is listed exactly when both of its shader kinds have a file. */
  lemma LoadedMaterials(files: seq<string>, n: string)
    ensures n in Sanitized(Construct(files)).entries <==>
      FirstFile(files, n, Vertex).Some? && FirstFile(files, n, Fragment).Some?
  {
    ConstructWellFormed(files);
    SanitizedExact(Construct(files), n);
    ConstructFirstWins(files, n, Vertex);
    ConstructFirstWins(files, n, Fragment);
    if n in Construct(files).entries {
      MissingMeansUnassigned(files, n);
    }
  }

  // ---------------------------------------------------------------------
  // The mutable table
  // ---------------------------------------------------------------------

  /** The `shaderFiles` object that `constructMaterialShaders` fills and `sanitizeMaterialShaders` prunes. */
  class MaterialShaders {
    var names: seq<string>
    var entries: map<string, MaterialShader>

    function Value(): Table
      reads this
    {
      Table(names, entries)
    }

    constructor ()
      ensures Value() == EmptyTable
    {
      names := [];
      entries := map[];
    }

    /**
     * The body of the `for` loop of `constructMaterialShaders`.  For a
     * material named after an inherited property `??=` finds that property
     * instead of creating an entry: `__proto__` yields `objectPrototype`,
     * whose slot is then written; the other `Object.prototype` names yield
     * functions, which take the write; a slot property written onto
     * `objectPrototype` yields a string, and assigning to it throws.
     */
    method AddShaderFile(shaderFile: string, objectPrototype: ObjectPrototype) returns (threw: bool)
      modifies this, objectPrototype
      ensures Run(Value(), objectPrototype.Value(), threw) ==
        AddFileAsWritten(Run(old(Value()), old(objectPrototype.Value()), false), shaderFile)
    {
      threw := false;
      match Classify(shaderFile)
      case None =>
      case Some(ShaderFile(materialName, shaderType)) =>
        if materialName in entries || (materialName !in ObjectPrototypeNames && !PollutedName(objectPrototype.Value(), materialName)) {
          if materialName !in entries {
            names := names + [materialName];
            entries := entries[materialName := Unassigned];
          }
          if !Truthy(Slot(entries[materialName], shaderType)) {
            entries := entries[materialName := WithSlot(entries[materialName], shaderType, shaderFile)];
          }
        } else if materialName == ProtoKey {
          if !Truthy(Slot(objectPrototype.Value(), shaderType)) {
            objectPrototype.SetSlot(shaderType, shaderFile);
          }
        } else if materialName !in ObjectPrototypeNames {
          threw := !Truthy(Slot(objectPrototype.Value(), shaderType));
        }
    }

    /** Deletes the incomplete materials and returns the remaining keys. */
    method Sanitize() returns (foundMaterials: seq<string>)
      requires WellFormed(Value())
      modifies this
      ensures Value() == Sanitized(old(Value())) && foundMaterials == names
      ensures WellFormed(Value())
    {
      var materialsWithMissingShaders := MissingMaterials(names, entries);
      MissingMaterialsSet(Value());
      SanitizedWellFormed(Value());
      DeleteMaterials(materialsWithMissingShaders);
      foundMaterials := names;
    }

    /** The `delete` loop: removes each listed key, keeping the order of the others. */
    method DeleteMaterials(materials: seq<string>)
      modifies this
      ensures entries == old(entries) - Members(materials)
      ensures names == Without(old(names), Members(materials))
    {
      WithoutNothing(names);
      assert Members(materials[..0]) == {};
      var i := 0;
      while i < |materials|
        invariant 0 <= i <= |materials|
        invariant entries == old(entries) - Members(materials[..i])
        invariant names == Without(old(names), Members(materials[..i]))
      {
        var material := materials[i];
        entries := entries - {material};
        WithoutTwice(old(names), Members(materials[..i]), material);
        names := Without(names, {material});
        MembersAppend(materials, i);
        i := i + 1;
      }
      assert materials[..i] == materials;
    }
  }

  /**
   * `Object.prototype`, as far as the loop can change it: the two slot
   * properties a `__proto__` shader file puts on it.
   */
  class ObjectPrototype {
    var vertexShaderFile: Option<string>
    var fragmentShaderFile: Option<string>

    function Value(): MaterialShader
      reads this
    {
      MaterialShader(vertexShaderFile, fragmentShaderFile)
    }

    /** A realm in which nothing has been written onto `Object.prototype` yet. */
    constructor ()
      ensures Value() == Unassigned
    {
      vertexShaderFile := None;
      fragmentShaderFile := None;
    }

    method SetSlot(t: ShaderType, file: string)
      modifies this
      ensures Value() == WithSlot(old(Value()), t, file)
    {
      match t
      case Vertex => vertexShaderFile := Some(file);
      case Fragment => fragmentShaderFile := Some(file);
    }
  }

  /** `constructMaterialShaders`; `threw` reports the `TypeError` that ends it early. */
  method ConstructMaterialShaders(shaders: seq<string>, objectPrototype: ObjectPrototype)
    returns (shaderFiles: MaterialShaders, threw: bool)
    modifies objectPrototype
    ensures fresh(shaderFiles)
    ensures Run(shaderFiles.Value(), objectPrototype.Value(), threw) ==
      ConstructAsWritten(shaders, old(objectPrototype.Value()))
  {
    shaderFiles := new MaterialShaders();
    threw := false;
    var i := 0;
    while i < |shaders|
      invariant 0 <= i <= |shaders|
      invariant Run(shaderFiles.Value(), objectPrototype.Value(), false) ==
        ConstructAsWritten(shaders[..i], old(objectPrototype.Value()))
    {
      ConstructAsWrittenNext(shaders, old(objectPrototype.Value()), i);
      threw := shaderFiles.AddShaderFile(shaders[i], objectPrototype);
      if threw {
        ThrownRunStays(shaders, old(objectPrototype.Value()), i + 1);
        return;
      }
      i := i + 1;
    }
    assert shaders[..i] == shaders;
  }

  // ---------------------------------------------------------------------
  // Store keys and load jobs (`loadToBabylonWGSLShaderStore`, `loadWGSLShaders`)
  // ---------------------------------------------------------------------

  /** The key a shader is stored under: `${materialName}${shaderType}Shader`. */
  function StoreKey(materialName: string, shaderType: ShaderType): string {
    materialName + TypeName(shaderType) + "Shader"
  }

  /** Distinct (material, type) pairs never share a store key. */
  lemma StoreKeyInjective(a: string, s: ShaderType, b: string, u: ShaderType)
    ensures StoreKey(a, s) == StoreKey(b, u) <==> a == b && s == u
  {
    if StoreKey(a, s) == StoreKey(b, u) {
      var k := StoreKey(a, s);
      // The seventh character from the end is `x` in `VertexShader` and `t` in `FragmentShader`.
      assert k[|k| - 7] == (if s == Vertex then 'x' else 't');
      assert k[|k| - 7] == (if u == Vertex then 'x' else 't');
      assert s == u;
      assert |a| == |b|;
      assert a == k[..|a|] == b;
    }
  }

  /** One element of the `flatMap`: which material, which stage, and the file whose loader runs. */
  datatype Job = Job(materialName: string, shaderType: ShaderType, shaderFile: string)

  /** The materials of `found` have an entry with both files set. */
  predicate Loadable(tb: Table, found: seq<string>) {
    forall n :: n in found ==> n in tb.entries && !IsMissingShader(tb.entries[n])
  }

  /** The job list: a vertex and then a fragment job for each found material, in order. */
  function Jobs(tb: Table, found: seq<string>): seq<Job>
    requires Loadable(tb, found)
    decreases |found|
  {
    if found == [] then []
    else
      var m := tb.entries[found[0]];
      [Job(found[0], Vertex, m.vertexShaderFile.value), Job(found[0], Fragment, m.fragmentShaderFile.value)]
      + Jobs(tb, found[1..])
  }

  /** Each material yields exactly two jobs, `Vertex` then `Fragment`, at positions `2i` and `2i + 1`. */
  lemma {:induction false} JobsLayout(tb: Table, found: seq<string>)
    requires Loadable(tb, found)
    ensures |Jobs(tb, found)| == 2 * |found|
    ensures forall i :: 0 <= i < |found| ==>
      Jobs(tb, found)[2 * i] == Job(found[i], Vertex, tb.entries[found[i]].vertexShaderFile.value) &&
      Jobs(tb, found)[2 * i + 1] == Job(found[i], Fragment, tb.entries[found[i]].fragmentShaderFile.value)
    decreases |found|
  {
    if found != [] {
      JobsLayout(tb, found[1..]);
      forall i | 1 <= i < |found|
        ensures Jobs(tb, found)[2 * i] == Jobs(tb, found[1..])[2 * (i - 1)]
        ensures Jobs(tb, found)[2 * i + 1] == Jobs(tb, found[1..])[2 * (i - 1) + 1]
      {
      }
    }
  }

  function JobKey(j: Job): string {
    StoreKey(j.materialName, j.shaderType)
  }

  predicate KeysDistinct(jobs: seq<Job>) {
    forall i, j :: 0 <= i < j < |jobs| ==> JobKey(jobs[i]) != JobKey(jobs[j])
  }

  lemma {:induction false} JobsOfMaterials(tb: Table, found: seq<string>)
    requires Loadable(tb, found)
    ensures forall k :: 0 <= k < |Jobs(tb, found)| ==> Jobs(tb, found)[k].materialName in found
    decreases |found|
  {
    if found != [] {
      JobsOfMaterials(tb, found[1..]);
      var rest := Jobs(tb, found[1..]);
      forall k | 2 <= k < |Jobs(tb, found)|
        ensures Jobs(tb, found)[k].materialName in found
      {
        assert Jobs(tb, found)[k] == rest[k - 2];
        assert rest[k - 2].materialName in found[1..];
      }
    }
  }

  /** Listing each material once gives every job its own store key. */
  lemma {:induction false} JobKeysDistinct(tb: Table, found: seq<string>)
    requires Loadable(tb, found)
    requires forall i, j :: 0 <= i < j < |found| ==> found[i] != found[j]
    ensures KeysDistinct(Jobs(tb, found))
    decreases |found|
  {
    if found != [] {
      var jobs, rest := Jobs(tb, found), Jobs(tb, found[1..]);
      JobKeysDistinct(tb, found[1..]);
      JobsOfMaterials(tb, found[1..]);
      forall i, j | 0 <= i < j < |jobs|
        ensures JobKey(jobs[i]) != JobKey(jobs[j])
      {
        if i >= 2 {
          assert jobs[i] == rest[i - 2] && jobs[j] == rest[j - 2];
        } else {
          if j >= 2 {
            assert jobs[j] == rest[j - 2];
          }
          StoreKeyInjective(jobs[i].materialName, jobs[i].shaderType, jobs[j].materialName, jobs[j].shaderType);
        }
      }
    }
  }

  /** The shader store after the jobs have stored the sources `load` gives their files. */
  function ApplyJobs(store: map<string, string>, jobs: seq<Job>, load: string -> string): map<string, string>
    decreases |jobs|
  {
    if jobs == [] then store
    else ApplyJobs(store[JobKey(jobs[0]) := load(jobs[0].shaderFile)], jobs[1..], load)
  }

  /**
   * With distinct keys every job's source ends up under its key, whatever
   * the order in which the loads complete, and no other key changes.
   */
  lemma {:induction false} ApplyJobsStores(store: map<string, string>, jobs: seq<Job>, load: string -> string, k: string)
    requires KeysDistinct(jobs)
    ensures forall i :: 0 <= i < |jobs| && JobKey(jobs[i]) == k ==>
      k in ApplyJobs(store, jobs, load) && ApplyJobs(store, jobs, load)[k] == load(jobs[i].shaderFile)
    ensures (forall i :: 0 <= i < |jobs| ==> JobKey(jobs[i]) != k) ==>
      (k in ApplyJobs(store, jobs, load) <==> k in store) &&
      (k in store ==> ApplyJobs(store, jobs, load)[k] == store[k])
    decreases |jobs|
  {
    if jobs != [] {
      var store' := store[JobKey(jobs[0]) := load(jobs[0].shaderFile)];
      assert KeysDistinct(jobs[1..]) by {
        forall i, j | 0 <= i < j < |jobs[1..]|
          ensures JobKey(jobs[1..][i]) != JobKey(jobs[1..][j])
        {
          assert jobs[1..][i] == jobs[i + 1] && jobs[1..][j] == jobs[j + 1];
        }
      }
      ApplyJobsStores(store', jobs[1..], load, k);
      forall i | 0 <= i < |jobs| && JobKey(jobs[i]) == k
        ensures k in ApplyJobs(store, jobs, load) && ApplyJobs(store, jobs, load)[k] == load(jobs[i].shaderFile)
      {
        if i > 0 {
          assert jobs[1..][i - 1] == jobs[i];
        } else {
          forall j | 0 <= j < |jobs[1..]|
            ensures JobKey(jobs[1..][j]) != k
          {
            assert jobs[1..][j] == jobs[j + 1];
          }
        }
      }
      if forall i :: 0 <= i < |jobs| ==> JobKey(jobs[i]) != k {
        forall j | 0 <= j < |jobs[1..]|
          ensures JobKey(jobs[1..][j]) != k
        {
          assert jobs[1..][j] == jobs[j + 1];
        }
      }
    }
  }

  /** Babylon's `ShaderStore.ShadersStoreWGSL`. */
  class ShaderStore {
    var shadersStoreWGSL: map<string, string>

    constructor (shaders: map<string, string>)
      ensures shadersStoreWGSL == shaders
    {
      shadersStoreWGSL := shaders;
    }

    /** `loadToBabylonWGSLShaderStore`. */
    method Load(materialName: string, shaderType: ShaderType, shaderSource: string)
      modifies this
      ensures shadersStoreWGSL == old(shadersStoreWGSL)[StoreKey(materialName, shaderType) := shaderSource]
    {
      shadersStoreWGSL := shadersStoreWGSL[StoreKey(materialName, shaderType) := shaderSource];
    }

    /** The `Promise.all` of `loadWGSLShaders`: each job's source is loaded into the store, in job order. */
    method LoadAll(jobs: seq<Job>, load: string -> string)
      modifies this
      ensures shadersStoreWGSL == ApplyJobs(old(shadersStoreWGSL), jobs, load)
    {
      var i := 0;
      while i < |jobs|
        invariant 0 <= i <= |jobs|
        invariant ApplyJobs(shadersStoreWGSL, jobs[i..], load) == ApplyJobs(old(shadersStoreWGSL), jobs, load)
      {
        assert jobs[i..][1..] == jobs[i + 1..];
        Load(jobs[i].materialName, jobs[i].shaderType, load(jobs[i].shaderFile));
        i := i + 1;
      }
    }
  }

  /** The argument of `loadWGSLShaders`: a record of shader files (its keys), `null`, or a non-object. */
  datatype Argument = ObjectValue(shaderFiles: seq<string>) | NullValue | NonObject

  datatype LoadResult = Loaded(materials: seq<string>) | TypeError

  /** The materials `loadWGSLShaders` returns for the files `files`, `Object.prototype` starting as `proto`. */
  function FoundMaterials(files: seq<string>, proto: MaterialShader): seq<string> {
    Sanitized(ConstructAsWritten(files, proto).table).names
  }

  /** The load jobs `loadWGSLShaders` starts for the files `files`. */
  function LoadJobs(files: seq<string>, proto: MaterialShader): seq<Job> {
    var tb := Sanitized(ConstructAsWritten(files, proto).table);
    FoundLoadable(files, proto);
    Jobs(tb, tb.names)
  }

  lemma FoundLoadable(files: seq<string>, proto: MaterialShader)
    ensures var tb := Sanitized(ConstructAsWritten(files, proto).table); Loadable(tb, tb.names)
    ensures var found := FoundMaterials(files, proto);
      forall i, j :: 0 <= i < j < |found| ==> found[i] != found[j]
  {
    var tb := ConstructAsWritten(files, proto).table;
    ConstructAsWrittenWellFormed(files, proto);
    SanitizedWellFormed(tb);
    forall n | n in Sanitized(tb).names
      ensures n in Sanitized(tb).entries && !IsMissingShader(Sanitized(tb).entries[n])
    {
      SanitizedExact(tb, n);
    }
  }

  /**
   * `loadWGSLShaders`, with the loaders replaced by `load`, which maps a
   * file to the source its loader resolves to.  A non-object or `null`
   * argument is rejected before anything else happens; a `TypeError`
   * thrown while the table is built rejects the call before any load
   * starts, leaving on `Object.prototype` what was written to it.
   */
  method LoadWGSLShaders(shaderFiles: Argument, load: string -> string, store: ShaderStore, objectPrototype: ObjectPrototype)
    returns (r: LoadResult)
    modifies store, objectPrototype
    ensures !shaderFiles.ObjectValue? ==>
      r == TypeError && store.shadersStoreWGSL == old(store.shadersStoreWGSL) &&
      objectPrototype.Value() == old(objectPrototype.Value())
    ensures shaderFiles.ObjectValue? ==>
      var files, proto := shaderFiles.shaderFiles, old(objectPrototype.Value());
      var run := ConstructAsWritten(files, proto);
      && objectPrototype.Value() == run.proto
      && (run.threw ==> r == TypeError && store.shadersStoreWGSL == old(store.shadersStoreWGSL))
      && (!run.threw ==>
        r == Loaded(FoundMaterials(files, proto)) &&
        store.shadersStoreWGSL == ApplyJobs(old(store.shadersStoreWGSL), LoadJobs(files, proto), load))
  {
    if !shaderFiles.ObjectValue? {
      return TypeError;
    }
    var files, proto := shaderFiles.shaderFiles, objectPrototype.Value();
    var materialShaders, threw := ConstructMaterialShaders(files, objectPrototype);
    if threw {
      return TypeError;
    }
    ConstructAsWrittenWellFormed(files, proto);
    var foundMaterials := materialShaders.Sanitize();
    store.LoadAll(LoadJobs(files, proto), load);
    return Loaded(foundMaterials);
  }

  /**
   * After `loadWGSLShaders`, each found material's vertex and fragment
   * sources are stored under its two keys.
   */
  lemma LoadedStore(files: seq<string>, proto: MaterialShader, load: string -> string, store: map<string, string>,
                    n: string, t: ShaderType)
    requires ProtoFilled(proto) && !ConstructAsWritten(files, proto).threw
    requires n in FoundMaterials(files, proto)
    ensures var after := ApplyJobs(store, LoadJobs(files, proto), load);
      FirstFile(files, n, t).Some? && StoreKey(n, t) in after &&
      after[StoreKey(n, t)] == load(FirstFile(files, n, t).value)
  {
    var tb := Sanitized(ConstructAsWritten(files, proto).table);
    var found := tb.names;
    var jobs := LoadJobs(files, proto);
    FoundLoadable(files, proto);
    JobsLayout(tb, found);
    JobKeysDistinct(tb, found);
    ConstructAsWrittenWellFormed(files, proto);
    SanitizedExact(ConstructAsWritten(files, proto).table, n);
    FirstWinsAsWritten(files, proto, n, t);
    var i :| 0 <= i < |found| && found[i] == n;
    var k := if t == Vertex then 2 * i else 2 * i + 1;
    assert JobKey(jobs[k]) == StoreKey(n, t);
    ApplyJobsStores(store, jobs, load, StoreKey(n, t));
  }
}
