/** Asset Pack manifests: validation and canonical form (src/companion/asset-manifest.ts). */
module Manifest {
  import opened Common
  import opened Sorting
  import opened Json

  datatype Format = SpriteSheet | FrameSequence | Gif | Static

  datatype Animation = Animation(
    name: string, format: Format, files: seq<string>,
    frameWidth: Option<int>, frameHeight: Option<int>, frameCount: Option<int>, frameDurationMs: Option<int>, loop: bool)

  datatype File = File(relativePath: string, category: string, mimeType: string, sizeBytes: int, sha256: string)

  /** A manifest whose fields have the right JSON types. */
  datatype Manifest = Manifest(
    format: string, schemaVersion: int, defaultAnimation: string, portraitPath: Option<string>, iconPath: Option<string>,
    animations: seq<Animation>, files: seq<File>)

  datatype Limits = Limits(maxFileBytes: int, maxPackBytes: int, maxPackFiles: int)

  /** What the platform provides: localeCompare as an order, toLowerCase, SHA-256 in hex, and
      Number.MAX_SAFE_INTEGER. */
  datatype Platform = Platform(
    before: (string, string) -> bool, lower: string -> string, digest: string -> string, maxSafe: int)

  ghost predicate PlatformOk(env: Platform) {
    TotalPreorder(env.before) && forall a, b :: env.before(a, b) && env.before(b, a) ==> a == b
  }

  // ------------------------------------------------------------------ paths

  function Split(s: string): (r: seq<string>)
    ensures r != []
  {
    if s == "" then [""]
    else
      var rest := Split(s[1..]);
      if s[0] == '/' then [""] + rest else [[s[0]] + rest[0]] + rest[1..]
  }

  function Join(segments: seq<string>): string {
    if segments == [] then "" else if |segments| == 1 then segments[0] else segments[0] + "/" + Join(segments[1..])
  }

  predicate StartsWith(s: string, prefix: string) { |prefix| <= |s| && s[..|prefix|] == prefix }

  predicate Contains(s: string, c: char) { exists i :: 0 <= i < |s| && s[i] == c }

  /** /%2e|%2f|%5c/i */
  predicate EncodesSeparator(s: string) {
    exists i :: 0 <= i < |s| - 2 && s[i] == '%'
             && ((s[i + 1] == '2' && s[i + 2] in {'e', 'E', 'f', 'F'}) || (s[i + 1] == '5' && s[i + 2] in {'c', 'C'}))
  }

  predicate UnsafeCharacters(s: string) {
    s == "" || Contains(s, 0 as char) || Contains(s, '\\') || StartsWith(s, "/") || Contains(s, '?') || Contains(s, '#') || EncodesSeparator(s)
  }

  predicate UnsafeSegment(segment: string) { segment == "" || segment[0] == '.' }

  /** normalizeRelativePath. */
  function NormalizePath(s: string): Option<string> {
    if UnsafeCharacters(s) then None
    else
      var segments := Split(s);
      if exists i :: 0 <= i < |segments| && UnsafeSegment(segments[i]) then None
      else
        var normalized := Join(segments);
        if !StartsWith(normalized, "assets/") then None else Some(normalized)
  }

  lemma {:induction false} JoinOfSplit(s: string)
    ensures Join(Split(s)) == s
  {
    if s != "" {
      JoinOfSplit(s[1..]);
      var rest := Split(s[1..]);
      assert s == [s[0]] + s[1..];
      if s[0] != '/' && |rest| > 1 {
        assert ([[s[0]] + rest[0]] + rest[1..])[1..] == rest[1..];
      }
    }
  }

  lemma {:induction false} SplitHasNoSlash(s: string)
    ensures forall i :: 0 <= i < |Split(s)| ==> '/' !in Split(s)[i]
  {
    if s != "" {
      SplitHasNoSlash(s[1..]);
    }
  }

  /** An accepted path is accepted as it is, so the comparison with its normalized form never
      refuses it; and no segment of it is empty, hidden, `.` or `..`. */
  lemma AcceptedPathUnchanged(s: string)
    requires NormalizePath(s).Some?
    ensures NormalizePath(s).value == s && StartsWith(s, "assets/")
    ensures Join(Split(s)) == s
    ensures forall i :: 0 <= i < |Split(s)| ==> Split(s)[i] != "" && Split(s)[i][0] != '.' && '/' !in Split(s)[i]
  {
    JoinOfSplit(s);
    SplitHasNoSlash(s);
  }

  // ------------------------------------------------------------------ canonical form

  function ByName(env: Platform): (Animation, Animation) -> bool { (a: Animation, b: Animation) => env.before(a.name, b.name) }

  function ByPath(env: Platform): (File, File) -> bool { (a: File, b: File) => env.before(a.relativePath, b.relativePath) }

  function WithSortedFiles(a: Animation): Animation { a.(files := Sort(a.files, ByCodeUnits())) }

  function AllWithSortedFiles(xs: seq<Animation>): seq<Animation> {
    if xs == [] then [] else [WithSortedFiles(xs[0])] + AllWithSortedFiles(xs[1..])
  }

  function Truthy(path: Option<string>): Option<string> { if path == Some("") then None else path }

  /** canonicalManifest. */
  function Canonical(env: Platform, m: Manifest): Manifest {
    Manifest("our-companion-asset-pack", 1, "Idle_Neutral", Truthy(m.portraitPath), Truthy(m.iconPath),
             Sort(AllWithSortedFiles(m.animations), ByName(env)), Sort(m.files, ByPath(env)))
  }

  lemma OrdersOk(env: Platform)
    requires PlatformOk(env)
    ensures TotalPreorder(ByName(env)) && TotalPreorder(ByPath(env))
  {
    forall x, y ensures ByName(env)(x, y) || ByName(env)(y, x) { assert env.before(x.name, y.name) || env.before(y.name, x.name); }
    forall x, y, z | ByName(env)(x, y) && ByName(env)(y, z) ensures ByName(env)(x, z) {
      assert env.before(x.name, y.name) && env.before(y.name, z.name);
    }
    forall x, y, z | ByPath(env)(x, y) && ByPath(env)(y, z) ensures ByPath(env)(x, z) {
      assert env.before(x.relativePath, y.relativePath) && env.before(y.relativePath, z.relativePath);
    }
    forall x, y ensures ByPath(env)(x, y) || ByPath(env)(y, x) { assert env.before(x.relativePath, y.relativePath) || env.before(y.relativePath, x.relativePath); }
  }

  lemma {:induction false} AllSorted(xs: seq<Animation>)
    ensures |AllWithSortedFiles(xs)| == |xs|
    ensures forall i :: 0 <= i < |xs| ==> AllWithSortedFiles(xs)[i] == WithSortedFiles(xs[i])
  {
    if xs != [] {
      AllSorted(xs[1..]);
    }
  }

  lemma SortedFilesStay(a: Animation)
    ensures WithSortedFiles(WithSortedFiles(a)) == WithSortedFiles(a)
  {
    StringsOrdered();
    SortSorts(a.files, ByCodeUnits());
    SortOfSorted(Sort(a.files, ByCodeUnits()), ByCodeUnits());
  }

  lemma {:induction false} MapStays(xs: seq<Animation>)
    requires forall i :: 0 <= i < |xs| ==> WithSortedFiles(xs[i]) == xs[i]
    ensures AllWithSortedFiles(xs) == xs
  {
    AllSorted(xs);
  }

  /** Canonicalising twice is canonicalising once, for any manifest at all. */
  lemma CanonicalIdempotent(env: Platform, m: Manifest)
    requires PlatformOk(env)
    ensures Canonical(env, Canonical(env, m)) == Canonical(env, m)
  {
    OrdersOk(env);
    var mapped := AllWithSortedFiles(m.animations);
    var animations := Sort(mapped, ByName(env));
    SortContents(mapped, ByName(env));
    SameMembers(mapped, animations);
    AllSorted(m.animations);
    forall i | 0 <= i < |animations| ensures WithSortedFiles(animations[i]) == animations[i] {
      assert animations[i] in mapped;
      var j :| 0 <= j < |mapped| && mapped[j] == animations[i];
      SortedFilesStay(m.animations[j]);
    }
    MapStays(animations);
    SortSorts(mapped, ByName(env));
    SortOfSorted(animations, ByName(env));
    SortSorts(m.files, ByPath(env));
    SortOfSorted(Sort(m.files, ByPath(env)), ByPath(env));
  }

  // ------------------------------------------------------------------ permutations

  ghost predicate UniqueNames(xs: seq<Animation>) { forall i, j :: 0 <= i < j < |xs| ==> xs[i].name != xs[j].name }

  ghost predicate UniquePaths(xs: seq<File>) { forall i, j :: 0 <= i < j < |xs| ==> xs[i].relativePath != xs[j].relativePath }

  /** The same animation, with its files in some other order. */
  ghost predicate Reordered(a: Animation, b: Animation) { b == a.(files := b.files) && multiset(a.files) == multiset(b.files) }

  /** The same manifest, with its files, its animations and their files in some other order: `p`
      says where each animation went. */
  ghost predicate Permuted(m: Manifest, m': Manifest, p: seq<nat>) {
    && Truthy(m'.portraitPath) == Truthy(m.portraitPath) && Truthy(m'.iconPath) == Truthy(m.iconPath)
    && multiset(m'.files) == multiset(m.files)
    && |p| == |m.animations| == |m'.animations|
    && (forall i :: 0 <= i < |p| ==> p[i] < |p|) && (forall i, j :: 0 <= i < j < |p| ==> p[i] != p[j])
    && (forall i :: 0 <= i < |p| ==> Reordered(m.animations[p[i]], m'.animations[i]))
  }

  lemma ReorderedSorts(a: Animation, b: Animation)
    requires Reordered(a, b)
    ensures WithSortedFiles(a) == WithSortedFiles(b)
  {
    StringsOrdered();
    SortOfPermutation(a.files, b.files, ByCodeUnits());
  }

  lemma {:induction false} UniqueBag<T(!new)>(xs: seq<T>, x: T)
    requires forall i, j :: 0 <= i < j < |xs| ==> xs[i] != xs[j]
    ensures multiset(xs)[x] == if x in xs then 1 else 0
  {
    if xs != [] {
      assert xs == [xs[0]] + xs[1..];
      UniqueBag(xs[1..], x);
    }
  }

  lemma SameBags<T(!new)>(xs: seq<T>, ys: seq<T>)
    requires forall i, j :: 0 <= i < j < |xs| ==> xs[i] != xs[j]
    requires forall i, j :: 0 <= i < j < |ys| ==> ys[i] != ys[j]
    requires |xs| == |ys| && forall y :: y in ys ==> y in xs
    ensures multiset(xs) == multiset(ys)
  {
    forall y ensures multiset(ys)[y] <= multiset(xs)[y] {
      UniqueBag(xs, y);
      UniqueBag(ys, y);
    }
    assert multiset(ys) <= multiset(xs);
    assert |multiset(xs)| == |xs| && |multiset(ys)| == |ys|;
    BagsEqual(multiset(ys), multiset(xs));
  }

  lemma BagsEqual<T>(a: multiset<T>, b: multiset<T>)
    requires a <= b && |a| == |b|
    ensures a == b
  {
    assert |b - a| == 0;
    assert b == a + (b - a);
  }

  /** The canonical form, and so the canonical JSON and its hash, is the same for every permutation
      of files, animations and their files, when names and paths are unique. */
  lemma CanonicalOfPermutation(env: Platform, m: Manifest, m': Manifest, p: seq<nat>)
    requires PlatformOk(env) && Permuted(m, m', p) && UniqueNames(m.animations) && UniquePaths(m.files)
    ensures Canonical(env, m) == Canonical(env, m')
  {
    OrdersOk(env);
    AnimationsAgree(m, m', p);
    NamesStrict(env, AllWithSortedFiles(m.animations));
    SortOfPermutation(AllWithSortedFiles(m.animations), AllWithSortedFiles(m'.animations), ByName(env));
    PathsStrict(env, m.files);
    SortOfPermutation(m.files, m'.files, ByPath(env));
  }

  lemma NamesStrict(env: Platform, xs: seq<Animation>)
    requires PlatformOk(env) && UniqueNames(xs)
    ensures Strict(xs, ByName(env))
  {
  }

  lemma PathsStrict(env: Platform, xs: seq<File>)
    requires PlatformOk(env) && UniquePaths(xs)
    ensures Strict(xs, ByPath(env))
  {
  }

  lemma AnimationsAgree(m: Manifest, m': Manifest, p: seq<nat>)
    requires Permuted(m, m', p) && UniqueNames(m.animations)
    ensures multiset(AllWithSortedFiles(m.animations)) == multiset(AllWithSortedFiles(m'.animations))
    ensures UniqueNames(AllWithSortedFiles(m.animations))
  {
    var xs, ys := AllWithSortedFiles(m.animations), AllWithSortedFiles(m'.animations);
    AllSorted(m.animations);
    AllSorted(m'.animations);
    forall i | 0 <= i < |ys| ensures ys[i] == xs[p[i]] {
      ReorderedSorts(m.animations[p[i]], m'.animations[i]);
    }
    forall i, j | 0 <= i < j < |ys| ensures ys[i] != ys[j] {
      assert xs[p[i]].name != xs[p[j]].name;
    }
    forall y | y in ys ensures y in xs {
      var i :| 0 <= i < |ys| && ys[i] == y;
      assert xs[p[i]] == y;
    }
    SameBags(xs, ys);
  }

  // ------------------------------------------------------------------ validation

  const REQUIRED: seq<string> := ["Idle_Neutral", "Enter", "Leave"]

  /** slice(lastIndexOf('.')): the last character when there is no dot. */
  function Extension(s: string): string {
    if s == "" then "" else if s[|s| - 1] == '.' || !Contains(s, '.') then s[|s| - 1..] else Extension(s[..|s| - 1]) + [s[|s| - 1]]
  }

  function ImageCategories(): set<string> { {"animation", "portrait", "icon"} }

  /** ALLOWED_EXTENSIONS: the MIME type and the categories of an extension. */
  function Allowed(extension: string): Option<(string, set<string>)> {
    if extension == ".png" then Some(("image/png", ImageCategories()))
    else if extension == ".jpg" || extension == ".jpeg" then Some(("image/jpeg", ImageCategories()))
    else if extension == ".webp" then Some(("image/webp", ImageCategories()))
    else if extension == ".gif" then Some(("image/gif", ImageCategories()))
    else if extension == ".json" then Some(("application/json", {"metadata"}))
    else if extension == ".mp3" then Some(("audio/mpeg", {"voice"}))
    else if extension == ".wav" then Some(("audio/wav", {"voice"}))
    else if extension == ".ogg" then Some(("audio/ogg", {"voice"}))
    else None
  }

  /** /^[a-f0-9]{64}$/ */
  predicate IsHash(s: string) { |s| == 64 && forall i :: 0 <= i < 64 ==> '0' <= s[i] <= '9' || 'a' <= s[i] <= 'f' }

  predicate FileOk(env: Platform, limits: Limits, f: File) {
    var allowed := Allowed(env.lower(Extension(f.relativePath)));
    && NormalizePath(f.relativePath) == Some(f.relativePath)
    && allowed.Some? && f.category in allowed.value.1 && f.mimeType == allowed.value.0
    && 0 < f.sizeBytes <= limits.maxFileBytes && f.sizeBytes <= env.maxSafe
    && IsHash(f.sha256)
  }

  function TotalBytes(files: seq<File>): int { if files == [] then 0 else files[0].sizeBytes + TotalBytes(files[1..]) }

  /** files.find(candidate => candidate.relativePath === path) */
  function FindFile(files: seq<File>, path: string): (r: Option<File>)
    ensures r.Some? ==> r.value in files && r.value.relativePath == path
    ensures r.None? ==> forall f :: f in files ==> f.relativePath != path
  {
    if files == [] then None
    else if files[0].relativePath == path then Some(files[0])
    else
      var r := FindFile(files[1..], path);
      assert r.None? ==> forall f :: f in files ==> f == files[0] || f in files[1..];
      r
  }

  function Or(o: Option<int>, other: int): int { if o.Some? then o.value else other }

  predicate FramesOk(env: Platform, a: Animation) {
    var w, h, n, d := Or(a.frameWidth, 0), Or(a.frameHeight, 0), Or(a.frameCount, 0), Or(a.frameDurationMs, 0);
    300 <= w <= 4096 && 300 <= h <= 4096 && 1 <= n <= 120 && 16 <= d <= 10_000
  }

  predicate IsPng(files: seq<File>, path: string) {
    var f := FindFile(files, path);
    f.Some? && f.value.mimeType == "image/png"
  }

  predicate AnimationOk(env: Platform, files: seq<File>, a: Animation) {
    && a.name != "" && a.files != []
    && (forall i :: 0 <= i < |a.files| ==> FindFile(files, a.files[i]).Some?)
    && (a.format == SpriteSheet ==> FramesOk(env, a) && IsPng(files, a.files[0]))
  }

  ghost predicate LowerPathsDiffer(env: Platform, files: seq<File>) {
    forall i, j :: 0 <= i < j < |files| ==> env.lower(files[i].relativePath) != env.lower(files[j].relativePath)
  }

  predicate Names(xs: seq<Animation>, name: string) { exists i :: 0 <= i < |xs| && xs[i].name == name }

  predicate PathOk(files: seq<File>, path: Option<string>) { path.Some? ==> FindFile(files, path.value).Some? }

  /** Everything validateManifest demands before it hashes. */
  ghost predicate Acceptable(env: Platform, limits: Limits, m: Manifest) {
    && m.format == "our-companion-asset-pack" && m.schemaVersion == 1 && m.defaultAnimation == "Idle_Neutral"
    && 0 < |m.files| <= limits.maxPackFiles
    && (forall i :: 0 <= i < |m.files| ==> FileOk(env, limits, m.files[i]))
    && LowerPathsDiffer(env, m.files)
    && TotalBytes(m.files) <= limits.maxPackBytes && TotalBytes(m.files) <= env.maxSafe
    && (forall i :: 0 <= i < |m.animations| ==> AnimationOk(env, m.files, m.animations[i]))
    && UniqueNames(m.animations)
    && (forall i :: 0 <= i < |REQUIRED| ==> Names(m.animations, REQUIRED[i]))
    && PathOk(m.files, m.portraitPath) && PathOk(m.files, m.iconPath)
  }

  // ------------------------------------------------------------------ as JSON

  function OptionalPath(key: string, path: Option<string>): seq<Field> { if path.Some? then [Field(key, Str(path.value))] else [] }

  function OptionalNum(key: string, n: Option<int>): seq<Field> { if n.Some? then [Field(key, Num(n.value))] else [] }

  function FormatName(f: Format): string {
    match f case SpriteSheet => "sprite_sheet" case FrameSequence => "frame_sequence" case Gif => "gif" case Static => "static"
  }

  function StringsJson(xs: seq<string>): seq<Json> { if xs == [] then [] else [Str(xs[0])] + StringsJson(xs[1..]) }

  function AnimationJson(a: Animation): Json {
    Obj([Field("name", Str(a.name)), Field("format", Str(FormatName(a.format))), Field("files", Arr(StringsJson(a.files)))]
        + OptionalNum("frameWidth", a.frameWidth) + OptionalNum("frameHeight", a.frameHeight)
        + OptionalNum("frameCount", a.frameCount) + OptionalNum("frameDurationMs", a.frameDurationMs)
        + [Field("loop", Bool(a.loop))])
  }

  function AnimationsJson(xs: seq<Animation>): seq<Json> { if xs == [] then [] else [AnimationJson(xs[0])] + AnimationsJson(xs[1..]) }

  function FileJson(f: File): Json {
    Obj([Field("relativePath", Str(f.relativePath)), Field("category", Str(f.category)), Field("mimeType", Str(f.mimeType)),
         Field("sizeBytes", Num(f.sizeBytes)), Field("sha256", Str(f.sha256))])
  }

  function FilesJson(xs: seq<File>): seq<Json> { if xs == [] then [] else [FileJson(xs[0])] + FilesJson(xs[1..]) }

  function ManifestJson(m: Manifest): Json {
    Obj([Field("format", Str(m.format)), Field("schemaVersion", Num(m.schemaVersion)),
         Field("runtime", Obj([Field("defaultAnimation", Str(m.defaultAnimation))]
                              + OptionalPath("portraitPath", m.portraitPath) + OptionalPath("iconPath", m.iconPath)
                              + [Field("animations", Arr(AnimationsJson(m.animations)))])),
         Field("files", Arr(FilesJson(m.files)))])
  }

  function CanonicalText(env: Platform, m: Manifest): string { Text(ManifestJson(Canonical(env, m))) }

  datatype Validated = Validated(manifest: Manifest, canonicalJson: string, totalBytes: int)

  /** validateManifest. */
  ghost function Validate(env: Platform, limits: Limits, m: Manifest, expectedHash: string): Option<Validated> {
    if Acceptable(env, limits, m) && IsHash(expectedHash) && env.digest(CanonicalText(env, m)) == expectedHash
    then Some(Validated(Canonical(env, m), CanonicalText(env, m), TotalBytes(m.files)))
    else None
  }

  // ------------------------------------------------------------------ validating again

  lemma {:induction false} InsertTotal(env: Platform, f: File, files: seq<File>)
    ensures TotalBytes(Insert(f, files, ByPath(env))) == f.sizeBytes + TotalBytes(files)
  {
    if !(files == [] || ByPath(env)(f, files[0])) {
      InsertTotal(env, f, files[1..]);
    }
  }

  lemma {:induction false} SortTotal(env: Platform, files: seq<File>)
    ensures TotalBytes(Sort(files, ByPath(env))) == TotalBytes(files)
  {
    if files != [] {
      SortTotal(env, files[1..]);
      InsertTotal(env, files[0], Sort(files[1..], ByPath(env)));
    }
  }

  lemma Twice<T(!new)>(xs: seq<T>, i: nat, j: nat)
    requires i < j < |xs| && xs[i] == xs[j]
    ensures multiset(xs)[xs[i]] >= 2
  {
    assert xs == xs[..j] + [xs[j]] + xs[j + 1..];
    assert xs[..j][i] == xs[i] && xs[i] in multiset(xs[..j]);
  }

  /** A list without repetition stays one when it is permuted. */
  lemma DistinctMoves<T(!new)>(xs: seq<T>, ys: seq<T>, i: nat, j: nat)
    requires forall a, b :: 0 <= a < b < |xs| ==> xs[a] != xs[b]
    requires multiset(xs) == multiset(ys) && i < j < |ys|
    ensures ys[i] != ys[j]
  {
    UniqueBag(xs, ys[i]);
    if ys[i] == ys[j] {
      Twice(ys, i, j);
    }
  }

  lemma LowerPathsMove(env: Platform, xs: seq<File>, ys: seq<File>)
    requires LowerPathsDiffer(env, xs) && multiset(xs) == multiset(ys)
    ensures LowerPathsDiffer(env, ys)
  {
    SameMembers(xs, ys);
    forall i, j | 0 <= i < j < |ys| ensures env.lower(ys[i].relativePath) != env.lower(ys[j].relativePath) {
      DistinctMoves(xs, ys, i, j);
      assert ys[i] in xs && ys[j] in xs;
      var a :| 0 <= a < |xs| && xs[a] == ys[i];
      var b :| 0 <= b < |xs| && xs[b] == ys[j];
      assert a != b;
    }
  }

  lemma NamesMove(xs: seq<Animation>, ys: seq<Animation>)
    requires UniqueNames(xs) && multiset(xs) == multiset(ys)
    ensures UniqueNames(ys)
  {
    SameMembers(xs, ys);
    forall i, j | 0 <= i < j < |ys| ensures ys[i].name != ys[j].name {
      DistinctMoves(xs, ys, i, j);
      assert ys[i] in xs && ys[j] in xs;
      var a :| 0 <= a < |xs| && xs[a] == ys[i];
      var b :| 0 <= b < |xs| && xs[b] == ys[j];
      assert a != b;
    }
  }

  /** Looking up a path does not depend on the order of the files. */
  lemma FindMoves(env: Platform, xs: seq<File>, ys: seq<File>, path: string)
    requires LowerPathsDiffer(env, xs) && (forall f :: f in xs <==> f in ys)
    ensures FindFile(xs, path) == FindFile(ys, path)
  {
    var a, b := FindFile(xs, path), FindFile(ys, path);
    if a.Some? && b.Some? {
      var i :| 0 <= i < |xs| && xs[i] == a.value;
      var j :| 0 <= j < |xs| && xs[j] == b.value;
      assert i == j;
    }
  }

  /** The sprite sheets whose first file in sorted order is a PNG. */
  ghost predicate SheetsSorted(m: Manifest) {
    forall i :: 0 <= i < |m.animations| && m.animations[i].format == SpriteSheet && m.animations[i].files != [] ==>
      |Sort(m.animations[i].files, ByCodeUnits())| > 0
      && IsPng(m.files, Sort(m.animations[i].files, ByCodeUnits())[0])
  }

  /** An animation after canonicalisation: what else it needs is that its first sorted file is a PNG. */
  lemma SortedAnimationOk(env: Platform, files: seq<File>, sorted: seq<File>, a: Animation)
    requires LowerPathsDiffer(env, files) && (forall f :: f in files <==> f in sorted) && AnimationOk(env, files, a)
    ensures |Sort(a.files, ByCodeUnits())| == |a.files|
    ensures AnimationOk(env, sorted, WithSortedFiles(a))
       <==> (a.format == SpriteSheet ==> IsPng(files, Sort(a.files, ByCodeUnits())[0]))
  {
    var b := WithSortedFiles(a);
    SortContents(a.files, ByCodeUnits());
    SameMembers(a.files, b.files);
    forall i | 0 <= i < |b.files| ensures FindFile(sorted, b.files[i]).Some? {
      assert b.files[i] in a.files;
      var j :| 0 <= j < |a.files| && a.files[j] == b.files[i];
      FindMoves(env, files, sorted, b.files[i]);
    }
    FindMoves(env, files, sorted, b.files[0]);
  }

  lemma MappedMembers(xs: seq<Animation>)
    ensures forall x :: x in AllWithSortedFiles(xs) <==> exists i :: 0 <= i < |xs| && x == WithSortedFiles(xs[i])
  {
    AllSorted(xs);
    hide WithSortedFiles;
    var mapped := AllWithSortedFiles(xs);
    forall i | 0 <= i < |xs| ensures WithSortedFiles(xs[i]) in mapped {
      assert mapped[i] == WithSortedFiles(xs[i]);
    }
  }

  lemma CanonicalAnimations(env: Platform, m: Manifest)
    requires UniqueNames(m.animations)
    ensures var xs := Canonical(env, m).animations;
            && UniqueNames(xs)
            && (forall x :: x in xs <==> exists i :: 0 <= i < |m.animations| && x == WithSortedFiles(m.animations[i]))
  {
    var mapped := AllWithSortedFiles(m.animations);
    AllSorted(m.animations);
    SortContents(mapped, ByName(env));
    NamesMove(mapped, Sort(mapped, ByName(env)));
    SameMembers(mapped, Sort(mapped, ByName(env)));
    MappedMembers(m.animations);
    hide AllWithSortedFiles, WithSortedFiles, Sort, UniqueNames;
  }

  lemma CanonicalFiles(env: Platform, limits: Limits, m: Manifest)
    requires Acceptable(env, limits, m)
    ensures var ys := Canonical(env, m).files;
            && (forall f :: f in m.files <==> f in ys) && |ys| == |m.files|
            && LowerPathsDiffer(env, ys) && TotalBytes(ys) == TotalBytes(m.files)
            && (forall i :: 0 <= i < |ys| ==> FileOk(env, limits, ys[i]))
  {
    var ys := Sort(m.files, ByPath(env));
    SortContents(m.files, ByPath(env));
    SameMembers(m.files, ys);
    LowerPathsMove(env, m.files, ys);
    SortTotal(env, m.files);
    forall i | 0 <= i < |ys| ensures FileOk(env, limits, ys[i]) {
      assert ys[i] in m.files;
    }
    hide FileOk, TotalBytes;
  }

  /** Each animation of the canonical form is acceptable exactly when its sheet, if it is one, still
      starts with a PNG. */
  lemma CanonicalAnimationsOk(env: Platform, limits: Limits, m: Manifest)
    requires Acceptable(env, limits, m)
    ensures var c := Canonical(env, m);
            (forall i :: 0 <= i < |c.animations| ==> AnimationOk(env, c.files, c.animations[i])) <==> SheetsSorted(m)
  {
    var c := Canonical(env, m);
    CanonicalAnimations(env, m);
    CanonicalFiles(env, limits, m);
    forall i | 0 <= i < |m.animations|
      ensures |Sort(m.animations[i].files, ByCodeUnits())| == |m.animations[i].files|
      ensures AnimationOk(env, c.files, WithSortedFiles(m.animations[i]))
         <==> (m.animations[i].format == SpriteSheet ==> IsPng(m.files, Sort(m.animations[i].files, ByCodeUnits())[0]))
    {
      SortedAnimationOk(env, m.files, c.files, m.animations[i]);
    }
    if SheetsSorted(m) {
      forall k | 0 <= k < |c.animations| ensures AnimationOk(env, c.files, c.animations[k]) {
        assert c.animations[k] in c.animations;
      }
    }
    if forall k :: 0 <= k < |c.animations| ==> AnimationOk(env, c.files, c.animations[k]) {
      forall i | 0 <= i < |m.animations| ensures AnimationOk(env, c.files, WithSortedFiles(m.animations[i])) {
        assert WithSortedFiles(m.animations[i]) in c.animations;
      }
    }
    hide AnimationOk, Acceptable, Canonical;
  }

  lemma CanonicalRequired(env: Platform, m: Manifest, name: string)
    requires UniqueNames(m.animations) && Names(m.animations, name)
    ensures Names(Canonical(env, m).animations, name)
  {
    CanonicalAnimations(env, m);
    var i :| 0 <= i < |m.animations| && m.animations[i].name == name;
    assert WithSortedFiles(m.animations[i]) in Canonical(env, m).animations;
  }

  lemma CanonicalPaths(env: Platform, limits: Limits, m: Manifest, path: Option<string>)
    requires Acceptable(env, limits, m) && PathOk(m.files, path)
    ensures PathOk(Canonical(env, m).files, path) && Truthy(path) == path
  {
    CanonicalFiles(env, limits, m);
    if path.Some? {
      FindMoves(env, m.files, Canonical(env, m).files, path.value);
      var f := FindFile(m.files, path.value).value;
      var i :| 0 <= i < |m.files| && m.files[i] == f;
      assert FileOk(env, limits, m.files[i]);
    }
    hide Acceptable, FileOk;
  }

  /** An accepted manifest's own output is accepted again if and only if, in every sprite sheet, the
      file that sorts first is a PNG: the check reads the first file before the files are sorted. */
  lemma ReacceptedExactly(env: Platform, limits: Limits, m: Manifest)
    requires Acceptable(env, limits, m)
    ensures Acceptable(env, limits, Canonical(env, m)) <==> SheetsSorted(m)
  {
    CanonicalFiles(env, limits, m);
    CanonicalAnimations(env, m);
    CanonicalAnimationsOk(env, limits, m);
    CanonicalPaths(env, limits, m, m.portraitPath);
    CanonicalPaths(env, limits, m, m.iconPath);
    forall i | 0 <= i < |REQUIRED| ensures Names(Canonical(env, m).animations, REQUIRED[i]) {
      CanonicalRequired(env, m, REQUIRED[i]);
    }
    hide AnimationOk, SheetsSorted, FileOk, LowerPathsDiffer, UniqueNames, TotalBytes, PathOk, Names;
  }

  /** And then, with the same hash, the result is the same: a validated manifest validates to itself if
      and only if every sheet's first sorted file is a PNG. */
  lemma RevalidatesExactly(env: Platform, limits: Limits, m: Manifest, hash: string)
    requires PlatformOk(env) && Validate(env, limits, m, hash).Some?
    ensures var first := Validate(env, limits, m, hash).value;
            Validate(env, limits, first.manifest, hash) == Some(first) <==> SheetsSorted(m)
  {
    ReacceptedExactly(env, limits, m);
    CanonicalIdempotent(env, m);
    CanonicalFiles(env, limits, m);
    hide Acceptable, Canonical, AnimationOk, CanonicalText, SheetsSorted;
  }

  /** So it does when every sprite sheet has one file. */
  lemma ValidatedAgain(env: Platform, limits: Limits, m: Manifest, hash: string)
    requires PlatformOk(env) && Validate(env, limits, m, hash).Some?
    requires forall i :: 0 <= i < |m.animations| && m.animations[i].format == SpriteSheet ==> |m.animations[i].files| == 1
    ensures var first := Validate(env, limits, m, hash).value;
            Validate(env, limits, first.manifest, hash) == Some(first)
  {
    forall i | 0 <= i < |m.animations| && m.animations[i].format == SpriteSheet
      ensures Sort(m.animations[i].files, ByCodeUnits()) == m.animations[i].files
    {
      SortOfSorted(m.animations[i].files, ByCodeUnits());
    }
    forall i | 0 <= i < |m.animations| ensures AnimationOk(env, m.files, m.animations[i]) {}
    RevalidatesExactly(env, limits, m, hash);
    hide Acceptable, Canonical, AnimationOk, CanonicalText;
  }

  // ------------------------------------------------------------------ the loops

  /** validateManifest: two passes that gather paths, bytes and names. */
  method ValidateManifest(env: Platform, limits: Limits, m: Manifest, expectedHash: string) returns (r: Option<Validated>)
    ensures r == Validate(env, limits, m, expectedHash)
  {
    hide TotalBytes, LowerPathsDiffer, AnimationOk, FileOk, UniqueNames, PathOk, IsHash, Canonical, ManifestJson, Text, Names;
    if m.format != "our-companion-asset-pack" || m.schemaVersion != 1 || m.defaultAnimation != "Idle_Neutral" { return None; }
    if |m.files| == 0 || |m.files| > limits.maxPackFiles { return None; }
    var filesOk, totalBytes := ValidateFiles(env, limits, m.files);
    if !filesOk || totalBytes > env.maxSafe || totalBytes > limits.maxPackBytes { return None; }
    var animationsOk := ValidateAnimations(env, m.files, m.animations);
    if !animationsOk { return None; }
    for i := 0 to |REQUIRED|
      invariant forall k :: 0 <= k < i ==> Names(m.animations, REQUIRED[k])
    {
      if !Names(m.animations, REQUIRED[i]) { return None; }
    }
    if !PathOk(m.files, m.portraitPath) || !PathOk(m.files, m.iconPath) { return None; }
    var normalized := Canonical(env, m);
    var canonicalJson := Text(ManifestJson(normalized));
    if !IsHash(expectedHash) || env.digest(canonicalJson) != expectedHash { return None; }
    return Some(Validated(normalized, canonicalJson, totalBytes));
  }

  method ValidateFiles(env: Platform, limits: Limits, files: seq<File>) returns (ok: bool, totalBytes: int)
    ensures ok <==> LowerPathsDiffer(env, files) && forall i :: 0 <= i < |files| ==> FileOk(env, limits, files[i])
    ensures ok ==> totalBytes == TotalBytes(files)
  {
    hide FileOk;
    var seen := {};
    totalBytes := 0;
    for n := 0 to |files|
      invariant seen == set i | 0 <= i < n :: env.lower(files[i].relativePath)
      invariant forall i, j :: 0 <= i < j < n ==> env.lower(files[i].relativePath) != env.lower(files[j].relativePath)
      invariant forall i :: 0 <= i < n ==> FileOk(env, limits, files[i])
      invariant totalBytes + TotalBytes(files[n..]) == TotalBytes(files)
    {
      var file := files[n];
      if !FileOk(env, limits, file) { return false, 0; }
      var lower := env.lower(file.relativePath);
      if lower in seen { return false, 0; }
      seen := seen + {lower};
      totalBytes := totalBytes + file.sizeBytes;
      assert files[n..][1..] == files[n + 1..];
    }
    return true, totalBytes;
  }

  method ValidateAnimations(env: Platform, files: seq<File>, xs: seq<Animation>) returns (ok: bool)
    ensures ok <==> UniqueNames(xs) && forall i :: 0 <= i < |xs| ==> AnimationOk(env, files, xs[i])
  {
    hide AnimationOk;
    var names := {};
    for n := 0 to |xs|
      invariant names == set i | 0 <= i < n :: xs[i].name
      invariant forall i, j :: 0 <= i < j < n ==> xs[i].name != xs[j].name
      invariant forall i :: 0 <= i < n ==> AnimationOk(env, files, xs[i])
    {
      if !AnimationOk(env, files, xs[n]) || xs[n].name in names { return false; }
      names := names + {xs[n].name};
    }
    return true;
  }
}
