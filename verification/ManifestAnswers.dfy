/** What a validated manifest is, in terms of its fields alone, and what its canonical JSON says. */
module ManifestAnswers {
  import opened Common
  import opened Sorting
  import opened Json
  import opened JsonReader
  import opened Manifest

  // ------------------------------------------------------------------ paths

  /** Every slash is followed by a character that opens a visible segment. */
  ghost predicate SlashesOk(s: string) { forall i :: 0 <= i < |s| && s[i] == '/' ==> i + 1 < |s| && s[i + 1] !in {'/', '.'} }

  ghost predicate SafeFrom(segments: seq<string>, n: nat) { forall i :: n <= i < |segments| ==> !UnsafeSegment(segments[i]) }

  lemma {:induction false} SegmentsExactly(s: string)
    ensures !UnsafeSegment(Split(s)[0]) <==> s != "" && s[0] !in {'/', '.'}
    ensures SafeFrom(Split(s), 1) <==> SlashesOk(s)
  {
    hide SlashesOk, SafeFrom;
    if s != "" {
      var rest := Split(s[1..]);
      SegmentsExactly(s[1..]);
      SlashesSplit(s);
      if s[0] == '/' {
        OneMore("", rest);
      } else {
        SameRest([s[0]] + rest[0], rest);
      }
    } else {
      NoSegments();
    }
  }

  lemma NoSegments()
    ensures SafeFrom([""], 1) && SlashesOk("")
  {
  }

  lemma OneMore(x: string, rest: seq<string>)
    requires rest != []
    ensures SafeFrom([x] + rest, 1) <==> !UnsafeSegment(rest[0]) && SafeFrom(rest, 1)
  {
    var all := [x] + rest;
    assert forall i :: 0 <= i < |rest| ==> all[i + 1] == rest[i];
    if SafeFrom(all, 1) {
      assert !UnsafeSegment(all[1]);
      forall i | 1 <= i < |rest| ensures !UnsafeSegment(rest[i]) {
        assert all[i + 1] == rest[i];
      }
    }
    if !UnsafeSegment(rest[0]) && SafeFrom(rest, 1) {
      forall i | 1 <= i < |all| ensures !UnsafeSegment(all[i]) {
        assert all[i] == rest[i - 1];
      }
    }
    hide UnsafeSegment;
  }

  lemma SameRest(x: string, rest: seq<string>)
    requires rest != []
    ensures SafeFrom([x] + rest[1..], 1) <==> SafeFrom(rest, 1)
  {
    var all := [x] + rest[1..];
    assert |all| == |rest| && forall i :: 1 <= i < |rest| ==> all[i] == rest[i];
    hide UnsafeSegment;
  }

  lemma SlashesSplit(s: string)
    requires s != ""
    ensures SlashesOk(s) <==> SlashesOk(s[1..]) && (s[0] == '/' ==> |s| > 1 && s[1] !in {'/', '.'})
  {
    var t := s[1..];
    assert forall i :: 0 <= i < |t| ==> t[i] == s[i + 1];
    if SlashesOk(s) {
      forall i | 0 <= i < |t| && t[i] == '/' ensures i + 1 < |t| && t[i + 1] !in {'/', '.'} {
        assert s[i + 1] == '/';
      }
    }
    if SlashesOk(t) && (s[0] == '/' ==> |s| > 1 && s[1] !in {'/', '.'}) {
      forall i | 0 <= i < |s| && s[i] == '/' ensures i + 1 < |s| && s[i + 1] !in {'/', '.'} {
        if i > 0 { assert t[i - 1] == '/'; }
      }
    }
  }

  /** The percent-encodings of '.', '/' and '\\', in either case. */
  ghost predicate EncodedAt(s: string, i: int) {
    0 <= i < |s| - 2 && s[i..i + 3] in {"%2e", "%2E", "%2f", "%2F", "%5c", "%5C"}
  }

  /** A path is accepted exactly if it lies under `assets/`, has no NUL, backslash, question mark, hash sign or
      encoded separator, and no segment that is empty or hidden; it is then its own normal form. */
  lemma PathsExactly(s: string)
    ensures NormalizePath(s) ==
              if StartsWith(s, "assets/") && SlashesOk(s) && (forall i :: 0 <= i < |s| ==> s[i] !in {0 as char, '\\', '?', '#'})
                 && (forall i :: !EncodedAt(s, i))
              then Some(s) else None
  {
    EncodedExactly(s);
    if s != "" {
      SegmentsExactly(s);
      JoinOfSplit(s);
      StartsAssets(s);
      hide Split, Join, EncodesSeparator, SlashesOk, EncodedAt;
      assert (exists i :: 0 <= i < |Split(s)| && UnsafeSegment(Split(s)[i]))
        <==> UnsafeSegment(Split(s)[0]) || !SafeFrom(Split(s), 1);
    }
  }

  lemma StartsAssets(s: string)
    ensures StartsWith(s, "assets/") ==> s[0] == 'a' && !StartsWith(s, "/")
  {
    if StartsWith(s, "assets/") {
      assert s[0] == s[..7][0];
    }
  }

  lemma EncodedExactly(s: string)
    ensures EncodesSeparator(s) <==> exists i :: EncodedAt(s, i)
  {
    if i :| EncodedAt(s, i) {
      EncodedHere(s, i);
      assert s[i] == '%';
    }
    if EncodesSeparator(s) {
      var i :| 0 <= i < |s| - 2 && s[i] == '%'
            && ((s[i + 1] == '2' && s[i + 2] in {'e', 'E', 'f', 'F'}) || (s[i + 1] == '5' && s[i + 2] in {'c', 'C'}));
      EncodedHere(s, i);
    }
    hide EncodedAt;
  }

  lemma EncodedHere(s: string, i: nat)
    requires i < |s| - 2
    ensures EncodedAt(s, i)
       <==> s[i] == '%' && ((s[i + 1] == '2' && s[i + 2] in {'e', 'E', 'f', 'F'}) || (s[i + 1] == '5' && s[i + 2] in {'c', 'C'}))
  {
    var t := s[i..i + 3];
    assert t == [s[i], s[i + 1], s[i + 2]];
    assert "%2e" == ['%', '2', 'e'] && "%2E" == ['%', '2', 'E'] && "%2f" == ['%', '2', 'f'];
    assert "%2F" == ['%', '2', 'F'] && "%5c" == ['%', '5', 'c'] && "%5C" == ['%', '5', 'C'];
  }

  // ------------------------------------------------------------------ files

  ghost predicate LastDot(s: string, k: int) { 0 <= k < |s| && s[k] == '.' && forall j :: k < j < |s| ==> s[j] != '.' }

  /** The extension starts at the last dot; without a dot it is the last character, if there is one. */
  lemma {:induction false} ExtensionExactly(s: string)
    ensures forall k :: LastDot(s, k) ==> Extension(s) == s[k..]
    ensures (forall k :: !LastDot(s, k)) ==> Extension(s) == if s == "" then "" else s[|s| - 1..]
  {
    hide LastDot;
    if s != "" && s[|s| - 1] != '.' && Contains(s, '.') {
      var t := s[..|s| - 1];
      ExtensionExactly(t);
      var d := FindLastDot(t, s);
      assert s[d..] == t[d..] + [s[|s| - 1]];
    } else if s != "" && s[|s| - 1] == '.' {
      EndsWithDot(s);
    } else {
      NoDot(s);
    }
  }

  lemma EndsWithDot(s: string)
    requires s != "" && s[|s| - 1] == '.'
    ensures forall k :: LastDot(s, k) <==> k == |s| - 1
  {
  }

  lemma NoDot(s: string)
    requires !Contains(s, '.')
    ensures forall k :: !LastDot(s, k)
  {
  }

  lemma FindLastDot(t: string, s: string) returns (d: nat)
    requires Contains(s, '.') && s != "" && s[|s| - 1] != '.' && t == s[..|s| - 1]
    ensures d <= |t| && LastDot(t, d) && LastDot(s, d) && forall k :: LastDot(s, k) ==> k == d
  {
    d := |t|;
    while d > 0 && t[d - 1] != '.'
      invariant 0 <= d <= |t| && forall j :: d <= j < |s| ==> s[j] != '.'
    {
      d := d - 1;
    }
    assert d > 0;
    d := d - 1;
  }

  /** The extensions, each with its type. */
  ghost function Types(): set<(string, string)> {
    {(".png", "image/png"), (".jpg", "image/jpeg"), (".jpeg", "image/jpeg"), (".webp", "image/webp"), (".gif", "image/gif"),
     (".json", "application/json"), (".mp3", "audio/mpeg"), (".wav", "audio/wav"), (".ogg", "audio/ogg")}
  }

  /** Images are for animations, portraits and icons, sounds are voices, and JSON is metadata. */
  ghost predicate CategoryFits(category: string, mime: string) {
    if StartsWith(mime, "image/") then category in {"animation", "portrait", "icon"}
    else if StartsWith(mime, "audio/") then category == "voice"
    else category == "metadata"
  }

  lemma TypesExactly(extension: string, category: string, mime: string)
    ensures Allowed(extension).Some? && category in Allowed(extension).value.1 && mime == Allowed(extension).value.0
       <==> (extension, mime) in Types() && CategoryFits(category, mime)
  {
    assert "image/png"[..6] == "image/" && "image/jpeg"[..6] == "image/" && "image/webp"[..6] == "image/" && "image/gif"[..6] == "image/";
    assert "audio/mpeg"[..6] == "audio/" && "audio/wav"[..6] == "audio/" && "audio/ogg"[..6] == "audio/";
    assert "application/json"[..6] == "applic";
    assert "audio/"[1] == 'u' && "image/"[1] == 'm' && "applic"[1] == 'p';
  }

  /** Sixty-four lower-case hexadecimal digits. */
  ghost predicate HexDigest(s: string) { |s| == 64 && forall i :: 0 <= i < |s| ==> s[i] in "0123456789abcdef" }

  lemma HashesExactly(s: string)
    ensures IsHash(s) <==> HexDigest(s)
  {
    forall c: char ensures c in "0123456789abcdef" <==> '0' <= c <= '9' || 'a' <= c <= 'f' {
      HexCharacter(c);
    }
  }

  lemma HexCharacter(c: char)
    ensures c in "0123456789abcdef" <==> '0' <= c <= '9' || 'a' <= c <= 'f'
  {
    var all := "0123456789abcdef";
    assert all == ['0', '1', '2', '3', '4', '5', '6', '7', '8', '9', 'a', 'b', 'c', 'd', 'e', 'f'];
    if '0' <= c <= '9' {
      assert all[c as int - '0' as int] == c;
    }
    if 'a' <= c <= 'f' {
      assert all[c as int - 'a' as int + 10] == c;
    }
  }

  /** A file of a pack. */
  ghost predicate GoodFile(env: Platform, limits: Limits, f: File) {
    && NormalizePath(f.relativePath) == Some(f.relativePath)
    && (env.lower(Extension(f.relativePath)), f.mimeType) in Types() && CategoryFits(f.category, f.mimeType)
    && 1 <= f.sizeBytes && f.sizeBytes <= limits.maxFileBytes && f.sizeBytes <= env.maxSafe && HexDigest(f.sha256)
  }

  lemma FilesExactly(env: Platform, limits: Limits, f: File)
    ensures FileOk(env, limits, f) <==> GoodFile(env, limits, f)
  {
    TypesExactly(env.lower(Extension(f.relativePath)), f.category, f.mimeType);
    HashesExactly(f.sha256);
    hide Allowed, Types, CategoryFits, IsHash, HexDigest, NormalizePath, Extension;
  }

  // ------------------------------------------------------------------ animations

  ghost predicate HasFile(files: seq<File>, path: string) { exists i :: 0 <= i < |files| && files[i].relativePath == path }

  /** The first file of that path. */
  ghost predicate Finds(files: seq<File>, path: string, f: File) {
    exists i :: 0 <= i < |files| && files[i] == f && f.relativePath == path && forall j :: 0 <= j < i ==> files[j].relativePath != path
  }

  lemma {:induction false} FindsExactly(files: seq<File>, path: string)
    ensures forall f :: FindFile(files, path) == Some(f) <==> Finds(files, path, f)
    ensures FindFile(files, path).Some? <==> HasFile(files, path)
  {
    if files != [] {
      FindsExactly(files[1..], path);
      FindsRest(files, path);
    }
    hide Finds;
  }

  lemma FindsRest(files: seq<File>, path: string)
    requires files != []
    ensures files[0].relativePath == path ==> forall f :: Finds(files, path, f) <==> f == files[0]
    ensures files[0].relativePath != path ==> forall f :: Finds(files, path, f) <==> Finds(files[1..], path, f)
  {
    forall f | files[0].relativePath != path && Finds(files[1..], path, f) ensures Finds(files, path, f) {
      var i :| 0 <= i < |files[1..]| && files[1..][i] == f && f.relativePath == path && forall j :: 0 <= j < i ==> files[1..][j].relativePath != path;
      assert files[i + 1] == f;
      forall j | 0 <= j < i + 1 ensures files[j].relativePath != path {
        if j > 0 { assert files[1..][j - 1] == files[j]; }
      }
    }
    forall f | files[0].relativePath != path && Finds(files, path, f) ensures Finds(files[1..], path, f) {
      var i :| 0 <= i < |files| && files[i] == f && f.relativePath == path && forall j :: 0 <= j < i ==> files[j].relativePath != path;
      assert files[1..][i - 1] == f;
    }
  }

  /** A column that may be missing counts as 0, which no bound admits. */
  ghost predicate Within(n: Option<int>, low: int, high: int) { n.Some? && low <= n.value <= high }

  /** A sprite sheet has frames of 300 to 4096 pixels a side, 1 to 120 of them, 16 to 10000 milliseconds each, on a
      PNG that comes first. */
  ghost predicate GoodSheet(files: seq<File>, a: Animation)
    requires a.files != []
  {
    && Within(a.frameWidth, 300, 4096) && Within(a.frameHeight, 300, 4096)
    && Within(a.frameCount, 1, 120) && Within(a.frameDurationMs, 16, 10000)
    && exists f :: Finds(files, a.files[0], f) && f.mimeType == "image/png"
  }

  lemma AnimationsExactly(env: Platform, files: seq<File>, a: Animation)
    ensures AnimationOk(env, files, a) <==>
              && a.name != "" && a.files != [] && (forall i :: 0 <= i < |a.files| ==> HasFile(files, a.files[i]))
              && (a.format == SpriteSheet ==> GoodSheet(files, a))
  {
    forall path ensures FindFile(files, path).Some? <==> HasFile(files, path) {
      FindsExactly(files, path);
    }
    if a.files != [] {
      FindsExactly(files, a.files[0]);
    }
    hide FindFile, Finds, HasFile;
  }

  // ------------------------------------------------------------------ the manifest

  ghost function Bytes(files: seq<File>): int { if files == [] then 0 else Bytes(files[..|files| - 1]) + files[|files| - 1].sizeBytes }

  lemma {:induction false} BytesExactly(files: seq<File>)
    ensures TotalBytes(files) == Bytes(files)
    decreases |files|
  {
    if files != [] {
      var front, last := files[..|files| - 1], files[|files| - 1];
      BytesExactly(front);
      assert files == front + [last];
      TotalOfBoth(front, [last]);
    }
  }

  lemma {:induction false} TotalOfBoth(xs: seq<File>, ys: seq<File>)
    ensures TotalBytes(xs + ys) == TotalBytes(xs) + TotalBytes(ys)
  {
    if xs == [] {
      assert xs + ys == ys;
    } else {
      assert (xs + ys)[1..] == xs[1..] + ys;
      TotalOfBoth(xs[1..], ys);
    }
  }

  /** One to the allowed number of good files, whose paths differ whatever their case, in all within the limit. */
  ghost predicate GoodFiles(env: Platform, limits: Limits, files: seq<File>) {
    && 1 <= |files| <= limits.maxPackFiles && (forall i :: 0 <= i < |files| ==> GoodFile(env, limits, files[i]))
    && (forall i, j :: 0 <= i < j < |files| ==> env.lower(files[i].relativePath) != env.lower(files[j].relativePath))
    && Bytes(files) <= limits.maxPackBytes && Bytes(files) <= env.maxSafe
  }

  ghost predicate HasAnimation(xs: seq<Animation>, name: string) { exists i :: 0 <= i < |xs| && xs[i].name == name }

  /** Animations of different names, each with files of the pack, and the three that are required. */
  ghost predicate GoodAnimations(files: seq<File>, xs: seq<Animation>) {
    && (forall i :: 0 <= i < |xs| ==>
          && xs[i].name != "" && xs[i].files != [] && (forall j :: 0 <= j < |xs[i].files| ==> HasFile(files, xs[i].files[j]))
          && (xs[i].format == SpriteSheet ==> GoodSheet(files, xs[i])))
    && (forall i, j :: 0 <= i < j < |xs| ==> xs[i].name != xs[j].name)
    && HasAnimation(xs, "Idle_Neutral") && HasAnimation(xs, "Enter") && HasAnimation(xs, "Leave")
  }

  lemma GoodFilesExactly(env: Platform, limits: Limits, files: seq<File>)
    ensures GoodFiles(env, limits, files) <==>
              && 0 < |files| <= limits.maxPackFiles && (forall i :: 0 <= i < |files| ==> FileOk(env, limits, files[i]))
              && LowerPathsDiffer(env, files) && TotalBytes(files) <= limits.maxPackBytes && TotalBytes(files) <= env.maxSafe
  {
    forall i | 0 <= i < |files| ensures FileOk(env, limits, files[i]) <==> GoodFile(env, limits, files[i]) {
      FilesExactly(env, limits, files[i]);
    }
    BytesExactly(files);
    hide FileOk, GoodFile, TotalBytes, Bytes;
  }

  lemma GoodAnimationsExactly(env: Platform, files: seq<File>, xs: seq<Animation>)
    ensures GoodAnimations(files, xs) <==>
              && (forall i :: 0 <= i < |xs| ==> AnimationOk(env, files, xs[i])) && UniqueNames(xs)
              && (forall i :: 0 <= i < |REQUIRED| ==> Names(xs, REQUIRED[i]))
  {
    forall i | 0 <= i < |xs|
      ensures AnimationOk(env, files, xs[i]) <==>
                && xs[i].name != "" && xs[i].files != [] && (forall j :: 0 <= j < |xs[i].files| ==> HasFile(files, xs[i].files[j]))
                && (xs[i].format == SpriteSheet ==> GoodSheet(files, xs[i]))
    {
      AnimationsExactly(env, files, xs[i]);
    }
    assert REQUIRED[0] == "Idle_Neutral" && REQUIRED[1] == "Enter" && REQUIRED[2] == "Leave";
    hide AnimationOk, HasFile, GoodSheet;
  }

  /** The format, good files and animations, and images that are files of the pack. */
  ghost predicate Good(env: Platform, limits: Limits, m: Manifest) {
    && m.format == "our-companion-asset-pack" && m.schemaVersion == 1 && m.defaultAnimation == "Idle_Neutral"
    && GoodFiles(env, limits, m.files) && GoodAnimations(m.files, m.animations)
    && (m.portraitPath.Some? ==> HasFile(m.files, m.portraitPath.value)) && (m.iconPath.Some? ==> HasFile(m.files, m.iconPath.value))
  }

  lemma GoodExactly(env: Platform, limits: Limits, m: Manifest)
    ensures Acceptable(env, limits, m) <==> Good(env, limits, m)
  {
    GoodFilesExactly(env, limits, m.files);
    GoodAnimationsExactly(env, m.files, m.animations);
    forall path ensures FindFile(m.files, path).Some? <==> HasFile(m.files, path) {
      FindsExactly(m.files, path);
    }
    hide FileOk, GoodFiles, GoodAnimations, AnimationOk, FindFile, HasFile, TotalBytes, Names, UniqueNames, LowerPathsDiffer;
  }

  /** A manifest is validated exactly if it is good and its canonical JSON has the expected hash; the result is its
      canonical form with the size of all files. */
  lemma ValidatesExactly(env: Platform, limits: Limits, m: Manifest, expectedHash: string)
    ensures Validate(env, limits, m, expectedHash)
      == if Good(env, limits, m) && HexDigest(expectedHash) && env.digest(Text(ManifestJson(Canonical(env, m)))) == expectedHash
         then Some(Validated(Canonical(env, m), Text(ManifestJson(Canonical(env, m))), Bytes(m.files))) else None
  {
    GoodExactly(env, limits, m);
    BytesExactly(m.files);
    HashesExactly(expectedHash);
    hide Good, Acceptable, TotalBytes, Bytes, IsHash, HexDigest, Text, ManifestJson, Canonical;
  }

  // ------------------------------------------------------------------ the canonical form

  /** The same animation with its files in ascending order. */
  ghost predicate Tidied(a: Animation, b: Animation) {
    && b == a.(files := b.files) && multiset(b.files) == multiset(a.files)
    && forall i, j :: 0 <= i < j < |b.files| ==> b.files[i] == b.files[j] || Earlier(b.files[i], b.files[j])
  }

  lemma TidiedExactly(a: Animation)
    ensures Tidied(a, WithSortedFiles(a))
  {
    var b := WithSortedFiles(a);
    SortContents(a.files, ByCodeUnits());
    StringsOrdered();
    SortSorts(a.files, ByCodeUnits());
    forall i, j | 0 <= i < j < |b.files| ensures b.files[i] == b.files[j] || Earlier(b.files[i], b.files[j]) {
      EarlierExactly(b.files[i], b.files[j]);
    }
    hide Earlier, StringLeq, Sort;
  }

  lemma SortedFilesExactly(env: Platform, files: seq<File>)
    requires PlatformOk(env)
    ensures var sorted := Sort(files, ByPath(env));
            && multiset(sorted) == multiset(files)
            && forall i, j :: 0 <= i < j < |sorted| ==> env.before(sorted[i].relativePath, sorted[j].relativePath)
  {
    OrdersOk(env);
    SortContents(files, ByPath(env));
    SortSorts(files, ByPath(env));
    hide Sort;
  }

  lemma SortedAnimationsExactly(env: Platform, xs: seq<Animation>)
    requires PlatformOk(env)
    ensures var sorted := Sort(AllWithSortedFiles(xs), ByName(env));
            && |sorted| == |xs|
            && (forall b :: b in sorted ==> exists a :: a in xs && Tidied(a, b))
            && (forall a :: a in xs ==> exists b :: b in sorted && Tidied(a, b))
            && (forall i, j :: 0 <= i < j < |sorted| ==> env.before(sorted[i].name, sorted[j].name))
  {
    hide Tidied, Sort, AllWithSortedFiles, WithSortedFiles;
    OrdersOk(env);
    var mapped := AllWithSortedFiles(xs);
    var sorted := Sort(mapped, ByName(env));
    SortContents(mapped, ByName(env));
    SortSorts(mapped, ByName(env));
    SameMembers(mapped, sorted);
    AllSorted(xs);
    forall b | b in sorted ensures exists a :: a in xs && Tidied(a, b) {
      var j :| 0 <= j < |mapped| && mapped[j] == b;
      TidiedExactly(xs[j]);
    }
    forall a | a in xs ensures exists b :: b in sorted && Tidied(a, b) {
      var i :| 0 <= i < |xs| && xs[i] == a;
      TidiedExactly(a);
      assert mapped[i] in sorted;
    }
  }

  /** The canonical form has the fixed header, no empty image paths, the same files in the platform's order of their
      paths, and the same animations in the order of their names, each with its files in ascending order. */
  lemma CanonicalExactly(env: Platform, m: Manifest)
    requires PlatformOk(env)
    ensures var c := Canonical(env, m);
            && c.format == "our-companion-asset-pack" && c.schemaVersion == 1 && c.defaultAnimation == "Idle_Neutral"
            && c.portraitPath == (if m.portraitPath == Some("") then None else m.portraitPath)
            && c.iconPath == (if m.iconPath == Some("") then None else m.iconPath)
            && multiset(c.files) == multiset(m.files)
            && (forall i, j :: 0 <= i < j < |c.files| ==> env.before(c.files[i].relativePath, c.files[j].relativePath))
            && |c.animations| == |m.animations|
            && (forall b :: b in c.animations ==> exists a :: a in m.animations && Tidied(a, b))
            && (forall a :: a in m.animations ==> exists b :: b in c.animations && Tidied(a, b))
            && (forall i, j :: 0 <= i < j < |c.animations| ==> env.before(c.animations[i].name, c.animations[j].name))
  {
    hide Tidied, Sort, AllWithSortedFiles;
    SortedFilesExactly(env, m.files);
    SortedAnimationsExactly(env, m.animations);
  }

  // ------------------------------------------------------------------ what the JSON says

  /** value[key] */
  ghost function At(v: Json, key: string): Option<Json> {
    if v.Obj? && key in Keys(v.fields) then Some(Lookup(v.fields, key).value) else None
  }

  lemma {:induction false} AtAppend(xs: seq<Field>, ys: seq<Field>, key: string)
    ensures At(Obj(xs + ys), key) == if At(Obj(xs), key) == None then At(Obj(ys), key) else At(Obj(xs), key)
  {
    if xs == [] {
      assert xs + ys == ys;
    } else {
      assert (xs + ys)[1..] == xs[1..] + ys;
      AtAppend(xs[1..], ys, key);
    }
  }

  lemma AtOne(k: string, x: Json, key: string)
    ensures At(Obj([Field(k, x)]), key) == if k == key then Some(x) else None
    ensures At(Obj([]), key) == None
  {
    assert [Field(k, x)][1..] == [];
  }

  ghost predicate IsAtom(v: Json) { v.Null? || v.Bool? || v.Num? || v.Str? }

  lemma AtomStays(v: Json, w: Json, key: string)
    requires Same(v, w) && (At(v, key).Some? ==> IsAtom(At(v, key).value))
    ensures At(w, key) == At(v, key)
  {
    AtSame(v, w, key);
    hide At;
  }

  lemma AtSame(v: Json, w: Json, key: string)
    requires Same(v, w)
    ensures At(v, key) == None <==> At(w, key) == None
    ensures At(v, key) != None ==> Same(At(v, key).value, At(w, key).value)
  {
  }

  ghost predicate SaysText(v: Json, key: string, s: string) { At(v, key) == Some(Str(s)) }

  ghost predicate SaysNumber(v: Json, key: string, n: Option<int>) {
    At(v, key) == match n case None => None case Some(k) => Some(Num(k))
  }

  ghost predicate SaysPath(v: Json, key: string, path: Option<string>) {
    At(v, key) == match path case None => None case Some(s) => Some(Str(s))
  }

  ghost predicate SaysFile(v: Json, f: File) {
    && SaysText(v, "relativePath", f.relativePath) && SaysText(v, "category", f.category) && SaysText(v, "mimeType", f.mimeType)
    && SaysNumber(v, "sizeBytes", Some(f.sizeBytes)) && SaysText(v, "sha256", f.sha256)
  }

  ghost predicate SaysAnimation(v: Json, a: Animation) {
    && SaysText(v, "name", a.name) && At(v, "loop") == Some(Bool(a.loop))
    && SaysText(v, "format", match a.format case SpriteSheet => "sprite_sheet" case FrameSequence => "frame_sequence" case Gif => "gif" case Static => "static")
    && At(v, "files").Some? && At(v, "files").value.Arr? && |At(v, "files").value.items| == |a.files|
    && (forall i :: 0 <= i < |a.files| ==> At(v, "files").value.items[i] == Str(a.files[i]))
    && SaysFrames(v, a)
  }

  ghost predicate SaysFrames(v: Json, a: Animation) {
    && SaysNumber(v, "frameWidth", a.frameWidth) && SaysNumber(v, "frameHeight", a.frameHeight)
    && SaysNumber(v, "frameCount", a.frameCount) && SaysNumber(v, "frameDurationMs", a.frameDurationMs)
  }

  ghost predicate SaysFiles(v: Option<Json>, files: seq<File>) {
    v.Some? && v.value.Arr? && |v.value.items| == |files| && forall i :: 0 <= i < |files| ==> SaysFile(v.value.items[i], files[i])
  }

  ghost predicate SaysAnimations(v: Option<Json>, xs: seq<Animation>) {
    v.Some? && v.value.Arr? && |v.value.items| == |xs| && forall i :: 0 <= i < |xs| ==> SaysAnimation(v.value.items[i], xs[i])
  }

  /** The JSON of a manifest, read by its keys. */
  ghost predicate Says(v: Json, m: Manifest) {
    && SaysText(v, "format", m.format) && SaysNumber(v, "schemaVersion", Some(m.schemaVersion)) && SaysFiles(At(v, "files"), m.files)
    && At(v, "runtime").Some? && SaysRuntime(At(v, "runtime").value, m)
  }

  ghost predicate SaysRuntime(runtime: Json, m: Manifest) {
    && SaysText(runtime, "defaultAnimation", m.defaultAnimation)
    && SaysPath(runtime, "portraitPath", m.portraitPath) && SaysPath(runtime, "iconPath", m.iconPath)
    && SaysAnimations(At(runtime, "animations"), m.animations)
  }

  // ------------------------------------------------------------------ reading it by its keys

  datatype Entry = Entry(key: string, value: Option<Json>)

  /** A field that may be missing. */
  ghost function Maybe(e: Entry): seq<Field> { if e.value == None then [] else [Field(e.key, e.value.value)] }

  ghost function Fields(es: seq<Entry>): seq<Field> { if es == [] then [] else Maybe(es[0]) + Fields(es[1..]) }

  ghost predicate DifferentKeys(es: seq<Entry>) { forall i, j :: 0 <= i < j < |es| ==> es[i].key != es[j].key }

  lemma {:induction false} NotThere(es: seq<Entry>, key: string)
    requires forall i :: 0 <= i < |es| ==> es[i].key != key
    ensures At(Obj(Fields(es)), key) == None
  {
    if es != [] {
      NotThere(es[1..], key);
      AtAppend(Maybe(es[0]), Fields(es[1..]), key);
      AtMaybe(es[0], key);
    }
    hide At, Maybe;
  }

  lemma AtMaybe(e: Entry, key: string)
    ensures At(Obj(Maybe(e)), key) == if e.key == key then e.value else None
  {
    if e.value.Some? { AtOne(e.key, e.value.value, key); }
  }

  /** With different keys each entry is found under its own. */
  lemma {:induction false} EachIsThere(es: seq<Entry>, i: nat)
    requires i < |es| && DifferentKeys(es)
    ensures At(Obj(Fields(es)), es[i].key) == es[i].value
  {
    AtAppend(Maybe(es[0]), Fields(es[1..]), es[i].key);
    AtMaybe(es[0], es[i].key);
    if i == 0 {
      forall j | 0 <= j < |es[1..]| ensures es[1..][j].key != es[0].key {
      }
      NotThere(es[1..], es[0].key);
    } else {
      EachIsThere(es[1..], i - 1);
    }
    hide At, Maybe;
  }

  lemma AllAreThere(es: seq<Entry>)
    requires DifferentKeys(es)
    ensures forall i :: 0 <= i < |es| ==> At(Obj(Fields(es)), es[i].key) == es[i].value
  {
    forall i | 0 <= i < |es| ensures At(Obj(Fields(es)), es[i].key) == es[i].value {
      EachIsThere(es, i);
    }
    hide At, Fields;
  }

  lemma {:induction false} FieldsOfBoth(xs: seq<Entry>, ys: seq<Entry>)
    ensures Fields(xs + ys) == Fields(xs) + Fields(ys)
  {
    if xs == [] {
      assert xs + ys == ys;
    } else {
      assert (xs + ys)[1..] == xs[1..] + ys;
      FieldsOfBoth(xs[1..], ys);
    }
    hide Maybe;
  }

  lemma FieldsOne(e: Entry)
    ensures Fields([e]) == Maybe(e)
  {
    assert [e][1..] == [];
  }

  lemma FieldsTwo(a: Entry, b: Entry)
    ensures Fields([a, b]) == Maybe(a) + Maybe(b)
  {
    FieldsOfBoth([a], [b]);
    FieldsOne(a);
    FieldsOne(b);
    assert [a, b] == [a] + [b];
    hide Fields, Maybe;
  }

  lemma FieldsFour(a: Entry, b: Entry, c: Entry, d: Entry)
    ensures Fields([a, b, c, d]) == Maybe(a) + Maybe(b) + Maybe(c) + Maybe(d)
  {
    FieldsOfBoth([a, b], [c, d]);
    FieldsTwo(a, b);
    FieldsTwo(c, d);
    assert [a, b, c, d] == [a, b] + [c, d];
    hide Fields, Maybe;
  }

  // ------------------------------------------------------------------ each object

  ghost function FileEntries(f: File): seq<Entry> {
    [Entry("relativePath", Some(Str(f.relativePath))), Entry("category", Some(Str(f.category))), Entry("mimeType", Some(Str(f.mimeType))),
     Entry("sizeBytes", Some(Num(f.sizeBytes))), Entry("sha256", Some(Str(f.sha256)))]
  }

  lemma FileJsonIs(f: File)
    ensures FileJson(f) == Obj(Fields(FileEntries(f)))
  {
    var es := FileEntries(f);
    FieldsFour(es[0], es[1], es[2], es[3]);
    FieldsOne(es[4]);
    FieldsOfBoth([es[0], es[1], es[2], es[3]], [es[4]]);
    assert es == [es[0], es[1], es[2], es[3]] + [es[4]];
    hide Fields;
  }

  lemma FileSays(f: File)
    ensures SaysFile(FileJson(f), f)
  {
    var es := FileEntries(f);
    FileKeys(f);
    FileJsonIs(f);
    AllAreThere(es);
    assert At(FileJson(f), es[0].key) == es[0].value && At(FileJson(f), es[1].key) == es[1].value && At(FileJson(f), es[2].key) == es[2].value;
    assert At(FileJson(f), es[3].key) == es[3].value && At(FileJson(f), es[4].key) == es[4].value;
    hide At, Fields, FileJson;
  }

  lemma FileKeys(f: File)
    ensures DifferentKeys(FileEntries(f))
  {
    assert |"relativePath"| == 12 && |"category"| == 8 && |"mimeType"| == 8 && |"sizeBytes"| == 9 && |"sha256"| == 6;
    assert "category"[0] == 'c' && "mimeType"[0] == 'm';
  }

  ghost function Numbered(n: Option<int>): Option<Json> { match n case None => None case Some(k) => Some(Num(k)) }

  ghost function Written(s: Option<string>): Option<Json> { match s case None => None case Some(t) => Some(Str(t)) }

  ghost function AnimationEntries(a: Animation): seq<Entry> {
    [Entry("name", Some(Str(a.name))), Entry("format", Some(Str(FormatName(a.format)))), Entry("files", Some(Arr(StringsJson(a.files)))),
     Entry("frameWidth", Numbered(a.frameWidth)), Entry("frameHeight", Numbered(a.frameHeight)),
     Entry("frameCount", Numbered(a.frameCount)), Entry("frameDurationMs", Numbered(a.frameDurationMs)), Entry("loop", Some(Bool(a.loop)))]
  }

  lemma AnimationJsonIs(a: Animation)
    ensures AnimationJson(a) == Obj(Fields(AnimationEntries(a)))
  {
    var es := AnimationEntries(a);
    FieldsFour(es[0], es[1], es[2], es[3]);
    FieldsFour(es[4], es[5], es[6], es[7]);
    FieldsOfBoth([es[0], es[1], es[2], es[3]], [es[4], es[5], es[6], es[7]]);
    assert es == [es[0], es[1], es[2], es[3]] + [es[4], es[5], es[6], es[7]];
    MaybeNumbers(a);
    var f, g, h := Field("name", Str(a.name)), Field("format", Str(FormatName(a.format))), Field("files", Arr(StringsJson(a.files)));
    MaybeThere(es[0], f);
    MaybeThere(es[1], g);
    MaybeThere(es[2], h);
    MaybeThere(es[7], Field("loop", Bool(a.loop)));
    assert [f, g, h] == [f] + [g] + [h];
    hide Fields, StringsJson, Maybe, OptionalNum, Numbered, FormatName;
  }

  lemma MaybeThere(e: Entry, f: Field)
    requires e == Entry(f.key, Some(f.value))
    ensures Maybe(e) == [f]
  {
  }

  lemma MaybeNumbers(a: Animation)
    ensures OptionalNum("frameWidth", a.frameWidth) == Maybe(Entry("frameWidth", Numbered(a.frameWidth)))
    ensures OptionalNum("frameHeight", a.frameHeight) == Maybe(Entry("frameHeight", Numbered(a.frameHeight)))
    ensures OptionalNum("frameCount", a.frameCount) == Maybe(Entry("frameCount", Numbered(a.frameCount)))
    ensures OptionalNum("frameDurationMs", a.frameDurationMs) == Maybe(Entry("frameDurationMs", Numbered(a.frameDurationMs)))
  {
  }

  lemma {:induction false} StringsSay(xs: seq<string>)
    ensures |StringsJson(xs)| == |xs| && forall i :: 0 <= i < |xs| ==> StringsJson(xs)[i] == Str(xs[i])
  {
    if xs != [] { StringsSay(xs[1..]); }
  }

  lemma AnimationSays(a: Animation)
    ensures SaysAnimation(AnimationJson(a), a)
  {
    hide At, Fields, AnimationJson, StringsJson, SaysFrames;
    var es := AnimationEntries(a);
    AnimationKeys(a);
    AnimationJsonIs(a);
    AllAreThere(es);
    StringsSay(a.files);
    var v := AnimationJson(a);
    assert At(v, es[0].key) == es[0].value && At(v, es[1].key) == es[1].value && At(v, es[2].key) == es[2].value && At(v, es[7].key) == es[7].value;
    FramesSay(a);
  }

  lemma FramesSay(a: Animation)
    ensures SaysFrames(AnimationJson(a), a)
  {
    hide At, Fields, AnimationJson, StringsJson;
    var es := AnimationEntries(a);
    AnimationKeys(a);
    AnimationJsonIs(a);
    AllAreThere(es);
    var v := AnimationJson(a);
    assert At(v, es[3].key) == es[3].value && At(v, es[4].key) == es[4].value && At(v, es[5].key) == es[5].value && At(v, es[6].key) == es[6].value;
  }

  lemma AnimationKeys(a: Animation)
    ensures DifferentKeys(AnimationEntries(a))
  {
    assert |"name"| == 4 && |"format"| == 6 && |"files"| == 5 && |"frameWidth"| == 10 && |"frameHeight"| == 11 && |"frameCount"| == 10;
    assert |"frameDurationMs"| == 15 && |"loop"| == 4 && "name"[0] == 'n' && "loop"[0] == 'l' && "frameWidth"[5] == 'W' && "frameCount"[5] == 'C';
  }

  // ------------------------------------------------------------------ the whole

  lemma {:induction false} FilesSay(files: seq<File>)
    ensures |FilesJson(files)| == |files| && forall i :: 0 <= i < |files| ==> SaysFile(FilesJson(files)[i], files[i])
  {
    hide SaysFile, FileJson;
    if files != [] {
      FileSays(files[0]);
      FilesSay(files[1..]);
    }
  }

  lemma {:induction false} AnimationsSay(xs: seq<Animation>)
    ensures |AnimationsJson(xs)| == |xs| && forall i :: 0 <= i < |xs| ==> SaysAnimation(AnimationsJson(xs)[i], xs[i])
  {
    hide SaysAnimation, AnimationJson;
    if xs != [] {
      AnimationSays(xs[0]);
      AnimationsSay(xs[1..]);
    }
  }

  ghost function RuntimeEntries(m: Manifest): seq<Entry> {
    [Entry("defaultAnimation", Some(Str(m.defaultAnimation))), Entry("portraitPath", Written(m.portraitPath)), Entry("iconPath", Written(m.iconPath)),
     Entry("animations", Some(Arr(AnimationsJson(m.animations))))]
  }

  ghost function ManifestEntries(m: Manifest): seq<Entry> {
    [Entry("format", Some(Str(m.format))), Entry("schemaVersion", Some(Num(m.schemaVersion))),
     Entry("runtime", Some(Obj(Fields(RuntimeEntries(m))))), Entry("files", Some(Arr(FilesJson(m.files))))]
  }

  lemma ManifestJsonIs(m: Manifest)
    ensures ManifestJson(m) == Obj(Fields(ManifestEntries(m)))
  {
    var es, rs := ManifestEntries(m), RuntimeEntries(m);
    FieldsFour(rs[0], rs[1], rs[2], rs[3]);
    FieldsFour(es[0], es[1], es[2], es[3]);
    assert rs == [rs[0], rs[1], rs[2], rs[3]] && es == [es[0], es[1], es[2], es[3]];
    hide Fields, FilesJson, AnimationsJson;
  }

  lemma ManifestKeys(m: Manifest)
    ensures DifferentKeys(ManifestEntries(m)) && DifferentKeys(RuntimeEntries(m))
  {
    assert |"format"| == 6 && |"schemaVersion"| == 13 && |"runtime"| == 7 && |"files"| == 5;
    assert |"defaultAnimation"| == 16 && |"portraitPath"| == 12 && |"iconPath"| == 8 && |"animations"| == 10;
  }

  lemma ManifestSays(m: Manifest)
    ensures Says(ManifestJson(m), m)
  {
    hide At, Fields, ManifestJson, FilesJson, AnimationsJson, SaysFile, SaysAnimation;
    var es, v := ManifestEntries(m), ManifestJson(m);
    ManifestKeys(m);
    ManifestJsonIs(m);
    AllAreThere(es);
    FilesSay(m.files);
    assert At(v, es[0].key) == es[0].value && At(v, es[1].key) == es[1].value && At(v, es[2].key) == es[2].value && At(v, es[3].key) == es[3].value;
    RuntimeSays(m);
  }

  lemma RuntimeSays(m: Manifest)
    ensures SaysRuntime(Obj(Fields(RuntimeEntries(m))), m)
  {
    hide At, Fields, AnimationsJson, SaysAnimation;
    var rs := RuntimeEntries(m);
    var runtime := Obj(Fields(rs));
    ManifestKeys(m);
    AllAreThere(rs);
    AnimationsSay(m.animations);
    assert At(runtime, rs[0].key) == rs[0].value && At(runtime, rs[1].key) == rs[1].value;
    assert At(runtime, rs[2].key) == rs[2].value && At(runtime, rs[3].key) == rs[3].value;
  }

  lemma FileStays(v: Json, w: Json, f: File)
    requires Same(v, w) && SaysFile(v, f)
    ensures SaysFile(w, f)
  {
    AtomStays(v, w, "relativePath");
    AtomStays(v, w, "category");
    AtomStays(v, w, "mimeType");
    AtomStays(v, w, "sizeBytes");
    AtomStays(v, w, "sha256");
    hide At;
  }

  lemma AnimationStays(v: Json, w: Json, a: Animation)
    requires Same(v, w) && SaysAnimation(v, a)
    ensures SaysAnimation(w, a)
  {
    hide At, SaysFrames;
    FramesStay(v, w, a);
    AtomStays(v, w, "name");
    AtomStays(v, w, "loop");
    AtomStays(v, w, "format");
    AtSame(v, w, "files");
  }

  lemma FramesStay(v: Json, w: Json, a: Animation)
    requires Same(v, w) && SaysFrames(v, a)
    ensures SaysFrames(w, a)
  {
    hide At, Same;
    AtomStays(v, w, "frameWidth");
    AtomStays(v, w, "frameHeight");
    AtomStays(v, w, "frameCount");
    AtomStays(v, w, "frameDurationMs");
  }

  lemma ManifestStays(v: Json, w: Json, m: Manifest)
    requires Same(v, w) && Says(v, m)
    ensures Says(w, m)
  {
    AtomStays(v, w, "format");
    AtomStays(v, w, "schemaVersion");
    AtSame(v, w, "runtime");
    AtSame(v, w, "files");
    var a, b := At(v, "runtime").value, At(w, "runtime").value;
    AtomStays(a, b, "defaultAnimation");
    AtomStays(a, b, "portraitPath");
    AtomStays(a, b, "iconPath");
    AtSame(a, b, "animations");
    var xs, ys := At(a, "animations").value, At(b, "animations").value;
    forall i | 0 <= i < |m.animations| ensures ys.Arr? && |ys.items| == |m.animations| && SaysAnimation(ys.items[i], m.animations[i]) {
      AnimationStays(xs.items[i], ys.items[i], m.animations[i]);
    }
    var fs, gs := At(v, "files").value, At(w, "files").value;
    forall i | 0 <= i < |m.files| ensures gs.Arr? && |gs.items| == |m.files| && SaysFile(gs.items[i], m.files[i]) {
      FileStays(fs.items[i], gs.items[i], m.files[i]);
    }
    hide At, SaysAnimation, SaysFile;
  }

  /** The canonical JSON of a manifest, read by the grammar and by its keys, says exactly what its canonical form is,
      with the keys of every object in ascending order. */
  lemma CanonicalJsonSays(env: Platform, m: Manifest)
    ensures var read := ReadText(CanonicalText(env, m)); read.Some? && Says(read.value, Canonical(env, m)) && Tidy(read.value)
  {
    var v := ManifestJson(Canonical(env, m));
    CanonicalIsRead(v);
    ManifestSays(Canonical(env, m));
    ManifestStays(v, ReadText(Text(v)).value, Canonical(env, m));
    hide Says, Tidy, Same, ReadText, Text, ManifestJson, Canonical;
  }
}
